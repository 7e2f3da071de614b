/**
 Why a guarded section counts as one step. Any number of processes take the steps of the
 lock-file protocol; one that is inside loads the manifest, looks for its slot, writes its blob
 and saves the manifest as separate steps, with everybody else's steps, failures and crashes in
 between. Whatever happens, the drawing goes through the stores of a run of whole operations.
 */
module GuardedRuns {
  import opened Prelude
  import opened Blobs
  import opened Checkout
  import opened LegacyStore
  import LegacyRuns
  import LockFile

  type Process = LockFile.Process
  type Op = LegacyRuns.Op

  /** How far a process inside has come with its operation, working on the manifest it loaded. */
  datatype Work =
    | Loaded(op: Op, now: int, manifest: Option<Manifest>)
    | Chosen(op: Op, now: int, manifest: Option<Manifest>, v: int)
    | Written(op: Op, now: int, manifest: Option<Manifest>, v: int, wrote: bool)  // or found there

  datatype State = State(lock: LockFile.State, store: Store, works: map<Process, Work>)

  const INITIAL := State(LockFile.INITIAL, EMPTY, map[])

  datatype Event =
    | Lock(e: LockFile.Event)
    | Load(p: Process, op: Op, now: int)
    | Choose(p: Process)
    | Write(p: Process)
    | Save(p: Process)

  predicate Publishes(op: Op) {
    op.Ingesting? || op.Putting?
  }

  predicate Enabled(s: State, e: Event) {
    match e
    case Lock(e) => LockFile.Enabled(s.lock, e)
    case Load(p, _, _) => LockFile.At(s.lock, p, {LockFile.Inside}) && p !in s.works
    case Choose(p) => p in s.works && s.works[p].Loaded? && Publishes(s.works[p].op)
    case Write(p) => p in s.works && s.works[p].Chosen? && Publishes(s.works[p].op)
    case Save(p) => p in s.works && if Publishes(s.works[p].op) then s.works[p].Written? else s.works[p].Loaded?
  }

  /** The slot a publication goes to, if its checks pass. */
  function SlotFor(blobs: map<int, Bytes>, m: Option<Manifest>, op: Op, now: int): Option<int>
    requires Publishes(op)
  {
    match op
    case Ingesting(_, _) => if m.None? && 1 !in blobs then Some(1) else None
    case Putting(data, parent, requireHead, claim, _) =>
      if m.None? || !Authorized(m.value.checkout, claim, now) || (requireHead && parent != Some(m.value.head)) then None
      else
        var slot := FindSlot(blobs, m.value.latest + 1, MAX_ABANDONED_VERSION_SLOTS, data);
        if slot.Ok? then Some(slot.value) else None
  }

  /** The manifest a publication saves over the one it loaded. */
  function Edited(m: Option<Manifest>, op: Op, v: int): Option<Manifest>
    requires Publishes(op)
  {
    match op
    case Ingesting(data, _) => Some(Manifest(1, 1, [Row(1, None, |data|, Sha256(data))], None, None))
    case Putting(data, parent, _, _, _) =>
      if m.None? then None
      else Some(m.value.(head := v, latest := v, versions := m.value.versions + [Row(v, parent, |data|, Sha256(data))]))
  }

  predicate Succeeds(r: Outcome) {
    r.Version? || r.Granted? || r.Released?
  }

  /** The other operations, on the loaded manifest alone. */
  ghost function OnManifest(w: Work): (Store, Outcome) {
    LegacyRuns.Step(Store(map[], w.manifest), LegacyRuns.Event(w.op, w.now))
  }

  /** What an operation that saves answers its caller. */
  ghost function AnswerOf(w: Work): Outcome {
    if w.Written? then Version(w.v) else OnManifest(w).1
  }

  ghost function Step(s: State, e: Event): State
    requires Enabled(s, e)
  {
    match e
    case Lock(e) => State(LockFile.Step(s.lock, e), s.store, s.works - {e.p})  // leaving or dying ends the work
    case Load(p, op, now) => s.(works := s.works[p := Loaded(op, now, s.store.manifest)])
    case Choose(p) =>
      var w := s.works[p];
      var v := SlotFor(s.store.blobs, w.manifest, w.op, w.now);
      s.(works := if v.None? then s.works - {p} else s.works[p := Chosen(w.op, w.now, w.manifest, v.value)])
    case Write(p) =>
      var w := s.works[p];
      State(s.lock, s.store.(blobs := s.store.blobs[w.v := w.op.data]),
            s.works[p := Written(w.op, w.now, w.manifest, w.v, w.v !in s.store.blobs)])
    case Save(p) =>
      var w := s.works[p];
      var saved := if w.Written? then Edited(w.manifest, w.op, w.v) else OnManifest(w).0.manifest;
      State(s.lock, if Succeeds(AnswerOf(w)) then s.store.(manifest := saved) else s.store, s.works - {p})
  }

  ghost predicate IsRun(ss: seq<State>, es: seq<Event>) {
    && |ss| == |es| + 1
    && ss[0] == INITIAL
    && forall i | 0 <= i < |es| :: Enabled(ss[i], es[i]) && ss[i + 1] == Step(ss[i], es[i])
  }

  // The store without the blob of a publication that has yet to save.

  function Before(store: Store, w: Work): Store
    requires w.Written?
  {
    store.(blobs := if w.wrote then store.blobs - {w.v} else store.blobs)
  }

  ghost function Settled(s: State): Store {
    if p :| p in s.works && s.works[p].Written? then Before(s.store, s.works[p]) else s.store
  }

  // Every step keeps: whoever works is alone inside and has the current manifest.

  ghost predicate GoodWork(store: Store, w: Work) {
    && w.manifest == store.manifest
    && (w.Chosen? ==> Publishes(w.op) && SlotFor(store.blobs, w.manifest, w.op, w.now) == Some(w.v))
    && (w.Written? ==>
          && Publishes(w.op) && w.v in store.blobs && store.blobs[w.v] == w.op.data
          && SlotFor(Before(store, w).blobs, w.manifest, w.op, w.now) == Some(w.v))
  }

  ghost predicate Inv(s: State) {
    && LockFile.Inv(s.lock)
    && (forall p | p in s.works :: LockFile.At(s.lock, p, {LockFile.Inside}) && GoodWork(s.store, s.works[p]))
  }

  lemma OneWorker(s: State, p: Process, q: Process)
    requires Inv(s) && p in s.works && LockFile.InSection(s.lock, q)
    ensures p == q
  {
    assert LockFile.InSection(s.lock, p);
    assert s.lock.handles[p].inode == s.lock.handles[q].inode;
  }

  lemma SettledIs(s: State, p: Process)
    requires Inv(s) && p in s.works
    ensures Settled(s) == if s.works[p].Written? then Before(s.store, s.works[p]) else s.store
  {
    forall q | q in s.works ensures q == p {
      OneWorker(s, p, q);
    }
  }

  lemma LockStepSpares(s: LockFile.State, e: LockFile.Event, q: Process)
    requires LockFile.Enabled(s, e) && e.p != q && q in s.handles
    ensures q in LockFile.Step(s, e).handles && LockFile.Step(s, e).handles[q] == s.handles[q]
  {
  }

  lemma LockKeepsInv(s: State, e: LockFile.Event)
    requires Inv(s) && LockFile.Enabled(s.lock, e)
    ensures Inv(Step(s, Lock(e)))
  {
    LockFile.StepKeepsInv(s.lock, e);
    var s' := Step(s, Lock(e));
    forall q | q in s'.works ensures LockFile.At(s'.lock, q, {LockFile.Inside}) && GoodWork(s'.store, s'.works[q]) {
      LockStepSpares(s.lock, e, q);
    }
  }

  lemma WorksAlone(s: State, p: Process)
    requires Inv(s) && p in s.works
    ensures s.works == map[p := s.works[p]]
  {
    forall q | q in s.works ensures q == p {
      OneWorker(s, p, q);
    }
  }

  lemma SlotHolds(blobs: map<int, Bytes>, m: Option<Manifest>, op: Op, now: int)
    requires Publishes(op) && SlotFor(blobs, m, op, now).Some?
    ensures Usable(blobs, SlotFor(blobs, m, op, now).value, op.data)
  {
    if op.Putting? {
      var v := SlotFor(blobs, m, op, now).value;
      LegacyRuns.SlotIsFirstUsable(blobs, m.value.latest + 1, MAX_ABANDONED_VERSION_SLOTS, op.data, v);
    }
  }

  lemma WriteKeepsWork(store: Store, w: Work)
    requires w.Chosen? && GoodWork(store, w)
    ensures var written := Written(w.op, w.now, w.manifest, w.v, w.v !in store.blobs);
            var after := store.(blobs := store.blobs[w.v := w.op.data]);
            GoodWork(after, written) && Before(after, written) == store
  {
    SlotHolds(store.blobs, w.manifest, w.op, w.now);
    var after := store.blobs[w.v := w.op.data];
    if w.v !in store.blobs {
      assert after - {w.v} == store.blobs;
    } else {
      assert after == store.blobs;
    }
  }

  lemma WorkKeepsInv(s: State, e: Event)
    requires Inv(s) && Enabled(s, e) && (e.Choose? || e.Write? || e.Save?)
    ensures Inv(Step(s, e))
  {
    WorksAlone(s, e.p);
    if e.Write? {
      WriteKeepsWork(s.store, s.works[e.p]);
    }
  }

  lemma LoadKeepsInv(s: State, p: Process, op: Op, now: int)
    requires Inv(s) && Enabled(s, Load(p, op, now))
    ensures Inv(Step(s, Load(p, op, now))) && s.works == map[]
  {
    forall q | q in s.works ensures false {
      OneWorker(s, q, p);
    }
  }

  lemma StepKeepsInv(s: State, e: Event)
    requires Inv(s) && Enabled(s, e)
    ensures Inv(Step(s, e))
  {
    match e
    case Lock(l) => LockKeepsInv(s, l);
    case Load(p, op, now) => LoadKeepsInv(s, p, op, now);
    case _ => WorkKeepsInv(s, e);
  }

  lemma {:induction false} RunKeepsInv(ss: seq<State>, es: seq<Event>, k: nat)
    requires IsRun(ss, es) && k < |ss|
    ensures Inv(ss[k])
  {
    if k == 0 {
      assert ss[0] == INITIAL;
    } else {
      RunKeepsInv(ss, es, k - 1);
      StepKeepsInv(ss[k - 1], es[k - 1]);
    }
  }

  // Every step is a whole operation, or none, on the settled store.

  function WithStops(op: Op, stops: bool): Op
    requires Publishes(op)
  {
    op.(stops := stops)
  }

  /** The publication as a whole, completed or stopped after its blob. */
  lemma PublicationIs(store: Store, w: Work, stops: bool)
    requires w.Written? && GoodWork(store, w)
    ensures var (after, answer) := LegacyRuns.Step(Before(store, w), LegacyRuns.Event(WithStops(w.op, stops), w.now));
            if stops then after == store
            else after == store.(manifest := Edited(w.manifest, w.op, w.v)) && answer == Version(w.v)
  {
    var before := Before(store, w);
    assert before.blobs[w.v := w.op.data] == store.blobs;
  }

  /** A publication chooses a slot exactly when the whole operation would answer with that version. */
  lemma SlotForIff(store: Store, op: Op, now: int, v: int)
    requires Publishes(op)
    ensures SlotFor(store.blobs, store.manifest, op, now) == Some(v)
       <==> LegacyRuns.Step(store, LegacyRuns.Event(WithStops(op, false), now)).1 == Version(v)
  {
  }

  /** The other operations do not look at the blobs. */
  lemma ManifestAlone(store: Store, w: Work)
    requires w.Loaded? && !Publishes(w.op) && GoodWork(store, w)
    ensures var (after, answer) := LegacyRuns.Step(store, LegacyRuns.Event(w.op, w.now));
            && answer == AnswerOf(w)
            && after == if Succeeds(answer) then store.(manifest := OnManifest(w).0.manifest) else store
  {
  }

  function WholeOp(w: Work): LegacyRuns.Event {
    LegacyRuns.Event(if Publishes(w.op) then WithStops(w.op, false) else w.op, w.now)
  }

  /** A save is a whole operation of the caller, with the answer the caller gets. */
  lemma SaveIsWhole(s: State, p: Process)
    requires Inv(s) && Enabled(s, Save(p))
    ensures var (after, answer) := LegacyRuns.Step(Settled(s), WholeOp(s.works[p]));
            Settled(Step(s, Save(p))) == after && AnswerOf(s.works[p]) == answer
  {
    var w := s.works[p];
    WorksAlone(s, p);
    SettledIs(s, p);
    assert Step(s, Save(p)).works == map[];
    if w.Written? {
      PublicationIs(s.store, w, false);
    } else {
      ManifestAlone(s.store, w);
    }
  }

  /** Ending a publication after its blob is an operation that stopped there; ending any other work is none. */
  lemma LockIsStop(s: State, e: LockFile.Event) returns (whole: Option<LegacyRuns.Event>)
    requires Inv(s) && LockFile.Enabled(s.lock, e)
    ensures Settled(Step(s, Lock(e)))
         == if whole.None? then Settled(s) else LegacyRuns.Step(Settled(s), whole.value).0
  {
    whole := None;
    var s' := Step(s, Lock(e));
    if e.p in s.works {
      WorksAlone(s, e.p);
      SettledIs(s, e.p);
      assert s'.works == map[];
      var w := s.works[e.p];
      if w.Written? {
        PublicationIs(s.store, w, true);
        whole := Some(LegacyRuns.Event(WithStops(w.op, true), w.now));
      }
    } else {
      assert s'.works == s.works;
    }
  }

  lemma OtherStepsAreNone(s: State, e: Event)
    requires Inv(s) && Enabled(s, e) && (e.Load? || e.Choose? || e.Write?)
    ensures Settled(Step(s, e)) == Settled(s)
  {
    StepKeepsInv(s, e);
    if e.Load? {
      LoadKeepsInv(s, e.p, e.op, e.now);
      SettledIs(Step(s, e), e.p);
    } else {
      SettledIs(s, e.p);
      WorksAlone(s, e.p);
      if e.Write? {
        WriteKeepsWork(s.store, s.works[e.p]);
        SettledIs(Step(s, e), e.p);
      } else if e.p in Step(s, e).works {
        SettledIs(Step(s, e), e.p);
      } else {
        assert Step(s, e).works == map[];
      }
    }
  }

  lemma StepIsWhole(s: State, e: Event) returns (whole: Option<LegacyRuns.Event>)
    requires Inv(s) && Enabled(s, e)
    ensures Settled(Step(s, e)) == if whole.None? then Settled(s) else LegacyRuns.Step(Settled(s), whole.value).0
  {
    match e {
      case Lock(l) => whole := LockIsStop(s, l);
      case Save(p) =>
        SaveIsWhole(s, p);
        whole := Some(WholeOp(s.works[p]));
      case _ =>
        OtherStepsAreNone(s, e);
        whole := None;
    }
  }

  /** A run of whole operations visits the settled stores of the first k steps, in their order. */
  ghost predicate Follows(whole: seq<Store>, ops: seq<LegacyRuns.Event>, at: seq<nat>, ss: seq<State>, k: nat)
    requires k < |ss|
  {
    && LegacyRuns.IsRun(whole, ops) && |at| == k + 1 && at[k] == |ops|
    && (forall i | 0 <= i <= k :: at[i] <= |ops| && whole[at[i]] == Settled(ss[i]))
    && (forall i | 0 <= i < k :: at[i] <= at[i + 1] <= at[i] + 1)
  }

  lemma FollowsOn(whole: seq<Store>, ops: seq<LegacyRuns.Event>, at: seq<nat>, ss: seq<State>, k: nat,
                  next: Option<LegacyRuns.Event>)
      returns (whole': seq<Store>, ops': seq<LegacyRuns.Event>, at': seq<nat>)
    requires k + 1 < |ss| && Follows(whole, ops, at, ss, k)
    requires Settled(ss[k + 1])
          == if next.None? then Settled(ss[k]) else LegacyRuns.Step(Settled(ss[k]), next.value).0
    ensures Follows(whole', ops', at', ss, k + 1)
  {
    if next.None? {
      whole', ops', at' := whole, ops, at + [|ops|];
    } else {
      whole', ops', at' := whole + [Settled(ss[k + 1])], ops + [next.value], at + [|ops| + 1];
    }
  }

  /** Sections are atomic: the settled stores of every interleaved run, in their order, are the
      stores of a run of whole operations. */
  lemma {:induction false} SectionsAreAtomic(ss: seq<State>, es: seq<Event>, k: nat)
      returns (whole: seq<Store>, ops: seq<LegacyRuns.Event>, at: seq<nat>)
    requires IsRun(ss, es) && k < |ss|
    ensures Follows(whole, ops, at, ss, k)
  {
    if k == 0 {
      whole, ops, at := [EMPTY], [], [0];
      assert Settled(ss[0]) == EMPTY;
    } else {
      whole, ops, at := SectionsAreAtomic(ss, es, k - 1);
      RunKeepsInv(ss, es, k - 1);
      var next := StepIsWhole(ss[k - 1], es[k - 1]);
      whole, ops, at := FollowsOn(whole, ops, at, ss, k - 1, next);
    }
  }

  lemma ReachableNext(s: Store, e: LegacyRuns.Event)
    requires LegacyRuns.Reachable(s)
    ensures LegacyRuns.Reachable(LegacyRuns.Step(s, e).0)
  {
    var ss, es :| LegacyRuns.IsRun(ss, es) && ss[|es|] == s;
    var ss', es' := ss + [LegacyRuns.Step(s, e).0], es + [e];
    assert LegacyRuns.IsRun(ss', es') && ss'[|es'|] == LegacyRuns.Step(s, e).0;
  }

  /** So whatever holds after every run of whole operations holds of the drawing at every moment,
      also between the writes of a section. */
  lemma EveryStoreIsReachable(ss: seq<State>, es: seq<Event>, k: nat)
    requires IsRun(ss, es) && k < |ss|
    ensures LegacyRuns.Reachable(ss[k].store)
  {
    var whole, ops, at := SectionsAreAtomic(ss, es, k);
    assert LegacyRuns.IsRun(whole, ops) && whole[|ops|] == Settled(ss[k]);
    RunKeepsInv(ss, es, k);
    if p :| p in ss[k].works && ss[k].works[p].Written? {
      var w := ss[k].works[p];
      SettledIs(ss[k], p);
      PublicationIs(ss[k].store, w, true);
      ReachableNext(Settled(ss[k]), LegacyRuns.Event(WithStops(w.op, true), w.now));
    }
  }
}
