/** Every interleaving of the PostgreSQL authority's transactions, blob writes and crashes. */
module PgRuns {
  import opened Prelude
  import opened Blobs
  import opened Checkout
  import opened VersionChain
  import opened PgStore

  type WriterId = nat

  /** How far a writer has come since its reservation. */
  datatype Stage =
    | Claimed  // reserved, nothing stored
    | Checked  // found its key free
    | Stored   // blob written
    | Failing  // upload raised; the reservation is yet to be orphaned

  datatype Writer =
    | Ingester(data: Bytes, token: nat, stage: Stage)
    | Publisher(data: Bytes, ticket: Ticket, stage: Stage)

  datatype State = State(tables: Tables, blobs: map<int, Bytes>, writers: map<WriterId, Writer>)

  const INITIAL := State(Tables(None, map[]), map[], map[])

  datatype Event =
    | BeginIngest(w: WriterId, data: Bytes, token: nat, now: int)
    | StoreFirst(w: WriterId)
    | EndIngest(w: WriterId, now: int)
    | BeginPut(w: WriterId, data: Bytes, parent: Option<int>, claim: Claim, now: int)
    | CheckKey(w: WriterId)
    | StoreBlob(w: WriterId)
    | UploadFails(w: WriterId, stored: bool)  // raised before or after the object was in place
    | OrphanPut(w: WriterId)
    | EndPut(w: WriterId, now: int)
    | Crash(w: WriterId)
    | TakeCheckout(holder: string, ttl: int, expected: Option<int>, strict: bool, now: int)
    | DropCheckout(named: Option<string>, expected: Option<int>, now: int)
    | UndoMove(claim: Claim, now: int)
    | RedoMove(claim: Claim, now: int)

  predicate IngesterAt(s: State, w: WriterId, stage: Stage) {
    w in s.writers && s.writers[w].Ingester? && s.writers[w].stage == stage
  }

  predicate PublisherAt(s: State, w: WriterId, stages: set<Stage>) {
    w in s.writers && s.writers[w].Publisher? && s.writers[w].stage in stages
  }

  predicate Enabled(s: State, e: Event) {
    match e
    case BeginIngest(w, _, _, _) => w !in s.writers
    case StoreFirst(w) => IngesterAt(s, w, Claimed)
    case EndIngest(w, _) => IngesterAt(s, w, Stored)
    case BeginPut(w, _, _, _, _) => w !in s.writers
    case CheckKey(w) => PublisherAt(s, w, {Claimed})
    case StoreBlob(w) => PublisherAt(s, w, {Checked})
    case UploadFails(w, stored) => PublisherAt(s, w, if stored then {Checked, Stored} else {Claimed, Checked})
    case OrphanPut(w) => PublisherAt(s, w, {Failing})
    case EndPut(w, _) => PublisherAt(s, w, {Stored})
    case Crash(w) => w in s.writers
    case _ => true
  }

  function Advance(s: State, w: WriterId, stage: Stage): State
    requires w in s.writers
  {
    s.(writers := s.writers[w := s.writers[w].(stage := stage)])
  }

  function Quit(s: State, w: WriterId): State {
    s.(writers := s.writers - {w})
  }

  ghost function Step(s: State, e: Event): State
    requires Enabled(s, e)
  {
    match e
    case BeginIngest(w, data, token, now) =>
      var (t, r) := IngestReserve(s.tables, data, token, now);
      if r.Err? then s else s.(tables := t, writers := s.writers[w := Ingester(data, token, Claimed)])
    case StoreFirst(w) =>  // created once, or verified against what is there
      var data := s.writers[w].data;
      if 1 in s.blobs && s.blobs[1] != data then Quit(s, w)
      else Advance(s.(blobs := s.blobs[1 := data]), w, Stored)
    case EndIngest(w, now) => Quit(s.(tables := IngestFinalize(s.tables, s.writers[w].token, now).0), w)
    case BeginPut(w, data, parent, claim, now) =>
      var (t, r) := Reserve(s.tables, data, parent, claim, now);
      if r.Err? then s else s.(tables := t, writers := s.writers[w := Publisher(data, r.value, Claimed)])
    case CheckKey(w) =>
      Advance(s, w, if s.writers[w].ticket.version in s.blobs then Failing else Checked)
    case StoreBlob(w) =>
      Advance(s.(blobs := s.blobs[s.writers[w].ticket.version := s.writers[w].data]), w, Stored)
    case UploadFails(w, stored) =>
      Advance(if stored then s.(blobs := s.blobs[s.writers[w].ticket.version := s.writers[w].data]) else s, w, Failing)
    case OrphanPut(w) => Quit(s.(tables := MarkOrphaned(s.tables, s.writers[w].ticket.version)), w)
    case EndPut(w, now) => Quit(s.(tables := Finalize(s.tables, s.writers[w].ticket, now).0), w)
    case Crash(w) => Quit(s, w)
    case TakeCheckout(holder, ttl, expected, strict, now) =>
      s.(tables := Acquire(s.tables, holder, ttl, expected, strict, now).0)
    case DropCheckout(named, expected, now) => s.(tables := Release(s.tables, named, expected, now).0)
    case UndoMove(claim, now) => s.(tables := Undo(s.tables, claim, now).0)
    case RedoMove(claim, now) => s.(tables := Redo(s.tables, claim, now).0)
  }

  // What holds in every reachable state.

  predicate Matches(row: VersionRow, data: Bytes) {
    row.bytes == |data| && row.sha256 == Sha256(data)
  }

  ghost predicate GoodTables(t: Tables) {
    if t.manifest.None? then t.versions == map[]
    else
      var m := t.manifest.value;
      && m.latest >= 1 && m.fence >= 0
      && (forall v :: v in t.versions <==> 1 <= v <= m.latest)
      && t.versions[1].parent.None?
      && (forall v | v in t.versions && v != 1 ::
            && t.versions[v].parent.Some? && t.versions[v].parent.value < v
            && IsReady(t.versions, t.versions[v].parent.value))
      && (if m.head.Some? then IsReady(t.versions, m.head.value)
          else m.latest == 1 && t.versions[1].state == Reserved)
  }

  /** Blobs exist only for version rows, and a ready version's blob is the one its row describes. */
  ghost predicate GoodBlobs(t: Tables, blobs: map<int, Bytes>) {
    && (forall v | v in blobs :: v in t.versions)
    && (1 in blobs ==> Matches(t.versions[1], blobs[1]))
    && (forall v | IsReady(t.versions, v) :: v in blobs && Matches(t.versions[v], blobs[v]))
  }

  ghost predicate GoodPublisher(s: State, p: Writer)
    requires p.Publisher?
  {
    var v := p.ticket.version;
    && v in s.tables.versions && v != 1
    && s.tables.versions[v].state == Reserved
    && s.tables.versions[v].parent == Some(p.ticket.expected)
    && Matches(s.tables.versions[v], p.data)
    && s.tables.manifest.Some? && p.ticket.fence <= s.tables.manifest.value.fence
    && (p.stage in {Claimed, Checked} ==> v !in s.blobs)
    && (p.stage == Stored ==> v in s.blobs && s.blobs[v] == p.data)
  }

  ghost predicate GoodIngester(s: State, p: Writer)
    requires p.Ingester?
  {
    && 1 in s.tables.versions && Matches(s.tables.versions[1], p.data)
    && (p.stage == Stored ==> 1 in s.blobs)
  }

  ghost predicate GoodWriters(s: State) {
    && (forall w | w in s.writers ::
          if s.writers[w].Publisher? then GoodPublisher(s, s.writers[w]) else GoodIngester(s, s.writers[w]))
    && (forall w, u | w in s.writers && u in s.writers && w != u
                      && s.writers[w].Publisher? && s.writers[u].Publisher? ::
          s.writers[w].ticket.version != s.writers[u].ticket.version)
  }

  ghost predicate Inv(s: State) {
    GoodTables(s.tables) && GoodBlobs(s.tables, s.blobs) && GoodWriters(s)
  }

  /** How a transaction may change the tables without upsetting anyone else: rows and
      their contents stay, ready stays ready, the lease generation never falls. */
  predicate Grows(t: Tables, t': Tables) {
    && (t.manifest.Some? ==> t'.manifest.Some? && t.manifest.value.fence <= t'.manifest.value.fence)
    && (forall v | v in t.versions ::
          && v in t'.versions
          && t'.versions[v].parent == t.versions[v].parent
          && t'.versions[v].bytes == t.versions[v].bytes
          && t'.versions[v].sha256 == t.versions[v].sha256
          && (t.versions[v].state == Ready ==> t'.versions[v].state == Ready))
  }

  lemma ReserveGrows(t: Tables, data: Bytes, parent: Option<int>, claim: Claim, now: int)
    requires GoodTables(t)
    ensures Grows(t, Reserve(t, data, parent, claim, now).0)
  {
  }

  lemma FinalizeGrows(t: Tables, k: Ticket, now: int)
    ensures Grows(t, MarkOrphaned(t, k.version))
    ensures Grows(t, Finalize(t, k, now).0)
  {
  }

  lemma IngestGrows(t: Tables, data: Bytes, token: nat, now: int)
    requires GoodTables(t)
    ensures Grows(t, IngestReserve(t, data, token, now).0)
    ensures Grows(t, IngestFinalize(t, token, now).0)
  {
  }

  lemma StepGrows(s: State, e: Event)
    requires GoodTables(s.tables) && Enabled(s, e)
    ensures Grows(s.tables, Step(s, e).tables)
  {
    match e
    case BeginIngest(_, data, token, now) => IngestGrows(s.tables, data, token, now);
    case EndIngest(w, now) => IngestGrows(s.tables, s.writers[w].data, s.writers[w].token, now);
    case BeginPut(_, data, parent, claim, now) => ReserveGrows(s.tables, data, parent, claim, now);
    case OrphanPut(w) => FinalizeGrows(s.tables, s.writers[w].ticket, 0);
    case EndPut(w, now) => FinalizeGrows(s.tables, s.writers[w].ticket, now);
    case _ =>
  }

  // Every step keeps the invariant.

  lemma QuitKeepsInv(s: State, w: WriterId)
    requires Inv(s)
    ensures Inv(Quit(s, w))
  {
  }

  lemma AdvanceKeepsInv(s: State, w: WriterId, stage: Stage)
    requires Inv(s) && w in s.writers && s.writers[w].Publisher?
    requires stage == Failing || (stage == Checked && s.writers[w].ticket.version !in s.blobs)
    ensures Inv(Advance(s, w, stage))
  {
  }

  lemma StoreBlobKeepsInv(s: State, w: WriterId)
    requires Inv(s) && PublisherAt(s, w, {Checked})
    ensures Inv(Step(s, StoreBlob(w)))
  {
    var s' := Step(s, StoreBlob(w));
    assert GoodBlobs(s'.tables, s'.blobs);
    forall u | u in s'.writers
      ensures if s'.writers[u].Publisher? then GoodPublisher(s', s'.writers[u]) else GoodIngester(s', s'.writers[u])
    {
    }
  }

  lemma UploadFailsKeepsInv(s: State, w: WriterId, stored: bool)
    requires Inv(s) && Enabled(s, UploadFails(w, stored))
    ensures Inv(Step(s, UploadFails(w, stored)))
  {
    if stored && s.writers[w].stage == Checked {
      StoreBlobKeepsInv(s, w);
      var s1 := Step(s, StoreBlob(w));
      AdvanceKeepsInv(s1, w, Failing);
      assert Advance(s1, w, Failing) == Step(s, UploadFails(w, stored));
    } else {
      AdvanceKeepsInv(s, w, Failing);
      assert stored ==> s.blobs[s.writers[w].ticket.version := s.writers[w].data] == s.blobs;
    }
  }

  lemma BeginIngestKeepsInv(s: State, w: WriterId, data: Bytes, token: nat, now: int)
    requires Inv(s) && w !in s.writers
    ensures Inv(Step(s, BeginIngest(w, data, token, now)))
  {
  }

  lemma StoreFirstKeepsInv(s: State, w: WriterId)
    requires Inv(s) && IngesterAt(s, w, Claimed)
    ensures Inv(Step(s, StoreFirst(w)))
  {
    if 1 in s.blobs && s.blobs[1] != s.writers[w].data {
      QuitKeepsInv(s, w);
    } else {
      var s' := Step(s, StoreFirst(w));
      assert GoodBlobs(s'.tables, s'.blobs);
      forall u | u in s'.writers
        ensures if s'.writers[u].Publisher? then GoodPublisher(s', s'.writers[u]) else GoodIngester(s', s'.writers[u])
      {
      }
    }
  }

  lemma EndIngestKeepsInv(s: State, w: WriterId, now: int)
    requires Inv(s) && IngesterAt(s, w, Stored)
    ensures Inv(Step(s, EndIngest(w, now)))
  {
  }

  lemma ReserveKeepsGood(t: Tables, data: Bytes, parent: Option<int>, claim: Claim, now: int)
    requires GoodTables(t) && Reserve(t, data, parent, claim, now).1.Ok?
    ensures GoodTables(Reserve(t, data, parent, claim, now).0)
    ensures Reserve(t, data, parent, claim, now).1.value.version !in t.versions
  {
  }

  lemma BeginPutKeepsInv(s: State, w: WriterId, data: Bytes, parent: Option<int>, claim: Claim, now: int)
    requires Inv(s) && w !in s.writers
    ensures Inv(Step(s, BeginPut(w, data, parent, claim, now)))
  {
    var (t, r) := Reserve(s.tables, data, parent, claim, now);
    if r.Ok? {
      ReserveKeepsGood(s.tables, data, parent, claim, now);
      var s' := Step(s, BeginPut(w, data, parent, claim, now));
      assert GoodBlobs(t, s.blobs);
      assert GoodPublisher(s', s'.writers[w]);
    }
  }

  predicate Owned(s: State, v: int) {
    exists w | w in s.writers :: s.writers[w].Publisher? && s.writers[w].ticket.version == v
  }

  lemma OrphanKeepsReady(t: Tables, v: int, u: int)
    ensures IsReady(MarkOrphaned(t, v).versions, u) <==> IsReady(t.versions, u)
  {
  }

  lemma OrphanKeepsTables(t: Tables, v: int)
    requires GoodTables(t) && v != 1
    ensures GoodTables(MarkOrphaned(t, v))
  {
    forall u ensures IsReady(MarkOrphaned(t, v).versions, u) <==> IsReady(t.versions, u) {
      OrphanKeepsReady(t, v, u);
    }
  }

  lemma OrphanKeepsBlobs(t: Tables, blobs: map<int, Bytes>, v: int)
    requires GoodBlobs(t, blobs) && v != 1
    ensures GoodBlobs(MarkOrphaned(t, v), blobs)
  {
    forall u ensures IsReady(MarkOrphaned(t, v).versions, u) <==> IsReady(t.versions, u) {
      OrphanKeepsReady(t, v, u);
    }
  }

  /** A reserved version no writer has any more may be orphaned. */
  lemma RestateKeepsInv(s: State, v: int)
    requires Inv(s) && !Owned(s, v) && v != 1
    ensures Inv(s.(tables := MarkOrphaned(s.tables, v)))
  {
    OrphanKeepsTables(s.tables, v);
    OrphanKeepsBlobs(s.tables, s.blobs, v);
    var s' := s.(tables := MarkOrphaned(s.tables, v));
    forall w | w in s.writers
      ensures if s.writers[w].Publisher? then GoodPublisher(s', s.writers[w]) else GoodIngester(s', s.writers[w])
    {
    }
  }

  lemma OrphanKeepsInv(s: State, w: WriterId)
    requires Inv(s) && PublisherAt(s, w, {Failing, Stored})
    ensures Inv(Quit(s.(tables := MarkOrphaned(s.tables, s.writers[w].ticket.version)), w))
  {
    QuitKeepsInv(s, w);
    RestateKeepsInv(Quit(s, w), s.writers[w].ticket.version);
  }

  lemma FinalizeKeepsGood(t: Tables, k: Ticket, now: int)
    requires GoodTables(t) && StillOwns(t, k, now)
    requires k.version in t.versions && t.versions[k.version].state == Reserved
    ensures GoodTables(Finalize(t, k, now).0)
  {
  }

  lemma EndPutKeepsInv(s: State, w: WriterId, now: int)
    requires Inv(s) && PublisherAt(s, w, {Stored})
    ensures Inv(Step(s, EndPut(w, now)))
  {
    var k := s.writers[w].ticket;
    if StillOwns(s.tables, k, now) {
      QuitKeepsInv(s, w);
      FinalizeKeepsGood(s.tables, k, now);
      var s' := Step(s, EndPut(w, now));
      assert GoodBlobs(s'.tables, s'.blobs);
      assert GoodWriters(s');
    } else {
      OrphanKeepsInv(s, w);
    }
  }

  lemma MoveKeepsInv(s: State, m: ManifestRow)
    requires Inv(s) && s.tables.manifest.Some?
    requires m.latest == s.tables.manifest.value.latest && m.fence >= s.tables.manifest.value.fence
    requires if m.head.Some? then IsReady(s.tables.versions, m.head.value) else s.tables.manifest.value.head.None?
    ensures Inv(s.(tables := s.tables.(manifest := Some(m))))
  {
  }

  lemma HeadMoveKeepsInv(s: State, e: Event)
    requires Inv(s) && (e.TakeCheckout? || e.DropCheckout? || e.UndoMove? || e.RedoMove?)
    ensures Inv(Step(s, e))
  {
    if s.tables.manifest.Some? && Step(s, e) != s {
      MoveKeepsInv(s, Step(s, e).tables.manifest.value);
    }
  }

  lemma StepKeepsInv(s: State, e: Event)
    requires Inv(s) && Enabled(s, e)
    ensures Inv(Step(s, e))
  {
    match e
    case BeginIngest(w, data, token, now) => BeginIngestKeepsInv(s, w, data, token, now);
    case StoreFirst(w) => StoreFirstKeepsInv(s, w);
    case EndIngest(w, now) => EndIngestKeepsInv(s, w, now);
    case BeginPut(w, data, parent, claim, now) => BeginPutKeepsInv(s, w, data, parent, claim, now);
    case CheckKey(w) => AdvanceKeepsInv(s, w, Checked);
    case StoreBlob(w) => StoreBlobKeepsInv(s, w);
    case UploadFails(w, stored) => UploadFailsKeepsInv(s, w, stored);
    case OrphanPut(w) => OrphanKeepsInv(s, w);
    case EndPut(w, now) => EndPutKeepsInv(s, w, now);
    case Crash(w) => QuitKeepsInv(s, w);
    case _ => HeadMoveKeepsInv(s, e);
  }

  // Whole runs.

  ghost predicate IsRun(ss: seq<State>, es: seq<Event>) {
    && |ss| == |es| + 1
    && ss[0] == INITIAL
    && forall i | 0 <= i < |es| :: Enabled(ss[i], es[i]) && ss[i + 1] == Step(ss[i], es[i])
  }

  lemma {:induction false} RunKeepsInv(ss: seq<State>, es: seq<Event>, k: nat)
    requires IsRun(ss, es) && k < |ss|
    ensures Inv(ss[k])
  {
    if k > 0 {
      RunKeepsInv(ss, es, k - 1);
      StepKeepsInv(ss[k - 1], es[k - 1]);
    }
  }

  lemma {:induction false} RunGrows(ss: seq<State>, es: seq<Event>, i: nat, k: nat)
    requires IsRun(ss, es) && i <= k < |ss|
    ensures Grows(ss[i].tables, ss[k].tables)
    decreases k
  {
    if i < k {
      RunGrows(ss, es, i, k - 1);
      RunKeepsInv(ss, es, k - 1);
      StepGrows(ss[k - 1], es[k - 1]);
    }
  }

  /** Head is always a ready version, every ready version's blob is stored as its row
      records it, and its parent is a smaller ready version; only version 1 has none. */
  lemma HeadIsReadyAndStored(ss: seq<State>, es: seq<Event>, k: nat)
    requires IsRun(ss, es) && k < |ss|
    ensures var t := ss[k].tables;
            t.manifest.Some? && t.manifest.value.head.Some? ==> IsReady(t.versions, t.manifest.value.head.value)
    ensures var (t, blobs) := (ss[k].tables, ss[k].blobs);
            forall v | IsReady(t.versions, v) ::
              && v in blobs && |blobs[v]| == t.versions[v].bytes && Sha256(blobs[v]) == t.versions[v].sha256
              && (v == 1 <==> t.versions[v].parent.None?)
              && (v != 1 ==> t.versions[v].parent.value < v && IsReady(t.versions, t.versions[v].parent.value))
  {
    RunKeepsInv(ss, es, k);
  }

  /** The version the put that begins at step i reserves, if it reserves one. */
  ghost predicate ReservesAt(ss: seq<State>, es: seq<Event>, i: nat, w: WriterId, k: Ticket)
    requires IsRun(ss, es)
  {
    && i < |es| && es[i].BeginPut? && es[i].w == w
    && Reserve(ss[i].tables, es[i].data, es[i].parent, es[i].claim, es[i].now).1 == Ok(k)
  }

  lemma ReservedVersionIsNew(ss: seq<State>, es: seq<Event>, i: nat, w: WriterId, k: Ticket)
    requires IsRun(ss, es) && ReservesAt(ss, es, i, w, k)
    ensures k.version == ss[i].tables.manifest.value.latest + 1 && k.version !in ss[i].tables.versions
    ensures k.version in ss[i + 1].tables.versions
  {
    RunKeepsInv(ss, es, i);
  }

  /** No version number is ever handed out twice, and what a row records of a version never changes. */
  lemma VersionsAreNeverReused(ss: seq<State>, es: seq<Event>, i: nat, w: WriterId, a: Ticket,
                               j: nat, u: WriterId, b: Ticket)
    requires IsRun(ss, es) && i < j && ReservesAt(ss, es, i, w, a) && ReservesAt(ss, es, j, u, b)
    ensures a.version < b.version
    ensures Grows(ss[i + 1].tables, ss[j].tables)
  {
    ReservedVersionIsNew(ss, es, i, w, a);
    ReservedVersionIsNew(ss, es, j, u, b);
    RunGrows(ss, es, i + 1, j);
    RunKeepsInv(ss, es, j);
  }

  /** Every writer at work got its ticket from a reservation of its own earlier in the run. */
  lemma {:induction false} TicketOrigin(ss: seq<State>, es: seq<Event>, k: nat, w: WriterId) returns (i: nat)
    requires IsRun(ss, es) && k < |ss| && w in ss[k].writers && ss[k].writers[w].Publisher?
    ensures i < k && ReservesAt(ss, es, i, w, ss[k].writers[w].ticket)
  {
    assert k > 0;
    var before, e := ss[k - 1], es[k - 1];
    if w in before.writers {
      assert before.writers[w].Publisher? && before.writers[w].ticket == ss[k].writers[w].ticket;
      i := TicketOrigin(ss, es, k - 1, w);
    } else {
      i := k - 1;
    }
  }

  lemma ReadyCause(s: State, e: Event, v: int)
    requires Inv(s) && Enabled(s, e) && v != 1
    requires !IsReady(s.tables.versions, v) && IsReady(Step(s, e).tables.versions, v)
    ensures e.EndPut? && s.writers[e.w].ticket.version == v && StillOwns(s.tables, s.writers[e.w].ticket, e.now)
  {
  }

  function HeadOf(s: State): Option<int> {
    if s.tables.manifest.None? then None else s.tables.manifest.value.head
  }

  function FenceOf(s: State): int {
    if s.tables.manifest.None? then 0 else s.tables.manifest.value.fence
  }

  /** A version becomes ready only in the finalization of the put that reserved it, when head
      is its parent again, as it was when it was reserved, and while the lease generation it
      was reserved under is live: from the one step to the other nobody acquired the checkout. */
  lemma ReadyOnlyUnderItsLease(ss: seq<State>, es: seq<Event>, k: nat, v: int) returns (i: nat, w: WriterId, t: Ticket)
    requires IsRun(ss, es) && k < |es| && v != 1
    requires !IsReady(ss[k].tables.versions, v) && IsReady(ss[k + 1].tables.versions, v)
    ensures i < k && ReservesAt(ss, es, i, w, t) && t.version == v && es[k].EndPut? && es[k].w == w
    ensures HeadOf(ss[i]) == HeadOf(ss[k]) == ss[k].tables.versions[v].parent == Some(t.expected)
    ensures IsActive(LeaseOf(ss[k].tables.manifest.value), es[k].now)
    ensures forall n | i <= n <= k :: FenceOf(ss[n]) == t.fence
  {
    RunKeepsInv(ss, es, k);
    ReadyCause(ss[k], es[k], v);
    w := es[k].w;
    t := ss[k].writers[w].ticket;
    i := TicketOrigin(ss, es, k, w);
    forall n | i <= n <= k
      ensures FenceOf(ss[n]) == t.fence
    {
      RunGrows(ss, es, i, n);
      RunGrows(ss, es, n, k);
    }
  }

  // Write-once blobs.

  lemma StepKeepsBlobs(s: State, e: Event, v: int)
    requires Inv(s) && Enabled(s, e) && v in s.blobs
    ensures v in Step(s, e).blobs && Step(s, e).blobs[v] == s.blobs[v]
  {
  }

  /** No blob ever changes once it is stored, whichever writers fail or crash. */
  lemma {:induction false} BlobsAreWriteOnce(ss: seq<State>, es: seq<Event>, i: nat, k: nat, v: int)
    requires IsRun(ss, es) && i <= k < |ss| && v in ss[i].blobs
    ensures v in ss[k].blobs && ss[k].blobs[v] == ss[i].blobs[v]
    decreases k
  {
    if i < k {
      BlobsAreWriteOnce(ss, es, i, k - 1, v);
      RunKeepsInv(ss, es, k - 1);
      StepKeepsBlobs(ss[k - 1], es[k - 1], v);
    }
  }

  // Fencing.

  ghost predicate GrantedAt(ss: seq<State>, es: seq<Event>, i: nat, fence: int)
    requires IsRun(ss, es)
  {
    && i < |es| && es[i].TakeCheckout?
    && Acquire(ss[i].tables, es[i].holder, es[i].ttl, es[i].expected, es[i].strict, es[i].now).1 == Ok(Some(fence))
  }

  lemma GrantRaisesFence(ss: seq<State>, es: seq<Event>, i: nat, fence: int)
    requires IsRun(ss, es) && GrantedAt(ss, es, i, fence)
    ensures FenceOf(ss[i]) < fence == FenceOf(ss[i + 1]) && ss[i + 1].tables.manifest.Some?
  {
  }

  /** Every successful acquire returns a larger generation than all earlier ones. */
  lemma FencesStrictlyIncrease(ss: seq<State>, es: seq<Event>, i: nat, f: int, j: nat, g: int)
    requires IsRun(ss, es) && i < j && GrantedAt(ss, es, i, f) && GrantedAt(ss, es, j, g)
    ensures f < g
  {
    GrantRaisesFence(ss, es, i, f);
    GrantRaisesFence(ss, es, j, g);
    RunGrows(ss, es, i + 1, j);
  }

  function ClaimOf(e: Event): Option<Claim> {
    match e
    case BeginPut(_, _, _, claim, _) => Some(claim)
    case UndoMove(claim, _) => Some(claim)
    case RedoMove(claim, _) => Some(claim)
    case _ => None
  }

  ghost predicate IsDenied(s: State, e: Event) {
    match e
    case BeginPut(_, data, parent, claim, now) => Reserve(s.tables, data, parent, claim, now).1 == Err(CheckoutDenied)
    case UndoMove(claim, now) => Undo(s.tables, claim, now).1 == Err(CheckoutDenied)
    case RedoMove(claim, now) => Redo(s.tables, claim, now).1 == Err(CheckoutDenied)
    case _ => false
  }

  lemma OldFenceIsDenied(s: State, e: Event)
    requires Inv(s) && Enabled(s, e) && HeadOf(s).Some? && ClaimOf(e).Some?
    requires ClaimOf(e).value.fence.Some? && ClaimOf(e).value.fence.value < FenceOf(s)
    requires IsActive(LeaseOf(s.tables.manifest.value), e.now)
    ensures IsDenied(s, e) && Step(s, e) == s
  {
  }

  /** A reservation, undo or redo that carries an older generation is refused, and changes
      nothing, while a newer lease is live: also under the same holder name. */
  lemma StaleFenceIsRefused(ss: seq<State>, es: seq<Event>, i: nat, f: int, j: nat, g: int, k: nat)
    requires IsRun(ss, es) && i < j < k < |es| && GrantedAt(ss, es, i, f) && GrantedAt(ss, es, j, g)
    requires ClaimOf(es[k]).Some? && ClaimOf(es[k]).value.fence == Some(f) && HeadOf(ss[k]).Some?
    requires IsActive(LeaseOf(ss[k].tables.manifest.value), es[k].now)
    ensures IsDenied(ss[k], es[k]) && ss[k + 1] == ss[k]
  {
    FencesStrictlyIncrease(ss, es, i, f, j, g);
    GrantRaisesFence(ss, es, j, g);
    RunGrows(ss, es, j + 1, k);
    RunKeepsInv(ss, es, k);
    OldFenceIsDenied(ss[k], es[k]);
  }

  // Undo and redo.

  ghost predicate Reachable(s: State) {
    exists ss, es :: IsRun(ss, es) && ss[|es|] == s
  }

  lemma ReachableKeepsInv(s: State)
    requires Reachable(s)
    ensures Inv(s)
  {
    var ss, es :| IsRun(ss, es) && ss[|es|] == s;
    RunKeepsInv(ss, es, |es|);
  }

  /** An authorized undo is refused only at the root; its parent is always there to go back to. */
  lemma UndoSucceedsIffNotRoot(s: State, claim: Claim, now: int)
    requires Reachable(s) && HeadOf(s).Some? && Authorized(LeaseOf(s.tables.manifest.value), claim, now)
    ensures Undo(s.tables, claim, now).1.Ok? <==> HeadOf(s) != Some(1)
  {
    ReachableKeepsInv(s);
  }

  lemma RedoIffAncestor(s: State, claim: Claim, now: int)
    requires Inv(s) && HeadOf(s).Some? && Authorized(LeaseOf(s.tables.manifest.value), claim, now)
    ensures ParentsEarlier(ReadyParents(s.tables.versions))
    ensures Redo(s.tables, claim, now).1.Ok? <==>
            ProperAncestor(ReadyParents(s.tables.versions), HeadOf(s).value,
                           MaxReady(s.tables.versions, s.tables.manifest.value.latest))
  {
    var ps := ReadyParents(s.tables.versions);
    var latest := MaxReady(s.tables.versions, s.tables.manifest.value.latest);
    RedoTargetExists(ps, latest, HeadOf(s).value);
    assert ParentsEarlier(ps);
    if HeadOf(s).value == latest && ProperAncestor(ps, latest, latest) {
      var k: nat :| k > 0 && Up(ps, latest, k) == Some(latest);
      UpDescends(ps, latest, 0, k);
    }
  }

  /** An authorized redo succeeds exactly when head lies properly above the newest ready version. */
  lemma RedoSucceedsIffAncestor(s: State, claim: Claim, now: int)
    requires Reachable(s) && HeadOf(s).Some? && Authorized(LeaseOf(s.tables.manifest.value), claim, now)
    ensures Redo(s.tables, claim, now).1.Ok? <==>
            ProperAncestor(ReadyParents(s.tables.versions), HeadOf(s).value,
                           MaxReady(s.tables.versions, s.tables.manifest.value.latest))
  {
    ReachableKeepsInv(s);
    RedoIffAncestor(s, claim, now);
  }

  /** That condition can fail with head behind the newest version, unlike under the legacy
      authority. Whenever two puts of one generation wait to be finalized on the same head,
      publishing the newer, undoing it and publishing the older leaves a head that redo cannot move. */
  lemma OverlappingPutsStrandRedo(s: State, w: WriterId, u: WriterId, now: int)
    requires Reachable(s) && w != u && PublisherAt(s, w, {Stored}) && PublisherAt(s, u, {Stored})
    requires StillOwns(s.tables, s.writers[w].ticket, now) && StillOwns(s.tables, s.writers[u].ticket, now)
    requires s.writers[u].ticket.version == s.tables.manifest.value.latest
    ensures var nobody := Claim(None, None);
            var s1 := Step(s, EndPut(u, now));
            var s2 := Step(s1, UndoMove(nobody, now));
            && PublisherAt(s2, w, {Stored})
            && var s3 := Step(s2, EndPut(w, now));
            && HeadOf(s3) == Some(s.writers[w].ticket.version)
            && HeadOf(s3).value < MaxReady(s3.tables.versions, s3.tables.manifest.value.latest)
            && Redo(s3.tables, nobody, now) == (s3.tables, Err(NothingToRedo))
  {
    ReachableKeepsInv(s);
    PublishThenUndo(s, u, now);
    var s2 := Step(Step(s, EndPut(u, now)), UndoMove(Claim(None, None), now));
    StrandedByOlder(s2, w, now, s.writers[u].ticket.version);
  }

  /** Publishing a version and undoing it leaves the manifest row as it was, and the version ready. */
  lemma FinalizeThenUndo(t: Tables, k: Ticket, now: int)
    requires GoodTables(t) && StillOwns(t, k, now)
    requires k.version in t.versions && t.versions[k.version].state == Reserved
    requires t.versions[k.version].parent == Some(k.expected)
    ensures var t' := Undo(Finalize(t, k, now).0, Claim(None, None), now).0;
            && t'.manifest == t.manifest
            && t'.versions == t.versions[k.version := t.versions[k.version].(state := Ready)]
  {
    assert IsReady(t.versions, k.expected);
  }

  lemma PublishThenUndo(s: State, u: WriterId, now: int)
    requires Inv(s) && PublisherAt(s, u, {Stored}) && StillOwns(s.tables, s.writers[u].ticket, now)
    ensures var s2 := Step(Step(s, EndPut(u, now)), UndoMove(Claim(None, None), now));
            var b := s.writers[u].ticket.version;
            && Inv(s2) && s2.tables.manifest == s.tables.manifest && s2.writers == s.writers - {u}
            && IsReady(s2.tables.versions, b) && s2.tables.versions[b].parent == HeadOf(s)
  {
    FinalizeThenUndo(s.tables, s.writers[u].ticket, now);
    EndPutKeepsInv(s, u, now);
    HeadMoveKeepsInv(Step(s, EndPut(u, now)), UndoMove(Claim(None, None), now));
  }

  lemma StrandedByOlder(s: State, w: WriterId, now: int, b: int)
    requires Inv(s) && PublisherAt(s, w, {Stored}) && StillOwns(s.tables, s.writers[w].ticket, now)
    requires b == s.tables.manifest.value.latest && IsReady(s.tables.versions, b)
    requires s.tables.versions[b].parent == HeadOf(s)
    ensures var s' := Step(s, EndPut(w, now));
            && HeadOf(s') == Some(s.writers[w].ticket.version)
            && HeadOf(s').value < b == MaxReady(s'.tables.versions, s'.tables.manifest.value.latest)
            && Redo(s'.tables, Claim(None, None), now) == (s'.tables, Err(NothingToRedo))
  {
    var s' := Step(s, EndPut(w, now));
    EndPutKeepsInv(s, w, now);
    var a := s.writers[w].ticket.version;
    var ps := ReadyParents(s'.tables.versions);
    assert IsReady(s'.tables.versions, b) && ps[b] == HeadOf(s) && HeadOf(s).value < a;
    RedoIffAncestor(s', Claim(None, None), now);
    if ProperAncestor(ps, a, b) {
      var k: nat :| k > 0 && Up(ps, b, k) == Some(a);
      assert Up(ps, b, 0) == Some(b);
      assert Up(ps, b, 1) == ps[b];
      if k > 1 {
        UpDescends(ps, b, 1, k);
      }
      assert false;
    }
  }

  // Such a state is reached.

  lemma ReachableNext(s: State, e: Event)
    requires Reachable(s) && Enabled(s, e)
    ensures Reachable(Step(s, e))
  {
    var ss, es :| IsRun(ss, es) && ss[|es|] == s;
    var ss', es' := ss + [Step(s, e)], es + [e];
    assert IsRun(ss', es') && ss'[|es'|] == Step(s, e);
  }

  lemma InitialIsReachable()
    ensures Reachable(INITIAL)
  {
    var ss, es: seq<Event> := [INITIAL], [];
    assert IsRun(ss, es) && ss[|es|] == INITIAL;
  }

  /** A drawing of one version, checked out by one holder. */
  function Opening(data: Bytes, holder: string): State {
    State(Tables(Some(ManifestRow(Some(1), 1, Some(Holding(holder, 10)), 1)),
                 map[1 := VersionRow(None, |data|, Sha256(data), Ready, None)]),
          map[1 := data], map[])
  }

  lemma IngestIsReachable(data: Bytes)
    ensures Reachable(State(Tables(Some(ManifestRow(Some(1), 1, None, 0)),
                                   map[1 := VersionRow(None, |data|, Sha256(data), Ready, None)]),
                            map[1 := data], map[]))
  {
    var s1 := Step(INITIAL, BeginIngest(0, data, 7, 0));
    var s2 := Step(s1, StoreFirst(0));
    InitialIsReachable();
    ReachableNext(INITIAL, BeginIngest(0, data, 7, 0));
    assert s1.writers == map[0 := Ingester(data, 7, Claimed)];
    ReachableNext(s1, StoreFirst(0));
    assert s2.writers == map[0 := Ingester(data, 7, Stored)];
    ReachableNext(s2, EndIngest(0, 0));
    assert Step(s2, EndIngest(0, 0)).writers == map[];
  }

  lemma OpeningIsReachable(data: Bytes, holder: string)
    requires holder != ANONYMOUS_HOLDER
    ensures Reachable(Opening(data, holder))
  {
    IngestIsReachable(data);
    var s := State(Tables(Some(ManifestRow(Some(1), 1, None, 0)),
                          map[1 := VersionRow(None, |data|, Sha256(data), Ready, None)]),
                   map[1 := data], map[]);
    ReachableNext(s, TakeCheckout(holder, 10, None, false, 0));
    assert Step(s, TakeCheckout(holder, 10, None, false, 0)) == Opening(data, holder);
  }

  /** One more put of the holder, as far as its blob. */
  function WithPut(s: State, w: WriterId, data: Bytes, v: int, holder: string): State
    requires s.tables.manifest.Some?
  {
    State(Tables(Some(s.tables.manifest.value.(latest := v)), s.tables.versions[v := NewRow(Some(1), data, None)]),
          s.blobs[v := data], s.writers[w := Publisher(data, Ticket(v, 1, holder, 1), Stored)])
  }

  lemma PutIsReachable(s: State, w: WriterId, data: Bytes, v: int, holder: string)
    requires Reachable(s) && w !in s.writers && s.tables.manifest.Some? && v !in s.blobs
    requires holder != ANONYMOUS_HOLDER
    requires s.tables.manifest.value == ManifestRow(Some(1), v - 1, Some(Holding(holder, 10)), 1) && 1 <= v <= 3
    ensures Reachable(WithPut(s, w, data, v, holder))
  {
    var claim := Claim(Some(holder), Some(1));
    var e1 := BeginPut(w, data, Some(1), claim, 0);
    var s1 := Step(s, e1);
    assert s1.writers[w] == Publisher(data, Ticket(v, 1, holder, 1), Claimed);
    ReachableNext(s, e1);
    ReachableNext(s1, CheckKey(w));
    var s2 := Step(s1, CheckKey(w));
    assert s2.writers[w] == Publisher(data, Ticket(v, 1, holder, 1), Checked);
    ReachableNext(s2, StoreBlob(w));
    assert Step(s2, StoreBlob(w)) == WithPut(s, w, data, v, holder);
  }

  /** Two puts of one holder do come to wait on the same head, so redo can be stranded. */
  lemma StrandingIsReachable(data: Bytes, holder: string) returns (s: State)
    requires holder != ANONYMOUS_HOLDER
    ensures Reachable(s) && PublisherAt(s, 1, {Stored}) && PublisherAt(s, 2, {Stored})
    ensures StillOwns(s.tables, s.writers[1].ticket, 0) && StillOwns(s.tables, s.writers[2].ticket, 0)
    ensures s.writers[2].ticket.version == s.tables.manifest.value.latest
  {
    OpeningIsReachable(data, holder);
    var s0 := Opening(data, holder);
    PutIsReachable(s0, 1, data, 2, holder);
    var s1 := WithPut(s0, 1, data, 2, holder);
    PutIsReachable(s1, 2, data, 3, holder);
    s := WithPut(s1, 2, data, 3, holder);
  }
}
