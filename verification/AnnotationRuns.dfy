/** Whole histories of the annotation authority. */
module AnnotationRuns {
  import opened Prelude
  import opened Annotations

  datatype Event =
    | Registering(d: Drawing, repository: string, at: Witness, receipt: Sha, actor: Actor, access: Access)
    | Creating(id: BatchId, request: Request, key: Key, receipt: Sha, access: Access, now: int)
    | Accepting(id: BatchId, actor: Actor, key: Key, access: Access, now: int)
    | Rejecting(id: BatchId, actor: Actor, key: Key, access: Access, now: int)

  function Step(s: Store, e: Event): Store {
    match e
    case Registering(d, repository, at, receipt, actor, access) =>
      Register(s, d, repository, at, receipt, actor, access).0
    case Creating(id, request, key, receipt, access, now) => Create(s, id, request, key, receipt, access, now).0
    case Accepting(id, actor, key, access, now) => Accept(s, id, actor, key, access, now).0
    case Rejecting(id, actor, key, access, now) => Reject(s, id, actor, key, access, now).0
  }

  ghost predicate IsRun(ss: seq<Store>, es: seq<Event>) {
    && |ss| == |es| + 1
    && ss[0] == EMPTY
    && forall i | 0 <= i < |es| :: ss[i + 1] == Step(ss[i], es[i])
  }

  // Batches.

  predicate IsPending(s: Store, id: BatchId) {
    id in s.batches && |s.batches[id]| == 1
  }

  predicate IsAccepted(s: Store, id: BatchId) {
    id in s.batches && |s.batches[id]| == 2 && s.batches[id][1].state == Accepted
  }

  function RequestOf(s: Store, id: BatchId): Request
    requires Known(s, id)
  {
    s.batches[id][0].request
  }

  /** A batch is one pending revision, or a superseded pending revision and one decision on it. */
  predicate GoodRevisions(rs: seq<Revision>) {
    && 1 <= |rs| <= 2
    && rs[0].number == 0 && rs[0].state == Pending && rs[0].superseded == (|rs| == 2)
    && rs[0].request.baseVersion >= 0
    && (|rs| == 2 ==>
          && rs[1].number == 1 && rs[1].state != Pending && !rs[1].superseded
          && rs[1].request == rs[0].request
          && (if rs[1].state == Accepted then rs[1].appliedVersion == Some(rs[0].request.baseVersion + 1)
              else rs[1].appliedVersion.None?))
  }

  /** An undo links to a batch accepted at exactly the version the undo starts from. */
  predicate GoodLink(s: Store, r: Request) {
    && (r.kind == Undo <==> r.reverses.Some?)
    && (r.kind == Undo ==>
          && IsAccepted(s, r.reverses.value)
          && RequestOf(s, r.reverses.value).drawing == r.drawing
          && RequestOf(s, r.reverses.value).preview == r.base
          && s.batches[r.reverses.value][1].appliedVersion == Some(r.baseVersion))
  }

  ghost predicate Shape(s: Store) {
    && s.sources.Keys == s.targets.Keys
    && (forall id | id in s.batches ::
          && GoodRevisions(s.batches[id])
          && RequestOf(s, id).drawing in s.targets
          && GoodLink(s, RequestOf(s, id)))
  }

  function SlotOf(s: Store, id: BatchId): (Session, Drawing)
    requires Known(s, id)
  {
    (RequestOf(s, id).session, RequestOf(s, id).drawing)
  }

  /** The pending batches are exactly those in the slots, each in the slot of its session and drawing. */
  ghost predicate Slots(s: Store) {
    && (forall slot | slot in s.pending :: IsPending(s, s.pending[slot]) && SlotOf(s, s.pending[slot]) == slot)
    && (forall id | IsPending(s, id) :: SlotOf(s, id) in s.pending && s.pending[SlotOf(s, id)] == id)
  }

  // The history of one target.

  ghost predicate AllAccepted(s: Store, d: Drawing, h: seq<BatchId>) {
    forall k | 0 <= k < |h| :: IsAccepted(s, h[k]) && RequestOf(s, h[k]).drawing == d
  }

  /** Where the first k batches of h leave the target. */
  ghost function WitnessAt(s: Store, d: Drawing, h: seq<BatchId>, k: nat): Witness
    requires AllAccepted(s, d, h) && d in s.sources && k <= |h|
  {
    if k == 0 then s.sources[d].at else RequestOf(s, h[k - 1]).preview
  }

  /** The batch h[k] was applied at version k + 1, from where the first k batches left the target. */
  ghost predicate LinkedAt(s: Store, d: Drawing, h: seq<BatchId>, k: nat)
    requires AllAccepted(s, d, h) && d in s.sources && k < |h|
  {
    && s.batches[h[k]][1].appliedVersion == Some(k + 1)
    && RequestOf(s, h[k]).baseVersion == k
    && RequestOf(s, h[k]).base == WitnessAt(s, d, h, k)
  }

  ghost predicate Complete(s: Store, d: Drawing, h: seq<BatchId>) {
    forall id | IsAccepted(s, id) && RequestOf(s, id).drawing == d :: id in h
  }

  /** h lists the accepted batches of d in order: the one applied at version k + 1 starts from
      the preview of the one applied at k, or from the registered source, and the target is
      where the last one left it. No other batch of d is accepted. */
  ghost predicate ChainOf(s: Store, d: Drawing, h: seq<BatchId>)
    requires d in s.targets && d in s.sources
  {
    && |h| == s.targets[d].version
    && AllAccepted(s, d, h)
    && (forall k: nat | k < |h| :: LinkedAt(s, d, h, k))
    && Complete(s, d, h)
    && s.targets[d].at == WitnessAt(s, d, h, |h|)
  }

  ghost predicate Chained(s: Store) {
    && s.sources.Keys == s.targets.Keys
    && forall d | d in s.targets :: exists h :: ChainOf(s, d, h)
  }

  // The audit log.

  /** Replay the audit rows of d from a starting head; every row must start where the last one ended. */
  function Replay(rows: seq<AuditRow>, d: Drawing, start: Head): Option<Head> {
    if rows == [] then Some(start)
    else
      var at := Replay(rows[..|rows| - 1], d, start);
      var row := rows[|rows| - 1];
      if row.drawing != d || at.None? then at
      else if row.before == at.value then Some(row.after)
      else None
  }

  ghost predicate Audits(s: Store) {
    && s.sources.Keys == s.targets.Keys
    && (forall row | row in s.audit :: row.drawing in s.targets)
    && (forall d | d in s.targets :: Replay(s.audit, d, HeadOf(s.sources[d])) == Some(HeadOf(s.targets[d])))
  }

  ghost predicate Inv(s: Store) {
    Shape(s) && Slots(s) && Chained(s) && Audits(s)
  }

  /** Deciding a batch frees its slot and no other. */
  lemma DecisionFreesSlot(s: Store, s': Store, id: BatchId)
    requires Slots(s) && IsPending(s, id) && s'.pending == s.pending - {SlotOf(s, id)}
    requires s'.batches.Keys == s.batches.Keys && |s'.batches[id]| == 2
    requires forall b | b in s.batches && b != id :: s'.batches[b] == s.batches[b]
    ensures Slots(s')
  {
    forall slot | slot in s'.pending ensures IsPending(s', s'.pending[slot]) && SlotOf(s', s'.pending[slot]) == slot {
      assert IsPending(s, s.pending[slot]) && SlotOf(s, s.pending[slot]) == slot;
    }
    forall b | IsPending(s', b) ensures SlotOf(s', b) in s'.pending && s'.pending[SlotOf(s', b)] == b {
      assert b != id && IsPending(s, b) && SlotOf(s', b) == SlotOf(s, b);
    }
  }

  // Deciding a batch without moving its target.

  lemma ClosedBatch(s: Store, id: BatchId, state: BatchState, actor: Option<Actor>, key: Option<Key>, head: Head)
    requires Shape(s) && IsPending(s, id) && state !in {Pending, Accepted}
    ensures var s' := Close(s, id, state, actor, key, head);
            && s'.targets == s.targets && s'.sources == s.sources
            && s'.batches.Keys == s.batches.Keys
            && (forall b | b in s.batches && b != id :: s'.batches[b] == s.batches[b])
            && GoodRevisions(s'.batches[id]) && |s'.batches[id]| == 2 && s'.batches[id][1].state == state
            && RequestOf(s', id) == RequestOf(s, id) && s'.pending == s.pending - {SlotOf(s, id)}
  {
  }

  lemma CloseKeepsShape(s: Store, id: BatchId, state: BatchState, actor: Option<Actor>, key: Option<Key>, head: Head)
    requires Shape(s) && IsPending(s, id) && state !in {Pending, Accepted}
    ensures Shape(Close(s, id, state, actor, key, head))
  {
    ClosedBatch(s, id, state, actor, key, head);
    var s' := Close(s, id, state, actor, key, head);
    forall b | b in s'.batches
      ensures GoodLink(s', RequestOf(s', b))
    {
      assert GoodLink(s, RequestOf(s, b));
    }
  }

  /** A target's history depends only on the target, its source and the batches accepted on it. */
  lemma ChainFrame(s: Store, s': Store, d: Drawing, h: seq<BatchId>)
    requires d in s.targets && d in s.sources && d in s'.targets && d in s'.sources
    requires ChainOf(s, d, h) && s'.targets[d] == s.targets[d] && s'.sources[d] == s.sources[d]
    requires forall b | IsAccepted(s, b) :: b in s'.batches && s'.batches[b] == s.batches[b]
    requires forall b | IsAccepted(s', b) && RequestOf(s', b).drawing == d :: IsAccepted(s, b)
    ensures ChainOf(s', d, h)
  {
    forall k | 0 <= k < |h|
      ensures IsAccepted(s', h[k]) && s'.batches[h[k]] == s.batches[h[k]]
    {
      assert IsAccepted(s, h[k]);
    }
    forall k: nat | k < |h|
      ensures LinkedAt(s', d, h, k)
    {
      assert LinkedAt(s, d, h, k);
    }
  }

  lemma ChainsFrame(s: Store, s': Store)
    requires Chained(s) && s'.targets == s.targets && s'.sources == s.sources
    requires forall b | IsAccepted(s, b) :: b in s'.batches && s'.batches[b] == s.batches[b]
    requires forall b | IsAccepted(s', b) :: IsAccepted(s, b)
    ensures Chained(s')
  {
    forall d | d in s'.targets
      ensures exists h :: ChainOf(s', d, h)
    {
      var h :| ChainOf(s, d, h);
      ChainFrame(s, s', d, h);
    }
  }

  lemma ReplayAppend(rows: seq<AuditRow>, row: AuditRow, d: Drawing, start: Head)
    ensures Replay(rows + [row], d, start)
         == (var at := Replay(rows, d, start);
             if row.drawing != d || at.None? then at else if row.before == at.value then Some(row.after) else None)
  {
    assert (rows + [row])[..|rows|] == rows;
  }

  /** A row appended to the log that starts at its target's head, and ends at its new head, keeps the log replayable. */
  lemma AppendAudit(s: Store, s': Store, row: AuditRow)
    requires Audits(s) && s'.audit == s.audit + [row] && s'.sources == s.sources && s'.targets.Keys == s.targets.Keys
    requires row.drawing in s.targets
    requires row.before == HeadOf(s.targets[row.drawing]) && row.after == HeadOf(s'.targets[row.drawing])
    requires forall d | d in s.targets && d != row.drawing :: s'.targets[d] == s.targets[d]
    ensures Audits(s')
  {
    forall d | d in s'.targets
      ensures Replay(s'.audit, d, HeadOf(s'.sources[d])) == Some(HeadOf(s'.targets[d]))
    {
      ReplayAppend(s.audit, row, d, HeadOf(s.sources[d]));
    }
  }

  lemma DecisionKeepsChained(s: Store, s': Store, id: BatchId)
    requires Chained(s) && s'.targets == s.targets && s'.sources == s.sources && s'.batches.Keys == s.batches.Keys
    requires IsPending(s, id) && |s'.batches[id]| == 2 && s'.batches[id][1].state != Accepted
    requires forall b | b in s.batches && b != id :: s'.batches[b] == s.batches[b]
    ensures Chained(s')
  {
    ChainsFrame(s, s');
  }

  lemma CloseKeepsInv(s: Store, id: BatchId, state: BatchState, actor: Option<Actor>, key: Option<Key>)
    requires Inv(s) && IsPending(s, id) && state !in {Pending, Accepted}
    ensures Inv(Close(s, id, state, actor, key, HeadOf(s.targets[RequestOf(s, id).drawing])))
  {
    var head := HeadOf(s.targets[RequestOf(s, id).drawing]);
    var s' := Close(s, id, state, actor, key, head);
    CloseKeepsShape(s, id, state, actor, key, head);
    ClosedBatch(s, id, state, actor, key, head);
    DecisionFreesSlot(s, s', id);
    DecisionKeepsChained(s, s', id);
    AppendAudit(s, s', s'.audit[|s.audit|]);
  }

  // Accepting a batch.

  predicate MayAdvance(s: Store, id: BatchId) {
    && IsPending(s, id)
    && RequestOf(s, id).drawing in s.targets
    && AtBase(s.targets[RequestOf(s, id).drawing], RequestOf(s, id))
  }

  lemma AdvancedBatch(s: Store, id: BatchId, actor: Actor, key: Key)
    requires Shape(s) && MayAdvance(s, id)
    ensures var s' := Advance(s, id, actor, key);
            var r := RequestOf(s, id);
            && s'.sources == s.sources
            && s'.targets.Keys == s.targets.Keys
            && (forall d | d in s.targets && d != r.drawing :: s'.targets[d] == s.targets[d])
            && s'.targets[r.drawing].version == s.targets[r.drawing].version + 1
            && s'.targets[r.drawing].at == r.preview
            && s'.batches.Keys == s.batches.Keys
            && (forall b | b in s.batches && b != id :: s'.batches[b] == s.batches[b])
            && GoodRevisions(s'.batches[id]) && |s'.batches[id]| == 2 && s'.batches[id][1].state == Accepted
            && s'.batches[id][1].appliedVersion == Some(r.baseVersion + 1)
            && RequestOf(s', id) == r && s'.pending == s.pending - {SlotOf(s, id)}
  {
  }

  lemma AdvanceKeepsShape(s: Store, id: BatchId, actor: Actor, key: Key)
    requires Shape(s) && MayAdvance(s, id)
    ensures Shape(Advance(s, id, actor, key))
  {
    AdvancedBatch(s, id, actor, key);
    var s' := Advance(s, id, actor, key);
    forall b | b in s'.batches
      ensures GoodLink(s', RequestOf(s', b))
    {
      assert GoodLink(s, RequestOf(s, b));
    }
  }

  /** s' differs from s in that the pending batch id is accepted and its target follows it. */
  ghost predicate Moves(s: Store, s': Store, id: BatchId) {
    && MayAdvance(s, id)
    && IsAccepted(s', id) && RequestOf(s', id) == RequestOf(s, id)
    && s'.batches[id][1].appliedVersion == Some(RequestOf(s, id).baseVersion + 1)
    && s'.sources == s.sources
    && RequestOf(s, id).drawing in s'.targets
    && s'.targets[RequestOf(s, id).drawing].version == RequestOf(s, id).baseVersion + 1
    && s'.targets[RequestOf(s, id).drawing].at == RequestOf(s, id).preview
    && s'.batches.Keys == s.batches.Keys
    && (forall b | b in s.batches && b != id :: s'.batches[b] == s.batches[b])
  }

  lemma MovedBatches(s: Store, s': Store, h: seq<BatchId>, id: BatchId)
    requires Moves(s, s', id) && AllAccepted(s, RequestOf(s, id).drawing, h)
    ensures AllAccepted(s', RequestOf(s, id).drawing, h + [id])
    ensures forall k | 0 <= k < |h| :: s'.batches[h[k]] == s.batches[h[k]]
  {
    forall k | 0 <= k < |h|
      ensures IsAccepted(s', h[k]) && s'.batches[h[k]] == s.batches[h[k]]
    {
      assert IsAccepted(s, h[k]);
    }
  }

  lemma MoveKeepsLink(s: Store, s': Store, h: seq<BatchId>, id: BatchId, k: nat)
    requires Moves(s, s', id) && RequestOf(s, id).drawing in s.sources
    requires AllAccepted(s, RequestOf(s, id).drawing, h) && AllAccepted(s', RequestOf(s, id).drawing, h + [id])
    requires forall k | 0 <= k < |h| :: s'.batches[h[k]] == s.batches[h[k]]
    requires k < |h| && LinkedAt(s, RequestOf(s, id).drawing, h, k)
    ensures LinkedAt(s', RequestOf(s, id).drawing, h + [id], k)
  {
    assert (h + [id])[k] == h[k];
    if k > 0 {
      assert (h + [id])[k - 1] == h[k - 1];
    }
  }

  lemma MoveKeepsComplete(s: Store, s': Store, h: seq<BatchId>, id: BatchId)
    requires Moves(s, s', id) && Complete(s, RequestOf(s, id).drawing, h)
    ensures Complete(s', RequestOf(s, id).drawing, h + [id])
  {
    assert (h + [id])[|h|] == id;
    forall b | IsAccepted(s', b) && RequestOf(s', b).drawing == RequestOf(s, id).drawing
      ensures b in h + [id]
    {
      assert b != id ==> IsAccepted(s, b);
    }
  }

  lemma MoveExtendsChain(s: Store, s': Store, h: seq<BatchId>, id: BatchId)
    requires Moves(s, s', id) && RequestOf(s, id).drawing in s.sources && ChainOf(s, RequestOf(s, id).drawing, h)
    ensures ChainOf(s', RequestOf(s, id).drawing, h + [id])
  {
    MovedBatches(s, s', h, id);
    MoveKeepsComplete(s, s', h, id);
    forall k: nat | k < |h|
      ensures LinkedAt(s', RequestOf(s, id).drawing, h + [id], k)
    {
      MoveKeepsLink(s, s', h, id, k);
    }
    assert LinkedAt(s', RequestOf(s, id).drawing, h + [id], |h|);
  }

  lemma AdvanceKeepsInv(s: Store, id: BatchId, actor: Actor, key: Key)
    requires Inv(s) && MayAdvance(s, id)
    ensures Inv(Advance(s, id, actor, key))
  {
    var s' := Advance(s, id, actor, key);
    AdvancedBatch(s, id, actor, key);
    AdvanceKeepsShape(s, id, actor, key);
    DecisionFreesSlot(s, s', id);
    MoveKeepsChained(s, s', id);
    AppendAudit(s, s', s'.audit[|s.audit|]);
  }

  lemma MoveKeepsChained(s: Store, s': Store, id: BatchId)
    requires Chained(s) && Moves(s, s', id) && s'.targets.Keys == s.targets.Keys
    requires forall d | d in s.targets && d != RequestOf(s, id).drawing :: s'.targets[d] == s.targets[d]
    ensures Chained(s')
  {
    forall d | d in s'.targets
      ensures exists h :: ChainOf(s', d, h)
    {
      var h :| ChainOf(s, d, h);
      if d == RequestOf(s, id).drawing {
        MoveExtendsChain(s, s', h, id);
      } else {
        MoveFramesChain(s, s', id, d, h);
      }
    }
  }

  lemma MoveFramesChain(s: Store, s': Store, id: BatchId, d: Drawing, h: seq<BatchId>)
    requires Moves(s, s', id) && d != RequestOf(s, id).drawing
    requires d in s.targets && d in s.sources && d in s'.targets && s'.targets[d] == s.targets[d]
    requires ChainOf(s, d, h)
    ensures ChainOf(s', d, h)
  {
    ChainFrame(s, s', d, h);
  }

  // Opening a batch, and registering a target.

  function Insert(s: Store, id: BatchId, first: Revision): Store {
    s.(batches := s.batches[id := [first]], keys := s.keys[first.requestKey := id],
       pending := s.pending[(first.request.session, first.request.drawing) := id])
  }

  lemma InsertKeepsShape(s: Store, id: BatchId, first: Revision)
    requires Shape(s) && id !in s.batches && GoodRevisions([first]) && first.request.drawing in s.targets
    requires GoodLink(s, first.request)
    ensures Shape(Insert(s, id, first))
  {
    var s' := Insert(s, id, first);
    forall b | b in s'.batches
      ensures GoodLink(s', RequestOf(s', b))
    {
      assert b != id ==> GoodLink(s, RequestOf(s, b));
    }
  }

  lemma InsertKeepsInv(s: Store, id: BatchId, first: Revision)
    requires Inv(s) && id !in s.batches && GoodRevisions([first]) && first.request.drawing in s.targets
    requires GoodLink(s, first.request) && (first.request.session, first.request.drawing) !in s.pending
    ensures Inv(Insert(s, id, first))
  {
    InsertKeepsShape(s, id, first);
    InsertKeepsSlots(s, id, first);
    InsertKeepsChained(s, id, first);
  }

  lemma InsertKeepsSlots(s: Store, id: BatchId, first: Revision)
    requires Slots(s) && id !in s.batches && (first.request.session, first.request.drawing) !in s.pending
    ensures Slots(Insert(s, id, first))
  {
    var s' := Insert(s, id, first);
    forall slot | slot in s'.pending ensures IsPending(s', s'.pending[slot]) && SlotOf(s', s'.pending[slot]) == slot {
      assert slot in s.pending ==> IsPending(s, s.pending[slot]) && SlotOf(s, s.pending[slot]) == slot;
    }
    forall b | IsPending(s', b) ensures SlotOf(s', b) in s'.pending && s'.pending[SlotOf(s', b)] == b {
      assert b != id ==> IsPending(s, b) && SlotOf(s', b) == SlotOf(s, b);
    }
  }

  lemma InsertKeepsChained(s: Store, id: BatchId, first: Revision)
    requires Chained(s) && id !in s.batches
    ensures Chained(Insert(s, id, first))
  {
    ChainsFrame(s, Insert(s, id, first));
  }

  lemma LinkIsGood(s: Store, r: Request)
    requires Shape(s) && BadRequest(r).None? && BadLink(s.batches, r).None?
    ensures GoodLink(s, r)
  {
    if r.reverses.Some? && r.retryOf.None? {
      assert GoodRevisions(s.batches[r.reverses.value]);
    }
  }

  lemma ExpireKeepsInv(s: Store, r: Request, now: int)
    requires Inv(s) && r.drawing in s.targets
    ensures Inv(ExpireLapsed(s, r, now, HeadOf(s.targets[r.drawing])))
    ensures ExpireLapsed(s, r, now, HeadOf(s.targets[r.drawing])).targets == s.targets
  {
    var head := HeadOf(s.targets[r.drawing]);
    var slot := (r.session, r.drawing);
    if ExpireLapsed(s, r, now, head) != s {
      var id := s.pending[slot];
      assert IsPending(s, id) && RequestOf(s, id).drawing == r.drawing;
      CloseKeepsInv(s, id, Expired, None, None);
      assert ExpireLapsed(s, r, now, head) == Close(s, id, Expired, None, None, head);
    }
  }

  lemma CreateCases(s: Store, id: BatchId, r: Request, key: Key, receipt: Sha, access: Access, now: int)
    ensures var s' := Create(s, id, r, key, receipt, access, now).0;
            || s' == s
            || (r.drawing in s.targets
                && var s1 := ExpireLapsed(s, r, now, HeadOf(s.targets[r.drawing]));
                && id !in s1.batches && BadRequest(r).None? && BadLink(s1.batches, r).None?
                && (r.session, r.drawing) !in s1.pending
                && var lease := now + r.leaseSeconds;
                s' == Insert(s1, id, Revision(0, r, key, receipt, lease, Pending, None, None, None, false)))
  {
  }

  lemma CreateKeepsInv(s: Store, id: BatchId, r: Request, key: Key, receipt: Sha, access: Access, now: int)
    requires Inv(s)
    ensures Inv(Create(s, id, r, key, receipt, access, now).0)
  {
    CreateCases(s, id, r, key, receipt, access, now);
    if r.drawing in s.targets {
      ExpireKeepsInv(s, r, now);
      var s1 := ExpireLapsed(s, r, now, HeadOf(s.targets[r.drawing]));
      if id !in s1.batches && BadRequest(r).None? && BadLink(s1.batches, r).None?
         && (r.session, r.drawing) !in s1.pending {
        LinkIsGood(s1, r);
        InsertKeepsInv(s1, id, Revision(0, r, key, receipt, now + r.leaseSeconds, Pending, None, None, None, false));
      }
    }
  }

  lemma RegisterKeepsChained(s: Store, d: Drawing, target: Target)
    requires Shape(s) && Chained(s) && d !in s.targets && target.version == 0
    ensures Chained(s.(targets := s.targets[d := target], sources := s.sources[d := target]))
  {
    var s' := s.(targets := s.targets[d := target], sources := s.sources[d := target]);
    forall c | c in s'.targets
      ensures exists h :: ChainOf(s', c, h)
    {
      if c == d {
        NewTargetIsChain(s', d);
      } else {
        var h :| ChainOf(s, c, h);
        ChainFrame(s, s', c, h);
      }
    }
  }

  lemma NewTargetIsChain(s: Store, d: Drawing)
    requires d in s.targets && d in s.sources && s.targets[d] == s.sources[d] && s.targets[d].version == 0
    requires forall id | Known(s, id) :: RequestOf(s, id).drawing != d
    ensures ChainOf(s, d, [])
  {
  }

  lemma {:induction false} UnauditedReplaysToStart(rows: seq<AuditRow>, d: Drawing, start: Head)
    requires forall row | row in rows :: row.drawing != d
    ensures Replay(rows, d, start) == Some(start)
  {
    if rows != [] {
      UnauditedReplaysToStart(rows[..|rows| - 1], d, start);
    }
  }

  lemma RegisterKeepsShape(s: Store, d: Drawing, target: Target)
    requires Shape(s) && d !in s.targets
    ensures Shape(s.(targets := s.targets[d := target], sources := s.sources[d := target]))
  {
    var s' := s.(targets := s.targets[d := target], sources := s.sources[d := target]);
    forall b | b in s'.batches
      ensures GoodLink(s', RequestOf(s', b))
    {
      assert GoodLink(s, RequestOf(s, b));
    }
  }

  lemma RegisterKeepsSlots(s: Store, s': Store)
    requires Slots(s) && s'.batches == s.batches && s'.pending == s.pending
    ensures Slots(s')
  {
    forall b | IsPending(s', b) ensures SlotOf(s', b) in s'.pending && s'.pending[SlotOf(s', b)] == b {
      assert IsPending(s, b);
    }
  }

  lemma RegisterKeepsInv(s: Store, d: Drawing, target: Target)
    requires Inv(s) && d !in s.targets && target.version == 0
    ensures Inv(s.(targets := s.targets[d := target], sources := s.sources[d := target]))
  {
    RegisterKeepsShape(s, d, target);
    RegisterKeepsSlots(s, s.(targets := s.targets[d := target], sources := s.sources[d := target]));
    RegisterKeepsChained(s, d, target);
    UnauditedReplaysToStart(s.audit, d, HeadOf(target));
  }

  function TargetHead(s: Store, id: BatchId): Head
    requires Known(s, id) && RequestOf(s, id).drawing in s.targets
  {
    HeadOf(s.targets[RequestOf(s, id).drawing])
  }

  /** A decision does nothing, moves the target, or closes the batch where the target stands. */
  lemma DecisionCases(s: Store, id: BatchId, actor: Actor, key: Key, access: Access, now: int)
    requires id in s.batches ==> GoodRevisions(s.batches[id]) && RequestOf(s, id).drawing in s.targets
    ensures var s' := Accept(s, id, actor, key, access, now).0;
            || s' == s
            || (MayAdvance(s, id) && s' == Advance(s, id, actor, key))
            || (IsPending(s, id) && s' == Close(s, id, Stale, Some(actor), Some(key), TargetHead(s, id)))
    ensures var s' := Reject(s, id, actor, key, access, now).0;
            || s' == s
            || (IsPending(s, id) && s' == Close(s, id, Stale, Some(actor), Some(key), TargetHead(s, id)))
            || (IsPending(s, id) && s' == Close(s, id, Rejected, Some(actor), Some(key), TargetHead(s, id)))
  {
  }

  lemma DecisionKeepsInv(s: Store, id: BatchId, actor: Actor, key: Key, access: Access, now: int)
    requires Inv(s)
    ensures Inv(Accept(s, id, actor, key, access, now).0)
    ensures Inv(Reject(s, id, actor, key, access, now).0)
  {
    DecisionCases(s, id, actor, key, access, now);
    if IsPending(s, id) {
      CloseKeepsInv(s, id, Stale, Some(actor), Some(key));
      CloseKeepsInv(s, id, Rejected, Some(actor), Some(key));
      if MayAdvance(s, id) {
        AdvanceKeepsInv(s, id, actor, key);
      }
    }
  }

  lemma StepKeepsInv(s: Store, e: Event)
    requires Inv(s)
    ensures Inv(Step(s, e))
  {
    match e
    case Registering(d, repository, at, receipt, actor, access) =>
      if Step(s, e) != s {
        RegisterKeepsInv(s, d, Target(0, repository, at, receipt, Some(actor)));
      }
    case Creating(id, request, key, receipt, access, now) => CreateKeepsInv(s, id, request, key, receipt, access, now);
    case Accepting(id, actor, key, access, now) => DecisionKeepsInv(s, id, actor, key, access, now);
    case Rejecting(id, actor, key, access, now) => DecisionKeepsInv(s, id, actor, key, access, now);
  }

  // Whole runs.

  lemma {:induction false} RunKeepsInv(ss: seq<Store>, es: seq<Event>, k: nat)
    requires IsRun(ss, es) && k < |ss|
    ensures Inv(ss[k])
  {
    if k > 0 {
      RunKeepsInv(ss, es, k - 1);
      StepKeepsInv(ss[k - 1], es[k - 1]);
    }
  }

  /** In every reachable state the accepted batches of a target, ordered by the version they
      were applied at, form an unbroken chain from the registered source to the target. */
  lemma HistoryIsChain(ss: seq<Store>, es: seq<Event>, k: nat, d: Drawing) returns (h: seq<BatchId>)
    requires IsRun(ss, es) && k < |ss| && d in ss[k].targets
    ensures d in ss[k].sources && ChainOf(ss[k], d, h)
  {
    RunKeepsInv(ss, es, k);
    h :| ChainOf(ss[k], d, h);
  }

  /** The applied versions of a target's accepted batches are exactly 1 to its version, without repeats. */
  lemma AppliedVersionsAreExact(ss: seq<Store>, es: seq<Event>, k: nat, d: Drawing, v: int)
    requires IsRun(ss, es) && k < |ss| && d in ss[k].targets
    ensures 1 <= v <= ss[k].targets[d].version <==>
            exists id :: AppliedAt(ss[k], d, id, v)
    ensures forall a, b | AppliedAt(ss[k], d, a, v) && AppliedAt(ss[k], d, b, v) :: a == b
  {
    var h := HistoryIsChain(ss, es, k, d);
    forall id | AppliedAt(ss[k], d, id, v)
      ensures 1 <= v <= |h| && h[v - 1] == id
    {
      var i :| 0 <= i < |h| && h[i] == id;
      assert LinkedAt(ss[k], d, h, i);
    }
    if 1 <= v <= |h| {
      assert LinkedAt(ss[k], d, h, v - 1);
      assert AppliedAt(ss[k], d, h[v - 1], v);
    }
  }

  predicate AppliedAt(s: Store, d: Drawing, id: BatchId, v: int) {
    IsAccepted(s, id) && RequestOf(s, id).drawing == d && s.batches[id][1].appliedVersion == Some(v)
  }

  /** An accepted undo is applied at exactly the version after the batch it reverses, from that batch's preview. */
  lemma UndoFollowsWhatItReverses(ss: seq<Store>, es: seq<Event>, k: nat, id: BatchId, v: int)
    requires IsRun(ss, es) && k < |ss| && IsAccepted(ss[k], id) && RequestOf(ss[k], id).kind == Undo
    requires AppliedAt(ss[k], RequestOf(ss[k], id).drawing, id, v)
    ensures var undone := RequestOf(ss[k], id).reverses;
            && undone.Some? && AppliedAt(ss[k], RequestOf(ss[k], id).drawing, undone.value, v - 1)
            && RequestOf(ss[k], undone.value).preview == RequestOf(ss[k], id).base
  {
    RunKeepsInv(ss, es, k);
  }

  /** Replaying the audit rows of a target over what was registered gives the target as it stands. */
  lemma AuditReplaysToTarget(ss: seq<Store>, es: seq<Event>, k: nat, d: Drawing)
    requires IsRun(ss, es) && k < |ss| && d in ss[k].targets
    ensures d in ss[k].sources
         && Replay(ss[k].audit, d, HeadOf(ss[k].sources[d])) == Some(HeadOf(ss[k].targets[d]))
  {
    RunKeepsInv(ss, es, k);
  }

  /** A session never has two open batches on one drawing. */
  lemma OneOpenBatchPerSlot(ss: seq<Store>, es: seq<Event>, k: nat, a: BatchId, b: BatchId)
    requires IsRun(ss, es) && k < |ss| && IsPending(ss[k], a) && IsPending(ss[k], b)
    requires SlotOf(ss[k], a) == SlotOf(ss[k], b)
    ensures a == b
  {
    RunKeepsInv(ss, es, k);
  }

  /** A new request that names both a batch to retry and one to reverse is always refused, because
      one lookup serves both: so a failed undo can be asked for anew but not as a retry. */
  lemma RetryOfUndoIsRefused(s: Store, id: BatchId, r: Request, key: Key, receipt: Sha, access: Access, now: int)
    requires r.retryOf.Some? && (r.reverses.Some? || r.kind == Undo) && key !in s.keys
    ensures Create(s, id, r, key, receipt, access, now).0 == s
    ensures Create(s, id, r, key, receipt, access, now).1.Err?
  {
  }

  // Decisions are final.

  predicate IsDecided(s: Store, id: BatchId) {
    id in s.batches && |s.batches[id]| == 2
  }

  lemma ExpireKeepsDecided(s: Store, r: Request, now: int, head: Head, id: BatchId)
    requires Slots(s) && IsDecided(s, id)
    ensures var s1 := ExpireLapsed(s, r, now, head); id in s1.batches && s1.batches[id] == s.batches[id]
  {
  }

  lemma CreateKeepsDecided(s: Store, made: BatchId, r: Request, key: Key, receipt: Sha, access: Access, now: int,
                           id: BatchId)
    requires Shape(s) && Slots(s) && IsDecided(s, id)
    ensures var s' := Create(s, made, r, key, receipt, access, now).0;
            id in s'.batches && s'.batches[id] == s.batches[id]
  {
    CreateCases(s, made, r, key, receipt, access, now);
    if r.drawing in s.targets {
      ExpireKeepsDecided(s, r, now, HeadOf(s.targets[r.drawing]), id);
    }
  }

  lemma StepKeepsDecided(s: Store, e: Event, id: BatchId)
    requires Shape(s) && Slots(s) && IsDecided(s, id)
    ensures id in Step(s, e).batches && Step(s, e).batches[id] == s.batches[id]
  {
    match e
    case Registering(_, _, _, _, _, _) =>
    case Creating(made, r, key, receipt, access, now) =>
      CreateKeepsDecided(s, made, r, key, receipt, access, now, id);
    case Accepting(b, actor, key, access, now) => DecisionCases(s, b, actor, key, access, now);
    case Rejecting(b, actor, key, access, now) => DecisionCases(s, b, actor, key, access, now);
  }

  lemma RunStepKeepsDecided(ss: seq<Store>, es: seq<Event>, k: nat, id: BatchId)
    requires IsRun(ss, es) && k < |es| && IsDecided(ss[k], id)
    ensures id in ss[k + 1].batches && ss[k + 1].batches[id] == ss[k].batches[id]
  {
    RunKeepsInv(ss, es, k);
    StepKeepsDecided(ss[k], es[k], id);
  }

  lemma BatchIsGood(ss: seq<Store>, es: seq<Event>, k: nat, id: BatchId)
    requires IsRun(ss, es) && k < |ss| && id in ss[k].batches
    ensures GoodRevisions(ss[k].batches[id])
  {
    RunKeepsInv(ss, es, k);
  }

  /** A batch has at most one decision, and once it has one its revisions never change. */
  lemma {:induction false} DecisionIsFinal(ss: seq<Store>, es: seq<Event>, i: nat, k: nat, id: BatchId)
    requires IsRun(ss, es) && i <= k < |ss| && id in ss[i].batches
    ensures GoodRevisions(ss[i].batches[id])
    ensures IsDecided(ss[i], id) ==> id in ss[k].batches && ss[k].batches[id] == ss[i].batches[id]
    decreases k
  {
    BatchIsGood(ss, es, i, id);
    if i < k && IsDecided(ss[i], id) {
      DecisionIsFinal(ss, es, i, k - 1, id);
      RunStepKeepsDecided(ss, es, k - 1, id);
    }
  }

  /** Replaying an accept with the same key and actor returns the same receipt, and changes
      nothing, however far the head has moved since. */
  lemma AcceptReplays(ss: seq<Store>, es: seq<Event>, i: nat, k: nat, access: Access, now: int)
    requires IsRun(ss, es) && i < k < |ss| && es[i].Accepting?
    requires Accept(ss[i], es[i].id, es[i].actor, es[i].key, es[i].access, es[i].now).1.Ok?
    requires access.sourceVerified && access.binding == MayWrite
    ensures Accept(ss[k], es[i].id, es[i].actor, es[i].key, access, now)
         == (ss[k], Accept(ss[i], es[i].id, es[i].actor, es[i].key, es[i].access, es[i].now).1)
  {
    RunKeepsInv(ss, es, i);
    AcceptDecides(ss[i], es[i].id, es[i].actor, es[i].key, es[i].access, es[i].now);
    DecisionIsFinal(ss, es, i + 1, k, es[i].id);
  }

  lemma AcceptDecides(s: Store, id: BatchId, actor: Actor, key: Key, access: Access, now: int)
    requires id in s.batches ==> GoodRevisions(s.batches[id])
    requires Accept(s, id, actor, key, access, now).1.Ok?
    ensures var (s', r) := Accept(s, id, actor, key, access, now);
            IsDecided(s', id) && Replays(s'.batches[id][1], Accepted, actor, key)
            && r == Ok(ReceiptOf(s'.batches[id][1], actor))
  {
  }
}
