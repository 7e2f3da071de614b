/**
 The annotation batch and target-head authority. A batch is a preview bound to the
 head it was made from; accepting it is a compare-and-set on that head. Every
 decision appends a revision and an audit row in one transaction.
 */
module Annotations {
  import opened Prelude

  type Drawing = nat  // a tenant, organisation, project and drawing together
  type BatchId = nat
  type Session = nat
  type Actor = nat
  type Key = nat      // a tenant and the digest of a request or decision key together
  type Sha = string

  /** An exact immutable source: a commit and its tree. */
  datatype Witness = Witness(commit: Sha, tree: Sha)

  datatype Target = Target(version: nat, repository: string, at: Witness, receipt: Sha, updatedBy: Option<Actor>)

  datatype Kind = Apply | Undo

  datatype BatchState = Pending | Accepted | Rejected | Expired | Stale

  /** What a caller asks for; its fingerprint is taken to be injective, so the request stands for it. */
  datatype Request = Request(
    drawing: Drawing,
    session: Session,
    kind: Kind,
    retryOf: Option<BatchId>,
    reverses: Option<BatchId>,
    baseVersion: int,
    base: Witness,
    preview: Witness,
    reversesAt: Option<Witness>,
    repository: string,
    payload: Sha,
    payloadCount: int,
    createdBy: Actor,
    leaseSeconds: int)

  datatype Revision = Revision(
    number: nat,
    request: Request,
    requestKey: Key,
    receipt: Sha,
    leaseExpires: int,
    state: BatchState,
    decidedBy: Option<Actor>,
    decisionKey: Option<Key>,
    appliedVersion: Option<int>,
    superseded: bool)

  /** A target's head as the audit log records it. */
  datatype Head = Head(version: nat, at: Witness)

  datatype AuditRow = AuditRow(
    batch: BatchId,
    revision: nat,
    drawing: Drawing,
    toState: BatchState,
    actor: Option<Actor>,
    decisionKey: Option<Key>,
    before: Head,
    after: Head)

  /** The tables. `keys` and `pending` are the two unique indexes: the batch made under a request
      key, and the open pending batch of a session on a drawing. `sources` remembers what was
      registered; no operation reads it. */
  datatype Store = Store(
    targets: map<Drawing, Target>,
    batches: map<BatchId, seq<Revision>>,
    keys: map<Key, BatchId>,
    pending: map<(Session, Drawing), BatchId>,
    audit: seq<AuditRow>,
    sources: map<Drawing, Target>)

  const EMPTY := Store(map[], map[], map[], map[], [], map[])

  datatype Binding = Missing | Forbidden | MayWrite

  /** What other authorities answer about the caller and the drawing. */
  datatype Access = Access(sourceVerified: bool, binding: Binding, sessionActive: bool, drawingActive: bool)

  datatype Error =
    | NotFound
    | RoleForbidden
    | SourceUnverified
    | TargetSourceConflict
    | UndoSourceRequired
    | InvalidLink
    | InvalidBaseVersion
    | InvalidPayloadCount
    | InvalidLease
    | IdempotencyConflict
    | TargetHeadConflict
    | RetrySourceNotTerminal
    | UndoSourceNotAccepted
    | UndoHeadIntervened
    | SourceReceiptMismatch
    | PendingExists
    | AlreadyDecided
    | LeaseExpired
    | TargetSourceStale

  /** The stable result of an accepted batch. */
  datatype Receipt = Receipt(drawing: Drawing, version: int, at: Witness, updatedBy: Actor)

  function HeadOf(t: Target): Head {
    Head(t.version, t.at)
  }

  function Latest(revisions: seq<Revision>): Revision
    requires |revisions| > 0
  {
    revisions[|revisions| - 1]
  }

  predicate Known(s: Store, id: BatchId) {
    id in s.batches && |s.batches[id]| > 0
  }

  predicate AtBase(t: Target, r: Request) {
    t.version == r.baseVersion && t.repository == r.repository && t.at == r.base
  }

  function Decided(current: Revision, state: BatchState, actor: Option<Actor>, key: Option<Key>, applied: Option<int>)
    : Revision
  {
    current.(number := current.number + 1, state := state, decidedBy := actor, decisionKey := key,
             appliedVersion := applied)
  }

  /** Supersede the latest revision and append the decision on it. */
  function AppendRevision(s: Store, id: BatchId, decision: Revision): Store
    requires Known(s, id)
  {
    var revisions := s.batches[id];
    var last := |revisions| - 1;
    var r := revisions[last].request;
    s.(batches := s.batches[id := revisions[last := revisions[last].(superseded := true)] + [decision]],
       pending := s.pending - {(r.session, r.drawing)})
  }

  function Audited(s: Store, id: BatchId, decision: Revision, actor: Option<Actor>, before: Head, after: Head): Store {
    s.(audit := s.audit + [AuditRow(id, decision.number, decision.request.drawing, decision.state, actor,
                                    decision.decisionKey, before, after)])
  }

  /** Decide a batch without moving its target. */
  function Close(s: Store, id: BatchId, state: BatchState, actor: Option<Actor>, key: Option<Key>, head: Head): Store
    requires Known(s, id)
  {
    var decision := Decided(Latest(s.batches[id]), state, actor, key, None);
    Audited(AppendRevision(s, id, decision), id, decision, actor, head, head)
  }

  /** A target moved to the preview of the batch accepted on it. */
  function Moved(before: Target, accepted: Revision, actor: Actor): Target {
    Target(before.version + 1, accepted.request.repository, accepted.request.preview, accepted.receipt, Some(actor))
  }

  /** Accept a batch: move its target to the preview. */
  function Advance(s: Store, id: BatchId, actor: Actor, key: Key): Store
    requires Known(s, id) && Latest(s.batches[id]).request.drawing in s.targets
  {
    var current := Latest(s.batches[id]);
    var d := current.request.drawing;
    var before := s.targets[d];
    var after := Moved(before, current, actor);
    var decision := Decided(current, Accepted, Some(actor), Some(key), Some(after.version));
    var moved := AppendRevision(s.(targets := s.targets[d := after]), id, decision);
    Audited(moved, id, decision, Some(actor), HeadOf(before), HeadOf(after))
  }

  // The operations.

  function Register(s: Store, d: Drawing, repository: string, at: Witness, receipt: Sha, actor: Actor, access: Access)
    : (Store, Result<Target, Error>)
  {
    if !access.sourceVerified then (s, Err(SourceUnverified))
    else if access.binding == Missing then (s, Err(NotFound))
    else if access.binding == Forbidden then (s, Err(RoleForbidden))
    else if !access.drawingActive then (s, Err(NotFound))
    else
      var initial := Target(0, repository, at, receipt, Some(actor));
      var s' := if d in s.targets then s
                else s.(targets := s.targets[d := initial], sources := s.sources[d := initial]);
      var current := s'.targets[d];
      if current.repository != repository || current.at != at then (s, Err(TargetSourceConflict))
      else (s', Ok(current))
  }

  function BadRequest(r: Request): Option<Error> {
    if r.kind == Undo && r.reverses.None? then Some(UndoSourceRequired)
    else if r.kind == Apply && r.reverses.Some? then Some(InvalidLink)
    else if r.baseVersion < 0 then Some(InvalidBaseVersion)
    else if r.payloadCount < 1 then Some(InvalidPayloadCount)
    else if r.leaseSeconds < 1 then Some(InvalidLease)
    else None
  }

  function ExpireLapsed(s: Store, r: Request, now: int, head: Head): Store {
    var slot := (r.session, r.drawing);
    if slot in s.pending && Known(s, s.pending[slot]) && Latest(s.batches[s.pending[slot]]).leaseExpires <= now then
      Close(s, s.pending[slot], Expired, None, None, head)
    else s
  }

  /** The batch a request links to must be on the same drawing and in the right state. */
  function BadLink(batches: map<BatchId, seq<Revision>>, r: Request): Option<Error> {
    if r.retryOf.None? && r.reverses.None? then None
    else
      var id := if r.retryOf.Some? then r.retryOf.value else r.reverses.value;
      if id !in batches || batches[id] == [] || Latest(batches[id]).request.drawing != r.drawing then Some(NotFound)
      else
        var linked := Latest(batches[id]);
        if r.retryOf.Some? && linked.state !in {Rejected, Expired, Stale} then Some(RetrySourceNotTerminal)
        else if r.reverses.None? then None
        else if linked.state != Accepted then Some(UndoSourceNotAccepted)
        else if linked.request.preview != r.base || linked.appliedVersion != Some(r.baseVersion) then
          Some(UndoHeadIntervened)
        else if r.reversesAt != Some(linked.request.preview) then Some(SourceReceiptMismatch)
        else None
  }

  function Create(s: Store, id: BatchId, r: Request, key: Key, receipt: Sha, access: Access, now: int)
    : (Store, Result<Revision, Error>)
  {
    if BadRequest(r).Some? then (s, Err(BadRequest(r).value))
    else if !access.sourceVerified then (s, Err(SourceUnverified))
    else if access.binding == Missing then (s, Err(NotFound))
    else if access.binding == Forbidden then (s, Err(RoleForbidden))
    else if !access.sessionActive || !access.drawingActive then (s, Err(NotFound))
    else if key in s.keys && Known(s, s.keys[key]) then
      var made := s.batches[s.keys[key]];
      if made[0].request != r then (s, Err(IdempotencyConflict)) else (s, Ok(Latest(made)))
    else if r.drawing !in s.targets then (s, Err(NotFound))
    else if !AtBase(s.targets[r.drawing], r) then (s, Err(TargetHeadConflict))
    else
      var s1 := ExpireLapsed(s, r, now, HeadOf(s.targets[r.drawing]));
      if BadLink(s1.batches, r).Some? then (s, Err(BadLink(s1.batches, r).value))
      else if id in s1.batches || (r.session, r.drawing) in s1.pending then (s, Err(PendingExists))
      else
        var first := Revision(0, r, key, receipt, now + r.leaseSeconds, Pending, None, None, None, false);
        (s1.(batches := s1.batches[id := [first]], keys := s1.keys[key := id],
             pending := s1.pending[(r.session, r.drawing) := id]),
         Ok(first))
  }

  function ReceiptOf(accepted: Revision, actor: Actor): Receipt {
    Receipt(accepted.request.drawing, if accepted.appliedVersion.Some? then accepted.appliedVersion.value else 0,
            accepted.request.preview, actor)
  }

  predicate Replays(current: Revision, state: BatchState, actor: Actor, key: Key) {
    current.state == state && current.decisionKey == Some(key) && current.decidedBy == Some(actor)
  }

  function Accept(s: Store, id: BatchId, actor: Actor, key: Key, access: Access, now: int)
    : (Store, Result<Receipt, Error>)
  {
    if !Known(s, id) then (s, Err(NotFound))
    else if !access.sourceVerified then (s, Err(SourceUnverified))
    else if access.binding == Missing then (s, Err(NotFound))
    else if access.binding == Forbidden then (s, Err(RoleForbidden))
    else
      var current := Latest(s.batches[id]);
      var d := current.request.drawing;
      if current.state != Pending then
        (s, if Replays(current, Accepted, actor, key) then Ok(ReceiptOf(current, actor)) else Err(AlreadyDecided))
      else if current.leaseExpires <= now then (s, Err(LeaseExpired))
      else if d !in s.targets || !access.drawingActive then (s, Err(NotFound))
      else if !AtBase(s.targets[d], current.request) then
        (Close(s, id, Stale, Some(actor), Some(key), HeadOf(s.targets[d])), Err(TargetSourceStale))
      else
        var s' := Advance(s, id, actor, key);
        (s', Ok(ReceiptOf(Latest(s'.batches[id]), actor)))
  }

  function Reject(s: Store, id: BatchId, actor: Actor, key: Key, access: Access, now: int)
    : (Store, Result<Revision, Error>)
  {
    if !Known(s, id) || access.binding == Missing then (s, Err(NotFound))
    else if access.binding == Forbidden then (s, Err(RoleForbidden))
    else
      var current := Latest(s.batches[id]);
      var d := current.request.drawing;
      if current.state != Pending then
        (s, if Replays(current, Rejected, actor, key) then Ok(current) else Err(AlreadyDecided))
      else if current.leaseExpires <= now then (s, Err(LeaseExpired))
      else if d !in s.targets || !access.drawingActive then (s, Err(NotFound))
      else
        var head := HeadOf(s.targets[d]);
        if !AtBase(s.targets[d], current.request) then
          (Close(s, id, Stale, Some(actor), Some(key), head), Err(TargetSourceStale))
        else
          (Close(s, id, Rejected, Some(actor), Some(key), head),
           Ok(Decided(current, Rejected, Some(actor), Some(key), None)))
  }

  /** The tables, updated in place by one transaction at a time; a refused transaction changes nothing. */
  class Database {
    var targets: map<Drawing, Target>
    var batches: map<BatchId, seq<Revision>>
    var keys: map<Key, BatchId>
    var pending: map<(Session, Drawing), BatchId>
    var audit: seq<AuditRow>
    ghost var sources: map<Drawing, Target>

    ghost function Contents(): Store
      reads this
    {
      Store(targets, batches, keys, pending, audit, sources)
    }

    constructor ()
      ensures Contents() == EMPTY
    {
      targets, batches, keys, pending, audit, sources := map[], map[], map[], map[], [], map[];
    }

    method RegisterTarget(d: Drawing, repository: string, at: Witness, receipt: Sha, actor: Actor, access: Access)
      returns (r: Result<Target, Error>)
      modifies this`targets, this`sources
      ensures (Contents(), r) == Register(old(Contents()), d, repository, at, receipt, actor, access)
    {
      if !access.sourceVerified {
        return Err(SourceUnverified);
      }
      if access.binding != MayWrite {
        return Err(if access.binding == Missing then NotFound else RoleForbidden);
      }
      if !access.drawingActive {
        return Err(NotFound);
      }
      if d !in targets {
        targets := targets[d := Target(0, repository, at, receipt, Some(actor))];
        sources := sources[d := Target(0, repository, at, receipt, Some(actor))];
      }
      if targets[d].repository != repository || targets[d].at != at {
        return Err(TargetSourceConflict);
      }
      return Ok(targets[d]);
    }

    method Supersede(id: BatchId, decision: Revision)
      requires Known(Contents(), id)
      modifies this`batches, this`pending
      ensures Contents() == AppendRevision(old(Contents()), id, decision)
    {
      var revisions := batches[id];
      var last := |revisions| - 1;
      batches := batches[id := revisions[last := revisions[last].(superseded := true)] + [decision]];
      pending := pending - {(revisions[last].request.session, revisions[last].request.drawing)};
    }

    method Record(id: BatchId, decision: Revision, actor: Option<Actor>, before: Head, after: Head)
      modifies this`audit
      ensures Contents() == Audited(old(Contents()), id, decision, actor, before, after)
    {
      audit := audit + [AuditRow(id, decision.number, decision.request.drawing, decision.state, actor,
                                 decision.decisionKey, before, after)];
    }

    method RetireLapsed(request: Request, now: int, head: Head)
      modifies this`batches, this`pending, this`audit
      ensures Contents() == ExpireLapsed(old(Contents()), request, now, head)
    {
      var slot := (request.session, request.drawing);
      if slot in pending && pending[slot] in batches && |batches[pending[slot]]| > 0
         && Latest(batches[pending[slot]]).leaseExpires <= now {
        var lapsed := pending[slot];
        var decision := Decided(Latest(batches[lapsed]), Expired, None, None, None);
        Supersede(lapsed, decision);
        Record(lapsed, decision, None, head, head);
      }
    }

    method CreateBatch(id: BatchId, request: Request, key: Key, receipt: Sha, access: Access, now: int)
      returns (r: Result<Revision, Error>)
      modifies this
      ensures (Contents(), r) == Create(old(Contents()), id, request, key, receipt, access, now)
    {
      var bad := BadRequest(request);
      if bad.Some? {
        return Err(bad.value);
      }
      if !access.sourceVerified {
        return Err(SourceUnverified);
      }
      if access.binding != MayWrite {
        return Err(if access.binding == Missing then NotFound else RoleForbidden);
      }
      if !access.sessionActive || !access.drawingActive {
        return Err(NotFound);
      }
      if key in keys && keys[key] in batches && |batches[keys[key]]| > 0 {
        var made := batches[keys[key]];
        if made[0].request != request {
          return Err(IdempotencyConflict);
        }
        return Ok(Latest(made));
      }
      if request.drawing !in targets {
        return Err(NotFound);
      }
      if !AtBase(targets[request.drawing], request) {
        return Err(TargetHeadConflict);
      }
      var saved := (batches, pending, audit);
      RetireLapsed(request, now, HeadOf(targets[request.drawing]));
      var slot := (request.session, request.drawing);
      bad := BadLink(batches, request);
      if bad.Some? || id in batches || slot in pending {
        batches, pending, audit := saved.0, saved.1, saved.2;  // the transaction rolls back
        return Err(if bad.Some? then bad.value else PendingExists);
      }
      var first := Revision(0, request, key, receipt, now + request.leaseSeconds, Pending, None, None, None, false);
      batches := batches[id := [first]];
      keys := keys[key := id];
      pending := pending[slot := id];
      return Ok(first);
    }

    method AcceptBatch(id: BatchId, actor: Actor, key: Key, access: Access, now: int)
      returns (r: Result<Receipt, Error>)
      modifies this
      ensures (Contents(), r) == Accept(old(Contents()), id, actor, key, access, now)
    {
      if id !in batches || |batches[id]| == 0 {
        return Err(NotFound);
      }
      if !access.sourceVerified {
        return Err(SourceUnverified);
      }
      if access.binding != MayWrite {
        return Err(if access.binding == Missing then NotFound else RoleForbidden);
      }
      var current := Latest(batches[id]);
      var d := current.request.drawing;
      if current.state != Pending {
        if Replays(current, Accepted, actor, key) {
          return Ok(ReceiptOf(current, actor));
        }
        return Err(AlreadyDecided);
      }
      if current.leaseExpires <= now {
        return Err(LeaseExpired);
      }
      if d !in targets || !access.drawingActive {
        return Err(NotFound);
      }
      var before := targets[d];
      if !AtBase(before, current.request) {
        var terminal := Decided(current, Stale, Some(actor), Some(key), None);
        Supersede(id, terminal);
        Record(id, terminal, Some(actor), HeadOf(before), HeadOf(before));
        return Err(TargetSourceStale);
      }
      var after := Moved(before, current, actor);
      targets := targets[d := after];
      var accepted := Decided(current, Accepted, Some(actor), Some(key), Some(after.version));
      Supersede(id, accepted);
      Record(id, accepted, Some(actor), HeadOf(before), HeadOf(after));
      return Ok(ReceiptOf(accepted, actor));
    }

    method RejectBatch(id: BatchId, actor: Actor, key: Key, access: Access, now: int)
      returns (r: Result<Revision, Error>)
      modifies this
      ensures (Contents(), r) == Reject(old(Contents()), id, actor, key, access, now)
    {
      if id !in batches || |batches[id]| == 0 || access.binding == Missing {
        return Err(NotFound);
      }
      if access.binding == Forbidden {
        return Err(RoleForbidden);
      }
      var current := Latest(batches[id]);
      var d := current.request.drawing;
      if current.state != Pending {
        if Replays(current, Rejected, actor, key) {
          return Ok(current);
        }
        return Err(AlreadyDecided);
      }
      if current.leaseExpires <= now {
        return Err(LeaseExpired);
      }
      if d !in targets || !access.drawingActive {
        return Err(NotFound);
      }
      var head := HeadOf(targets[d]);
      var stale := !AtBase(targets[d], current.request);
      var terminal := Decided(current, if stale then Stale else Rejected, Some(actor), Some(key), None);
      Supersede(id, terminal);
      Record(id, terminal, Some(actor), head, head);
      if stale {
        return Err(TargetSourceStale);
      }
      return Ok(terminal);
    }
  }
}
