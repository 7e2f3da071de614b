/**
 What each annotation operation answers and leaves behind, in terms of the batch, its target and
 the audit log, at every step of every run.
 */
module AnnotationAnswers {
  import opened Prelude
  import opened Annotations
  import opened AnnotationRuns

  // Decisions.

  predicate Allowed(access: Access) {
    access.sourceVerified && access.binding == MayWrite
  }

  /** The target is where the preview was made from. */
  predicate StandsAt(t: Target, r: Request) {
    && t.version == r.baseVersion && t.repository == r.repository
    && t.at.commit == r.base.commit && t.at.tree == r.base.tree
  }

  /** One batch is decided: its pending revision is superseded by the decision, its slot is free, and one
      audit row says who decided what, and where the target stood before and after. Nothing else of the
      batches, keys and log changes. */
  ghost predicate Decides(s: Store, s': Store, id: BatchId, state: BatchState, actor: Option<Actor>, key: Option<Key>,
                          applied: Option<int>, before: Head, after: Head)
    requires IsPending(s, id)
  {
    var first := s.batches[id][0];
    && s'.batches == s.batches[id := [first.(superseded := true),
                                      first.(number := 1, state := state, decidedBy := actor, decisionKey := key,
                                             appliedVersion := applied)]]
    && s'.pending == s.pending - {(first.request.session, first.request.drawing)}
    && s'.audit == s.audit + [AuditRow(id, 1, first.request.drawing, state, actor, key, before, after)]
    && s'.keys == s.keys && s'.sources == s.sources
  }

  lemma CloseDecides(s: Store, id: BatchId, state: BatchState, actor: Option<Actor>, key: Option<Key>, head: Head)
    requires IsPending(s, id) && GoodRevisions(s.batches[id])
    ensures var s' := Close(s, id, state, actor, key, head);
            Decides(s, s', id, state, actor, key, None, head, head) && s'.targets == s.targets
  {
    OneRevision(s.batches[id], Decided(s.batches[id][0], state, actor, key, None));
  }

  lemma OneRevision(revisions: seq<Revision>, decision: Revision)
    requires |revisions| == 1
    ensures revisions[0 := revisions[0].(superseded := true)] + [decision]
         == [revisions[0].(superseded := true), decision]
  {
  }

  lemma AdvanceDecides(s: Store, id: BatchId, actor: Actor, key: Key)
    requires IsPending(s, id) && GoodRevisions(s.batches[id]) && RequestOf(s, id).drawing in s.targets
    ensures var s' := Advance(s, id, actor, key);
            var first, r := s.batches[id][0], RequestOf(s, id);
            var t := s.targets[r.drawing];
            && Decides(s, s', id, Accepted, Some(actor), Some(key), Some(t.version + 1),
                       Head(t.version, t.at), Head(t.version + 1, r.preview))
            && s'.targets
               == s.targets[r.drawing := Target(t.version + 1, r.repository, r.preview, first.receipt, Some(actor))]
  {
    var t := s.targets[RequestOf(s, id).drawing];
    OneRevision(s.batches[id], Decided(s.batches[id][0], Accepted, Some(actor), Some(key), Some(t.version + 1)));
  }

  lemma PendingFacts(ss: seq<Store>, es: seq<Event>, k: nat, id: BatchId)
    requires IsRun(ss, es) && k < |ss| && IsPending(ss[k], id)
    ensures GoodRevisions(ss[k].batches[id]) && RequestOf(ss[k], id).drawing in ss[k].targets
  {
    RunKeepsInv(ss, es, k);
  }

  /** What a caller who may not decide a pending batch now is told: the role, then the lease, and else that
      there is nothing to be found. */
  function Refusal(access: Access, now: int, first: Revision): Error {
    if access.binding == Forbidden then RoleForbidden
    else if access.binding == MayWrite && first.leaseExpires <= now then LeaseExpired
    else NotFound
  }

  lemma AcceptPending(s: Store, id: BatchId, actor: Actor, key: Key, access: Access, now: int)
    requires IsPending(s, id) && GoodRevisions(s.batches[id]) && RequestOf(s, id).drawing in s.targets
    ensures var (s', a) := Accept(s, id, actor, key, access, now);
            var first, r := s.batches[id][0], RequestOf(s, id);
            var t := s.targets[r.drawing];
            var timely := Allowed(access) && now < first.leaseExpires && access.drawingActive;
            && (a.Ok? <==> timely && StandsAt(t, r))
            && (a == Err(TargetSourceStale) <==> timely && !StandsAt(t, r))
            && (a.Ok? ==>
                  && a.value == Receipt(r.drawing, t.version + 1, r.preview, actor)
                  && s'.targets[r.drawing].version == a.value.version && s'.targets[r.drawing].at == a.value.at
                  && s' == Advance(s, id, actor, key))
            && (a == Err(TargetSourceStale) ==>
                  s' == Close(s, id, Stale, Some(actor), Some(key), Head(t.version, t.at)))
            && (!a.Ok? && a != Err(TargetSourceStale) ==>
                  && s' == s
                  && a.error == if !access.sourceVerified then SourceUnverified else Refusal(access, now, first))
  {
  }

  /** Accepting a pending batch succeeds exactly for an allowed caller, before its lease ends, on an active
      drawing whose target is where the preview was made from. The receipt then names the drawing, the actor,
      the version after the target's, and the preview, and that is where the target now stands. Where the
      target has moved, the batch is closed as stale; in every other case nothing changes. */
  lemma AcceptAnswers(ss: seq<Store>, es: seq<Event>, k: nat)
    requires IsRun(ss, es) && k < |es| && es[k].Accepting? && IsPending(ss[k], es[k].id)
    ensures RequestOf(ss[k], es[k].id).drawing in ss[k].targets
    ensures var s, s', e := ss[k], ss[k + 1], es[k];
            var a := Accept(s, e.id, e.actor, e.key, e.access, e.now).1;
            var first, r := s.batches[e.id][0], RequestOf(s, e.id);
            var t := s.targets[r.drawing];
            var timely := Allowed(e.access) && e.now < first.leaseExpires && e.access.drawingActive;
            && (a.Ok? <==> timely && StandsAt(t, r))
            && (a == Err(TargetSourceStale) <==> timely && !StandsAt(t, r))
            && (a.Ok? ==>
                  && a.value == Receipt(r.drawing, t.version + 1, r.preview, e.actor)
                  && s'.targets == s.targets[r.drawing := Target(t.version + 1, r.repository, r.preview, first.receipt,
                                                                 Some(e.actor))]
                  && Decides(s, s', e.id, Accepted, Some(e.actor), Some(e.key), Some(t.version + 1),
                             Head(t.version, t.at), Head(t.version + 1, r.preview)))
            && (a == Err(TargetSourceStale) ==>
                  && s'.targets == s.targets
                  && Decides(s, s', e.id, Stale, Some(e.actor), Some(e.key), None,
                             Head(t.version, t.at), Head(t.version, t.at)))
            && (!a.Ok? && a != Err(TargetSourceStale) ==>
                  && s' == s
                  && a.error == if !e.access.sourceVerified then SourceUnverified
                                else Refusal(e.access, e.now, first))
  {
    var s, e := ss[k], es[k];
    PendingFacts(ss, es, k, e.id);
    AcceptPending(s, e.id, e.actor, e.key, e.access, e.now);
    AdvanceDecides(s, e.id, e.actor, e.key);
    CloseDecides(s, e.id, Stale, Some(e.actor), Some(e.key), HeadOf(s.targets[RequestOf(s, e.id).drawing]));
  }

  lemma RejectPending(s: Store, id: BatchId, actor: Actor, key: Key, access: Access, now: int)
    requires IsPending(s, id) && GoodRevisions(s.batches[id]) && RequestOf(s, id).drawing in s.targets
    ensures var (s', a) := Reject(s, id, actor, key, access, now);
            var first, r := s.batches[id][0], RequestOf(s, id);
            var t := s.targets[r.drawing];
            var timely := access.binding == MayWrite && now < first.leaseExpires && access.drawingActive;
            && (a.Ok? <==> timely && StandsAt(t, r))
            && (a == Err(TargetSourceStale) <==> timely && !StandsAt(t, r))
            && (a.Ok? || a == Err(TargetSourceStale) ==>
                  s' == Close(s, id, if a.Ok? then Rejected else Stale, Some(actor), Some(key), Head(t.version, t.at)))
            && (a.Ok? ==> a.value == s'.batches[id][1])
            && (!a.Ok? && a != Err(TargetSourceStale) ==> s' == s && a.error == Refusal(access, now, first))
  {
  }

  /** Rejecting a pending batch succeeds under the same conditions, but for the source receipt, and moves
      no target; where the target has moved the batch is closed as stale. */
  lemma RejectAnswers(ss: seq<Store>, es: seq<Event>, k: nat)
    requires IsRun(ss, es) && k < |es| && es[k].Rejecting? && IsPending(ss[k], es[k].id)
    ensures RequestOf(ss[k], es[k].id).drawing in ss[k].targets
    ensures var s, s', e := ss[k], ss[k + 1], es[k];
            var a := Reject(s, e.id, e.actor, e.key, e.access, e.now).1;
            var first, r := s.batches[e.id][0], RequestOf(s, e.id);
            var t := s.targets[r.drawing];
            var timely := e.access.binding == MayWrite && e.now < first.leaseExpires && e.access.drawingActive;
            && (a.Ok? <==> timely && StandsAt(t, r))
            && (a == Err(TargetSourceStale) <==> timely && !StandsAt(t, r))
            && s'.targets == s.targets
            && (a.Ok? || a == Err(TargetSourceStale) ==>
                  Decides(s, s', e.id, if a.Ok? then Rejected else Stale, Some(e.actor), Some(e.key), None,
                          Head(t.version, t.at), Head(t.version, t.at)))
            && (a.Ok? ==> a.value == s'.batches[e.id][1])
            && (!a.Ok? && a != Err(TargetSourceStale) ==> s' == s && a.error == Refusal(e.access, e.now, first))
  {
    var s, e := ss[k], es[k];
    PendingFacts(ss, es, k, e.id);
    RejectPending(s, e.id, e.actor, e.key, e.access, e.now);
    var head := HeadOf(s.targets[RequestOf(s, e.id).drawing]);
    CloseDecides(s, e.id, Stale, Some(e.actor), Some(e.key), head);
    CloseDecides(s, e.id, Rejected, Some(e.actor), Some(e.key), head);
  }

  predicate IsOwn(d: Revision, state: BatchState, actor: Actor, key: Key) {
    d.state == state && d.decidedBy == Some(actor) && d.decisionKey == Some(key)
  }

  lemma AcceptDecided(s: Store, id: BatchId, actor: Actor, key: Key, access: Access, now: int)
    requires IsDecided(s, id) && GoodRevisions(s.batches[id])
    ensures var (s', a) := Accept(s, id, actor, key, access, now);
            var d := s.batches[id][1];
            && s' == s && (a.Ok? <==> Allowed(access) && IsOwn(d, Accepted, actor, key))
            && (a == Err(AlreadyDecided) <==> Allowed(access) && !IsOwn(d, Accepted, actor, key))
            && (a.Ok? ==> a.value == Receipt(d.request.drawing, d.request.baseVersion + 1, d.request.preview, actor))
  {
  }

  lemma RejectDecided(s: Store, id: BatchId, actor: Actor, key: Key, access: Access, now: int)
    requires IsDecided(s, id) && GoodRevisions(s.batches[id])
    ensures var (s', a) := Reject(s, id, actor, key, access, now);
            var d := s.batches[id][1];
            && s' == s && (a.Ok? <==> access.binding == MayWrite && IsOwn(d, Rejected, actor, key))
            && (a == Err(AlreadyDecided) <==> access.binding == MayWrite && !IsOwn(d, Rejected, actor, key))
            && (a.Ok? ==> a.value == d)
  {
  }

  /** A decided batch is never decided again: only its own decision, asked for anew by its own actor under its
      own key, is answered, and nothing changes. */
  lemma DecidedAnswers(ss: seq<Store>, es: seq<Event>, k: nat, id: BatchId, actor: Actor, key: Key, access: Access,
                       now: int)
    requires IsRun(ss, es) && k < |ss| && IsDecided(ss[k], id)
    ensures var (s', a) := Accept(ss[k], id, actor, key, access, now);
            var d := ss[k].batches[id][1];
            && s' == ss[k] && (a.Ok? <==> Allowed(access) && IsOwn(d, Accepted, actor, key))
            && (a == Err(AlreadyDecided) <==> Allowed(access) && !IsOwn(d, Accepted, actor, key))
            && (a.Ok? ==> a.value == Receipt(d.request.drawing, d.request.baseVersion + 1, d.request.preview, actor))
    ensures var (s', a) := Reject(ss[k], id, actor, key, access, now);
            var d := ss[k].batches[id][1];
            && s' == ss[k] && (a.Ok? <==> access.binding == MayWrite && IsOwn(d, Rejected, actor, key))
            && (a == Err(AlreadyDecided) <==> access.binding == MayWrite && !IsOwn(d, Rejected, actor, key))
            && (a.Ok? ==> a.value == d)
  {
    BatchIsGood(ss, es, k, id);
    AcceptDecided(ss[k], id, actor, key, access, now);
    RejectDecided(ss[k], id, actor, key, access, now);
  }

  // Registering.

  /** A registration succeeds exactly for a verified source, an allowed caller and an active drawing that has no
      target yet or one at the very same source; it makes a target at version 0 or changes nothing. */
  lemma RegisterAnswers(s: Store, d: Drawing, repository: string, at: Witness, receipt: Sha, actor: Actor,
                        access: Access)
    ensures var (s', a) := Register(s, d, repository, at, receipt, actor, access);
            && (a.Ok? <==> && Allowed(access) && access.drawingActive
                           && (d in s.targets ==> s.targets[d].repository == repository && s.targets[d].at == at))
            && (a.Ok? ==> d in s'.targets && a.value == s'.targets[d])
            && (a.Ok? && d !in s.targets ==>
                  && s'.targets == s.targets[d := Target(0, repository, at, receipt, Some(actor))]
                  && s' == s.(targets := s'.targets, sources := s.sources[d := s'.targets[d]]))
            && (a.Err? || d in s.targets ==> s' == s)
            && (a.Err? ==>
                  a.error == if !access.sourceVerified then SourceUnverified
                             else if access.binding == Forbidden then RoleForbidden
                             else if access.binding == MayWrite && access.drawingActive then TargetSourceConflict
                             else NotFound)
  {
  }

  // Opening a batch.

  /** The form of a request: an undo and nothing else names what it reverses, and the numbers are in range. */
  predicate WellFormed(r: Request) {
    (r.kind == Undo <==> r.reverses.Some?) && r.baseVersion >= 0 && r.payloadCount >= 1 && r.leaseSeconds >= 1
  }

  /** The batch that holds the request's slot has run out of time. */
  predicate Lapsed(s: Store, r: Request, now: int, id: BatchId) {
    && IsPending(s, id) && (RequestOf(s, id).session, RequestOf(s, id).drawing) == (r.session, r.drawing)
    && s.batches[id][0].leaseExpires <= now
  }

  /** A batch on the request's drawing that failed, or does so by its lapse now. */
  predicate CanRetry(s: Store, r: Request, now: int, id: BatchId) {
    && id in s.batches && |s.batches[id]| > 0 && RequestOf(s, id).drawing == r.drawing
    && (Lapsed(s, r, now, id) || (|s.batches[id]| == 2 && s.batches[id][1].state in {Rejected, Expired, Stale}))
  }

  /** An accepted batch on the request's drawing that left the target where the request starts. */
  predicate CanReverse(s: Store, r: Request, id: BatchId) {
    && IsAccepted(s, id) && RequestOf(s, id).drawing == r.drawing
    && RequestOf(s, id).preview == r.base && s.batches[id][1].appliedVersion == Some(r.baseVersion)
    && r.reversesAt == Some(RequestOf(s, id).preview)
  }

  predicate LinksWell(s: Store, r: Request, now: int) {
    && (r.retryOf.Some? ==> r.reverses.None? && CanRetry(s, r, now, r.retryOf.value))
    && (r.reverses.Some? ==> r.retryOf.None? && CanReverse(s, r, r.reverses.value))
  }

  lemma ExpiryIs(s: Store, r: Request, now: int, head: Head)
    requires Shape(s) && Slots(s)
    ensures var slot := (r.session, r.drawing);
            var s1 := ExpireLapsed(s, r, now, head);
            if slot in s.pending && Lapsed(s, r, now, s.pending[slot])
            then Decides(s, s1, s.pending[slot], Expired, None, None, None, head, head) && s1.targets == s.targets
            else s1 == s
  {
    var slot := (r.session, r.drawing);
    if slot in s.pending {
      CloseDecides(s, s.pending[slot], Expired, None, None, head);
    }
  }

  lemma LinkIff(s: Store, r: Request, now: int, head: Head)
    requires Shape(s) && Slots(s) && WellFormed(r)
    ensures BadLink(ExpireLapsed(s, r, now, head).batches, r).None? <==> LinksWell(s, r, now)
  {
    ExpiryIs(s, r, now, head);
  }

  predicate OnDrawing(s: Store, id: BatchId, d: Drawing) {
    id in s.batches && |s.batches[id]| > 0 && RequestOf(s, id).drawing == d
  }

  /** What a request is told of a link that is not good: that the batch is not there, that it has not failed, that it
      was not accepted, that the target has moved on since, or that the receipt is of another source. */
  lemma LinkRefusal(s: Store, r: Request, now: int, head: Head)
    requires Shape(s) && Slots(s) && WellFormed(r) && !LinksWell(s, r, now)
    ensures var e := BadLink(ExpireLapsed(s, r, now, head).batches, r);
            if r.retryOf.Some? then
              e == Some(if !OnDrawing(s, r.retryOf.value, r.drawing) then NotFound
                        else if !CanRetry(s, r, now, r.retryOf.value) then RetrySourceNotTerminal
                        else UndoSourceNotAccepted)
            else
              var id := r.reverses.value;
              e == Some(if !OnDrawing(s, id, r.drawing) then NotFound
                        else if !IsAccepted(s, id) then UndoSourceNotAccepted
                        else if RequestOf(s, id).preview == r.base
                                && s.batches[id][1].appliedVersion == Some(r.baseVersion) then SourceReceiptMismatch
                        else UndoHeadIntervened)
  {
    ExpiryIs(s, r, now, head);
  }

  /** The slot of the request is free, or is freed by the lapse of the batch that holds it. */
  predicate SlotOpen(s: Store, r: Request, now: int) {
    var slot := (r.session, r.drawing);
    slot in s.pending ==> Lapsed(s, r, now, s.pending[slot])
  }

  lemma SlotIff(s: Store, r: Request, now: int, head: Head)
    requires Shape(s) && Slots(s)
    ensures (r.session, r.drawing) !in ExpireLapsed(s, r, now, head).pending <==> SlotOpen(s, r, now)
    ensures ExpireLapsed(s, r, now, head).batches.Keys == s.batches.Keys
  {
    ExpiryIs(s, r, now, head);
  }

  /** May a request under a new key open a batch with a new id? */
  predicate MayOpen(s: Store, id: BatchId, r: Request, access: Access, now: int) {
    && WellFormed(r) && Allowed(access) && access.sessionActive && access.drawingActive
    && r.drawing in s.targets && StandsAt(s.targets[r.drawing], r)
    && LinksWell(s, r, now) && id !in s.batches && SlotOpen(s, r, now)
  }

  function Opened(r: Request, key: Key, receipt: Sha, now: int): Revision {
    Revision(0, r, key, receipt, now + r.leaseSeconds, Pending, None, None, None, false)
  }

  lemma CreateFresh(s: Store, id: BatchId, r: Request, key: Key, receipt: Sha, access: Access, now: int)
    requires Shape(s) && Slots(s) && key !in s.keys
    ensures var (s', a) := Create(s, id, r, key, receipt, access, now);
            && (a.Ok? <==> MayOpen(s, id, r, access, now))
            && (a.Err? ==> s' == s)
            && (a.Ok? ==>
                  && a.value == Opened(r, key, receipt, now)
                  && s' == Insert(ExpireLapsed(s, r, now, HeadOf(s.targets[r.drawing])), id, a.value))
  {
    if r.drawing in s.targets && WellFormed(r) {
      LinkIff(s, r, now, HeadOf(s.targets[r.drawing]));
      SlotIff(s, r, now, HeadOf(s.targets[r.drawing]));
    }
  }

  /** A request under a new key opens a batch exactly when it is well formed and allowed, the target stands at
      its base, its links are good and its slot is open. The batch is then pending for its lease in that slot
      and under that key, and no target moves; otherwise nothing changes. */
  lemma CreateAnswers(ss: seq<Store>, es: seq<Event>, k: nat)
    requires IsRun(ss, es) && k < |es| && es[k].Creating? && es[k].key !in ss[k].keys
    ensures var s, s', e := ss[k], ss[k + 1], es[k];
            var a := Create(s, e.id, e.request, e.key, e.receipt, e.access, e.now).1;
            && (a.Ok? <==> MayOpen(s, e.id, e.request, e.access, e.now))
            && (a.Err? ==> s' == s)
            && (a.Ok? ==>
                  && a.value == Opened(e.request, e.key, e.receipt, e.now)
                  && e.id in s'.batches && s'.batches[e.id] == [a.value]
                  && (e.request.session, e.request.drawing) in s'.pending
                  && s'.pending[(e.request.session, e.request.drawing)] == e.id
                  && e.key in s'.keys && s'.keys[e.key] == e.id && s'.targets == s.targets)
  {
    var s, e := ss[k], es[k];
    RunKeepsInv(ss, es, k);
    CreateFresh(s, e.id, e.request, e.key, e.receipt, e.access, e.now);
    if e.request.drawing in s.targets {
      ExpiryIs(s, e.request, e.now, HeadOf(s.targets[e.request.drawing]));
    }
  }

  /** What a request under a new key is told when it opens nothing: first its form, then the caller, then that the
      target has moved, then its link, and last that its slot is taken. */
  lemma CreateRefusal(s: Store, id: BatchId, r: Request, key: Key, receipt: Sha, access: Access, now: int)
    requires Shape(s) && Slots(s) && key !in s.keys && !MayOpen(s, id, r, access, now)
    ensures var a := Create(s, id, r, key, receipt, access, now).1;
            && a.Err?
            && (!WellFormed(r) ==> a.error in {UndoSourceRequired, InvalidLink, InvalidBaseVersion,
                                               InvalidPayloadCount, InvalidLease})
            && (WellFormed(r) && !Allowed(access) ==>
                  a.error == if !access.sourceVerified then SourceUnverified
                             else if access.binding == Forbidden then RoleForbidden else NotFound)
            && (WellFormed(r) && Allowed(access) ==>
                  if !access.sessionActive || !access.drawingActive || r.drawing !in s.targets then a.error == NotFound
                  else if !StandsAt(s.targets[r.drawing], r) then a.error == TargetHeadConflict
                  else if LinksWell(s, r, now) then a.error == PendingExists
                  else Some(a.error)
                       == BadLink(ExpireLapsed(s, r, now, HeadOf(s.targets[r.drawing])).batches, r))
  {
    if r.drawing in s.targets && WellFormed(r) {
      LinkIff(s, r, now, HeadOf(s.targets[r.drawing]));
      SlotIff(s, r, now, HeadOf(s.targets[r.drawing]));
    }
  }

  /** Each fault of a request's form, alone, is named. */
  lemma FormRefusal(r: Request)
    ensures BadRequest(r).None? <==> WellFormed(r)
    ensures r.kind == Undo && r.reverses.None? ==> BadRequest(r) == Some(UndoSourceRequired)
    ensures r.kind == Apply && r.reverses.Some? ==> BadRequest(r) == Some(InvalidLink)
    ensures (r.kind == Undo <==> r.reverses.Some?) ==>
              && (r.baseVersion < 0 ==> BadRequest(r) == Some(InvalidBaseVersion))
              && (r.baseVersion >= 0 && r.payloadCount < 1 ==> BadRequest(r) == Some(InvalidPayloadCount))
              && (r.baseVersion >= 0 && r.payloadCount >= 1 && r.leaseSeconds < 1 ==>
                    BadRequest(r) == Some(InvalidLease))
  {
  }

  /** There is nothing to decide about a batch that does not exist. */
  lemma UnknownAnswers(s: Store, id: BatchId, actor: Actor, key: Key, access: Access, now: int)
    requires !Known(s, id)
    ensures Accept(s, id, actor, key, access, now) == (s, Err(NotFound))
    ensures Reject(s, id, actor, key, access, now) == (s, Err(NotFound))
  {
  }

  // Asking again under the same key.

  predicate MadeUnder(s: Store, key: Key, id: BatchId, r: Request) {
    key in s.keys && s.keys[key] == id && Known(s, id) && RequestOf(s, id) == r
  }

  lemma SameKeyAnswers(s: Store, key: Key, made: BatchId, r: Request, id: BatchId, again: Request, receipt: Sha,
                       access: Access, now: int)
    requires MadeUnder(s, key, made, r) && WellFormed(again) && Allowed(access)
    requires access.sessionActive && access.drawingActive
    ensures Create(s, id, again, key, receipt, access, now)
         == (s, if again == r then Ok(Latest(s.batches[made])) else Err(IdempotencyConflict))
  {
  }

  lemma UsedKeyOpensNothing(s: Store, key: Key, made: BatchId, r: Request, id: BatchId, again: Request, receipt: Sha,
                            access: Access, now: int)
    requires MadeUnder(s, key, made, r)
    ensures Create(s, id, again, key, receipt, access, now).0 == s
  {
  }

  lemma DecideKeepsMade(s: Store, b: BatchId, actor: Actor, under: Key, access: Access, now: int,
                        key: Key, id: BatchId, r: Request)
    requires Shape(s) && MadeUnder(s, key, id, r)
    ensures MadeUnder(Accept(s, b, actor, under, access, now).0, key, id, r)
    ensures MadeUnder(Reject(s, b, actor, under, access, now).0, key, id, r)
  {
    DecisionCases(s, b, actor, under, access, now);
    if IsPending(s, b) {
      CloseDecides(s, b, Stale, Some(actor), Some(under), TargetHead(s, b));
      CloseDecides(s, b, Rejected, Some(actor), Some(under), TargetHead(s, b));
      AdvanceDecides(s, b, actor, under);
    }
  }

  lemma OpenedKeepsMade(s: Store, b: BatchId, first: Revision, now: int, head: Head, key: Key, id: BatchId, r: Request)
    requires Shape(s) && Slots(s) && MadeUnder(s, key, id, r) && first.requestKey != key
    requires b !in s.batches
    ensures MadeUnder(Insert(ExpireLapsed(s, first.request, now, head), b, first), key, id, r)
  {
    ExpiryIs(s, first.request, now, head);
  }

  lemma CreateKeepsMade(s: Store, b: BatchId, asked: Request, under: Key, receipt: Sha, access: Access, now: int,
                        key: Key, id: BatchId, r: Request)
    requires Shape(s) && Slots(s) && MadeUnder(s, key, id, r)
    ensures MadeUnder(Create(s, b, asked, under, receipt, access, now).0, key, id, r)
  {
    if under == key {
      UsedKeyOpensNothing(s, key, id, r, b, asked, receipt, access, now);
    } else {
      CreateCases(s, b, asked, under, receipt, access, now);
      if Create(s, b, asked, under, receipt, access, now).0 != s {
        var head := HeadOf(s.targets[asked.drawing]);
        SlotIff(s, asked, now, head);
        OpenedKeepsMade(s, b, Opened(asked, under, receipt, now), now, head, key, id, r);
      }
    }
  }

  lemma StepKeepsMade(s: Store, e: Event, key: Key, id: BatchId, r: Request)
    requires Shape(s) && Slots(s) && MadeUnder(s, key, id, r)
    ensures MadeUnder(Step(s, e), key, id, r)
  {
    match e
    case Registering(_, _, _, _, _, _) =>
    case Creating(b, asked, under, receipt, access, now) =>
      CreateKeepsMade(s, b, asked, under, receipt, access, now, key, id, r);
    case Accepting(b, actor, under, access, now) => DecideKeepsMade(s, b, actor, under, access, now, key, id, r);
    case Rejecting(b, actor, under, access, now) => DecideKeepsMade(s, b, actor, under, access, now, key, id, r);
  }

  lemma {:induction false} StaysMade(ss: seq<Store>, es: seq<Event>, i: nat, k: nat, key: Key, id: BatchId, r: Request)
    requires IsRun(ss, es) && i <= k < |ss| && MadeUnder(ss[i], key, id, r)
    ensures MadeUnder(ss[k], key, id, r)
    decreases k
  {
    if i < k {
      StaysMade(ss, es, i, k - 1, key, id, r);
      RunKeepsInv(ss, es, k - 1);
      StepKeepsMade(ss[k - 1], es[k - 1], key, id, r);
    }
  }

  /** Once a request has opened a batch under a key, the same request under that key is answered with that
      batch as it then stands, and another request under it with a conflict; neither changes anything. */
  lemma CreateReplays(ss: seq<Store>, es: seq<Event>, i: nat, k: nat, id: BatchId, again: Request, receipt: Sha,
                      access: Access, now: int)
    requires IsRun(ss, es) && i < k < |ss| && es[i].Creating? && es[i].key !in ss[i].keys
    requires MayOpen(ss[i], es[i].id, es[i].request, es[i].access, es[i].now)
    requires WellFormed(again) && Allowed(access) && access.sessionActive && access.drawingActive
    ensures es[i].id in ss[k].batches && |ss[k].batches[es[i].id]| > 0
    ensures Create(ss[k], id, again, es[i].key, receipt, access, now)
         == (ss[k], if again == es[i].request then Ok(Latest(ss[k].batches[es[i].id])) else Err(IdempotencyConflict))
  {
    CreateAnswers(ss, es, i);
    StaysMade(ss, es, i + 1, k, es[i].key, es[i].id, es[i].request);
    SameKeyAnswers(ss[k], es[i].key, es[i].id, es[i].request, id, again, receipt, access, now);
  }

  // The audit log.

  predicate RowMatches(s: Store, row: AuditRow) {
    && IsDecided(s, row.batch) && row.revision == 1 && row.drawing == RequestOf(s, row.batch).drawing
    && row.toState == s.batches[row.batch][1].state
    && row.actor == s.batches[row.batch][1].decidedBy && row.decisionKey == s.batches[row.batch][1].decisionKey
  }

  /** The log has exactly one row for every decided batch, and it says who decided what. */
  ghost predicate Ledger(s: Store) {
    && (forall i | 0 <= i < |s.audit| :: RowMatches(s, s.audit[i]))
    && (forall i, j | 0 <= i < j < |s.audit| :: s.audit[i].batch != s.audit[j].batch)
    && (forall id | IsDecided(s, id) :: exists i :: 0 <= i < |s.audit| && s.audit[i].batch == id)
  }

  lemma DecisionKeepsLedger(s: Store, s': Store, id: BatchId, state: BatchState, actor: Option<Actor>, key: Option<Key>,
                            applied: Option<int>, before: Head, after: Head)
    requires Ledger(s) && IsPending(s, id) && Decides(s, s', id, state, actor, key, applied, before, after)
    ensures Ledger(s')
  {
    forall i | 0 <= i < |s'.audit| ensures RowMatches(s', s'.audit[i]) {
      if i < |s.audit| {
        assert RowMatches(s, s.audit[i]);
      }
    }
    forall b | IsDecided(s', b) ensures exists i :: 0 <= i < |s'.audit| && s'.audit[i].batch == b {
      if b == id {
        assert s'.audit[|s.audit|].batch == b;
      } else {
        assert IsDecided(s, b);
        var i :| 0 <= i < |s.audit| && s.audit[i].batch == b;
        assert s'.audit[i].batch == b;
      }
    }
  }

  /** Adding targets, or a batch without a decision, leaves the log as it is. */
  lemma SameLedger(s: Store, s': Store)
    requires Ledger(s) && s'.audit == s.audit
    requires forall b | IsDecided(s, b) :: b in s'.batches && s'.batches[b] == s.batches[b]
    requires forall b | IsDecided(s', b) :: IsDecided(s, b)
    ensures Ledger(s')
  {
    forall i | 0 <= i < |s'.audit| ensures RowMatches(s', s'.audit[i]) {
      assert RowMatches(s, s.audit[i]);
    }
  }

  lemma CloseKeepsLedger(s: Store, id: BatchId, state: BatchState, actor: Option<Actor>, key: Option<Key>, head: Head)
    requires Ledger(s) && IsPending(s, id) && GoodRevisions(s.batches[id])
    ensures Ledger(Close(s, id, state, actor, key, head))
  {
    CloseDecides(s, id, state, actor, key, head);
    DecisionKeepsLedger(s, Close(s, id, state, actor, key, head), id, state, actor, key, None, head, head);
  }

  lemma AdvanceKeepsLedger(s: Store, id: BatchId, actor: Actor, key: Key)
    requires Ledger(s) && IsPending(s, id) && GoodRevisions(s.batches[id]) && RequestOf(s, id).drawing in s.targets
    ensures Ledger(Advance(s, id, actor, key))
  {
    var t := s.targets[RequestOf(s, id).drawing];
    AdvanceDecides(s, id, actor, key);
    DecisionKeepsLedger(s, Advance(s, id, actor, key), id, Accepted, Some(actor), Some(key), Some(t.version + 1),
                        Head(t.version, t.at), Head(t.version + 1, RequestOf(s, id).preview));
  }

  lemma ExpireKeepsLedger(s: Store, r: Request, now: int, head: Head)
    requires Shape(s) && Slots(s) && Ledger(s)
    ensures Ledger(ExpireLapsed(s, r, now, head))
  {
    var slot := (r.session, r.drawing);
    if slot in s.pending {
      CloseKeepsLedger(s, s.pending[slot], Expired, None, None, head);
    }
  }

  lemma InsertKeepsLedger(s: Store, id: BatchId, first: Revision)
    requires Ledger(s) && id !in s.batches
    ensures Ledger(Insert(s, id, first))
  {
    SameLedger(s, Insert(s, id, first));
  }

  /** A batch is opened in place of a lapsed one, if there is one. */
  predicate Opens(s: Store, s': Store, id: BatchId, now: int, first: Revision) {
    && first.request.drawing in s.targets
    && var s1 := ExpireLapsed(s, first.request, now, HeadOf(s.targets[first.request.drawing]));
    id !in s1.batches && s' == Insert(s1, id, first)
  }

  ghost predicate Sound(s: Store) {
    Shape(s) && Slots(s) && Ledger(s)
  }

  lemma OpenedKeepsLedger(s: Store, s': Store, id: BatchId, now: int, first: Revision)
    requires Sound(s) && (s' == s || Opens(s, s', id, now, first))
    ensures Ledger(s')
  {
    if s' != s {
      var head := HeadOf(s.targets[first.request.drawing]);
      ExpireKeepsLedger(s, first.request, now, head);
      InsertKeepsLedger(ExpireLapsed(s, first.request, now, head), id, first);
    }
  }

  lemma CreateOpens(s: Store, id: BatchId, r: Request, key: Key, receipt: Sha, access: Access, now: int)
    ensures var s' := Create(s, id, r, key, receipt, access, now).0;
            s' == s || Opens(s, s', id, now, Opened(r, key, receipt, now))
  {
    CreateCases(s, id, r, key, receipt, access, now);
  }

  lemma CreateKeepsLedger(s: Store, id: BatchId, r: Request, key: Key, receipt: Sha, access: Access, now: int)
    requires Sound(s)
    ensures Ledger(Create(s, id, r, key, receipt, access, now).0)
  {
    CreateOpens(s, id, r, key, receipt, access, now);
    OpenedKeepsLedger(s, Create(s, id, r, key, receipt, access, now).0, id, now, Opened(r, key, receipt, now));
  }

  lemma DecideKeepsLedger(s: Store, id: BatchId, actor: Actor, key: Key, access: Access, now: int)
    requires Shape(s) && Ledger(s)
    ensures Ledger(Accept(s, id, actor, key, access, now).0) && Ledger(Reject(s, id, actor, key, access, now).0)
  {
    DecisionCases(s, id, actor, key, access, now);
    if IsPending(s, id) {
      CloseKeepsLedger(s, id, Stale, Some(actor), Some(key), TargetHead(s, id));
      CloseKeepsLedger(s, id, Rejected, Some(actor), Some(key), TargetHead(s, id));
      AdvanceKeepsLedger(s, id, actor, key);
    }
  }

  lemma RegisterKeepsLedger(s: Store, d: Drawing, repository: string, at: Witness, receipt: Sha, actor: Actor,
                            access: Access)
    requires Ledger(s)
    ensures Ledger(Register(s, d, repository, at, receipt, actor, access).0)
  {
    SameLedger(s, Register(s, d, repository, at, receipt, actor, access).0);
  }

  lemma StepKeepsLedger(s: Store, e: Event)
    requires Sound(s)
    ensures Ledger(Step(s, e))
  {
    match e
    case Registering(d, repository, at, receipt, actor, access) =>
      RegisterKeepsLedger(s, d, repository, at, receipt, actor, access);
    case Creating(id, request, key, receipt, access, now) =>
      CreateKeepsLedger(s, id, request, key, receipt, access, now);
    case Accepting(id, actor, key, access, now) => DecideKeepsLedger(s, id, actor, key, access, now);
    case Rejecting(id, actor, key, access, now) => DecideKeepsLedger(s, id, actor, key, access, now);
  }

  /** In every reachable state the audit log has exactly one row for every decided batch, which names the
      batch, its drawing, the outcome, the actor and the decision key. */
  lemma {:induction false} AuditIsLedger(ss: seq<Store>, es: seq<Event>, k: nat)
    requires IsRun(ss, es) && k < |ss|
    ensures Ledger(ss[k])
  {
    if k > 0 {
      AuditIsLedger(ss, es, k - 1);
      RunKeepsInv(ss, es, k - 1);
      StepKeepsLedger(ss[k - 1], es[k - 1]);
    }
  }
}
