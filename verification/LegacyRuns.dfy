/** Whole histories of a drawing under the legacy authority. */
module LegacyRuns {
  import opened Prelude
  import opened Blobs
  import opened Checkout
  import opened LeaseRule
  import opened VersionChain
  import opened LegacyStore

  datatype Op =
    | Ingesting(data: Bytes, stops: bool)
    | Putting(data: Bytes, parent: Option<int>, requireParentIsHead: bool, claim: Claim, stops: bool)
    | Undoing(claim: Claim)
    | Redoing(claim: Claim)
    | Acquiring(holder: string, ttl: int, expected: Option<int>, strict: bool)
    | Releasing(named: Option<string>, expected: Option<int>)

  datatype Event = Event(op: Op, now: int)

  ghost function Step(s: Store, e: Event): (Store, Outcome) {
    match e.op
    case Ingesting(data, stops) => Ingest(s, data, stops)
    case Putting(data, parent, requireHead, claim, stops) =>
      Put(s, data, parent, requireHead, claim, e.now, stops)
    case Undoing(claim) => Undo(s, claim, e.now)
    case Redoing(claim) => Redo(s, claim, e.now)
    case Acquiring(holder, ttl, expected, strict) => Acquire(s, holder, ttl, expected, strict, e.now)
    case Releasing(holder, expected) => Release(s, holder, expected, e.now)
  }

  /** A run from the drawing's creation, under any mix of callers and any clock. */
  ghost predicate IsRun(ss: seq<Store>, es: seq<Event>) {
    && |ss| == |es| + 1
    && ss[0] == EMPTY
    && forall i | 0 <= i < |es| :: ss[i + 1] == Step(ss[i], es[i]).0
  }

  ghost predicate Reachable(s: Store) {
    exists ss, es :: IsRun(ss, es) && ss[|es|] == s
  }

  // The manifest's shape.

  ghost predicate Increasing(rows: seq<Row>) {
    forall i, j | 0 <= i < j < |rows| :: rows[i].v < rows[j].v
  }

  ghost predicate Backed(blobs: map<int, Bytes>, row: Row) {
    row.v in blobs && |blobs[row.v]| == row.bytes && Sha256(blobs[row.v]) == row.sha256
  }

  ghost predicate GoodManifest(m: Manifest) {
    && |m.versions| > 0
    && Increasing(m.versions)
    && m.versions[|m.versions| - 1].v == m.latest
    && m.head in ParentsOf(m.versions)
    && AncestorOrSelf(ParentsOf(m.versions), m.head, m.latest)
    && (if m.checkoutFence.None? then m.checkout.None?
        else m.checkout.Some? ==> m.checkout.value.fence == m.checkoutFence)
  }

  ghost predicate Inv(s: Store) {
    s.manifest.Some? ==>
      && GoodManifest(s.manifest.value)
      && forall row | row in s.manifest.value.versions :: Backed(s.blobs, row)
  }

  lemma {:induction false} ParentOfRow(rows: seq<Row>, i: nat)
    requires Increasing(rows) && i < |rows|
    ensures rows[i].v in ParentsOf(rows) && ParentsOf(rows)[rows[i].v] == rows[i].parent
  {
    if i < |rows| - 1 {
      ParentOfRow(rows[..|rows| - 1], i);
    }
  }

  lemma {:induction false} RowOfParent(rows: seq<Row>, v: int)
    requires v in ParentsOf(rows)
    ensures exists r :: r in rows && r.v == v
  {
    var init, last := rows[..|rows| - 1], rows[|rows| - 1];
    if last.v != v {
      RowOfParent(init, v);
      var r :| r in init && r.v == v;
      assert r in rows;
    }
  }

  lemma ParentsOfRows(rows: seq<Row>)
    requires Increasing(rows)
    ensures forall r | r in rows :: r.v in ParentsOf(rows) && ParentsOf(rows)[r.v] == r.parent
    ensures forall v | v in ParentsOf(rows) :: exists r :: r in rows && r.v == v
  {
    forall r | r in rows ensures r.v in ParentsOf(rows) && ParentsOf(rows)[r.v] == r.parent {
      var i :| 0 <= i < |rows| && rows[i] == r;
      ParentOfRow(rows, i);
    }
    forall v | v in ParentsOf(rows) ensures exists r :: r in rows && r.v == v {
      RowOfParent(rows, v);
    }
  }

  lemma {:induction false} FindRowFinds(rows: seq<Row>, v: int)
    ensures FindRow(rows, v).Some? ==> FindRow(rows, v).value in rows && FindRow(rows, v).value.v == v
    ensures FindRow(rows, v).None? ==> forall r | r in rows :: r.v != v
  {
    if rows != [] && rows[0].v != v {
      FindRowFinds(rows[1..], v);
      assert rows == [rows[0]] + rows[1..];
    }
  }

  /** Looking a row up and looking its parent up agree. */
  lemma RowAgreesWithParents(rows: seq<Row>, v: int)
    requires Increasing(rows)
    ensures FindRow(rows, v).Some? <==> v in ParentsOf(rows)
    ensures FindRow(rows, v).Some? ==> FindRow(rows, v).value.parent == ParentsOf(rows)[v]
  {
    ParentsOfRows(rows);
    FindRowFinds(rows, v);
  }

  // The publication slot.

  /** A publication lands on v exactly when v is the first of the next thousand slots,
      within the key field, that is free or holds the same bytes. */
  lemma {:induction false} SlotIsFirstUsable(blobs: map<int, Bytes>, start: int, tries: nat, data: Bytes, v: int)
    ensures FindSlot(blobs, start, tries, data) == Ok(v) <==>
            && start <= v < start + tries && v <= MAX_VERSION
            && Usable(blobs, v, data)
            && forall u | start <= u < v :: !Usable(blobs, u, data)
    decreases tries
  {
    if start <= MAX_VERSION && tries > 0 && !Usable(blobs, start, data) {
      SlotIsFirstUsable(blobs, start + 1, tries - 1, data, v);
    }
  }

  /** A put that may write answers with version v exactly when v is that slot after latest. */
  lemma PutLandsOnFirstUsable(s: Store, data: Bytes, parent: Option<int>, requireHead: bool, claim: Claim, now: int,
                              v: int)
    requires s.manifest.Some? && Authorized(s.manifest.value.checkout, claim, now)
    requires requireHead ==> parent == Some(s.manifest.value.head)
    ensures Put(s, data, parent, requireHead, claim, now, false).1 == Version(v) <==>
            && s.manifest.value.latest < v <= s.manifest.value.latest + MAX_ABANDONED_VERSION_SLOTS && v <= MAX_VERSION
            && Usable(s.blobs, v, data)
            && forall u | s.manifest.value.latest < u < v :: !Usable(s.blobs, u, data)
  {
    SlotIsFirstUsable(s.blobs, s.manifest.value.latest + 1, MAX_ABANDONED_VERSION_SLOTS, data, v);
  }

  lemma AppendKeepsIncreasing(rows: seq<Row>, row: Row)
    requires Increasing(rows)
    requires |rows| > 0 ==> rows[|rows| - 1].v < row.v
    ensures Increasing(rows + [row])
  {
  }

  // Every step keeps the invariant.

  lemma IngestKeepsInv(s: Store, data: Bytes, stops: bool)
    requires Inv(s)
    ensures Inv(Ingest(s, data, stops).0)
  {
    var m := Manifest(1, 1, [Row(1, None, |data|, Sha256(data))], None, None);
    ParentsOfRows(m.versions);
    assert Up(ParentsOf(m.versions), m.latest, 0) == Some(m.head);
    assert m.versions[0] in m.versions;
    assert GoodManifest(m);
  }

  /** Appending a later version and pointing head and latest at it keeps the manifest good. */
  lemma AppendKeepsGood(m: Manifest, row: Row)
    requires GoodManifest(m) && m.latest < row.v
    ensures GoodManifest(m.(head := row.v, latest := row.v, versions := m.versions + [row]))
  {
    AppendKeepsIncreasing(m.versions, row);
    var rows := m.versions + [row];
    ParentsOfRows(rows);
    assert rows[|m.versions|] == row;
    assert Up(ParentsOf(rows), row.v, 0) == Some(row.v);
  }

  lemma WriteKeepsBacked(blobs: map<int, Bytes>, rows: seq<Row>, v: int, data: Bytes)
    requires Usable(blobs, v, data)
    requires forall row | row in rows :: Backed(blobs, row)
    ensures forall row | row in rows :: Backed(blobs[v := data], row)
  {
  }

  function Published(s: Store, data: Bytes, parent: Option<int>, v: int): Store
    requires s.manifest.Some?
  {
    var m := s.manifest.value;
    Store(s.blobs[v := data],
          Some(m.(head := v, latest := v, versions := m.versions + [Row(v, parent, |data|, Sha256(data))])))
  }

  /** A publication does nothing, writes only its blob, or publishes at a usable later slot. */
  lemma PutCases(s: Store, data: Bytes, parent: Option<int>, requireHead: bool, claim: Claim, now: int, stops: bool)
    returns (v: int)
    ensures var s' := Put(s, data, parent, requireHead, claim, now, stops).0;
            || s' == s
            || (s.manifest.Some? && s.manifest.value.latest < v && Usable(s.blobs, v, data)
                && (s' == s.(blobs := s.blobs[v := data]) || s' == Published(s, data, parent, v)))
  {
    v := 0;
    if s.manifest.Some? {
      var start := s.manifest.value.latest + 1;
      var slot := FindSlot(s.blobs, start, MAX_ABANDONED_VERSION_SLOTS, data);
      if slot.Ok? {
        v := slot.value;
        SlotIsFirstUsable(s.blobs, start, MAX_ABANDONED_VERSION_SLOTS, data, v);
      }
    }
  }

  lemma PublishKeepsInv(s: Store, data: Bytes, parent: Option<int>, v: int)
    requires Inv(s) && s.manifest.Some? && s.manifest.value.latest < v && Usable(s.blobs, v, data)
    ensures Inv(s.(blobs := s.blobs[v := data])) && Inv(Published(s, data, parent, v))
  {
    var m, row := s.manifest.value, Row(v, parent, |data|, Sha256(data));
    WriteKeepsBacked(s.blobs, m.versions, v, data);
    AppendKeepsGood(m, row);
    assert Backed(s.blobs[v := data], row);
  }

  lemma PutKeepsInv(s: Store, data: Bytes, parent: Option<int>, requireHead: bool, claim: Claim, now: int, stops: bool)
    requires Inv(s)
    ensures Inv(Put(s, data, parent, requireHead, claim, now, stops).0)
  {
    var v := PutCases(s, data, parent, requireHead, claim, now, stops);
    if s.manifest.Some? && s.manifest.value.latest < v && Usable(s.blobs, v, data) {
      PublishKeepsInv(s, data, parent, v);
    }
  }

  lemma UndoKeepsInv(s: Store, claim: Claim, now: int)
    requires Inv(s)
    ensures Inv(Undo(s, claim, now).0)
  {
    if Undo(s, claim, now).1.Version? {
      var m := s.manifest.value;
      var ps := ParentsOf(m.versions);
      RowAgreesWithParents(m.versions, m.head);
      RowAgreesWithParents(m.versions, ps[m.head].value);
      var k: nat :| Up(ps, m.latest, k) == Some(m.head);
      assert Up(ps, m.latest, k + 1) == ps[m.head];
    }
  }

  lemma RedoKeepsInv(s: Store, claim: Claim, now: int)
    requires Inv(s)
    ensures Inv(Redo(s, claim, now).0)
  {
    if Redo(s, claim, now).1.Version? {
      var m := s.manifest.value;
      var ps := ParentsOf(m.versions);
      var j: nat :| FirstChildAt(ps, m.latest, m.head, j) && RedoTarget(ps, m.latest, m.head) == Up(ps, m.latest, j);
    }
  }

  lemma StepKeepsInv(s: Store, e: Event)
    requires Inv(s)
    ensures Inv(Step(s, e).0)
  {
    match e.op
    case Ingesting(data, stops) => IngestKeepsInv(s, data, stops);
    case Putting(data, parent, requireHead, claim, stops) =>
      PutKeepsInv(s, data, parent, requireHead, claim, e.now, stops);
    case Undoing(claim) => UndoKeepsInv(s, claim, e.now);
    case Redoing(claim) => RedoKeepsInv(s, claim, e.now);
    case Acquiring(_, _, _, _) =>
    case Releasing(_, _) =>
  }

  lemma {:induction false} RunKeepsInv(ss: seq<Store>, es: seq<Event>, k: nat)
    requires IsRun(ss, es) && k < |ss|
    ensures Inv(ss[k])
  {
    if k > 0 {
      RunKeepsInv(ss, es, k - 1);
      StepKeepsInv(ss[k - 1], es[k - 1]);
    }
  }

  /** In every reachable state head is recorded and lies on the way up from latest,
      whatever parent numbers callers recorded. */
  lemma HeadLiesAboveLatest(s: Store)
    requires Reachable(s) && s.manifest.Some?
    ensures var m := s.manifest.value;
            FindRow(m.versions, m.head).Some? && AncestorOrSelf(ParentsOf(m.versions), m.head, m.latest)
  {
    var ss, es :| IsRun(ss, es) && ss[|es|] == s;
    RunKeepsInv(ss, es, |es|);
    RowAgreesWithParents(s.manifest.value.versions, s.manifest.value.head);
  }

  /** So an authorized redo moves head exactly when head is not already the latest version. */
  lemma RedoSucceedsIffBehind(s: Store, claim: Claim, now: int)
    requires Reachable(s) && s.manifest.Some? && Authorized(s.manifest.value.checkout, claim, now)
    ensures Redo(s, claim, now).1.Version? <==> s.manifest.value.head != s.manifest.value.latest
  {
    HeadLiesAboveLatest(s);
    var m := s.manifest.value;
    var ps := ParentsOf(m.versions);
    RedoTargetExists(ps, m.latest, m.head);
    var k: nat :| Up(ps, m.latest, k) == Some(m.head);
  }

  // Write-once blobs.

  lemma StepKeepsBlobs(s: Store, e: Event)
    ensures forall v | v in s.blobs :: v in Step(s, e).0.blobs && Step(s, e).0.blobs[v] == s.blobs[v]
  {
    if e.op.Putting? && s.manifest.Some? {
      var m := s.manifest.value;
      var slot := FindSlot(s.blobs, m.latest + 1, MAX_ABANDONED_VERSION_SLOTS, e.op.data);
      if slot.Ok? {
        SlotIsFirstUsable(s.blobs, m.latest + 1, MAX_ABANDONED_VERSION_SLOTS, e.op.data, slot.value);
      }
    }
  }

  lemma {:induction false} RunKeepsBlobs(ss: seq<Store>, es: seq<Event>, i: nat, k: nat)
    requires IsRun(ss, es) && i <= k < |ss|
    ensures forall v | v in ss[i].blobs :: v in ss[k].blobs && ss[k].blobs[v] == ss[i].blobs[v]
    decreases k
  {
    if i < k {
      RunKeepsBlobs(ss, es, i, k - 1);
      StepKeepsBlobs(ss[k - 1], es[k - 1]);
    }
  }

  /** No version blob is ever overwritten, and every manifest row describes the blob at
      its key, although any publication may stop between the two writes. */
  lemma BlobsAreWriteOnce(ss: seq<Store>, es: seq<Event>)
    requires IsRun(ss, es)
    ensures forall i, k, v | 0 <= i <= k < |ss| && v in ss[i].blobs ::
              v in ss[k].blobs && ss[k].blobs[v] == ss[i].blobs[v]
    ensures forall k | 0 <= k < |ss| && ss[k].manifest.Some? ::
              forall row | row in ss[k].manifest.value.versions :: Backed(ss[k].blobs, row)
  {
    forall i, k, v | 0 <= i <= k < |ss| && v in ss[i].blobs
      ensures v in ss[k].blobs && ss[k].blobs[v] == ss[i].blobs[v]
    {
      RunKeepsBlobs(ss, es, i, k);
    }
    forall k | 0 <= k < |ss|
      ensures Inv(ss[k])
    {
      RunKeepsInv(ss, es, k);
    }
  }

  // Fencing.

  function Generation(s: Store): int {
    if s.manifest.Some? && s.manifest.value.checkoutFence.Some? then s.manifest.value.checkoutFence.value else 0
  }

  lemma StepFence(s: Store, e: Event)
    requires Inv(s)
    ensures Generation(s) <= Generation(Step(s, e).0)
    ensures Step(s, e).1.Granted? ==> Generation(s) < Step(s, e).1.fence == Generation(Step(s, e).0)
  {
  }

  lemma {:induction false} GenerationGrows(ss: seq<Store>, es: seq<Event>, i: nat, k: nat)
    requires IsRun(ss, es) && i <= k < |ss|
    ensures Generation(ss[i]) <= Generation(ss[k])
    decreases k
  {
    if i < k {
      GenerationGrows(ss, es, i, k - 1);
      RunKeepsInv(ss, es, k - 1);
      StepFence(ss[k - 1], es[k - 1]);
    }
  }

  ghost predicate GrantedAt(ss: seq<Store>, es: seq<Event>, i: nat, fence: int)
    requires IsRun(ss, es)
  {
    i < |es| && Step(ss[i], es[i]).1 == Granted(fence)
  }

  /** Every successful acquire returns a larger generation than all earlier ones. */
  lemma FencesStrictlyIncrease(ss: seq<Store>, es: seq<Event>, i: nat, f: int, j: nat, g: int)
    requires IsRun(ss, es) && i < j && GrantedAt(ss, es, i, f) && GrantedAt(ss, es, j, g)
    ensures f < g
  {
    RunKeepsInv(ss, es, i);
    RunKeepsInv(ss, es, j);
    StepFence(ss[i], es[i]);
    StepFence(ss[j], es[j]);
    GenerationGrows(ss, es, i + 1, j);
  }

  predicate Carries(op: Op, fence: int) {
    match op
    case Putting(_, _, _, claim, _) => claim.fence == Some(fence)
    case Undoing(claim) => claim.fence == Some(fence)
    case Redoing(claim) => claim.fence == Some(fence)
    case _ => false
  }

  /** A put, undo or redo that carries an older generation is refused, and changes
      nothing, while a newer lease is live: also under the same holder name. */
  lemma StaleFenceIsRefused(ss: seq<Store>, es: seq<Event>, i: nat, f: int, j: nat, g: int, k: nat)
    requires IsRun(ss, es) && i < j < k < |es|
    requires GrantedAt(ss, es, i, f) && GrantedAt(ss, es, j, g)
    requires Carries(es[k].op, f)
    requires ss[k].manifest.Some? && IsActive(ss[k].manifest.value.checkout, es[k].now)
    ensures Step(ss[k], es[k]) == (ss[k], Failed(CheckoutDenied))
  {
    FencesStrictlyIncrease(ss, es, i, f, j, g);
    RunKeepsInv(ss, es, j);
    StepFence(ss[j], es[j]);
    GenerationGrows(ss, es, j + 1, k);
    RunKeepsInv(ss, es, k);
  }

  // The lease.

  function ClaimOf(op: Op): Option<Claim> {
    match op
    case Putting(_, _, _, claim, _) => Some(claim)
    case Undoing(claim) => Some(claim)
    case Redoing(claim) => Some(claim)
    case _ => None
  }

  /** The caller is, or does not deny being, the owner of the lease. */
  predicate ByOwner(op: Op, lease: Lease) {
    match op
    case Acquiring(name, _, expected, strict) => MayTake(lease, name, expected, strict)
    case Releasing(named, expected) => MayGive(lease, named, expected)
    case _ => ClaimOf(op).Some? && !ClaimsOther(lease, ClaimOf(op).value)
  }

  predicate HasLease(s: Store, lease: Lease) {
    s.manifest.Some? && s.manifest.value.checkout == Some(lease)
  }

  lemma StepUnderLease(s: Store, e: Event, lease: Lease)
    requires HasLease(s, lease) && e.now < lease.expires
    ensures !ByOwner(e.op, lease) ==> Step(s, e).0 == s
    ensures e.op.Acquiring? || e.op.Releasing? || HasLease(Step(s, e).0, lease)
  {
  }

  lemma GrantGivesLease(s: Store, e: Event)
    requires e.op.Acquiring? && Step(s, e).1.Granted?
    ensures HasLease(Step(s, e).0, Lease(e.op.holder, e.now + e.op.ttl, Some(Step(s, e).1.fence)))
  {
  }

  /** Single writer: from the grant of a lease until it expires, or its owner takes it anew or
      releases it, the lease stands and no one but its owner changes anything about the drawing. */
  lemma {:induction false} LeaseIsExclusive(ss: seq<Store>, es: seq<Event>, i: nat, k: nat, lease: Lease)
    requires IsRun(ss, es) && i < k < |ss| && es[i].op.Acquiring? && Step(ss[i], es[i]).1.Granted?
    requires lease == Lease(es[i].op.holder, es[i].now + es[i].op.ttl, Some(Step(ss[i], es[i]).1.fence))
    requires forall n | i < n < k :: es[n].now < lease.expires
    requires forall n | i < n < k && (es[n].op.Acquiring? || es[n].op.Releasing?) ::
               !ByOwner(es[n].op, lease)
    ensures HasLease(ss[k], lease)
    ensures k < |es| && es[k].now < lease.expires && !ByOwner(es[k].op, lease) ==>
              ss[k + 1] == ss[k]
    decreases k
  {
    if k == i + 1 {
      GrantGivesLease(ss[i], es[i]);
    } else {
      LeaseIsExclusive(ss, es, i, k - 1, lease);
      StepUnderLease(ss[k - 1], es[k - 1], lease);
    }
    if k < |es| && es[k].now < lease.expires {
      StepUnderLease(ss[k], es[k], lease);
    }
  }

  // Undo and redo.

  ghost function Undos(s: Store, k: nat, claim: Claim, now: int): Store {
    if k == 0 then s else Undo(Undos(s, k - 1, claim, now), claim, now).0
  }

  ghost function Redos(s: Store, k: nat, claim: Claim, now: int): Store
    decreases k
  {
    if k == 0 then s else Redos(Redo(s, claim, now).0, k - 1, claim, now)
  }

  function WithHead(s: Store, v: int): Store
    requires s.manifest.Some?
  {
    s.(manifest := Some(s.manifest.value.(head := v)))
  }

  lemma {:induction false} UndosClimb(s: Store, k: nat, claim: Claim, now: int)
    requires Inv(s) && s.manifest.Some? && Authorized(s.manifest.value.checkout, claim, now)
    requires ParentsEarlier(ParentsOf(s.manifest.value.versions))
    requires Up(ParentsOf(s.manifest.value.versions), s.manifest.value.head, k).Some?
    ensures Undos(s, k, claim, now)
         == WithHead(s, Up(ParentsOf(s.manifest.value.versions), s.manifest.value.head, k).value)
  {
    if k > 0 {
      var rows := s.manifest.value.versions;
      UndosClimb(s, k - 1, claim, now);
      var below := Up(ParentsOf(rows), s.manifest.value.head, k - 1).value;
      RowAgreesWithParents(rows, below);
      RowAgreesWithParents(rows, ParentsOf(rows)[below].value);
    }
  }

  lemma {:induction false} RedosDescend(s: Store, n: nat, k: nat, claim: Claim, now: int)
    requires s.manifest.Some? && Authorized(s.manifest.value.checkout, claim, now)
    requires var ps := ParentsOf(s.manifest.value.versions);
             ParentsEarlier(ps) && s.manifest.value.latest in ps
             && Up(ps, s.manifest.value.latest, n + k) == Some(s.manifest.value.head)
    ensures Up(ParentsOf(s.manifest.value.versions), s.manifest.value.latest, n).Some?
    ensures Redos(s, k, claim, now)
         == WithHead(s, Up(ParentsOf(s.manifest.value.versions), s.manifest.value.latest, n).value)
    decreases k
  {
    var m := s.manifest.value;
    var ps := ParentsOf(m.versions);
    if k > 0 {
      RedoStepsBack(ps, m.latest, n + k);
      UpDescends(ps, m.latest, 0, n + k);
      var s' := Redo(s, claim, now).0;
      assert s' == WithHead(s, Up(ps, m.latest, n + k - 1).value);
      RedosDescend(s', n, k - 1, claim, now);
    }
  }

  /** In a history whose recorded parents are earlier recorded versions, k undos and then
      k redos give back the very same drawing, for every k up to the depth of head. */
  lemma UndosThenRedosRestore(s: Store, k: nat, claim: Claim, now: int)
    requires Reachable(s) && s.manifest.Some? && Authorized(s.manifest.value.checkout, claim, now)
    requires ParentsEarlier(ParentsOf(s.manifest.value.versions))
    requires Up(ParentsOf(s.manifest.value.versions), s.manifest.value.head, k).Some?
    ensures Redos(Undos(s, k, claim, now), k, claim, now) == s
  {
    var ss, es :| IsRun(ss, es) && ss[|es|] == s;
    RunKeepsInv(ss, es, |es|);
    var m := s.manifest.value;
    var ps := ParentsOf(m.versions);
    ParentsOfRows(m.versions);
    assert m.versions[|m.versions| - 1] in m.versions;
    var n: nat :| Up(ps, m.latest, n) == Some(m.head);
    UpAdds(ps, m.latest, n, k);
    UndosClimb(s, k, claim, now);
    RedosDescend(Undos(s, k, claim, now), n, k, claim, now);
  }

  /** The rows after a publication on head: the new version is the child of head that redo finds. */
  lemma NewBranch(m: Manifest, row: Row)
    requires GoodManifest(m) && m.latest < row.v && row.parent == Some(m.head)
    ensures var rows := m.versions + [row];
            && FindRow(rows, row.v).Some? && FindRow(rows, row.v).value.parent == Some(m.head)
            && FindRow(rows, m.head).Some?
            && RedoTarget(ParentsOf(rows), row.v, m.head) == Some(row.v)
  {
    var rows := m.versions + [row];
    var ps := ParentsOf(rows);
    AppendKeepsIncreasing(m.versions, row);
    ParentOfRow(rows, |m.versions|);
    assert rows[..|m.versions|] == m.versions;
    RowAgreesWithParents(rows, row.v);
    RowAgreesWithParents(rows, m.head);
    assert Up(ps, row.v, 0) == Some(row.v);
    assert FirstChildAt(ps, row.v, m.head, 0);
    RedoTargetIs(ps, row.v, m.head, 0);
  }

  lemma HeadIsNotAfterLatest(m: Manifest)
    requires GoodManifest(m)
    ensures m.head <= m.latest
  {
    RowOfParent(m.versions, m.head);
    var r :| r in m.versions && r.v == m.head;
    var i :| 0 <= i < |m.versions| && m.versions[i] == r;
  }

  /** A put on the current head after an undo starts a new branch, and undo then redo
      come back to it, not to the version that was undone. */
  lemma RedoFollowsNewBranch(s: Store, data: Bytes, claim: Claim, now: int)
    requires Reachable(s) && s.manifest.Some?
    requires Put(s, data, Some(s.manifest.value.head), true, claim, now, false).1.Version?
    ensures var (s1, published) := Put(s, data, Some(s.manifest.value.head), true, claim, now, false);
            var (s2, undone) := Undo(s1, claim, now);
            var (s3, redone) := Redo(s2, claim, now);
            undone == Version(s.manifest.value.head) && redone == published && s3 == s1
  {
    var ss, es :| IsRun(ss, es) && ss[|es|] == s;
    RunKeepsInv(ss, es, |es|);
    var (s1, published) := Put(s, data, Some(s.manifest.value.head), true, claim, now, false);
    var m := s.manifest.value;
    var v := published.v;
    SlotIsFirstUsable(s.blobs, m.latest + 1, MAX_ABANDONED_VERSION_SLOTS, data, v);
    NewBranch(m, Row(v, Some(m.head), |data|, Sha256(data)));
    HeadIsNotAfterLatest(m);
  }
}
