/**
 What each legacy operation answers and leaves behind, in terms of the recorded versions, the
 blobs and the lease, for every reachable drawing.
 */
module LegacyAnswers {
  import opened Prelude
  import opened Blobs
  import opened Checkout
  import opened LeaseRule
  import opened VersionChain
  import opened LegacyStore
  import opened LegacyRuns

  ghost predicate NoneUsable(blobs: map<int, Bytes>, from: int, end: int, data: Bytes) {
    forall u | from <= u < end :: !Usable(blobs, u, data)
  }

  /** Without a usable slot the walk ends at the key field's last number or after its last try, whichever is first. */
  lemma {:induction false} SlotErrorIs(blobs: map<int, Bytes>, from: int, tries: nat, data: Bytes)
    ensures var r := FindSlot(blobs, from, tries, data);
            && (r.Err? <==>
                  NoneUsable(blobs, from, if from + tries <= MAX_VERSION then from + tries else MAX_VERSION + 1, data))
            && (r.Err? ==> r.error == if from + tries <= MAX_VERSION then TooManyAbandoned else VersionOverflow)
    decreases tries
  {
    if from <= MAX_VERSION && tries > 0 && !Usable(blobs, from, data) {
      SlotErrorIs(blobs, from + 1, tries - 1, data);
    }
  }

  lemma PutSlotError(s: Store, data: Bytes)
    requires s.manifest.Some?
    ensures var slot := FindSlot(s.blobs, s.manifest.value.latest + 1, MAX_ABANDONED_VERSION_SLOTS, data);
            slot.Err? ==> slot.error == VersionOverflow || slot.error == TooManyAbandoned
  {
    SlotErrorIs(s.blobs, s.manifest.value.latest + 1, MAX_ABANDONED_VERSION_SLOTS, data);
  }

  /** A live lease of somebody else stands in the way. */
  predicate KeptOut(s: Store, claim: Claim, now: int)
    requires s.manifest.Some?
  {
    var lease := s.manifest.value.checkout;
    Live(lease, now) && ClaimsOther(lease.value, claim)
  }

  /** A put, undo or redo of an existing drawing is denied, with nothing changed, exactly when a live lease
      stands and the claim names nobody, another holder or another generation. */
  lemma DeniedIff(s: Store, e: Event)
    requires s.manifest.Some? && ClaimOf(e.op).Some?
    ensures Step(s, e).1 == Failed(CheckoutDenied) <==> KeptOut(s, ClaimOf(e.op).value, e.now)
    ensures Step(s, e).1 == Failed(CheckoutDenied) ==> Step(s, e).0 == s
  {
    AuthorizedIff(s.manifest.value.checkout, ClaimOf(e.op).value, e.now);
    if e.op.Putting? {
      PutSlotError(s, e.op.data);
    }
  }

  /** Without a drawing there is nothing to put to, move or lease. */
  lemma NothingWithoutDrawing(s: Store, e: Event)
    requires s.manifest.None? && !e.op.Ingesting?
    ensures Step(s, e).0 == s && Step(s, e).1.Failed?
    ensures !(e.op.Acquiring? && e.op.holder == ANONYMOUS_HOLDER) ==> Step(s, e).1 == Failed(NoDrawing)
  {
  }

  // Publishing.

  /** An ingest answers version 1 exactly on an empty key space; the drawing is then its one root version.
      Stopped after its blob it leaves that blob alone behind. */
  lemma IngestAnswers(s: Store, data: Bytes, stops: bool)
    ensures var (s', r) := Ingest(s, data, stops);
            && (r == Failed(AlreadyExists) <==> s.manifest.Some?)
            && (r == Failed(BlobExists) <==> s.manifest.None? && 1 in s.blobs)
            && (r == Failed(Interrupted) <==> s.manifest.None? && 1 !in s.blobs && stops)
            && (r == Version(1) <==> s.manifest.None? && 1 !in s.blobs && !stops)
            && (r == Failed(Interrupted) ==> s' == Store(s.blobs[1 := data], None))
            && (r != Version(1) && r != Failed(Interrupted) ==> s' == s && r.Failed?)
            && (r == Version(1) ==>
                  && s'.blobs == s.blobs[1 := data] && s'.manifest.Some?
                  && var m := s'.manifest.value;
                  && m.head == m.latest == 1 && m.checkout.None? && m.checkoutFence.None?
                  && m.versions == [Row(1, None, |data|, Sha256(data))])
  {
  }

  predicate FirstUsable(s: Store, data: Bytes, v: int)
    requires s.manifest.Some?
  {
    && s.manifest.value.latest < v <= s.manifest.value.latest + MAX_ABANDONED_VERSION_SLOTS && v <= MAX_VERSION
    && Usable(s.blobs, v, data)
    && forall u | s.manifest.value.latest < u < v :: !Usable(s.blobs, u, data)
  }

  /** When a put answers with version v, and what the drawing is then: the bytes at v, one more row that
      records them and the given parent, head and latest on it, and nothing else changed. */
  lemma PutAnswers(s: Store, data: Bytes, parent: Option<int>, requireHead: bool, claim: Claim, now: int, v: int)
    requires s.manifest.Some?
    ensures var (s', r) := Put(s, data, parent, requireHead, claim, now, false);
            var m := s.manifest.value;
            && (r == Version(v) <==>
                  !KeptOut(s, claim, now) && (requireHead ==> parent == Some(m.head)) && FirstUsable(s, data, v))
            && (r == Failed(StaleParent) <==> !KeptOut(s, claim, now) && requireHead && parent != Some(m.head))
            && (r == Failed(VersionOverflow) ==> m.latest + MAX_ABANDONED_VERSION_SLOTS >= MAX_VERSION)
            && (!r.Version? ==> s' == s && r.Failed?)
            && (r == Version(v) ==>
                  && s'.blobs.Keys == s.blobs.Keys + {v} && s'.blobs[v] == data
                  && (forall u | u in s.blobs && u != v :: s'.blobs[u] == s.blobs[u])
                  && s'.manifest.Some?
                  && var m' := s'.manifest.value;
                  && m'.head == v && m'.latest == v
                  && m'.checkout == m.checkout && m'.checkoutFence == m.checkoutFence
                  && |m'.versions| == |m.versions| + 1 && m'.versions[..|m.versions|] == m.versions
                  && m'.versions[|m.versions|] == Row(v, parent, |data|, Sha256(data)))
  {
    AuthorizedIff(s.manifest.value.checkout, claim, now);
    SlotErrorIs(s.blobs, s.manifest.value.latest + 1, MAX_ABANDONED_VERSION_SLOTS, data);
    if !KeptOut(s, claim, now) && (requireHead ==> parent == Some(s.manifest.value.head)) {
      PutLandsOnFirstUsable(s, data, parent, requireHead, claim, now, v);
    }
  }

  /** A put that is stopped after its blob leaves the manifest alone. */
  lemma StoppedPutLeavesManifest(s: Store, data: Bytes, parent: Option<int>, requireHead: bool, claim: Claim, now: int)
    ensures var stopped, whole := Put(s, data, parent, requireHead, claim, now, true),
                                  Put(s, data, parent, requireHead, claim, now, false);
            && stopped.0.manifest == s.manifest && stopped.0.blobs == whole.0.blobs
            && (stopped.1 == Failed(Interrupted) <==> whole.1.Version?)
            && (!whole.1.Version? ==> stopped == whole)
  {
    if s.manifest.Some? {
      PutSlotError(s, data);
    }
  }

  // Moving head.

  predicate OnlyHeadMoved(s: Store, s': Store, v: int)
    requires s.manifest.Some?
  {
    s'.blobs == s.blobs && s'.manifest == Some(s.manifest.value.(head := v))
  }

  lemma RowOf(s: Store, v: int)
    requires Inv(s) && s.manifest.Some?
    ensures var rows := s.manifest.value.versions;
            && (FindRow(rows, v).Some? <==> v in ParentsOf(rows))
            && (FindRow(rows, v).Some? ==> FindRow(rows, v).value in rows && FindRow(rows, v).value.v == v)
            && (forall row | row in rows && row.v == v :: FindRow(rows, v) == Some(row))
  {
    var rows := s.manifest.value.versions;
    RowAgreesWithParents(rows, v);
    FindRowFinds(rows, v);
    forall row | row in rows && row.v == v ensures FindRow(rows, v) == Some(row) {
      var found := FindRow(rows, v).value;
      var i :| 0 <= i < |rows| && rows[i] == row;
      var j :| 0 <= j < |rows| && rows[j] == found;
      assert i == j;
    }
  }

  ghost predicate Recorded(s: Store, v: int, parent: Option<int>)
    requires s.manifest.Some?
  {
    exists row :: row in s.manifest.value.versions && row.v == v && row.parent == parent
  }

  lemma ReachableInv(s: Store)
    requires Reachable(s)
    ensures Inv(s)
  {
    var ss, es :| IsRun(ss, es) && ss[|es|] == s;
    RunKeepsInv(ss, es, |es|);
  }

  /** An undo answers v exactly when it is not kept out, head is recorded with parent v, and v is recorded;
      then head moves to v and nothing else changes. */
  lemma UndoAnswers(s: Store, claim: Claim, now: int, v: int)
    requires Reachable(s) && s.manifest.Some?
    ensures var (s', r) := Undo(s, claim, now);
            && (r == Version(v) <==>
                  && !KeptOut(s, claim, now) && Recorded(s, s.manifest.value.head, Some(v))
                  && exists p :: Recorded(s, v, p))
            && (r == Version(v) ==> OnlyHeadMoved(s, s', v))
            && (!r.Version? ==>
                  && s' == s
                  && r == Failed(if KeptOut(s, claim, now) then CheckoutDenied
                                 else if Recorded(s, s.manifest.value.head, None) then NothingToUndo
                                 else UnknownVersion))
  {
    ReachableInv(s);
    var m := s.manifest.value;
    AuthorizedIff(m.checkout, claim, now);
    RowOf(s, m.head);
    RowOf(s, v);
    if FindRow(m.versions, v).Some? {
      assert Recorded(s, v, FindRow(m.versions, v).value.parent);
    }
    if FindRow(m.versions, m.head).Some? {
      assert Recorded(s, m.head, FindRow(m.versions, m.head).value.parent);
    }
  }

  /** A redo answers a recorded version whose parent is the old head and that lies on the way up from latest;
      head moves there and nothing else changes. It does so exactly when it is not kept out and head is not latest. */
  lemma RedoAnswers(s: Store, claim: Claim, now: int)
    requires Reachable(s) && s.manifest.Some?
    ensures var (s', r) := Redo(s, claim, now);
            var m := s.manifest.value;
            && (r.Version? <==> !KeptOut(s, claim, now) && m.head != m.latest)
            && (r.Version? ==>
                  && OnlyHeadMoved(s, s', r.v) && Recorded(s, r.v, Some(m.head))
                  && AncestorOrSelf(ParentsOf(m.versions), r.v, m.latest))
            && (!r.Version? ==>
                  s' == s && r == Failed(if KeptOut(s, claim, now) then CheckoutDenied else NothingToRedo))
  {
    ReachableInv(s);
    var m := s.manifest.value;
    var ps := ParentsOf(m.versions);
    AuthorizedIff(m.checkout, claim, now);
    if Authorized(m.checkout, claim, now) {
      RedoSucceedsIffBehind(s, claim, now);
      var r := Redo(s, claim, now).1;
      if r.Version? {
        var j: nat :| FirstChildAt(ps, m.latest, m.head, j) && RedoTarget(ps, m.latest, m.head) == Up(ps, m.latest, j);
        RowAgreesWithParents(m.versions, r.v);
        FindRowFinds(m.versions, r.v);
        assert Recorded(s, r.v, Some(m.head));
      }
    }
  }

  // The lease.

  /** The generation the manifest counts, or failing that its lease's, or none yet. */
  function LastGeneration(m: Manifest): int {
    if m.checkoutFence.Some? then m.checkoutFence.value
    else if m.checkout.Some? && m.checkout.value.fence.Some? then m.checkout.value.fence.value
    else 0
  }

  /** An acquire is granted exactly to a named holder, when no live lease stands or the caller may take it;
      the generation goes up by one, the lease is the caller's for its time, and nothing else changes. */
  lemma AcquireAnswers(s: Store, holder: string, ttl: int, expected: Option<int>, strict: bool, now: int)
    requires s.manifest.Some?
    ensures var (s', r) := Acquire(s, holder, ttl, expected, strict, now);
            var m := s.manifest.value;
            && (r.Granted? <==>
                  && holder != ANONYMOUS_HOLDER
                  && (Live(m.checkout, now) ==> MayTake(m.checkout.value, holder, expected, strict)))
            && (r.Granted? ==>
                  && r.fence == LastGeneration(m) + 1
                  && s' == s.(manifest := Some(m.(checkout := Some(Lease(holder, now + ttl, Some(r.fence))),
                                                  checkoutFence := Some(r.fence)))))
            && (!r.Granted? ==> s' == s)
            && (!r.Granted? ==> r == if holder == ANONYMOUS_HOLDER then Failed(ReservedHolder) else NotGranted)
  {
    MayAcquireIff(s.manifest.value.checkout, holder, expected, strict, now);
  }

  /** A release succeeds exactly on a lease that has expired or whose owner asks; only the lease goes. */
  lemma ReleaseAnswers(s: Store, holder: Option<string>, expected: Option<int>, now: int)
    requires s.manifest.Some?
    ensures var (s', r) := Release(s, holder, expected, now);
            var m := s.manifest.value;
            && (r == Released <==>
                  m.checkout.Some? && (Live(m.checkout, now) ==> MayGive(m.checkout.value, holder, expected)))
            && s' == (if r == Released then s.(manifest := Some(m.(checkout := None))) else s)
            && (r == Released || r == NotReleased)
  {
    MayReleaseIff(s.manifest.value.checkout, holder, expected, now);
  }
}
