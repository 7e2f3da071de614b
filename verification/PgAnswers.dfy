/**
 What each transaction of the PostgreSQL authority answers and leaves behind, in terms of the
 rows, the lease and the chain of ready versions, for every reachable state.
 */
module PgAnswers {
  import opened Prelude
  import opened Blobs
  import opened Checkout
  import opened VersionChain
  import opened PgStore
  import opened PgRuns

  // The lease rule.

  predicate Leased(m: ManifestRow, now: int) {
    m.checkout.Some? && now < m.checkout.value.expires
  }

  /** A live lease stands, and the caller names nobody, another holder or another generation. */
  predicate KeptOut(m: ManifestRow, claim: Claim, now: int) {
    && Leased(m, now)
    && (|| claim.holder == Some(ANONYMOUS_HOLDER)
        || (claim.holder.Some? && claim.holder.value != m.checkout.value.holder)
        || (claim.fence.Some? && claim.fence.value != m.fence))
  }

  lemma AuthorizedIff(m: ManifestRow, claim: Claim, now: int)
    ensures Authorized(LeaseOf(m), claim, now) <==> !KeptOut(m, claim, now)
    ensures IsActive(LeaseOf(m), now) <==> Leased(m, now)
  {
  }

  /** On a drawing with a head, a reservation, undo or redo is denied, with nothing changed, exactly
      when it is kept out. */
  lemma DeniedIff(s: State, e: Event)
    requires Reachable(s) && Enabled(s, e) && HeadOf(s).Some? && ClaimOf(e).Some?
    ensures IsDenied(s, e) <==> KeptOut(s.tables.manifest.value, ClaimOf(e).value, e.now)
    ensures IsDenied(s, e) ==> Step(s, e) == s
  {
    ReachableKeepsInv(s);
    AuthorizedIff(s.tables.manifest.value, ClaimOf(e).value, e.now);
  }

  /** Before its first publication a drawing can be neither put to nor moved, and nothing changes. */
  lemma NothingBeforePublication(t: Tables, data: Bytes, parent: Option<int>, claim: Claim, now: int)
    requires t.manifest.None? || t.manifest.value.head.None?
    ensures Reserve(t, data, parent, claim, now) == (t, Err(NoDrawing))
    ensures Undo(t, claim, now) == (t, Err(NoDrawing)) && Redo(t, claim, now) == (t, Err(NoDrawing))
  {
  }

  // Publishing.

  /** The first reservation is made on an empty drawing, or taken over from a lapsed one of the same bytes. */
  lemma FirstReservationAnswers(t: Tables, data: Bytes, token: nat, now: int)
    requires GoodTables(t)
    ensures var (t', r) := IngestReserve(t, data, token, now);
            && (r == Err(AlreadyExists) <==> t.manifest.Some? && t.manifest.value.head.Some?)
            && (r == Err(ReservationActive) <==>
                  && t.manifest.Some? && t.manifest.value.head.None? && t.versions[1].reservation.Some?
                  && t.versions[1].bytes == |data| && t.versions[1].sha256 == Sha256(data)
                  && now < t.versions[1].reservation.value.expires)
            && (r.Err? ==> r.error in {AlreadyExists, ReservationActive, ReservationMismatch})
            && (t.manifest.None? ==> r.Ok?)
            && (t.manifest.Some? && t.manifest.value.head.None? ==>
                  var first := t.versions[1];
                  r.Ok? <==> && first.reservation.Some? && first.reservation.value.expires <= now
                             && first.bytes == |data| && first.sha256 == Sha256(data))
            && (r.Err? ==> t' == t)
            && (r.Ok? ==>
                  && t'.manifest.Some? && t'.manifest.value.head.None? && t'.manifest.value.latest == 1
                  && (t.manifest.None? ==> t'.manifest.value.checkout.None? && t'.manifest.value.fence == 0)
                  && (t.manifest.Some? ==> t'.manifest == t.manifest)
                  && t'.versions == map[1 := VersionRow(None, |data|, Sha256(data), Reserved,
                                                        Some(Reservation(token, now + 60_000_000)))])
  {
    if t.manifest.Some? && t.manifest.value.head.None? {
      assert forall v :: v in t.versions <==> v == 1;
    }
  }

  /** The first version is published exactly by the holder of its unexpired reservation. */
  lemma FirstPublicationAnswers(t: Tables, token: nat, now: int)
    requires GoodTables(t)
    ensures var (t', r) := IngestFinalize(t, token, now);
            && (r.Ok? <==> && t.manifest.Some? && t.manifest.value.head.None?
                           && t.versions[1].reservation.Some? && t.versions[1].reservation.value.token == token
                           && now < t.versions[1].reservation.value.expires)
            && (r.Err? ==> t' == t && r.error == ReservationReclaimed)
            && (r.Ok? ==>
                  && t'.manifest == Some(t.manifest.value.(head := Some(1)))
                  && t'.versions == t.versions[1 := t.versions[1].(state := Ready, reservation := None)])
  {
  }

  /** A reservation is made exactly for a caller under a live lease that is not kept out, on the current
      head, within the key field; it takes the next number and records bytes, digest and parent. */
  lemma ReservationAnswers(t: Tables, data: Bytes, parent: Option<int>, claim: Claim, now: int)
    requires t.manifest.Some? && t.manifest.value.head.Some?
    ensures var (t', r) := Reserve(t, data, parent, claim, now);
            var m := t.manifest.value;
            && (r == Err(NoActiveCheckout) <==> !Leased(m, now))
            && (r == Err(CheckoutDenied) <==> KeptOut(m, claim, now))
            && (r == Err(StaleHead) <==> Leased(m, now) && !KeptOut(m, claim, now) && parent != m.head)
            && (r.Err? ==> r.error in {NoActiveCheckout, CheckoutDenied, StaleHead, VersionOverflow})
            && (r.Ok? <==>
                  Leased(m, now) && !KeptOut(m, claim, now) && parent == m.head && m.latest < MAX_VERSION)
            && (r.Err? ==> t' == t)
            && (r.Ok? ==>
                  && r.value == Ticket(m.latest + 1, m.head.value, m.checkout.value.holder, m.fence)
                  && t'.manifest == Some(m.(latest := m.latest + 1))
                  && t'.versions ==
                     t.versions[m.latest + 1 := VersionRow(parent, |data|, Sha256(data), Reserved, None)])
  {
    AuthorizedIff(t.manifest.value, claim, now);
  }

  /** The ticket's head, holder and generation are still the manifest's, and its lease is live. */
  predicate StillCurrent(m: ManifestRow, k: Ticket, now: int) {
    m.head == Some(k.expected) && Leased(m, now) && m.checkout.value.holder == k.holder && m.fence == k.fence
  }

  /** A finalization publishes exactly while its ticket is current: its version becomes ready and head.
      Otherwise the version is orphaned and head stays. */
  lemma FinalizationAnswers(t: Tables, k: Ticket, now: int)
    requires t.manifest.Some? && k.version in t.versions && t.versions[k.version].state == Reserved
    ensures var (t', published) := Finalize(t, k, now);
            && (published <==> StillCurrent(t.manifest.value, k, now))
            && t'.manifest ==
               Some(t.manifest.value.(head := if published then Some(k.version) else t.manifest.value.head))
            && t'.versions
               == t.versions[k.version := t.versions[k.version].(state := if published then Ready else Orphaned)]
  {
  }

  // Failed publications.

  lemma StepKeepsOrphan(s: State, e: Event, v: int)
    requires Inv(s) && Enabled(s, e) && v in s.tables.versions && s.tables.versions[v].state == Orphaned
    ensures v in Step(s, e).tables.versions && Step(s, e).tables.versions[v] == s.tables.versions[v]
  {
  }

  lemma {:induction false} OrphanStays(ss: seq<State>, es: seq<Event>, i: nat, k: nat, v: int)
    requires IsRun(ss, es) && i <= k < |ss|
    requires v in ss[i].tables.versions && ss[i].tables.versions[v].state == Orphaned
    ensures v in ss[k].tables.versions && ss[k].tables.versions[v] == ss[i].tables.versions[v]
    decreases k
  {
    if i < k {
      OrphanStays(ss, es, i, k - 1, v);
      RunKeepsInv(ss, es, k - 1);
      StepKeepsOrphan(ss[k - 1], es[k - 1], v);
    }
  }

  /** The put of writer w fails at this step: its upload raised, or its ticket is no longer current. */
  predicate FailsAt(s: State, e: Event, w: WriterId) {
    && w in s.writers && s.writers[w].Publisher?
    && (|| e == OrphanPut(w)
        || (e.EndPut? && e.w == w && s.tables.manifest.Some?
            && !StillCurrent(s.tables.manifest.value, s.writers[w].ticket, e.now)))
  }

  lemma FailureOrphans(s: State, e: Event, w: WriterId)
    requires Inv(s) && Enabled(s, e) && FailsAt(s, e, w)
    ensures var v := s.writers[w].ticket.version;
            v in Step(s, e).tables.versions && Step(s, e).tables.versions[v].state == Orphaned
    ensures w !in Step(s, e).writers && HeadOf(Step(s, e)) == HeadOf(s)
  {
    FinalizationAnswers(s.tables, s.writers[w].ticket, 0);
  }

  /** A put that fails leaves its version orphaned for ever, and head where it was. */
  lemma FailedPutStaysOrphaned(ss: seq<State>, es: seq<Event>, i: nat, k: nat, w: WriterId)
    requires IsRun(ss, es) && i < k < |ss| && FailsAt(ss[i], es[i], w)
    ensures var v := ss[i].writers[w].ticket.version;
            v in ss[k].tables.versions && ss[k].tables.versions[v].state == Orphaned
    ensures HeadOf(ss[i + 1]) == HeadOf(ss[i])
  {
    RunKeepsInv(ss, es, i);
    FailureOrphans(ss[i], es[i], w);
    OrphanStays(ss, es, i + 1, k, ss[i].writers[w].ticket.version);
  }

  // Moving head.

  predicate OnlyHeadMoved(t: Tables, t': Tables, v: int)
    requires t.manifest.Some?
  {
    t' == t.(manifest := Some(t.manifest.value.(head := Some(v))))
  }

  /** The newest ready version. */
  ghost predicate IsNewest(t: Tables, n: int) {
    IsReady(t.versions, n) && forall v | IsReady(t.versions, v) :: v <= n
  }

  lemma {:induction false} MaxReadyIsReady(vs: map<int, VersionRow>, n: int, v: int)
    requires IsReady(vs, v) && 1 <= v <= n
    ensures IsReady(vs, MaxReady(vs, n)) && v <= MaxReady(vs, n) <= n
    decreases n
  {
    if !IsReady(vs, n) {
      MaxReadyIsReady(vs, n - 1, v);
    }
  }

  lemma NewestIs(t: Tables)
    requires GoodTables(t) && t.manifest.Some? && t.manifest.value.head.Some?
    ensures IsNewest(t, MaxReady(t.versions, t.manifest.value.latest))
  {
    forall v | IsReady(t.versions, v) ensures v <= MaxReady(t.versions, t.manifest.value.latest) {
      MaxReadyIsReady(t.versions, t.manifest.value.latest, v);
    }
    MaxReadyIsReady(t.versions, t.manifest.value.latest, t.manifest.value.head.value);
  }

  /** An undo answers v exactly when it is not kept out and head's recorded parent is v; head moves to v
      and nothing else changes. */
  lemma UndoAnswers(s: State, claim: Claim, now: int, v: int)
    requires Reachable(s) && HeadOf(s).Some?
    ensures var (t', r) := Undo(s.tables, claim, now);
            var m := s.tables.manifest.value;
            && m.head.value in s.tables.versions
            && (r == Ok(v) <==> !KeptOut(m, claim, now) && s.tables.versions[m.head.value].parent == Some(v))
            && (r == Ok(v) ==> OnlyHeadMoved(s.tables, t', v) && IsReady(s.tables.versions, v) && v < m.head.value)
            && (r.Err? ==>
                  t' == s.tables && r.error == if KeptOut(m, claim, now) then CheckoutDenied else NothingToUndo)
  {
    ReachableKeepsInv(s);
    AuthorizedIff(s.tables.manifest.value, claim, now);
  }

  lemma RedoMoves(t: Tables, claim: Claim, now: int)
    requires GoodTables(t) && t.manifest.Some? && t.manifest.value.head.Some?
    ensures var (t', r) := Redo(t, claim, now);
            var newest := MaxReady(t.versions, t.manifest.value.latest);
            && (r.Err? ==> t' == t)
            && (r.Ok? ==>
                  && OnlyHeadMoved(t, t', r.value)
                  && IsReady(t.versions, r.value) && t.versions[r.value].parent == t.manifest.value.head
                  && AncestorOrSelf(ReadyParents(t.versions), r.value, newest))
  {
    var m, ps := t.manifest.value, ReadyParents(t.versions);
    var newest := MaxReady(t.versions, m.latest);
    if Redo(t, claim, now).1.Ok? {
      var j: nat :|
        FirstChildAt(ps, newest, m.head.value, j) && RedoTarget(ps, newest, m.head.value) == Up(ps, newest, j);
      assert ChildAt(ps, newest, m.head.value, j);
    }
  }

  /** A redo answers a ready version whose recorded parent is the old head and that lies on the way up from
      the newest ready version; head moves there and nothing else changes. It does so exactly when it is not
      kept out and head lies properly above the newest ready version. */
  lemma RedoAnswers(s: State, claim: Claim, now: int)
    requires Reachable(s) && HeadOf(s).Some?
    ensures var (t', r) := Redo(s.tables, claim, now);
            var ps := ReadyParents(s.tables.versions);
            var newest := MaxReady(s.tables.versions, s.tables.manifest.value.latest);
            && IsNewest(s.tables, newest)
            && (r.Ok? <==>
                  !KeptOut(s.tables.manifest.value, claim, now) && ProperAncestor(ps, HeadOf(s).value, newest))
            && (r.Err? ==>
                  && t' == s.tables
                  && r.error == if KeptOut(s.tables.manifest.value, claim, now) then CheckoutDenied else NothingToRedo)
            && (r.Ok? ==>
                  && OnlyHeadMoved(s.tables, t', r.value)
                  && IsReady(s.tables.versions, r.value) && s.tables.versions[r.value].parent == HeadOf(s)
                  && AncestorOrSelf(ps, r.value, newest))
  {
    ReachableKeepsInv(s);
    NewestIs(s.tables);
    RedoMoves(s.tables, claim, now);
    AuthorizedIff(s.tables.manifest.value, claim, now);
    if !KeptOut(s.tables.manifest.value, claim, now) {
      RedoSucceedsIffAncestor(s, claim, now);
    }
  }

  // Undos and redos in a row.

  ghost function Undos(t: Tables, k: nat, claim: Claim, now: int): Tables {
    if k == 0 then t else Undo(Undos(t, k - 1, claim, now), claim, now).0
  }

  ghost function Redos(t: Tables, k: nat, claim: Claim, now: int): Tables
    decreases k
  {
    if k == 0 then t else Redos(Redo(t, claim, now).0, k - 1, claim, now)
  }

  function WithHead(t: Tables, v: int): Tables
    requires t.manifest.Some?
  {
    t.(manifest := Some(t.manifest.value.(head := Some(v))))
  }

  ghost predicate Movable(t: Tables, claim: Claim, now: int) {
    GoodTables(t) && t.manifest.Some? && t.manifest.value.head.Some? && !KeptOut(t.manifest.value, claim, now)
  }

  lemma LinksAreEarlier(t: Tables)
    requires GoodTables(t)
    ensures ParentsEarlier(ReadyParents(t.versions))
  {
  }

  lemma {:induction false} UndosClimb(t: Tables, k: nat, claim: Claim, now: int)
    requires Movable(t, claim, now) && Up(ReadyParents(t.versions), t.manifest.value.head.value, k).Some?
    ensures var v := Up(ReadyParents(t.versions), t.manifest.value.head.value, k).value;
            Undos(t, k, claim, now) == WithHead(t, v) && Movable(WithHead(t, v), claim, now)
  {
    if k > 0 {
      UndosClimb(t, k - 1, claim, now);
      UndoOnce(WithHead(t, Up(ReadyParents(t.versions), t.manifest.value.head.value, k - 1).value), claim, now);
    }
  }

  lemma UndoOnce(t: Tables, claim: Claim, now: int)
    requires Movable(t, claim, now) && t.versions[t.manifest.value.head.value].parent.Some?
    ensures var v := t.versions[t.manifest.value.head.value].parent.value;
            Undo(t, claim, now).0 == WithHead(t, v) && Movable(WithHead(t, v), claim, now)
  {
    AuthorizedIff(t.manifest.value, claim, now);
  }

  ghost function OnPath(t: Tables, n: nat): Option<int>
    requires t.manifest.Some?
  {
    Up(ReadyParents(t.versions), MaxReady(t.versions, t.manifest.value.latest), n)
  }

  lemma RedoOnPath(t: Tables, n: nat, claim: Claim, now: int)
    requires Movable(t, claim, now) && n > 0 && OnPath(t, n) == t.manifest.value.head
    ensures var up := OnPath(t, n - 1);
            up.Some? && Redo(t, claim, now).0 == WithHead(t, up.value) && Movable(WithHead(t, up.value), claim, now)
  {
    var ps, newest := ReadyParents(t.versions), MaxReady(t.versions, t.manifest.value.latest);
    NewestIs(t);
    LinksAreEarlier(t);
    RedoStepsBack(ps, newest, n);
    UpDescends(ps, newest, 0, n);
    UpDescends(ps, newest, n - 1, n);
    AuthorizedIff(t.manifest.value, claim, now);
    RedoMoves(t, claim, now);
  }

  /** The tables with head at the version n links above the newest ready one. */
  ghost function At(t: Tables, n: nat): Tables
    requires t.manifest.Some? && OnPath(t, n).Some?
  {
    WithHead(t, OnPath(t, n).value)
  }

  lemma RedosNext(t: Tables, n: nat, k: nat, claim: Claim, now: int)
    requires t.manifest.Some? && OnPath(t, n + 1).Some? && Movable(At(t, n + 1), claim, now) && k > 0
    ensures OnPath(t, n).Some? && Movable(At(t, n), claim, now)
    ensures Redos(At(t, n + 1), k, claim, now) == Redos(At(t, n), k - 1, claim, now)
  {
    var low := At(t, n + 1);
    assert OnPath(low, n) == OnPath(t, n) && OnPath(low, n + 1) == OnPath(t, n + 1);
    RedoOnPath(low, n + 1, claim, now);
    assert WithHead(low, OnPath(t, n).value) == At(t, n);
  }

  lemma {:induction false} RedosDescend(t: Tables, n: nat, k: nat, claim: Claim, now: int)
    requires t.manifest.Some? && OnPath(t, n + k).Some? && Movable(At(t, n + k), claim, now)
    ensures OnPath(t, n).Some? && Redos(At(t, n + k), k, claim, now) == At(t, n)
    decreases k
  {
    if k > 0 {
      RedosNext(t, n + (k - 1), k, claim, now);
      RedosDescend(t, n, k - 1, claim, now);
    }
  }

  lemma {:induction false} RedosStayOnPath(t: Tables, k: nat, claim: Claim, now: int)
    requires GoodTables(t) && t.manifest.Some? && t.manifest.value.head.Some?
    ensures var t', newest := Redos(t, k, claim, now), MaxReady(t.versions, t.manifest.value.latest);
            && t'.manifest.Some? && t'.manifest.value.head.Some?
            && (t'.manifest.value.head == t.manifest.value.head
                || AncestorOrSelf(ReadyParents(t.versions), t'.manifest.value.head.value, newest))
    decreases k
  {
    if k > 0 {
      RedoMoves(t, claim, now);
      RedosStayOnPath(Redo(t, claim, now).0, k - 1, claim, now);
    }
  }

  lemma RestoredOnPath(t: Tables, n: nat, k: nat, claim: Claim, now: int)
    requires Movable(t, claim, now) && OnPath(t, n) == t.manifest.value.head && OnPath(t, n + k).Some?
    requires Up(ReadyParents(t.versions), t.manifest.value.head.value, k) == OnPath(t, n + k)
    ensures Redos(Undos(t, k, claim, now), k, claim, now) == t
  {
    UndosClimb(t, k, claim, now);
    assert At(t, n) == t;
    RedosDescend(t, n, k, claim, now);
  }

  lemma LostOffPath(t: Tables, k: nat, claim: Claim, now: int)
    requires Movable(t, claim, now) && k > 0
    requires Up(ReadyParents(t.versions), t.manifest.value.head.value, k).Some?
    requires Redos(Undos(t, k, claim, now), k, claim, now) == t
    ensures AncestorOrSelf(ReadyParents(t.versions), t.manifest.value.head.value,
                           MaxReady(t.versions, t.manifest.value.latest))
  {
    UndosClimb(t, k, claim, now);
    RedosStayOnPath(Undos(t, k, claim, now), k, claim, now);
    LinksAreEarlier(t);
    UpDescends(ReadyParents(t.versions), t.manifest.value.head.value, 0, k);
  }

  /** For every k from one to the depth of head, k undos and then k redos give back the very same tables
      exactly when head lies on the way up from the newest ready version, as it does when head is that version. */
  lemma UndosThenRedosRestoreIff(s: State, k: nat, claim: Claim, now: int)
    requires Reachable(s) && HeadOf(s).Some? && !KeptOut(s.tables.manifest.value, claim, now)
    requires k > 0 && Up(ReadyParents(s.tables.versions), HeadOf(s).value, k).Some?
    ensures Redos(Undos(s.tables, k, claim, now), k, claim, now) == s.tables
       <==> AncestorOrSelf(ReadyParents(s.tables.versions), HeadOf(s).value,
                           MaxReady(s.tables.versions, s.tables.manifest.value.latest))
  {
    ReachableKeepsInv(s);
    var t := s.tables;
    var ps, newest := ReadyParents(t.versions), MaxReady(t.versions, t.manifest.value.latest);
    if AncestorOrSelf(ps, HeadOf(s).value, newest) {
      var n: nat :| Up(ps, newest, n) == Some(HeadOf(s).value);
      UpAdds(ps, newest, n, k);
      RestoredOnPath(t, n, k, claim, now);
    } else if Redos(Undos(t, k, claim, now), k, claim, now) == t {
      LostOffPath(t, k, claim, now);
    }
  }

  // The lease.

  /** An acquire is granted exactly to a named holder with a positive time, when no live lease stands or
      the caller may take it; the generation goes up by one and the lease is the caller's for its time. */
  lemma AcquireAnswers(t: Tables, holder: string, ttl: int, expected: Option<int>, strict: bool, now: int)
    requires t.manifest.Some?
    ensures var (t', r) := Acquire(t, holder, ttl, expected, strict, now);
            var m := t.manifest.value;
            && (r == Err(BadCheckoutRequest) <==> holder == ANONYMOUS_HOLDER || ttl <= 0)
            && (r.Err? ==> r == Err(BadCheckoutRequest))
            && (r == Ok(Some(m.fence + 1)) <==>
                  && holder != ANONYMOUS_HOLDER && ttl > 0
                  && (Leased(m, now) ==>
                        if strict then expected == Some(m.fence) else holder == m.checkout.value.holder))
            && (r.Ok? && r.value.Some? ==>
                  && r.value.value == m.fence + 1
                  && t' == t.(manifest := Some(m.(checkout := Some(Holding(holder, now + ttl)), fence := m.fence + 1))))
            && (!(r.Ok? && r.value.Some?) ==> t' == t)
  {
  }

  /** A release succeeds exactly on a lease that has expired or whose owner asks; the generation stays. */
  lemma ReleaseAnswers(t: Tables, holder: Option<string>, expected: Option<int>, now: int)
    requires t.manifest.Some?
    ensures var (t', r) := Release(t, holder, expected, now);
            var m := t.manifest.value;
            && r.Ok?
            && (r.value <==>
                  && m.checkout.Some?
                  && (Leased(m, now) ==>
                        if expected.Some? then expected.value == m.fence
                        else holder.None? || holder.value == m.checkout.value.holder))
            && t' == (if r.value then t.(manifest := Some(m.(checkout := None))) else t)
  {
  }
}
