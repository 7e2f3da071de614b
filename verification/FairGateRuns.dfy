/**
 Every interleaving of plain admissions, fair admissions, time-outs and exits under
 one fixed ceiling. The dispatcher holds the gate's lock over several steps; plain
 callers take and return permits without that lock, also between those steps.
 */
module FairGateRuns {
  import opened Prelude
  import opened FairGate

  type Caller = nat

  /** Whether some thread holds the lock and runs the dispatcher, and with a permit in hand or not. */
  datatype Dispatcher = Idle | Deciding | InHand

  datatype State = State(
    free: nat,
    queues: Queues,
    waiting: map<Ticket, Tenant>,
    granted: set<Ticket>,
    plain: set<Caller>,     // inside through the plain entry
    leavers: set<Caller>,   // returned their permit, have yet to run the dispatcher
    dispatcher: Dispatcher)

  function Initial(ceiling: nat): State {
    State(ceiling, Queues(map[], []), map[], {}, {}, {}, Idle)
  }

  datatype Event =
    | PlainEnter(c: Caller)
    | PlainReturn(c: Caller)
    | PlainDispatch(c: Caller)
    | FairEnter(t: Tenant, k: Ticket)
    | FairLeave(k: Ticket)
    | TimeOut(k: Ticket)
    | Take
    | Grant

  predicate Enabled(s: State, e: Event) {
    match e
    case PlainEnter(c) => s.free > 0 && c !in s.plain && c !in s.leavers
    case PlainReturn(c) => c in s.plain
    case PlainDispatch(c) => c in s.leavers && s.dispatcher == Idle
    case FairEnter(t, k) => s.dispatcher == Idle && k !in s.waiting && k !in s.granted
    case FairLeave(k) => s.dispatcher == Idle && k in s.granted
    case TimeOut(k) => s.dispatcher == Idle && (k in s.waiting || k in s.granted)
    case Take => s.dispatcher == Deciding
    case Grant => s.dispatcher == InHand
  }

  function HandBack(s: State, k: Ticket): State {
    s.(free := s.free + 1, granted := s.granted - {k}, dispatcher := Deciding)
  }

  function Step(s: State, e: Event): State
    requires Enabled(s, e)
  {
    match e
    case PlainEnter(c) => s.(free := s.free - 1, plain := s.plain + {c})
    case PlainReturn(c) => s.(free := s.free + 1, plain := s.plain - {c}, leavers := s.leavers + {c})
    case PlainDispatch(c) => s.(leavers := s.leavers - {c}, dispatcher := Deciding)
    case FairEnter(t, k) =>
      s.(queues := Register(s.queues, t, k), waiting := s.waiting[k := t], dispatcher := Deciding)
    case FairLeave(k) => HandBack(s, k)
    case TimeOut(k) =>
      if k in s.granted then HandBack(s, k)  // granted in the race with the time-out
      else s.(queues := Withdraw(s.queues, s.waiting[k], k), waiting := s.waiting - {k})
    case Take =>
      if s.queues.fifos == map[] || s.free == 0 then s.(dispatcher := Idle)
      else s.(free := s.free - 1, dispatcher := InHand)
    case Grant =>
      var (q, k) := Pick(s.queues);
      if k.None? then s.(queues := q, free := s.free + 1, dispatcher := Idle)
      else s.(queues := q, waiting := s.waiting - {k.value}, granted := s.granted + {k.value}, dispatcher := Deciding)
  }

  // What holds in every reachable state.

  predicate Distinct<T(==)>(s: seq<T>) {
    forall i, j | 0 <= i < j < |s| :: s[i] != s[j]
  }

  /** The ring holds exactly the tenants with waiting tickets, each once. */
  ghost predicate GoodRing(q: Queues) {
    && Distinct(q.ring)
    && (forall t :: t in q.ring <==> t in q.fifos)
    && (forall t | t in q.fifos :: q.fifos[t] != [])
  }

  /** The waiting tickets are exactly those in the queues, each in its tenant's queue and there once. */
  ghost predicate GoodTickets(fifos: map<Tenant, seq<Ticket>>, waiting: map<Ticket, Tenant>) {
    && (forall t | t in fifos :: Distinct(fifos[t]))
    && (forall t, k | t in fifos && k in fifos[t] :: k in waiting && waiting[k] == t)
    && (forall k | k in waiting :: waiting[k] in fifos && k in fifos[waiting[k]])
  }

  function InDispatch(s: State): nat {
    if s.dispatcher == InHand then 1 else 0
  }

  /** A ticket never waits beside a free permit unless somebody is about to run, or runs, the dispatcher. */
  predicate NoLostSlot(s: State) {
    s.queues.fifos != map[] && s.free > 0 ==> s.dispatcher != Idle || s.leavers != {}
  }

  ghost predicate Inv(s: State, ceiling: nat) {
    && s.free + |s.plain| + |s.granted| + InDispatch(s) == ceiling
    && GoodRing(s.queues)
    && GoodTickets(s.queues.fifos, s.waiting)
    && s.granted !! s.waiting.Keys
    && NoLostSlot(s)
  }

  lemma {:induction false} RemoveFirstKeeps<T>(s: seq<T>, x: T)
    requires Distinct(s)
    ensures Distinct(RemoveFirst(s, x))
    ensures forall y :: y in RemoveFirst(s, x) <==> y in s && y != x
  {
    if s != [] {
      assert s == [s[0]] + s[1..];
      if s[0] != x {
        RemoveFirstKeeps(s[1..], x);
        var rest := RemoveFirst(s[1..], x);
        assert forall i | 0 <= i < |rest| :: rest[i] in rest;
      }
    }
  }

  lemma RegisterKeepsRing(q: Queues, t: Tenant, k: Ticket)
    requires GoodRing(q)
    ensures GoodRing(Register(q, t, k))
  {
  }

  lemma RegisterKeepsTickets(q: Queues, waiting: map<Ticket, Tenant>, t: Tenant, k: Ticket)
    requires GoodTickets(q.fifos, waiting) && k !in waiting
    ensures GoodTickets(Register(q, t, k).fifos, waiting[k := t])
  {
    assert t in q.fifos ==> k !in q.fifos[t];
  }

  /** Taking one ticket out of one queue, and the queue out of the table if that empties it. */
  lemma TakeOutKeepsTickets(fifos: map<Tenant, seq<Ticket>>, waiting: map<Ticket, Tenant>, t: Tenant, k: Ticket,
                            fifo: seq<Ticket>)
    requires GoodTickets(fifos, waiting) && k in waiting && waiting[k] == t
    requires Distinct(fifo) && forall x :: x in fifo <==> x in fifos[t] && x != k
    ensures GoodTickets(fifos[t := fifo], waiting - {k})
    ensures fifo == [] ==> GoodTickets(fifos - {t}, waiting - {k})
  {
  }

  lemma WithdrawKeepsRing(q: Queues, t: Tenant, k: Ticket)
    requires GoodRing(q)
    ensures GoodRing(Withdraw(q, t, k))
  {
    RemoveFirstKeeps(q.ring, t);
  }

  lemma WithdrawKeepsTickets(q: Queues, waiting: map<Ticket, Tenant>, k: Ticket)
    requires GoodTickets(q.fifos, waiting) && k in waiting
    ensures GoodTickets(Withdraw(q, waiting[k], k).fifos, waiting - {k})
  {
    var t := waiting[k];
    RemoveFirstKeeps(q.fifos[t], k);
    TakeOutKeepsTickets(q.fifos, waiting, t, k, RemoveFirst(q.fifos[t], k));
  }

  /** With a good ring the pick serves the tenant in front. */
  lemma PickServesFront(q: Queues)
    requires GoodRing(q) && q.fifos != map[]
    ensures q.ring != [] && q.ring[0] in q.fifos && q.fifos[q.ring[0]] != []
    ensures var t := q.ring[0];
            var fifo := q.fifos[t][1..];
            Pick(q) == (if fifo != [] then Queues(q.fifos[t := fifo], q.ring[1..] + [t])
                        else Queues(q.fifos - {t}, q.ring[1..]),
                        Some(q.fifos[t][0]))
  {
    var t0 :| t0 in q.fifos;
    assert t0 in q.ring;
    assert q.ring[0] in q.ring;
  }

  lemma PickKeepsRing(q: Queues)
    requires GoodRing(q) && q.fifos != map[]
    ensures GoodRing(Pick(q).0)
  {
    PickServesFront(q);
    var t, rest := q.ring[0], q.ring[1..];
    RotationKeepsMembers(q.ring);
    var fifo := q.fifos[t][1..];
    if fifo != [] {
      assert GoodRing(Queues(q.fifos[t := fifo], rest + [t]));
    } else {
      assert GoodRing(Queues(q.fifos - {t}, rest));
    }
  }

  lemma RotationKeepsMembers(ring: seq<Tenant>)
    requires Distinct(ring) && ring != []
    ensures Distinct(ring[1..]) && Distinct(ring[1..] + [ring[0]])
    ensures forall t :: t in ring[1..] <==> t in ring && t != ring[0]
    ensures forall t :: t in ring[1..] + [ring[0]] <==> t in ring
  {
    assert ring == [ring[0]] + ring[1..];
  }

  lemma PickKeepsTickets(q: Queues, waiting: map<Ticket, Tenant>)
    requires GoodRing(q) && GoodTickets(q.fifos, waiting) && q.fifos != map[]
    ensures var (q', k) := Pick(q);
            k.Some? && k.value in waiting && waiting[k.value] == q.ring[0] && GoodTickets(q'.fifos, waiting - {k.value})
  {
    PickServesFront(q);
    var t := q.ring[0];
    var k, fifo := q.fifos[t][0], q.fifos[t][1..];
    assert q.fifos[t] == [k] + fifo;
    TakeOutKeepsTickets(q.fifos, waiting, t, k, fifo);
  }

  lemma TimeOutKeepsInv(s: State, k: Ticket, ceiling: nat)
    requires Inv(s, ceiling) && Enabled(s, TimeOut(k))
    ensures Inv(Step(s, TimeOut(k)), ceiling)
  {
    if k !in s.granted {
      WithdrawKeepsRing(s.queues, s.waiting[k], k);
      WithdrawKeepsTickets(s.queues, s.waiting, k);
    }
  }

  lemma GrantKeepsInv(s: State, ceiling: nat)
    requires Inv(s, ceiling) && Enabled(s, Grant)
    ensures Inv(Step(s, Grant), ceiling)
  {
    if s.queues.fifos != map[] {
      PickKeepsRing(s.queues);
      PickKeepsTickets(s.queues, s.waiting);
    }
  }

  lemma FairEnterKeepsInv(s: State, t: Tenant, k: Ticket, ceiling: nat)
    requires Inv(s, ceiling) && Enabled(s, FairEnter(t, k))
    ensures Inv(Step(s, FairEnter(t, k)), ceiling)
  {
    RegisterKeepsRing(s.queues, t, k);
    RegisterKeepsTickets(s.queues, s.waiting, t, k);
  }

  /** The other steps leave the queues and the waiting tickets alone. */
  lemma OtherStepsKeepInv(s: State, e: Event, ceiling: nat)
    requires Inv(s, ceiling) && Enabled(s, e) && !e.TimeOut? && !e.Grant? && !e.FairEnter?
    ensures Inv(Step(s, e), ceiling)
  {
    assert Step(s, e).queues == s.queues && Step(s, e).waiting == s.waiting;
  }

  lemma StepKeepsInv(s: State, e: Event, ceiling: nat)
    requires Inv(s, ceiling) && Enabled(s, e)
    ensures Inv(Step(s, e), ceiling)
  {
    match e
    case FairEnter(t, k) => FairEnterKeepsInv(s, t, k, ceiling);
    case TimeOut(k) => TimeOutKeepsInv(s, k, ceiling);
    case Grant => GrantKeepsInv(s, ceiling);
    case _ => OtherStepsKeepInv(s, e, ceiling);
  }

  // Whole runs.

  ghost predicate IsRun(ss: seq<State>, es: seq<Event>, ceiling: nat) {
    && |ss| == |es| + 1
    && ss[0] == Initial(ceiling)
    && forall i | 0 <= i < |es| :: Enabled(ss[i], es[i]) && ss[i + 1] == Step(ss[i], es[i])
  }

  lemma {:induction false} RunKeepsInv(ss: seq<State>, es: seq<Event>, ceiling: nat, k: nat)
    requires IsRun(ss, es, ceiling) && k < |ss|
    ensures Inv(ss[k], ceiling)
  {
    if k > 0 {
      RunKeepsInv(ss, es, ceiling, k - 1);
      StepKeepsInv(ss[k - 1], es[k - 1], ceiling);
    }
  }

  /** No permit is lost or made: at every moment the free ones, those in use through either entry
      and the one a dispatcher may have in hand add up to the ceiling. The ring holds exactly the
      tenants that wait. With nobody left to run the dispatcher, no ticket waits beside a free permit. */
  lemma CeilingHoldsAndNoSlotIsLost(ss: seq<State>, es: seq<Event>, ceiling: nat, k: nat)
    requires IsRun(ss, es, ceiling) && k < |ss|
    ensures ss[k].free + |ss[k].plain| + |ss[k].granted| + InDispatch(ss[k]) == ceiling
    ensures |ss[k].plain| + |ss[k].granted| <= ceiling
    ensures GoodRing(ss[k].queues) && GoodTickets(ss[k].queues.fifos, ss[k].waiting)
    ensures ss[k].dispatcher == Idle && ss[k].leavers == {} ==> ss[k].free == 0 || ss[k].waiting == map[]
  {
    RunKeepsInv(ss, es, ceiling, k);
    if ss[k].waiting != map[] {
      var x :| x in ss[k].waiting;
    }
  }

  // Fairness.

  /** The tenant whose ticket a step grants. */
  function Served(s: State, e: Event): Option<Tenant> {
    if !e.Grant? then None
    else
      var k := Pick(s.queues).1;
      if k.Some? && k.value in s.waiting then Some(s.waiting[k.value]) else None
  }

  lemma ServedIsFront(s: State, e: Event, ceiling: nat)
    requires Inv(s, ceiling) && Served(s, e).Some?
    ensures s.queues.fifos != map[] && s.queues.ring != [] && Served(s, e).value == s.queues.ring[0]
  {
    assert s.queues.fifos != map[];
    PickServesFront(s.queues);
    PickKeepsTickets(s.queues, s.waiting);
  }

  lemma {:induction false} RemoveFirstShifts<T>(s: seq<T>, x: T, i: nat) returns (j: nat)
    requires i < |s| && s[i] != x
    ensures j <= i && j < |RemoveFirst(s, x)| && RemoveFirst(s, x)[j] == s[i]
  {
    if s[0] == x {
      j := i - 1;
    } else if i == 0 {
      j := 0;
    } else {
      j := RemoveFirstShifts(s[1..], x, i - 1);
      j := j + 1;
    }
  }

  /** A tenant that keeps waiting never moves back in the ring, and moves up with every grant to another. */
  lemma WaiterMovesUp(s: State, e: Event, ceiling: nat, t: Tenant, i: nat) returns (j: nat)
    requires Inv(s, ceiling) && Enabled(s, e)
    requires i < |s.queues.ring| && s.queues.ring[i] == t
    requires t in Step(s, e).queues.fifos && Served(s, e) != Some(t)
    ensures j < |Step(s, e).queues.ring| && Step(s, e).queues.ring[j] == t
    ensures j + (if Served(s, e).Some? then 1 else 0) <= i
  {
    var q := s.queues;
    if e.Grant? {
      assert t in q.ring;
      PickServesFront(q);
      PickKeepsTickets(q, s.waiting);
      j := i - 1;
    } else if e.TimeOut? && e.k !in s.granted && Step(s, e).queues.ring != q.ring {
      j := RemoveFirstShifts(q.ring, s.waiting[e.k], i);
    } else {
      j := i;
    }
  }

  /** The tenants served in steps a to b, in order. */
  ghost function ServedIn(ss: seq<State>, es: seq<Event>, a: nat, b: nat): seq<Tenant>
    requires |ss| == |es| + 1 && a <= b <= |es|
    decreases b - a
  {
    if a == b then []
    else
      var now := Served(ss[a], es[a]);
      (if now.Some? then [now.value] else []) + ServedIn(ss, es, a + 1, b)
  }

  /** Bounded bypass: a tenant that keeps a ticket waiting from ring index i on is served
      within the next i + 1 grants, whatever else happens meanwhile. */
  lemma {:induction false} BypassIsBounded(ss: seq<State>, es: seq<Event>, ceiling: nat, a: nat, b: nat,
                                           t: Tenant, i: nat)
    requires IsRun(ss, es, ceiling) && a <= b <= |es|
    requires i < |ss[a].queues.ring| && ss[a].queues.ring[i] == t
    requires forall n | a <= n <= b :: t in ss[n].queues.fifos
    requires |ServedIn(ss, es, a, b)| > i
    ensures t in ServedIn(ss, es, a, b)[..i + 1]
    decreases b - a
  {
    var all := ServedIn(ss, es, a, b);
    var now := Served(ss[a], es[a]);
    if now == Some(t) {
      assert all[0] == t;
    } else {
      var j := RunWaiterMovesUp(ss, es, ceiling, a, t, i);
      BypassIsBounded(ss, es, ceiling, a + 1, b, t, j);
      EarlyIn(if now.Some? then [now.value] else [], ServedIn(ss, es, a + 1, b), t, j, i);
    }
  }

  lemma EarlyIn(first: seq<Tenant>, rest: seq<Tenant>, t: Tenant, j: nat, i: nat)
    requires j < |rest| && t in rest[..j + 1] && |first| + j <= i < |first + rest|
    ensures t in (first + rest)[..i + 1]
  {
    var n :| 0 <= n < j + 1 && rest[n] == t;
    assert (first + rest)[|first| + n] == t;
  }

  lemma RunWaiterMovesUp(ss: seq<State>, es: seq<Event>, ceiling: nat, n: nat, t: Tenant, i: nat) returns (j: nat)
    requires IsRun(ss, es, ceiling) && n < |es|
    requires i < |ss[n].queues.ring| && ss[n].queues.ring[i] == t
    requires t in ss[n + 1].queues.fifos && Served(ss[n], es[n]) != Some(t)
    ensures j < |ss[n + 1].queues.ring| && ss[n + 1].queues.ring[j] == t
    ensures j + (if Served(ss[n], es[n]).Some? then 1 else 0) <= i
  {
    RunKeepsInv(ss, es, ceiling, n);
    j := WaiterMovesUp(ss[n], es[n], ceiling, t, i);
  }

  /** t comes before u wherever u stands in the ring. */
  ghost predicate Ahead(ring: seq<Tenant>, t: Tenant, u: Tenant) {
    t in ring && forall i, j | 0 <= i < |ring| && 0 <= j < |ring| && ring[i] == t && ring[j] == u :: i < j
  }

  lemma {:induction false} RemoveFirstKeepsOrder(s: seq<Tenant>, x: Tenant, t: Tenant, u: Tenant)
    requires Distinct(s) && Ahead(s, t, u) && t != x && t != u
    ensures Ahead(RemoveFirst(s, x), t, u)
  {
    RemoveFirstKeeps(s, x);
    if s[0] != x {
      var rest := RemoveFirst(s[1..], x);
      assert RemoveFirst(s, x) == [s[0]] + rest;
      assert s == [s[0]] + s[1..];
      if s[0] != t {
        assert Ahead(s[1..], t, u) by {
          assert forall i, j | 0 <= i < |s| - 1 && 0 <= j < |s| - 1 && s[1..][i] == t && s[1..][j] == u ::
                   s[i + 1] == t && s[j + 1] == u;
        }
        RemoveFirstKeepsOrder(s[1..], x, t, u);
        assert s[0] != u;
      } else {
        RemoveFirstKeeps(s[1..], x);
        assert forall i | 0 <= i < |rest| :: rest[i] in rest;
      }
    }
  }

  lemma RotateKeepsAhead(ring: seq<Tenant>, t: Tenant, u: Tenant)
    requires Distinct(ring) && ring != [] && ring[0] != t && t != u && Ahead(ring, t, u)
    ensures ring[0] != u
    ensures Ahead(ring[1..], t, u) && Ahead(ring[1..] + [ring[0]], t, u)
  {
    assert ring == [ring[0]] + ring[1..];
    forall i, j | 0 <= i < |ring| - 1 && 0 <= j < |ring| - 1 && ring[1..][i] == t && ring[1..][j] == u
      ensures i < j
    {
      assert ring[i + 1] == t && ring[j + 1] == u;
    }
  }

  lemma AppendKeepsAhead(ring: seq<Tenant>, x: Tenant, t: Tenant, u: Tenant)
    requires Ahead(ring, t, u) && x !in ring
    ensures Ahead(ring + [x], t, u)
  {
  }

  lemma GrantKeepsAhead(s: State, ceiling: nat, t: Tenant, u: Tenant)
    requires Inv(s, ceiling) && s.dispatcher == InHand && t != u
    requires Ahead(s.queues.ring, t, u) && Served(s, Grant) != Some(t)
    ensures Ahead(Step(s, Grant).queues.ring, t, u) && Served(s, Grant) != Some(u)
  {
    PickServesFront(s.queues);
    PickKeepsTickets(s.queues, s.waiting);
    RotateKeepsAhead(s.queues.ring, t, u);
  }

  lemma StepKeepsAhead(s: State, e: Event, ceiling: nat, t: Tenant, u: Tenant)
    requires Inv(s, ceiling) && Enabled(s, e) && t != u
    requires Ahead(s.queues.ring, t, u) && t in Step(s, e).queues.fifos && Served(s, e) != Some(t)
    ensures Ahead(Step(s, e).queues.ring, t, u) && Served(s, e) != Some(u)
  {
    var q := s.queues;
    match e
    case Grant => GrantKeepsAhead(s, ceiling, t, u);
    case FairEnter(x, _) =>
      if x !in q.fifos {
        AppendKeepsAhead(q.ring, x, t, u);
      }
    case TimeOut(k) =>
      if k !in s.granted && Step(s, e).queues.ring != q.ring {
        RemoveFirstKeepsOrder(q.ring, s.waiting[k], t, u);
      }
    case _ =>
  }

  lemma RunStepKeepsAhead(ss: seq<State>, es: seq<Event>, ceiling: nat, n: nat, t: Tenant, u: Tenant)
    requires IsRun(ss, es, ceiling) && n < |es| && t != u
    requires Ahead(ss[n].queues.ring, t, u) && t in ss[n + 1].queues.fifos && Served(ss[n], es[n]) != Some(t)
    ensures Ahead(ss[n + 1].queues.ring, t, u) && Served(ss[n], es[n]) != Some(u)
  {
    RunKeepsInv(ss, es, ceiling, n);
    StepKeepsAhead(ss[n], es[n], ceiling, t, u);
  }

  lemma {:induction false} AheadUntilServed(ss: seq<State>, es: seq<Event>, ceiling: nat, a: nat, b: nat,
                                            t: Tenant, u: Tenant)
    requires IsRun(ss, es, ceiling) && a <= b <= |es| && t != u
    requires Ahead(ss[a].queues.ring, t, u)
    requires forall n | a <= n <= b :: t in ss[n].queues.fifos
    requires forall n | a <= n < b :: Served(ss[n], es[n]) != Some(t)
    ensures Ahead(ss[b].queues.ring, t, u)
    decreases b
  {
    if a < b {
      AheadUntilServed(ss, es, ceiling, a, b - 1, t, u);
      RunStepKeepsAhead(ss, es, ceiling, b - 1, t, u);
    }
  }

  /** Round robin: between two grants to one tenant, every tenant that waits throughout is served. */
  lemma NoOvertaking(ss: seq<State>, es: seq<Event>, ceiling: nat, a: nat, b: nat, t: Tenant, u: Tenant)
    requires IsRun(ss, es, ceiling) && a < b < |es| && t != u
    requires Served(ss[a], es[a]) == Some(u) && Served(ss[b], es[b]) == Some(u)
    requires forall n | a <= n <= b :: t in ss[n].queues.fifos
    ensures exists n :: a < n < b && Served(ss[n], es[n]) == Some(t)
  {
    RunKeepsInv(ss, es, ceiling, a);
    RunKeepsInv(ss, es, ceiling, b);
    ServedIsFront(ss[a], es[a], ceiling);
    ServedIsFront(ss[b], es[b], ceiling);
    PickServesFront(ss[a].queues);
    BackOfRing(ss[a].queues.ring, t);
    if forall n | a + 1 <= n < b :: Served(ss[n], es[n]) != Some(t) {
      AheadUntilServed(ss, es, ceiling, a + 1, b, t, u);
      assert false;
    }
  }

  lemma BackOfRing(ring: seq<Tenant>, t: Tenant)
    requires Distinct(ring) && ring != [] && t in ring && t != ring[0]
    ensures Ahead(ring[1..], t, ring[0]) && Ahead(ring[1..] + [ring[0]], t, ring[0])
  {
    assert ring == [ring[0]] + ring[1..];
  }

  // First come, first served within a tenant.

  /** Both tickets wait for tenant t, k before l. */
  ghost predicate StandsBefore(s: State, t: Tenant, k: Ticket, l: Ticket) {
    t in s.queues.fifos && l in s.queues.fifos[t] && Ahead(s.queues.fifos[t], k, l)
  }

  /** No step grants a ticket while an earlier one of its tenant waits. */
  lemma LaterIsNotGranted(s: State, e: Event, ceiling: nat, t: Tenant, k: Ticket, l: Ticket)
    requires Inv(s, ceiling) && Enabled(s, e) && StandsBefore(s, t, k, l)
    ensures l in Step(s, e).granted ==> l in s.granted
  {
    if e.Grant? {
      PickServesFront(s.queues);
      PickKeepsTickets(s.queues, s.waiting);
    }
  }

  lemma GrantKeepsQueueOrder(s: State, ceiling: nat, t: Tenant, k: Ticket, l: Ticket)
    requires Inv(s, ceiling) && s.dispatcher == InHand && k != l && StandsBefore(s, t, k, l)
    requires k in Step(s, Grant).waiting && l in Step(s, Grant).waiting
    ensures StandsBefore(Step(s, Grant), t, k, l)
  {
    PickServesFront(s.queues);
    PickKeepsTickets(s.queues, s.waiting);
    if s.queues.ring[0] == t {
      RestKeepsOrder(s.queues.fifos[t], k, l);
    }
  }

  lemma RestKeepsOrder(fifo: seq<Ticket>, k: Ticket, l: Ticket)
    requires Distinct(fifo) && fifo != [] && k != l && k in fifo && l in fifo && Ahead(fifo, k, l) && fifo[0] != k
    ensures k in fifo[1..] && l in fifo[1..] && Ahead(fifo[1..], k, l)
  {
    RotateKeepsAhead(fifo, k, l);
    assert fifo == [fifo[0]] + fifo[1..];
  }

  lemma TimeOutKeepsQueueOrder(s: State, ceiling: nat, m: Ticket, t: Tenant, k: Ticket, l: Ticket)
    requires Inv(s, ceiling) && Enabled(s, TimeOut(m)) && k != l && StandsBefore(s, t, k, l) && m != k && m != l
    ensures StandsBefore(Step(s, TimeOut(m)), t, k, l)
  {
    if m !in s.granted && s.waiting[m] == t {
      RemoveFirstKeeps(s.queues.fifos[t], m);
      RemoveFirstKeepsOrder(s.queues.fifos[t], m, k, l);
    }
  }

  lemma StepKeepsQueueOrder(s: State, e: Event, ceiling: nat, t: Tenant, k: Ticket, l: Ticket)
    requires Inv(s, ceiling) && Enabled(s, e) && k != l && StandsBefore(s, t, k, l)
    requires k in Step(s, e).waiting && l in Step(s, e).waiting
    ensures StandsBefore(Step(s, e), t, k, l)
  {
    match e
    case Grant => GrantKeepsQueueOrder(s, ceiling, t, k, l);
    case TimeOut(m) =>
      assert m in s.granted || (m != k && m != l);
      if m !in s.granted {
        TimeOutKeepsQueueOrder(s, ceiling, m, t, k, l);
      }
    case FairEnter(u, m) =>
      if u == t {
        AppendKeepsAhead(s.queues.fifos[t], m, k, l);
      }
    case _ =>
  }

  /** Entering behind a waiting ticket of the same tenant. */
  lemma EntryStandsBehind(s: State, ceiling: nat, t: Tenant, k: Ticket, l: Ticket)
    requires Inv(s, ceiling) && Enabled(s, FairEnter(t, l)) && k in s.waiting && s.waiting[k] == t
    ensures k != l && StandsBefore(Step(s, FairEnter(t, l)), t, k, l)
  {
    var fifo := s.queues.fifos[t];
    assert l !in fifo && Step(s, FairEnter(t, l)).queues.fifos[t] == fifo + [l];
  }

  lemma {:induction false} TenantStays(ss: seq<State>, es: seq<Event>, ceiling: nat, i: nat, n: nat, t: Tenant,
                                       k: Ticket)
    requires IsRun(ss, es, ceiling) && i < n < |ss| && es[i] == FairEnter(t, k)
    requires forall m | i < m <= n :: k in ss[m].waiting
    ensures ss[n].waiting[k] == t
    decreases n
  {
    if i + 1 < n {
      TenantStays(ss, es, ceiling, i, n - 1, t, k);
      assert k in ss[n - 1].waiting;
    }
  }

  lemma {:induction false} OrderStays(ss: seq<State>, es: seq<Event>, ceiling: nat, i: nat, j: nat, n: nat,
                                      t: Tenant, k: Ticket, l: Ticket)
    requires IsRun(ss, es, ceiling) && i < j < n < |ss|
    requires es[i] == FairEnter(t, k) && es[j] == FairEnter(t, l)
    requires forall m | i < m <= n :: k in ss[m].waiting
    requires forall m | j < m <= n :: l in ss[m].waiting
    ensures k != l && StandsBefore(ss[n], t, k, l)
    decreases n
  {
    if j + 1 == n {
      TenantStays(ss, es, ceiling, i, j, t, k);
      RunKeepsInv(ss, es, ceiling, j);
      EntryStandsBehind(ss[j], ceiling, t, k, l);
    } else {
      OrderStays(ss, es, ceiling, i, j, n - 1, t, k, l);
      RunStepKeepsQueueOrder(ss, es, ceiling, n - 1, t, k, l);
    }
  }

  lemma RunStepKeepsQueueOrder(ss: seq<State>, es: seq<Event>, ceiling: nat, n: nat, t: Tenant, k: Ticket, l: Ticket)
    requires IsRun(ss, es, ceiling) && n < |es| && k != l && StandsBefore(ss[n], t, k, l)
    requires k in ss[n + 1].waiting && l in ss[n + 1].waiting
    ensures StandsBefore(ss[n + 1], t, k, l)
  {
    RunKeepsInv(ss, es, ceiling, n);
    StepKeepsQueueOrder(ss[n], es[n], ceiling, t, k, l);
  }

  /** First come, first served: while a ticket waits, no step grants a later one of the same tenant. */
  lemma TenantIsServedInOrder(ss: seq<State>, es: seq<Event>, ceiling: nat, i: nat, j: nat, n: nat,
                              t: Tenant, k: Ticket, l: Ticket)
    requires IsRun(ss, es, ceiling) && i < j < n < |es|
    requires es[i] == FairEnter(t, k) && es[j] == FairEnter(t, l)
    requires forall m | i < m <= n :: k in ss[m].waiting
    requires forall m | j < m <= n :: l in ss[m].waiting
    ensures l !in ss[n + 1].granted
  {
    OrderStays(ss, es, ceiling, i, j, n, t, k, l);
    RunKeepsInv(ss, es, ceiling, n);
    LaterIsNotGranted(ss[n], es[n], ceiling, t, k, l);
  }

  // The dispatcher in one go.

  function CoreOf(s: State): Core {
    Core(s.free, s.queues, s.granted)
  }

  /** The dispatcher's steps with nobody in between. */
  function Undisturbed(s: State): State
    requires s.dispatcher == Deciding
    decreases s.free
  {
    var s1 := Step(s, Take);
    if s1.dispatcher == Idle then s1
    else
      var s2 := Step(s1, Grant);
      if s2.dispatcher == Idle then s2 else Undisturbed(s2)
  }

  /** The dispatcher run under the lock in one go is the interleaved one left undisturbed. */
  lemma {:induction false} DispatchIsUndisturbedRun(s: State)
    requires s.dispatcher == Deciding
    ensures Undisturbed(s).dispatcher == Idle && CoreOf(Undisturbed(s)) == Dispatch(CoreOf(s))
    decreases s.free
  {
    if s.queues.fifos != map[] && s.free > 0 {
      var s2 := Step(Step(s, Take), Grant);
      if s2.dispatcher == Deciding {
        DispatchIsUndisturbedRun(s2);
      }
    }
  }
}
