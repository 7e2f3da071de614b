/**
 Nothing gets stuck at the gate: a free permit is handed out at once, and from every reachable state
 those inside and waiting can all leave, with every permit back.
 */
module FairGateDrain {
  import opened Prelude
  import opened FairGate
  import opened FairGateRuns

  /** These steps can be taken one after the other, and lead there. */
  predicate Leads(s: State, es: seq<Event>, goal: State)
    decreases |es|
  {
    if es == [] then s == goal else Enabled(s, es[0]) && Leads(Step(s, es[0]), es[1..], goal)
  }

  predicate IsEntry(e: Event) {
    e.PlainEnter? || e.FairEnter?
  }

  /** How much is left to do before the gate is empty. */
  function Left(s: State): nat {
    5 * |s.waiting| + 3 * |s.granted| + 4 * |s.plain| + 3 * |s.leavers|
    + match s.dispatcher case Idle => 0 case InHand => 1 case Deciding => 2
  }

  lemma FewerWaiting(waiting: map<Ticket, Tenant>, k: Ticket)
    requires k in waiting
    ensures |waiting - {k}| == |waiting| - 1
  {
    assert (waiting - {k}).Keys == waiting.Keys - {k};
    assert |waiting - {k}| == |(waiting - {k}).Keys| && |waiting| == |waiting.Keys|;
  }

  /** The queues are empty where nobody waits. */
  lemma NobodyQueued(q: Queues, waiting: map<Ticket, Tenant>)
    requires GoodRing(q) && GoodTickets(q.fifos, waiting) && waiting == map[]
    ensures q == Queues(map[], [])
  {
    if q.fifos != map[] {
      PickKeepsTickets(q, waiting);
      assert false;
    }
    if q.ring != [] {
      FirstIsMember(q.ring);
      assert false;
    }
  }

  lemma FirstIsMember(ring: seq<Tenant>)
    requires ring != []
    ensures exists t :: t in ring
  {
    assert ring[0] in ring;
  }

  lemma GrantGoesOn(s: State, ceiling: nat)
    requires Inv(s, ceiling) && s.dispatcher == InHand
    ensures Left(Step(s, Grant)) < Left(s)
  {
    if s.queues.fifos != map[] {
      PickKeepsTickets(s.queues, s.waiting);
      FewerWaiting(s.waiting, Pick(s.queues).1.value);
    } else {
      assert s.waiting == map[];
      NobodyQueued(s.queues, s.waiting);
    }
  }

  lemma EmptyIsInitial(s: State, ceiling: nat)
    requires Inv(s, ceiling) && s.dispatcher == Idle
    requires s.waiting == map[] && s.granted == {} && s.plain == {} && s.leavers == {}
    ensures s == Initial(ceiling)
  {
    NobodyQueued(s.queues, s.waiting);
  }

  lemma TimeOutIsExit(s: State, ceiling: nat, k: Ticket)
    requires Inv(s, ceiling) && s.dispatcher == Idle && k in s.waiting
    ensures Enabled(s, TimeOut(k)) && Left(Step(s, TimeOut(k))) < Left(s)
  {
    FewerWaiting(s.waiting, k);
  }

  lemma LeavingIsExit(s: State, e: Event)
    requires s.dispatcher == Idle && Enabled(s, e) && (e.FairLeave? || e.PlainReturn? || e.PlainDispatch?)
    ensures Left(Step(s, e)) < Left(s)
  {
  }

  /** Someone can always go on or leave. */
  lemma NextExit(s: State, ceiling: nat) returns (e: Event)
    requires Inv(s, ceiling) && s != Initial(ceiling)
    ensures Enabled(s, e) && !IsEntry(e) && Left(Step(s, e)) < Left(s)
  {
    if s.dispatcher == InHand {
      e := Grant;
      GrantGoesOn(s, ceiling);
    } else if s.dispatcher == Deciding {
      e := Take;
    } else if k :| k in s.waiting {
      e := TimeOut(k);
      TimeOutIsExit(s, ceiling, k);
    } else {
      e := NextLeaving(s, ceiling);
    }
  }

  lemma NextLeaving(s: State, ceiling: nat) returns (e: Event)
    requires Inv(s, ceiling) && s != Initial(ceiling) && s.dispatcher == Idle && forall k :: k !in s.waiting
    ensures Enabled(s, e) && !IsEntry(e) && Left(Step(s, e)) < Left(s)
  {
    if k :| k in s.granted {
      e := FairLeave(k);
    } else if c :| c in s.plain {
      e := PlainReturn(c);
    } else if s.leavers != {} {
      var c :| c in s.leavers;
      e := PlainDispatch(c);
    } else {
      EmptyIsInitial(s, ceiling);
      assert false;
    }
    LeavingIsExit(s, e);
  }

  lemma Drain(s: State, ceiling: nat) returns (es: seq<Event>)
    requires Inv(s, ceiling)
    ensures Leads(s, es, Initial(ceiling)) && forall i | 0 <= i < |es| :: !IsEntry(es[i])
    decreases Left(s)
  {
    if s == Initial(ceiling) {
      es := [];
    } else {
      var e := NextExit(s, ceiling);
      StepKeepsInv(s, e, ceiling);
      var rest := Drain(Step(s, e), ceiling);
      LeadsOn(s, e, rest, Initial(ceiling));
      es := [e] + rest;
    }
  }

  /** From every state of every run, exits, time-outs and the dispatcher alone lead back to the empty gate with all
      its permits: no interleaving loses one for ever or leaves a caller stuck. */
  lemma GateCanAlwaysEmpty(ss: seq<State>, es: seq<Event>, ceiling: nat, k: nat) returns (more: seq<Event>)
    requires IsRun(ss, es, ceiling) && k < |ss|
    ensures Leads(ss[k], more, Initial(ceiling)) && forall i | 0 <= i < |more| :: !IsEntry(more[i])
  {
    RunKeepsInv(ss, es, ceiling, k);
    more := Drain(ss[k], ceiling);
  }

  /** Where nobody waits and a permit is free, a newcomer of either kind is let in at once. */
  lemma FreePermitIsHandedOut(ss: seq<State>, es: seq<Event>, ceiling: nat, n: nat, t: Tenant, k: Ticket, c: Caller)
    requires IsRun(ss, es, ceiling) && n < |ss| && ss[n].dispatcher == Idle
    requires ss[n].waiting == map[] && ss[n].free > 0 && k !in ss[n].granted
    requires c !in ss[n].plain && c !in ss[n].leavers
    ensures var s := ss[n];
            && Leads(s, [FairEnter(t, k), Take, Grant],
                     s.(free := s.free - 1, granted := s.granted + {k}, dispatcher := Deciding))
            && Leads(s, [PlainEnter(c)], s.(free := s.free - 1, plain := s.plain + {c}))
  {
    RunKeepsInv(ss, es, ceiling, n);
    NobodyQueued(ss[n].queues, ss[n].waiting);
    EntryIsGranted(ss[n], t, k);
  }

  lemma OneInQueue(t: Tenant, k: Ticket)
    ensures Register(Queues(map[], []), t, k) == Queues(map[t := [k]], [t])
    ensures Pick(Queues(map[t := [k]], [t])) == (Queues(map[], []), Some(k))
  {
    assert [t][1..] == [] && [k][1..] == [];
    assert map[t := [k]] - {t} == map[];
  }

  lemma EntryIsGranted(s: State, t: Tenant, k: Ticket)
    requires s.queues == Queues(map[], []) && s.waiting == map[] && s.dispatcher == Idle && s.free > 0
    requires k !in s.granted
    ensures Leads(s, [FairEnter(t, k), Take, Grant],
                  s.(free := s.free - 1, granted := s.granted + {k}, dispatcher := Deciding))
  {
    OneInQueue(t, k);
    var entered := s.(queues := Queues(map[t := [k]], [t]), waiting := map[k := t], dispatcher := Deciding);
    var taken := entered.(free := s.free - 1, dispatcher := InHand);
    var granted := s.(free := s.free - 1, granted := s.granted + {k}, dispatcher := Deciding);
    assert Step(s, FairEnter(t, k)) == entered && Step(entered, Take) == taken;
    assert map[k := t] - {k} == map[];
    assert Step(taken, Grant) == granted;
    assert Leads(granted, [], granted);
    LeadsOn(taken, Grant, [], granted);
    LeadsOn(entered, Take, [Grant], granted);
    LeadsOn(s, FairEnter(t, k), [Take, Grant], granted);
    assert [FairEnter(t, k)] + [Take, Grant] == [FairEnter(t, k), Take, Grant];
    assert [Take] + [Grant] == [Take, Grant] && [Grant] + [] == [Grant];
  }

  lemma LeadsOn(s: State, e: Event, es: seq<Event>, goal: State)
    requires Enabled(s, e) && Leads(Step(s, e), es, goal)
    ensures Leads(s, [e] + es, goal)
  {
    assert ([e] + es)[1..] == es;
  }
}
