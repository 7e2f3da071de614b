/**
 The in-process half of the guard: a table entry holding one lock object per
 drawing, created by the first interested thread and deleted by the last one.
 A thread takes the lock only after it has left the table, so the entry may be
 unheld while callers are still on their way to it.
 */
module ThreadLock {
  import opened Prelude

  type Thread = nat
  type LockObject = nat

  datatype Entry = Entry(lock: LockObject, count: int)

  /** The drawing's table entry, each interested thread's lock object, and which thread holds which lock. */
  datatype State = State(entry: Option<Entry>, interest: map<Thread, LockObject>, held: map<LockObject, Thread>)

  datatype Event =
    | Join(t: Thread, spare: LockObject)
    | Acquire(t: Thread)
    | Release(t: Thread)
    | Depart(t: Thread)

  const INITIAL := State(None, map[], map[])

  predicate Holds(s: State, t: Thread) {
    t in s.interest && s.interest[t] in s.held && s.held[s.interest[t]] == t
  }

  /** A new lock object differs from every one still referred to. */
  predicate Enabled(s: State, e: Event) {
    match e
    case Join(t, spare) => t !in s.interest && spare !in s.interest.Values && spare !in s.held
    case Acquire(t) => t in s.interest && s.interest[t] !in s.held
    case Release(t) => Holds(s, t)
    case Depart(t) => t in s.interest && !Holds(s, t)
  }

  function Step(s: State, e: Event): State
    requires Enabled(s, e)
  {
    match e
    case Join(t, spare) =>
      var entry := if s.entry.None? then Entry(spare, 0) else s.entry.value;
      s.(entry := Some(entry.(count := entry.count + 1)), interest := s.interest[t := entry.lock])
    case Acquire(t) => s.(held := s.held[s.interest[t] := t])
    case Release(t) => s.(held := s.held - {s.interest[t]})
    case Depart(t) =>
      var entry :=
        if s.entry.None? then None
        else if s.entry.value.count - 1 <= 0 then None
        else Some(s.entry.value.(count := s.entry.value.count - 1));
      s.(entry := entry, interest := s.interest - {t})
  }

  ghost predicate Inv(s: State) {
    && (s.entry.None? <==> s.interest == map[])
    && (s.entry.Some? ==>
          && s.entry.value.count == |s.interest|
          && forall t | t in s.interest :: s.interest[t] == s.entry.value.lock)
    && (forall l | l in s.held :: Holds(s, s.held[l]) && s.interest[s.held[l]] == l)
  }

  lemma StepKeepsInv(s: State, e: Event)
    requires Inv(s) && Enabled(s, e)
    ensures Inv(Step(s, e))
  {
    match e
    case Join(t, spare) =>
    case Acquire(t) =>
    case Release(t) =>
    case Depart(t) =>
      var rest := s.interest - {t};
      assert rest.Keys == s.interest.Keys - {t};
      assert |rest| == |rest.Keys| == |s.interest| - 1;
      assert rest == map[] <==> |rest| == 0;
  }

  ghost predicate IsRun(ss: seq<State>, es: seq<Event>) {
    && |ss| == |es| + 1
    && ss[0] == INITIAL
    && forall i | 0 <= i < |es| :: Enabled(ss[i], es[i]) && ss[i + 1] == Step(ss[i], es[i])
  }

  lemma {:induction false} RunKeepsInv(ss: seq<State>, es: seq<Event>, k: nat)
    requires IsRun(ss, es) && k < |ss|
    ensures Inv(ss[k])
  {
    if k > 0 {
      RunKeepsInv(ss, es, k - 1);
      StepKeepsInv(ss[k - 1], es[k - 1]);
    }
  }

  /** At most one thread is ever in the section, although the entry comes and goes;
      and the entry exists exactly while some thread is interested, so the table is
      bounded by concurrent callers. */
  lemma MutualExclusion(ss: seq<State>, es: seq<Event>)
    requires IsRun(ss, es)
    ensures forall k, t, u | 0 <= k < |ss| && Holds(ss[k], t) && Holds(ss[k], u) :: t == u
    ensures forall k | 0 <= k < |ss| :: ss[k].entry.Some? <==> |ss[k].interest| > 0
  {
    forall k | 0 <= k < |ss|
      ensures Inv(ss[k])
    {
      RunKeepsInv(ss, es, k);
    }
  }

  /** Where nobody holds the lock, a newcomer gets it, and after giving it back and departing the guard is as it was. */
  lemma CallerLeavesNoTrace(ss: seq<State>, es: seq<Event>, k: nat, t: Thread, spare: LockObject)
    requires IsRun(ss, es) && k < |ss| && ss[k].held == map[]
    requires t !in ss[k].interest && spare !in ss[k].interest.Values
    ensures Enabled(ss[k], Join(t, spare))
    ensures var s1 := Step(ss[k], Join(t, spare));
            && Enabled(s1, Acquire(t))
            && var s2 := Step(s1, Acquire(t));
            && Holds(s2, t) && Enabled(s2, Release(t))
            && var s3 := Step(s2, Release(t));
            && Enabled(s3, Depart(t)) && Step(s3, Depart(t)) == ss[k]
  {
    RunKeepsInv(ss, es, k);
    var s := ss[k];
    var l := Step(s, Join(t, spare)).interest[t];
    assert map[l := t] - {l} == map[];
    assert s.interest[t := l] - {t} == s.interest;
    assert s.interest == map[] <==> |s.interest| == 0;
  }
}
