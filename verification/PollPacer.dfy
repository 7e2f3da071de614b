/**
 Poll pacing: one slot time shared by every poller of the process. Times are real
 numbers; the lock makes each reservation and each push-out one atomic step.
 */
module PollPacer {
  import opened Prelude

  const POLL_BUDGET_DEFAULT := 120
  const POLL_BUDGET_MAX := 150

  /** Requests per minute; the setting is None when unset or not a number. */
  function PollBudget(setting: Option<int>): (b: nat)
    ensures 1 <= b <= POLL_BUDGET_MAX
    ensures setting.Some? && 1 <= setting.value <= POLL_BUDGET_MAX ==> b == setting.value
    ensures setting.None? ==> b == POLL_BUDGET_DEFAULT
    ensures setting.Some? && setting.value < 1 ==> b == 1
    ensures setting.Some? && setting.value > POLL_BUDGET_MAX ==> b == POLL_BUDGET_MAX
  {
    var value := if setting.None? then POLL_BUDGET_DEFAULT else setting.value;
    if value < 1 then 1 else if value > POLL_BUDGET_MAX then POLL_BUDGET_MAX else value
  }

  function Spacing(budget: nat): real
    requires budget >= 1
  {
    60.0 / budget as real
  }

  /** n gaps, one after the other. */
  function Gaps(n: nat, gap: real): real {
    if n == 0 then 0.0 else Gaps(n - 1, gap) + gap
  }

  lemma {:induction false} GapsIsProduct(n: nat, gap: real)
    ensures Gaps(n, gap) == n as real * gap
  {
    if n > 0 {
      GapsIsProduct(n - 1, gap);
      Distribute((n - 1) as real, gap);
    }
  }

  lemma Distribute(x: real, gap: real)
    ensures x * gap + gap == (x + 1.0) * gap
  {
  }

  lemma ScaleUp(x: real, y: real, b: real)
    requires x <= y && b > 0.0
    ensures x * b <= y * b
  {
  }

  lemma Cancel(b: real)
    requires b > 0.0
    ensures (60.0 / b) * b == 60.0
  {
  }

  lemma Associate(n: real, g: real, b: real)
    ensures (n * g) * b == n * (g * b)
  {
  }

  /** As many gaps as fit into a stretch of time. */
  lemma GapsFit(n: nat, timeout: real, budget: nat)
    requires budget >= 1 && Gaps(n, Spacing(budget)) <= timeout
    ensures n as real <= timeout * budget as real / 60.0
  {
    var b := budget as real;
    GapsIsProduct(n, Spacing(budget));
    ScaleUp(n as real * Spacing(budget), timeout, b);
    Associate(n as real, Spacing(budget), b);
    Cancel(b);
  }

  lemma BudgetGapsAreAMinute(budget: nat)
    requires budget >= 1
    ensures Gaps(budget, Spacing(budget)) == 60.0
  {
    GapsIsProduct(budget, Spacing(budget));
    Cancel(budget as real);
  }

  lemma SpacingIsPositive(budget: nat)
    requires budget >= 1
    ensures Spacing(budget) > 0.0
  {
  }

  function SlotAt(next: Option<real>, now: real): real {
    if next.None? || next.value <= now then now else next.value
  }

  /** The slot a caller gets, and the time from which the next one is given; past the deadline it gets none. */
  function Reserve(next: Option<real>, now: real, deadline: Option<real>, budget: nat): (Option<real>, Option<real>)
    requires budget >= 1
  {
    var slot := SlotAt(next, now);
    if deadline.Some? && slot > deadline.value then (next, None) else (Some(slot + Spacing(budget)), Some(slot))
  }

  function Pushed(next: Option<real>, until: real): Option<real> {
    if next.None? || next.value < until then Some(until) else next
  }

  class Pacer {
    var nextSlot: Option<real>

    constructor ()
      ensures nextSlot == None
    {
      nextSlot := None;
    }

    method Acquire(now: real, deadline: Option<real>, budget: nat) returns (slot: Option<real>)
      requires budget >= 1
      modifies this
      ensures (nextSlot, slot) == Reserve(old(nextSlot), now, deadline, budget)
    {
      var spacing := 60.0 / budget as real;
      var s := if nextSlot.None? || nextSlot.value <= now then now else nextSlot.value;
      if deadline.Some? && s > deadline.value {
        return None;
      }
      nextSlot := Some(s + spacing);
      return Some(s);
    }

    method PushOut(until: real)
      modifies this
      ensures nextSlot == Pushed(old(nextSlot), until)
    {
      if nextSlot.None? || nextSlot.value < until {
        nextSlot := Some(until);
      }
    }
  }

  // All reservations and push-outs of all threads, in the order the lock gave them.

  datatype Event = Acquiring(now: real, deadline: Option<real>) | PushingOut(until: real)

  function After(es: seq<Event>, budget: nat): (Option<real>, seq<real>)
    requires budget >= 1
  {
    if es == [] then (None, [])
    else
      var (next, slots) := After(es[..|es| - 1], budget);
      match es[|es| - 1]
      case PushingOut(until) => (Pushed(next, until), slots)
      case Acquiring(now, deadline) =>
        var (next', slot) := Reserve(next, now, deadline, budget);
        (next', if slot.Some? then slots + [slot.value] else slots)
  }

  ghost predicate Spaced(next: Option<real>, slots: seq<real>, gap: real) {
    && (slots != [] ==> next.Some? && slots[|slots| - 1] + gap <= next.value)
    && (forall i | 0 < i < |slots| :: slots[i - 1] + gap <= slots[i])
  }

  lemma {:induction false} SlotsAreSpaced(es: seq<Event>, budget: nat)
    requires budget >= 1
    ensures Spaced(After(es, budget).0, After(es, budget).1, Spacing(budget))
  {
    if es != [] {
      SlotsAreSpaced(es[..|es| - 1], budget);
    }
  }

  lemma {:induction false} GapsAddUp(slots: seq<real>, gap: real, i: nat, n: nat)
    requires i + n < |slots| && forall k | 0 < k < |slots| :: slots[k - 1] + gap <= slots[k]
    ensures slots[i] + Gaps(n, gap) <= slots[i + n]
  {
    if n > 0 {
      GapsAddUp(slots, gap, i, n - 1);
    }
  }

  predicate InWindow(slots: seq<real>, start: real, i: int) {
    0 <= i < |slots| && start <= slots[i] < start + 60.0
  }

  ghost function SlotsIn(slots: seq<real>, start: real): set<int> {
    set i | 0 <= i < |slots| && InWindow(slots, start, i)
  }

  lemma {:induction false} IntervalSize(s: set<int>, lo: int, n: nat)
    requires forall i | i in s :: lo <= i < lo + n
    ensures |s| <= n
  {
    if n > 0 {
      var last := lo + n - 1;
      IntervalSize(s - {last}, lo, n - 1);
      assert s <= (s - {last}) + {last};
      assert |s| <= |s - {last}| + 1;
    } else {
      assert forall i :: i !in s;
    }
  }

  /** Rate: whatever the threads do, any window of a minute holds at most `budget` reserved slots. */
  lemma RateIsBounded(es: seq<Event>, budget: nat, start: real)
    requires budget >= 1
    ensures |SlotsIn(After(es, budget).1, start)| <= budget
  {
    var slots, gap := After(es, budget).1, Spacing(budget);
    SlotsAreSpaced(es, budget);
    var inside := SlotsIn(slots, start);
    if inside != {} {
      var lo := Least(slots, start);
      forall i | i in inside
        ensures lo <= i < lo + budget
      {
        if i >= lo + budget {
          GapsAddUp(slots, gap, lo, budget);
          BudgetGapsAreAMinute(budget);
          SpacingIsPositive(budget);
          SlotsAscend(slots, gap, lo + budget, i);
          assert false;
        }
      }
      IntervalSize(inside, lo, budget);
    }
  }

  lemma {:induction false} SlotsAscend(slots: seq<real>, gap: real, i: nat, j: nat)
    requires i <= j < |slots| && gap >= 0.0 && forall k | 0 < k < |slots| :: slots[k - 1] + gap <= slots[k]
    ensures slots[i] <= slots[j]
    decreases j
  {
    if i < j {
      SlotsAscend(slots, gap, i, j - 1);
    }
  }

  lemma Least(slots: seq<real>, start: real) returns (lo: nat)
    requires SlotsIn(slots, start) != {}
    ensures InWindow(slots, start, lo) && forall i | i in SlotsIn(slots, start) :: lo <= i
  {
    var some :| some in SlotsIn(slots, start);
    lo := 0;
    while !InWindow(slots, start, lo)
      invariant lo <= some && forall i | i in SlotsIn(slots, start) :: lo <= i
      decreases some - lo
    {
      lo := lo + 1;
    }
  }

  /** No reservation after a push-out is earlier than its time. */
  lemma {:induction false} PushOutHoldsEveryone(es: seq<Event>, more: seq<Event>, until: real, budget: nat)
    requires budget >= 1
    ensures var (next, slots) := After(es + [PushingOut(until)] + more, budget);
            var before := After(es, budget).1;
            && next.Some? && until <= next.value
            && |before| <= |slots| && slots[..|before|] == before
            && forall i | |before| <= i < |slots| :: until <= slots[i]
  {
    var all := es + [PushingOut(until)] + more;
    if more == [] {
      assert all[..|all| - 1] == es;
    } else {
      PushOutHoldsEveryone(es, more[..|more| - 1], until, budget);
      assert all[..|all| - 1] == es + [PushingOut(until)] + more[..|more| - 1];
      assert Spacing(budget) >= 0.0;
    }
  }

  ghost predicate AfterPushes(es: seq<Event>, x: real) {
    forall i | 0 <= i < |es| && es[i].PushingOut? :: es[i].until <= x
  }

  ghost predicate AfterSlots(slots: seq<real>, gap: real, x: real) {
    forall i | 0 <= i < |slots| :: slots[i] + gap <= x
  }

  /** A time that every earlier push-out and every earlier slot with its spacing leaves open. */
  ghost predicate IsOpen(es: seq<Event>, budget: nat, x: real)
    requires budget >= 1
  {
    AfterPushes(es, x) && AfterSlots(After(es, budget).1, Spacing(budget), x)
  }

  lemma PushesNext(es: seq<Event>, e: Event, x: real)
    ensures AfterPushes(es + [e], x) <==> AfterPushes(es, x) && (e.PushingOut? ==> e.until <= x)
  {
    var all := es + [e];
    assert all[|es|] == e;
    if AfterPushes(all, x) {
      forall i | 0 <= i < |es| && es[i].PushingOut? ensures es[i].until <= x {
        assert all[i] == es[i];
      }
    }
  }

  lemma SlotsNext(slots: seq<real>, slot: real, gap: real, x: real)
    ensures AfterSlots(slots + [slot], gap, x) <==> AfterSlots(slots, gap, x) && slot + gap <= x
  {
    var all := slots + [slot];
    assert all[|slots|] == slot;
    if AfterSlots(all, gap, x) {
      forall i | 0 <= i < |slots| ensures slots[i] + gap <= x {
        assert all[i] == slots[i];
      }
    }
  }

  /** The time from which the next slot is given is the earliest open one. */
  lemma {:induction false} NextIsEarliest(es: seq<Event>, budget: nat, x: real)
    requires budget >= 1
    ensures var next := After(es, budget).0;
            IsOpen(es, budget, x) <==> (next.Some? ==> next.value <= x)
  {
    if es != [] {
      var front, e := es[..|es| - 1], es[|es| - 1];
      NextIsEarliest(front, budget, x);
      assert es == front + [e];
      PushesNext(front, e, x);
      if e.Acquiring? {
        var (next, slots) := After(front, budget);
        SlotsNext(slots, SlotAt(next, e.now), Spacing(budget), x);
      }
      SpacingIsPositive(budget);
    }
  }

  /** A caller gets the earliest time, from now on, that all earlier push-outs and slots leave open; it gets
      none, and reserves nothing, exactly when that time is past its deadline. */
  lemma SlotIsEarliest(es: seq<Event>, now: real, deadline: Option<real>, budget: nat)
    requires budget >= 1
    ensures var (next, slot) := Reserve(After(es, budget).0, now, deadline, budget);
            && (slot.Some? ==>
                  && now <= slot.value && IsOpen(es, budget, slot.value)
                  && (forall x :: now <= x && IsOpen(es, budget, x) ==> slot.value <= x)
                  && (deadline.Some? ==> slot.value <= deadline.value))
            && (slot.None? ==>
                  && deadline.Some? && next == After(es, budget).0
                  && (forall x :: now <= x && IsOpen(es, budget, x) ==> deadline.value < x))
  {
    forall x ensures IsOpen(es, budget, x) <==> (After(es, budget).0.Some? ==> After(es, budget).0.value <= x) {
      NextIsEarliest(es, budget, x);
    }
  }

  // Waiting after a 429.

  function Min(a: real, b: real): real {
    if a <= b then a else b
  }

  function Max(a: real, b: real): real {
    if a >= b then a else b
  }

  function Doubled(n: nat): real {
    if n == 0 then 2.0 else 2.0 * Doubled(n - 1)
  }

  lemma Between(x: real, j: real)
    requires x >= 0.0 && 0.0 <= j <= 0.1
    ensures x * (1.0 + j) == x + x * j && 0.0 <= x * j <= 0.1 * x
  {
  }

  function Jittered(x: real, jitter: real): (r: real)
    requires x >= 0.0
    ensures x <= r <= 1.1 * x
  {
    var j := Max(0.0, Min(jitter, 0.1));
    Between(x, j);
    x * (1.0 + j)
  }

  function BaseWait(retryAfter: Option<real>, streak: int): (base: real)
    ensures 1.0 <= base <= 60.0
    ensures retryAfter.Some? && 1.0 <= retryAfter.value <= 60.0 ==> base == retryAfter.value
  {
    var capped := if streak < 1 then 1 else if streak > 7 then 7 else streak;
    Max(1.0, Min(if retryAfter.Some? then retryAfter.value else Doubled(capped - 1), 60.0))
  }

  /** The wait after the streak-th 429 in a row: Retry-After within a second and a minute, else
      doubling from two seconds, with up to a tenth of jitter on top. */
  function ThrottleWait(retryAfter: Option<real>, streak: int, jitter: real): (wait: real)
    ensures 1.0 <= wait <= 66.0
    ensures retryAfter.Some? && 1.0 <= retryAfter.value <= 60.0 ==> retryAfter.value <= wait <= 1.1 * retryAfter.value
  {
    Jittered(BaseWait(retryAfter, streak), jitter)
  }

  lemma {:induction false} DoubledGrows(m: nat, n: nat)
    requires m <= n
    ensures 2.0 <= Doubled(m) <= Doubled(n)
    decreases n
  {
    if n > 0 {
      DoubledGrows(if m < n then m else m - 1, n - 1);
    }
  }

  /** Without Retry-After a longer streak never waits less. */
  lemma BackoffGrows(a: int, b: int, jitter: real)
    requires a <= b
    ensures ThrottleWait(None, a, jitter) <= ThrottleWait(None, b, jitter)
  {
    var i := if a < 1 then 1 else if a > 7 then 7 else a;
    var k := if b < 1 then 1 else if b > 7 then 7 else b;
    DoubledGrows(i - 1, k - 1);
    JitterKeepsOrder(BaseWait(None, a), BaseWait(None, b), jitter);
  }

  /** Without Retry-After the wait doubles from two seconds up to a minute; with one it is that, within a
      second and a minute; and up to a tenth of it comes on top. */
  lemma WaitIs(retryAfter: Option<real>, streak: int, jitter: real)
    ensures var base := if retryAfter.Some? then Max(1.0, Min(retryAfter.value, 60.0))
                        else if streak <= 1 then 2.0 else if streak == 2 then 4.0 else if streak == 3 then 8.0
                        else if streak == 4 then 16.0 else if streak == 5 then 32.0 else 60.0;
            && base <= ThrottleWait(retryAfter, streak, jitter) <= 1.1 * base
            && (jitter <= 0.0 ==> ThrottleWait(retryAfter, streak, jitter) == base)
            && (jitter >= 0.1 ==> ThrottleWait(retryAfter, streak, jitter) == 1.1 * base)
  {
    assert Doubled(1) == 4.0 && Doubled(2) == 8.0 && Doubled(3) == 16.0 && Doubled(4) == 32.0;
    assert Doubled(5) == 64.0 && Doubled(6) == 128.0;
  }

  lemma JitterKeepsOrder(x: real, y: real, jitter: real)
    requires 0.0 <= x <= y
    ensures Jittered(x, jitter) <= Jittered(y, jitter)
  {
    ScaleUp(x, y, 1.0 + Max(0.0, Min(jitter, 0.1)));
  }

  // Polling one item.

  /** What the service answers to one status request. */
  datatype Answer =
    | Throttled(retryAfter: Option<real>)
    | HttpError
    | Unfinished
    | Finished

  /** One turn of the poll loop as the rest of the world shapes it: how long until the pacer is
      asked, the sleep after the turn before included; how far other threads have pushed the shared
      slot; how long the request takes; what comes back; and the jitter of a throttle wait. */
  datatype Turn = Turn(delay: real, others: Option<real>, latency: real, answer: Answer, jitter: real)

  datatype Polled =
    | Status(turn: nat)                             // the finished status of that turn
    | Raised
    | TimedOut(last: Option<nat>, throttled: bool)  // the last unfinished status seen

  predicate GoesOn(a: Answer) {
    a.Throttled? || a.Unfinished?
  }

  ghost predicate GoOn(world: nat -> Turn, n: nat) {
    forall i: nat | i < n :: GoesOn(world(i).answer)
  }

  lemma GoOnNext(world: nat -> Turn, n: nat)
    requires GoOn(world, n) && GoesOn(world(n).answer)
    ensures GoOn(world, n + 1)
  {
  }

  ghost function LastUnfinished(world: nat -> Turn, n: nat): Option<nat> {
    if n == 0 then None
    else if world(n - 1).answer.Unfinished? then Some(n - 1)
    else LastUnfinished(world, n - 1)
  }

  /** How many of the turns just before turn n were throttled in a row. */
  ghost function StreakAt(world: nat -> Turn, n: nat): nat {
    if n == 0 || !world(n - 1).answer.Throttled? then 0 else StreakAt(world, n - 1) + 1
  }

  /** One request as the poll loop made it: its slot, when it was answered, and the shared next slot that
      the turn left behind. */
  datatype Get = Get(slot: real, answered: real, next: real)

  /** A throttled answer that arrives before the deadline holds everyone for its wait, or until the deadline. */
  ghost predicate IsHeld(turn: Turn, streak: int, deadline: real, get: Get)
    requires turn.answer.Throttled?
  {
    get.answered < deadline ==>
      get.answered + Min(ThrottleWait(turn.answer.retryAfter, streak, turn.jitter), deadline - get.answered) <= get.next
  }

  /** What turn n adds to the requests before it: its slot lies within the time-out, before its answer and not
      before what the turn before left behind; and a throttled turn holds everyone. */
  ghost predicate Follows(world: nat -> Turn, start: real, deadline: real, log: seq<Get>, get: Get) {
    var n := |log|;
    && start <= get.slot <= deadline && get.slot <= get.answered
    && (n > 0 ==> log[n - 1].next <= get.slot)
    && (world(n).answer.Throttled? ==> IsHeld(world(n), StreakAt(world, n + 1), deadline, get))
  }

  /** The requests so far, each following those before it. */
  ghost predicate IsLog(world: nat -> Turn, start: real, deadline: real, log: seq<Get>) {
    log == [] || (
      && IsLog(world, start, deadline, log[..|log| - 1])
      && Follows(world, start, deadline, log[..|log| - 1], log[|log| - 1]))
  }

  lemma LogNext(world: nat -> Turn, start: real, deadline: real, log: seq<Get>, get: Get)
    requires IsLog(world, start, deadline, log) && Follows(world, start, deadline, log, get)
    ensures IsLog(world, start, deadline, log + [get])
  {
    var all := log + [get];
    assert all[..|all| - 1] == log && all[|all| - 1] == get;
  }

  /** After a throttled answer before the deadline the next request waits out the throttle wait of its streak, or
      until the deadline. */
  lemma {:induction false} NextWaits(world: nat -> Turn, start: real, deadline: real, log: seq<Get>, i: nat)
    requires IsLog(world, start, deadline, log) && i + 1 < |log|
    requires world(i).answer.Throttled? && log[i].answered < deadline
    ensures var wait := ThrottleWait(world(i).answer.retryAfter, StreakAt(world, i + 1), world(i).jitter);
            log[i].answered + Min(wait, deadline - log[i].answered) <= log[i + 1].slot
    decreases |log|
  {
    var front := log[..|log| - 1];
    if i + 2 < |log| {
      NextWaits(world, start, deadline, front, i);
    } else {
      assert front[..i] == log[..i];
    }
  }

  ghost predicate TimeMovesOn(world: nat -> Turn) {
    forall i: nat :: world(i).delay >= 0.0 && world(i).latency >= 0.0
  }

  /** A bound on the number of requests that the budget and the time-out set. */
  lemma MostGets(timeout: real, budget: nat) returns (most: nat)
    requires budget >= 1
    ensures most == 0 || most as real <= timeout * budget as real / 60.0 + 1.0
    ensures timeout >= 0.0 ==> forall gets: nat | Gaps(gets, Spacing(budget)) <= timeout :: gets < most
  {
    var fit := (timeout * budget as real / 60.0).Floor;
    most := if timeout < 0.0 || fit < 0 then 0 else fit + 1;
    if timeout >= 0.0 {
      forall gets: nat | Gaps(gets, Spacing(budget)) <= timeout ensures gets < most {
        GapsFit(gets, timeout, budget);
      }
    }
  }

  /** One turn with the pacer: the push-out of another thread that comes first, the slot, the request, and the
      push-out after a throttled answer. The streak counts this answer. */
  method TakeTurn(pacer: Pacer, now: real, deadline: real, turn: Turn, streak: int, budget: nat)
    returns (get: Option<Get>)
    requires budget >= 1 && turn.latency >= 0.0
    modifies pacer
    ensures old(pacer.nextSlot).Some? ==> pacer.nextSlot.Some? && old(pacer.nextSlot).value <= pacer.nextSlot.value
    ensures get.None? ==> now > deadline || (pacer.nextSlot.Some? && pacer.nextSlot.value > deadline)
    ensures get.Some? ==>
              && now <= get.value.slot <= deadline && get.value.answered == get.value.slot + turn.latency
              && (old(pacer.nextSlot).Some? ==> old(pacer.nextSlot).value <= get.value.slot)
              && pacer.nextSlot == Some(get.value.next) && get.value.slot + Spacing(budget) <= get.value.next
              && (turn.answer.Throttled? ==> IsHeld(turn, streak, deadline, get.value))
  {
    SpacingIsPositive(budget);
    if turn.others.Some? {
      pacer.PushOut(turn.others.value);
    }
    var slot := pacer.Acquire(now, Some(deadline), budget);
    if slot.None? {
      return None;
    }
    var answered := slot.value + turn.latency;
    if turn.answer.Throttled? && answered < deadline {
      pacer.PushOut(answered + Min(ThrottleWait(turn.answer.retryAfter, streak, turn.jitter), deadline - answered));
    }
    return Some(Get(slot.value, answered, pacer.nextSlot.value));
  }

  /** Poll until a finished status, an HTTP error or the deadline. The number of requests is bounded
      by the budget and the time-out alone, whatever answers arrive and whatever other pollers do. */
  method PollWorkitem(pacer: Pacer, start: real, timeout: real, budget: nat, world: nat -> Turn)
    returns (r: Polled, log: seq<Get>)
    requires budget >= 1 && TimeMovesOn(world)
    modifies pacer
    ensures IsLog(world, start, start + timeout, log)
    ensures log != [] ==> pacer.nextSlot.Some? && log[|log| - 1].next <= pacer.nextSlot.value
    ensures log == [] || |log| as real <= timeout * budget as real / 60.0 + 1.0
    ensures log != [] ==> GoOn(world, |log| - 1)
    ensures r.Status? ==> log != [] && r.turn == |log| - 1 && world(r.turn).answer.Finished?
    ensures r.Raised? ==> log != [] && world(|log| - 1).answer.HttpError?
    ensures r.TimedOut? ==>
              && GoOn(world, |log|)
              && r.last == LastUnfinished(world, |log|)
              && r.throttled == (StreakAt(world, |log|) > 0)
  {
    var deadline := start + timeout;
    var clock := start;
    var last: Option<nat> := None;
    var streak := 0;
    log := [];
    ghost var most := MostGets(timeout, budget);
    while true
      invariant clock >= start && |log| <= most && IsLog(world, start, deadline, log)
      invariant log != [] ==> pacer.nextSlot.Some? && log[|log| - 1].next <= pacer.nextSlot.value
      invariant log != [] ==> pacer.nextSlot.Some? && start + Gaps(|log|, Spacing(budget)) <= pacer.nextSlot.value
      invariant GoOn(world, |log|)
      invariant last == LastUnfinished(world, |log|)
      invariant streak == StreakAt(world, |log|)
      decreases most - |log|
    {
      var n, turn := |log|, world(|log|);
      clock := clock + turn.delay;
      var get := TakeTurn(pacer, clock, deadline, turn, streak + 1, budget);
      if get.None? {
        return TimedOut(last, streak > 0), log;
      }
      assert Gaps(n, Spacing(budget)) <= timeout;
      LogNext(world, start, deadline, log, get.value);
      log, clock := log + [get.value], get.value.answered;
      match turn.answer {
        case Throttled(_) =>
          GoOnNext(world, n);
          streak := streak + 1;
          if deadline - clock <= 0.0 {
            return TimedOut(last, true), log;
          }
        case HttpError =>
          return Raised, log;
        case Finished =>
          return Status(n), log;
        case Unfinished =>
          GoOnNext(world, n);
          streak, last := 0, Some(n);
          if clock - start > timeout {
            return TimedOut(last, false), log;
          }
      }
    }
  }
}
