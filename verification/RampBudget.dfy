/**
 The spend budget of the concurrency ramp: every level is given the longest processing time
 that still fits what is left of the budget, and is charged afterwards for the time it used.
 Money and time are real numbers.
 */
module RampBudget {
  import opened Prelude

  const TRANSFER_ALLOWANCE := 60
  const LONGEST_LIMIT := 600
  const SHORTEST_LIMIT := 60

  /** A WorkItem: whether it got an id, and the billed seconds if polling learned them. */
  datatype WorkItem = WorkItem(submitted: bool, billed: Option<real>)

  datatype Level = Level(n: nat, limit: int, items: seq<WorkItem>)

  /** What happens to a level that is started: its items, and whether the ramp goes on. */
  datatype Outcome = Outcome(items: seq<WorkItem>, stop: bool, raised: bool)

  function Min(a: int, b: int): int {
    if a < b then a else b
  }

  function Limit(remaining: real, n: nat, rate: real): int
    requires n > 0 && rate > 0.0
  {
    assert n as real * rate > 0.0;
    Min(LONGEST_LIMIT, (remaining * 3600.0 / (n as real * rate)).Floor - TRANSFER_ALLOWANCE)
  }

  function Reserve(limit: int): real {
    (limit + TRANSFER_ALLOWANCE) as real
  }

  function Charge(item: WorkItem, limit: int, rate: real): real {
    if !item.submitted then 0.0
    else if item.billed == None then Reserve(limit) * rate / 3600.0
    else item.billed.value / 3600.0 * rate
  }

  function Charges(items: seq<WorkItem>, limit: int, rate: real): real {
    if items == [] then 0.0
    else Charges(items[..|items| - 1], limit, rate) + Charge(items[|items| - 1], limit, rate)
  }

  function Cost(level: Level, rate: real): real {
    Charges(level.items, level.limit, rate)
  }

  function Spent(levels: seq<Level>, rate: real): real {
    if levels == [] then 0.0 else Spent(levels[..|levels| - 1], rate) + Cost(levels[|levels| - 1], rate)
  }

  /** One level was admitted with `remaining` left of the budget. */
  predicate Admitted(level: Level, remaining: real, rate: real)
    requires rate > 0.0
  {
    level.n > 0 && |level.items| <= level.n
    && level.limit == Limit(remaining, level.n, rate) && level.limit >= SHORTEST_LIMIT
  }

  /** Every level was admitted with what the levels before it left. */
  ghost predicate IsRun(levels: seq<Level>, cap: real, rate: real)
    requires rate > 0.0
  {
    levels != [] ==>
      var front, last := levels[..|levels| - 1], levels[|levels| - 1];
      IsRun(front, cap, rate) && Admitted(last, cap - Spent(front, rate), rate)
  }

  // The program.

  method Summarise(level: Level, rate: real) returns (usd: real)
    ensures usd == Cost(level, rate)
  {
    usd := 0.0;
    for k := 0 to |level.items|
      invariant usd == Charges(level.items[..k], level.limit, rate)
    {
      var prefix := level.items[..k + 1];
      assert prefix[..k] == level.items[..k];
      usd := usd + Charge(level.items[k], level.limit, rate);
    }
    assert level.items[..|level.items|] == level.items;
  }

  method TotalOf(levels: seq<Level>, rate: real) returns (usd: real)
    ensures usd == Spent(levels, rate)
  {
    usd := 0.0;
    for k := 0 to |levels|
      invariant usd == Spent(levels[..k], rate)
    {
      var prefix := levels[..k + 1];
      assert prefix[..k] == levels[..k];
      var one := Summarise(levels[k], rate);
      usd := usd + one;
    }
    assert levels[..|levels|] == levels;
  }

  datatype StopReason = SpendCap | LevelStopped | Completed | Unexpected

  datatype End = End(levels: seq<Level>, reason: StopReason)

  predicate IsRequest(requested: seq<nat>, world: seq<Outcome>) {
    |world| == |requested|
    && forall k :: 0 <= k < |requested| ==> requested[k] > 0 && |world[k].items| <= requested[k]
  }

  /** How the ramp goes on after `levels`. */
  function Play(levels: seq<Level>, cap: real, rate: real, requested: seq<nat>, world: seq<Outcome>): End
    requires rate > 0.0 && IsRequest(requested, world)
    decreases |requested|
  {
    if requested == [] then End(levels, Completed)
    else
      var limit := Limit(cap - Spent(levels, rate), requested[0], rate);
      if limit < SHORTEST_LIMIT then End(levels, SpendCap)
      else
        var ran := levels + [Level(requested[0], limit, world[0].items)];
        if world[0].raised then End(ran, Unexpected)
        else if world[0].stop then End(ran, LevelStopped)
        else Play(ran, cap, rate, requested[1..], world[1..])
  }

  class Ramp {
    const cap: real
    const rate: real
    var levels: seq<Level>
    var cumulative: real
    var overrun: real
    var reason: StopReason

    constructor (cap: real, rate: real)
      ensures this.cap == cap && this.rate == rate && levels == [] && cumulative == 0.0
    {
      this.cap, this.rate := cap, rate;
      levels, cumulative, overrun, reason := [], 0.0, 0.0, Unexpected;
    }

    /** One level: turned away without a trace, or run and charged. */
    method RunLevel(n: nat, outcome: Outcome) returns (admitted: bool)
      requires rate > 0.0 && n > 0 && |outcome.items| <= n
      requires cumulative == Spent(levels, rate)
      modifies this`levels, this`cumulative
      ensures cumulative == Spent(levels, rate)
      ensures admitted <==> Limit(cap - old(cumulative), n, rate) >= SHORTEST_LIMIT
      ensures levels == old(levels) +
        if admitted then [Level(n, Limit(cap - old(cumulative), n, rate), outcome.items)] else []
    {
      var limit := Limit(cap - cumulative, n, rate);
      if limit < SHORTEST_LIMIT {
        return false;
      }
      var level := Level(n, limit, outcome.items);
      SpentAfter(levels, level, rate);
      levels := levels + [level];
      if outcome.raised {
        cumulative := TotalOf(levels, rate);
      } else {
        var one := Summarise(level, rate);
        cumulative := cumulative + one;
      }
      return true;
    }

    method Run(requested: seq<nat>, world: seq<Outcome>)
      requires rate > 0.0 && levels == [] && cumulative == 0.0 && IsRequest(requested, world)
      modifies this
      ensures End(levels, reason) == Play([], cap, rate, requested, world)
      ensures cumulative == Spent(levels, rate)
      ensures overrun == if cumulative > cap then cumulative - cap else 0.0
    {
      reason := Completed;
      for k := 0 to |requested|
        invariant reason == Completed && cumulative == Spent(levels, rate)
        invariant Play(levels, cap, rate, requested[k..], world[k..]) == Play([], cap, rate, requested, world)
      {
        assert requested[k..][1..] == requested[k + 1..] && world[k..][1..] == world[k + 1..];
        var admitted := RunLevel(requested[k], world[k]);
        if !admitted {
          reason := SpendCap;
          break;
        } else if world[k].raised {
          reason := Unexpected;
          break;
        } else if world[k].stop {
          reason := LevelStopped;
          break;
        }
      }
      overrun := if cumulative > cap then cumulative - cap else 0.0;
    }
  }

  // What the run is.

  /** None of the first levels ended the ramp. */
  ghost predicate WentOn(world: seq<Outcome>, upTo: nat)
    requires upTo <= |world|
  {
    forall k :: 0 <= k < upTo ==> !world[k].stop && !world[k].raised
  }

  /** The reason given is the true one, after the first `ran` levels. */
  ghost predicate Explains(reason: StopReason, ran: nat, world: seq<Outcome>)
    requires ran <= |world|
  {
    match reason
    case Completed => ran == |world| && WentOn(world, ran)
    case SpendCap => ran < |world| && WentOn(world, ran)
    case Unexpected => ran > 0 && WentOn(world, ran - 1) && world[ran - 1].raised
    case LevelStopped => ran > 0 && WentOn(world, ran - 1) && world[ran - 1].stop && !world[ran - 1].raised
  }

  /** The levels run are the first ones requested, with the items the service returned. */
  ghost predicate Follows(levels: seq<Level>, requested: seq<nat>, world: seq<Outcome>)
    requires |world| == |requested|
  {
    |levels| <= |requested|
    && forall k :: 0 <= k < |levels| ==> levels[k].n == requested[k] && levels[k].items == world[k].items
  }

  lemma {:induction false} PlayKeepsRun(levels: seq<Level>, cap: real, rate: real,
                                        requested: seq<nat>, world: seq<Outcome>)
    requires rate > 0.0 && IsRequest(requested, world) && IsRun(levels, cap, rate)
    ensures IsRun(Play(levels, cap, rate, requested, world).levels, cap, rate)
    decreases |requested|
  {
    if requested != [] {
      var limit := Limit(cap - Spent(levels, rate), requested[0], rate);
      if limit >= SHORTEST_LIMIT {
        var level := Level(requested[0], limit, world[0].items);
        Extends(levels, level, cap, rate);
        PlayKeepsRun(levels + [level], cap, rate, requested[1..], world[1..]);
      }
    }
  }

  /** Which levels are run and why the ramp ends, from any point of the ramp on. */
  lemma {:induction false} PlayFollows(levels: seq<Level>, cap: real, rate: real,
                                       requested: seq<nat>, world: seq<Outcome>, done: nat)
    requires rate > 0.0 && IsRequest(requested, world) && done == |levels| <= |requested|
    requires Follows(levels, requested, world) && WentOn(world, done)
    ensures var end := Play(levels, cap, rate, requested[done..], world[done..]);
            Follows(end.levels, requested, world) && Explains(end.reason, |end.levels|, world)
    decreases |requested| - done
  {
    if done < |requested| {
      var limit := Limit(cap - Spent(levels, rate), requested[done], rate);
      if limit >= SHORTEST_LIMIT {
        var ran := levels + [Level(requested[done], limit, world[done].items)];
        assert requested[done..][1..] == requested[done + 1..] && world[done..][1..] == world[done + 1..];
        assert Follows(ran, requested, world);
        if !world[done].stop && !world[done].raised {
          PlayFollows(ran, cap, rate, requested, world, done + 1);
        }
      }
    }
  }

  /** A ramp that stops for the budget could not have paid for the next level. */
  lemma {:induction false} SpendCapMeansTooLittle(levels: seq<Level>, cap: real, rate: real,
                                                  requested: seq<nat>, world: seq<Outcome>)
    requires rate > 0.0 && IsRequest(requested, world)
    requires Play(levels, cap, rate, requested, world).reason == SpendCap
    ensures var end := Play(levels, cap, rate, requested, world);
            var next := |end.levels| - |levels|;
            0 <= next < |requested|
            && cap - Spent(end.levels, rate) < Price(Times(requested[next], Reserve(SHORTEST_LIMIT)), rate)
    decreases |requested|
  {
    var limit := Limit(cap - Spent(levels, rate), requested[0], rate);
    if limit < SHORTEST_LIMIT {
      LimitIsLongest(cap - Spent(levels, rate), requested[0], rate, SHORTEST_LIMIT);
    } else {
      SpendCapMeansTooLittle(levels + [Level(requested[0], limit, world[0].items)], cap, rate,
                             requested[1..], world[1..]);
    }
  }

  /** The limit is the longest that fits: any longer one within ten minutes could not be paid for. */
  lemma LimitIsLongest(remaining: real, n: nat, rate: real, longer: int)
    requires n > 0 && rate > 0.0 && Limit(remaining, n, rate) < longer <= LONGEST_LIMIT
    ensures remaining < Price(Times(n, Reserve(longer)), rate)
  {
    var m := n as real * rate;
    var each := Reserve(longer);
    assert m > 0.0;
    assert remaining * 3600.0 / m < each;
    QuotientTimes(remaining * 3600.0, m);
    StrictOrderTimes(remaining * 3600.0 / m, each, m);
    Regroup(n as real, each, rate);
  }

  lemma StrictOrderTimes(a: real, b: real, m: real)
    requires a < b && m > 0.0
    ensures a * m < b * m
  {
    StrictlyScaled(b - a, m);
    assert (b - a) * m == b * m - a * m;
  }

  lemma StrictlyScaled(a: real, b: real)
    requires a > 0.0 && b > 0.0
    ensures a * b > 0.0
  {
  }

  lemma SpentAfter(levels: seq<Level>, level: Level, rate: real)
    ensures Spent(levels + [level], rate) == Spent(levels, rate) + Cost(level, rate)
  {
    var all := levels + [level];
    assert all[..|all| - 1] == levels;
  }

  lemma Extends(levels: seq<Level>, level: Level, cap: real, rate: real)
    requires rate > 0.0 && IsRun(levels, cap, rate)
    requires Admitted(level, cap - Spent(levels, rate), rate)
    ensures IsRun(levels + [level], cap, rate)
  {
    var all := levels + [level];
    assert all[..|all| - 1] == levels;
  }

  // The time a level is charged for, and its price.

  function Price(seconds: real, rate: real): real {
    seconds * rate / 3600.0
  }

  function Seconds(item: WorkItem, limit: int): real {
    if !item.submitted then 0.0 else if item.billed == None then Reserve(limit) else item.billed.value
  }

  function Excess(item: WorkItem, limit: int): real {
    if item.submitted && item.billed != None && item.billed.value > Reserve(limit)
    then item.billed.value - Reserve(limit) else 0.0
  }

  function TotalSeconds(items: seq<WorkItem>, limit: int): real {
    if items == [] then 0.0
    else TotalSeconds(items[..|items| - 1], limit) + Seconds(items[|items| - 1], limit)
  }

  /** By how long the items of a level outran its limit and allowance together. */
  function TotalExcess(items: seq<WorkItem>, limit: int): real {
    if items == [] then 0.0
    else TotalExcess(items[..|items| - 1], limit) + Excess(items[|items| - 1], limit)
  }

  lemma PriceAdds(a: real, b: real, rate: real)
    ensures Price(a + b, rate) == Price(a, rate) + Price(b, rate)
  {
  }

  lemma Scaled(a: real, b: real)
    requires a >= 0.0 && b >= 0.0
    ensures a * b >= 0.0
  {
  }

  lemma PriceIsMonotone(a: real, b: real, rate: real)
    requires a <= b && rate > 0.0
    ensures Price(a, rate) <= Price(b, rate)
  {
    Scaled(b - a, rate);
    assert (b - a) * rate == b * rate - a * rate;
  }

  lemma ChargeIsPrice(item: WorkItem, limit: int, rate: real)
    ensures Charge(item, limit, rate) == Price(Seconds(item, limit), rate)
  {
  }

  lemma {:induction false} ChargesArePrice(items: seq<WorkItem>, limit: int, rate: real)
    ensures Charges(items, limit, rate) == Price(TotalSeconds(items, limit), rate)
  {
    if items != [] {
      var front, last := items[..|items| - 1], items[|items| - 1];
      ChargesArePrice(front, limit, rate);
      ChargeIsPrice(last, limit, rate);
      PriceAdds(TotalSeconds(front, limit), Seconds(last, limit), rate);
    }
  }

  function Times(k: nat, each: real): real {
    k as real * each
  }

  lemma TimesNext(k: nat, each: real)
    ensures Times(k + 1, each) == Times(k, each) + each
  {
  }

  lemma TimesGrows(k: nat, n: nat, each: real)
    requires k <= n && each >= 0.0
    ensures Times(k, each) <= Times(n, each)
  {
    Scaled((n - k) as real, each);
    assert (n - k) as real * each == n as real * each - k as real * each;
  }

  lemma {:induction false} SecondsFitReserve(items: seq<WorkItem>, limit: int)
    requires limit >= 0
    ensures TotalSeconds(items, limit) <= Times(|items|, Reserve(limit)) + TotalExcess(items, limit)
  {
    if items != [] {
      var front := items[..|items| - 1];
      SecondsFitReserve(front, limit);
      TimesNext(|front|, Reserve(limit));
    }
  }

  lemma QuotientTimes(a: real, m: real)
    requires m > 0.0
    ensures (a / m) * m == a
  {
  }

  lemma OrderTimes(a: real, b: real, m: real)
    requires a <= b && m > 0.0
    ensures a * m <= b * m
  {
    Scaled(b - a, m);
    assert (b - a) * m == b * m - a * m;
  }

  lemma Regroup(n: real, each: real, rate: real)
    ensures n * each * rate == each * (n * rate)
  {
  }

  /** A level that is admitted can be paid for in full. */
  lemma ReserveFits(remaining: real, n: nat, rate: real)
    requires n > 0 && rate > 0.0 && Limit(remaining, n, rate) >= SHORTEST_LIMIT
    ensures Price(Times(n, Reserve(Limit(remaining, n, rate))), rate) <= remaining
  {
    var m := n as real * rate;
    var each := Reserve(Limit(remaining, n, rate));
    assert m > 0.0;
    assert each <= remaining * 3600.0 / m;
    OrderTimes(each, remaining * 3600.0 / m, m);
    QuotientTimes(remaining * 3600.0, m);
    Regroup(n as real, each, rate);
  }

  /** What one admitted level costs: at most what is left, plus the price of its excess. */
  lemma LevelFits(level: Level, remaining: real, rate: real)
    requires rate > 0.0 && Admitted(level, remaining, rate)
    ensures Cost(level, rate) <= remaining + Price(TotalExcess(level.items, level.limit), rate)
  {
    var reserve, over := Times(level.n, Reserve(level.limit)), TotalExcess(level.items, level.limit);
    ChargesArePrice(level.items, level.limit, rate);
    SecondsFitReserve(level.items, level.limit);
    TimesGrows(|level.items|, level.n, Reserve(level.limit));
    PriceIsMonotone(TotalSeconds(level.items, level.limit), reserve + over, rate);
    PriceAdds(reserve, over, rate);
    ReserveFits(remaining, level.n, rate);
  }

  lemma NonPositive(remaining: real, m: real)
    requires remaining <= 0.0 && m > 0.0
    ensures remaining * 3600.0 / m <= 0.0
  {
  }

  /** A level is only admitted while money is left. */
  lemma AdmittedMeansMoneyLeft(level: Level, remaining: real, rate: real)
    requires rate > 0.0 && Admitted(level, remaining, rate)
    ensures remaining > 0.0
  {
    var m := level.n as real * rate;
    assert m > 0.0;
    if remaining <= 0.0 {
      NonPositive(remaining, m);
    }
  }

  predicate OnTime(level: Level) {
    forall k :: 0 <= k < |level.items| ==> Excess(level.items[k], level.limit) == 0.0
  }

  lemma {:induction false} NoExcess(items: seq<WorkItem>, limit: int)
    requires forall k :: 0 <= k < |items| ==> Excess(items[k], limit) == 0.0
    ensures TotalExcess(items, limit) == 0.0
  {
    if items != [] {
      NoExcess(items[..|items| - 1], limit);
    }
  }

  /**
   At every moment of a run, for any levels and any rate, the budget can be exceeded by the
   last level only, and by no more than the price of the time its items ran over.
   */
  lemma {:induction false} OnlyLastLevelOverruns(levels: seq<Level>, cap: real, rate: real)
    requires cap > 0.0 && rate > 0.0 && IsRun(levels, cap, rate)
    ensures forall k :: 0 <= k < |levels| ==> Spent(levels[..k], rate) < cap
    ensures levels != [] ==>
      var last := levels[|levels| - 1];
      Spent(levels, rate) <= cap + Price(TotalExcess(last.items, last.limit), rate)
  {
    if levels != [] {
      var front, last := levels[..|levels| - 1], levels[|levels| - 1];
      OnlyLastLevelOverruns(front, cap, rate);
      AdmittedMeansMoneyLeft(last, cap - Spent(front, rate), rate);
      LevelFits(last, cap - Spent(front, rate), rate);
      forall k | 0 <= k < |front| ensures Spent(levels[..k], rate) < cap {
        assert levels[..k] == front[..k];
      }
    }
  }

  /** No overrun at all when the items of the last level keep to limit and allowance. */
  lemma BudgetHolds(levels: seq<Level>, cap: real, rate: real)
    requires cap > 0.0 && rate > 0.0 && IsRun(levels, cap, rate)
    requires levels != [] ==> OnTime(levels[|levels| - 1])
    ensures Spent(levels, rate) <= cap
  {
    OnlyLastLevelOverruns(levels, cap, rate);
    if levels != [] {
      var last := levels[|levels| - 1];
      NoExcess(last.items, last.limit);
    }
  }

  /**
   The budget of the whole ramp, for every request, rate and course of events: it is kept if the
   items of the last level run kept their time, and otherwise overrun by their excess at most.
   */
  lemma RampKeepsBudget(requested: seq<nat>, world: seq<Outcome>, cap: real, rate: real)
    requires cap > 0.0 && rate > 0.0 && IsRequest(requested, world)
    ensures var levels := Play([], cap, rate, requested, world).levels;
            (levels == [] || OnTime(levels[|levels| - 1]) ==> Spent(levels, rate) <= cap)
            && (levels != [] ==>
                  var last := levels[|levels| - 1];
                  Spent(levels[..|levels| - 1], rate) < cap
                  && Spent(levels, rate) - cap <= Price(TotalExcess(last.items, last.limit), rate))
  {
    var levels := Play([], cap, rate, requested, world).levels;
    PlayKeepsRun([], cap, rate, requested, world);
    OnlyLastLevelOverruns(levels, cap, rate);
    if levels == [] || OnTime(levels[|levels| - 1]) {
      BudgetHolds(levels, cap, rate);
    }
  }

  // The charge for an item whose time was never learned.

  /** The seconds each item really took, where the polled times are true. */
  ghost predicate IsActual(actual: seq<real>, level: Level) {
    |actual| == |level.items|
    && forall k :: 0 <= k < |actual| ==>
      var item := level.items[k];
      (!item.submitted ==> actual[k] == 0.0)
      && (item.submitted && item.billed != None ==> actual[k] == item.billed.value)
      && (item.submitted && item.billed == None ==> actual[k] <= Reserve(level.limit))
  }

  function Sum(xs: seq<real>): real {
    if xs == [] then 0.0 else Sum(xs[..|xs| - 1]) + xs[|xs| - 1]
  }

  lemma {:induction false} SumIs(actual: seq<real>, items: seq<WorkItem>, limit: int)
    requires |actual| == |items| && forall k :: 0 <= k < |items| ==> actual[k] == Seconds(items[k], limit)
    ensures Sum(actual) == TotalSeconds(items, limit)
  {
    if items != [] {
      SumIs(actual[..|actual| - 1], items[..|items| - 1], limit);
    }
  }

  lemma {:induction false} SumBelow(actual: seq<real>, items: seq<WorkItem>, limit: int)
    requires |actual| == |items| && forall k :: 0 <= k < |items| ==> actual[k] <= Seconds(items[k], limit)
    ensures Sum(actual) <= TotalSeconds(items, limit)
  {
    if items != [] {
      SumBelow(actual[..|actual| - 1], items[..|items| - 1], limit);
    }
  }

  /** The receipt never understates a level whose unpolled items kept to limit and allowance, and
      is exact once every item has been polled. */
  lemma ChargeCoversActual(level: Level, actual: seq<real>, rate: real)
    requires rate > 0.0 && IsActual(actual, level)
    ensures Price(Sum(actual), rate) <= Cost(level, rate)
    ensures (forall item :: item in level.items && item.submitted ==> item.billed.Some?) ==>
              Price(Sum(actual), rate) == Cost(level, rate)
  {
    if forall item :: item in level.items && item.submitted ==> item.billed.Some? {
      forall k | 0 <= k < |actual| ensures actual[k] == Seconds(level.items[k], level.limit) {
        assert level.items[k] in level.items;
      }
      SumIs(actual, level.items, level.limit);
    }
    SumBelow(actual, level.items, level.limit);
    ChargesArePrice(level.items, level.limit, rate);
    PriceIsMonotone(Sum(actual), TotalSeconds(level.items, level.limit), rate);
  }
}
