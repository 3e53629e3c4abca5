/** Session time and list-cost accounting (internal/domain/session.go, budget.go and usage.go,
    and the budget parser of internal/httpapi/sessions.go).

    Times are microseconds, the precision the store keeps; seconds are not rounded. Costs are
    integer nano-dollars. */
module Accounting {
  import opened Conversation
  import opened Text

  // ---------------------------------------------------------------- status and time

  datatype Status = Idle | Running | Rescheduling | Terminated

  predicate CanTransition(from: Status, to: Status) {
    match from
    case Idle => to == Running || to == Terminated
    case Running => to == Idle || to == Rescheduling || to == Terminated
    case Rescheduling => to == Idle || to == Running || to == Terminated
    case Terminated => false
  }

  /** The timing projection of a session. */
  datatype Timing = Timing(status: Status, created: int, active: int, runningSince: Option<int>,
      terminatedAt: Option<int>)

  function Max(a: int, b: int): int {
    if a >= b then a else b
  }

  function Transitioned(s: Timing, next: Status, now: int): Timing {
    var s := if s.status == Running && next != Running && s.runningSince.Some? then
               s.(active := s.active + Max(0, now - s.runningSince.value), runningSince := None) else s;
    var s := if s.status != Running && next == Running then s.(runningSince := Some(now)) else s;
    var s := if next == Terminated && s.terminatedAt.None? then s.(terminatedAt := Some(now)) else s;
    s.(status := next)
  }

  function ActiveTime(s: Timing, now: int): int {
    s.active + if s.status == Running && s.runningSince.Some? then Max(0, now - s.runningSince.value) else 0
  }

  function Duration(s: Timing, now: int): int {
    Max(0, (if s.terminatedAt.Some? then s.terminatedAt.value else now) - s.created)
  }

  class Session {
    var status: Status
    var createdAt: int
    var active: int
    var runningSince: Option<int>
    var terminatedAt: Option<int>
    var updatedAt: int

    function Current(): Timing
      reads this
    {
      Timing(status, createdAt, active, runningSince, terminatedAt)
    }

    constructor (now: int)
      ensures Current() == Timing(Idle, now, 0, None, None)
    {
      status, createdAt, active, runningSince, terminatedAt, updatedAt := Idle, now, 0, None, None, now;
    }

    method TransitionStatus(next: Status, now: int)
      modifies this
      ensures Current() == Transitioned(old(Current()), next, now) && updatedAt == now
    {
      if status == Running && next != Running && runningSince.Some? {
        active := active + Max(0, now - runningSince.value);
        runningSince := None;
      }
      if status != Running && next == Running {
        runningSince := Some(now);
      }
      if next == Terminated && terminatedAt.None? {
        terminatedAt := Some(now);
      }
      status := next;
      updatedAt := now;
    }
  }

  /** A run of a session: the statuses it took on, and when. */
  datatype Change = Change(status: Status, at: int)

  function After(created: int, run: seq<Change>): Timing {
    if run == [] then Timing(Idle, created, 0, None, None)
    else Transitioned(After(created, run[..|run| - 1]), run[|run| - 1].status, run[|run| - 1].at)
  }

  /** The clock does not go back, and every change is allowed. */
  ghost predicate IsRun(created: int, run: seq<Change>) {
    run == [] ||
    var init, c := run[..|run| - 1], run[|run| - 1];
    IsRun(created, init) && CanTransition(After(created, init).status, c.status) && c.at >= LastAt(created, init)
  }

  function LastAt(created: int, run: seq<Change>): int {
    if run == [] then created else run[|run| - 1].at
  }

  /** The time a run spent running up to `now`, added up interval by interval. */
  function TimeRunning(created: int, run: seq<Change>, now: int): int {
    if run == [] then 0
    else
      var c := run[|run| - 1];
      TimeRunning(created, run[..|run| - 1], c.at) + if c.status == Running then now - c.at else 0
  }

  lemma {:induction false} RunFacts(created: int, run: seq<Change>)
    requires IsRun(created, run)
    ensures var s := After(created, run);
      && s.created == created && LastAt(created, run) >= created
      && (s.status == Running <==> s.runningSince.Some?)
      && (s.runningSince.Some? ==> s.runningSince.value <= LastAt(created, run))
      && (s.status == Terminated <==> s.terminatedAt.Some?)
      && (s.terminatedAt.Some? ==> s.terminatedAt.value == LastAt(created, run))
  {
    if run != [] { RunFacts(created, run[..|run| - 1]); }
  }

  /** A transition never changes the active time observed at its own instant. */
  lemma {:induction false} TransitionKeepsActive(created: int, run: seq<Change>, next: Status)
    requires IsRun(created, run) && CanTransition(After(created, run).status, next)
    ensures forall now | now >= LastAt(created, run) ::
        ActiveTime(Transitioned(After(created, run), next, now), now) == ActiveTime(After(created, run), now)
  {
    RunFacts(created, run);
  }

  lemma {:induction false} ActiveGrowsWhileRunning(created: int, run: seq<Change>, then0: int, now: int)
    requires IsRun(created, run) && LastAt(created, run) <= then0 <= now
    ensures ActiveTime(After(created, run), now)
      == ActiveTime(After(created, run), then0) + if After(created, run).status == Running then now - then0 else 0
  {
    RunFacts(created, run);
  }

  /** Observable active time is exactly the time spent running. */
  lemma {:induction false} ActiveIsTimeRunning(created: int, run: seq<Change>, now: int)
    requires IsRun(created, run) && now >= LastAt(created, run)
    ensures ActiveTime(After(created, run), now) == TimeRunning(created, run, now)
  {
    if run != [] {
      var init, c := run[..|run| - 1], run[|run| - 1];
      ActiveIsTimeRunning(created, init, c.at);
      TransitionKeepsActive(created, init, c.status);
      assert ActiveTime(After(created, run), c.at) == ActiveTime(After(created, init), c.at);
      ActiveGrowsWhileRunning(created, run, c.at, now);
    }
  }

  /** What may follow a status: nothing follows the end, only running is rescheduled, and idling
      follows work. */
  ghost predicate Follows(before: Status, after: Status) {
    before != after && before != Terminated
      && (after == Rescheduling ==> before == Running)
  }

  ghost predicate InPlace(created: int, run: seq<Change>, k: nat) {
    && k < |run| && run[k].at >= (if k == 0 then created else run[k - 1].at)
    && Follows(if k == 0 then Idle else run[k - 1].status, run[k].status)
  }

  /** The runs of a session are the sequences of statuses from idle that follow each other so,
      at times that do not go back. */
  lemma {:induction false} RunsExactly(created: int, run: seq<Change>)
    ensures IsRun(created, run) <==> forall k: nat :: k < |run| ==> InPlace(created, run, k)
  {
    if run != [] {
      var n := |run| - 1;
      RunsExactly(created, run[..n]);
      StatusIs(created, run[..n]);
      assert forall k: nat :: k < n ==> InPlace(created, run[..n], k) == InPlace(created, run, k);
      assert InPlace(created, run, n) <==>
        CanTransition(After(created, run[..n]).status, run[n].status) && run[n].at >= LastAt(created, run[..n]);
    }
  }

  lemma {:induction false} StatusIs(created: int, run: seq<Change>)
    ensures After(created, run).status == if run == [] then Idle else run[|run| - 1].status
  {
  }

  /** The duration runs from the creation to the end, or to now. */
  lemma {:induction false} DurationIs(created: int, run: seq<Change>, now: int)
    requires IsRun(created, run) && now >= LastAt(created, run)
    ensures Duration(After(created, run), now)
      == (if run != [] && run[|run| - 1].status == Terminated then run[|run| - 1].at else now) - created
  {
    RunFacts(created, run);
    StatusIs(created, run);
  }

  /** Active time never exceeds the duration. */
  lemma {:induction false} ActiveWithinDuration(created: int, run: seq<Change>, now: int)
    requires IsRun(created, run) && now >= LastAt(created, run)
    ensures 0 <= ActiveTime(After(created, run), now) <= Duration(After(created, run), now)
  {
    RunFacts(created, run);
    if run != [] {
      var init, c := run[..|run| - 1], run[|run| - 1];
      RunFacts(created, init);
      ActiveWithinDuration(created, init, c.at);
      TransitionKeepsActive(created, init, c.status);
      assert ActiveTime(After(created, run), c.at) == ActiveTime(After(created, init), c.at);
      ActiveGrowsWhileRunning(created, run, c.at, now);
    }
  }

  // ---------------------------------------------------------------- budget

  const NANO_PER_CENT := 10_000_000
  const MAX_INT64 := 0x7FFF_FFFF_FFFF_FFFF

  /** $0.08 an hour of active time, rounded once to the nearest nano-dollar: a nano-dollar
      for every 45 microseconds. */
  function RuntimeCost(active: int): int {
    if active <= 0 then 0 else (2 * active + 45) / 90
  }

  datatype Billing = Billing(budgetCents: Option<nat>, costKnown: bool, modelCost: int)

  function ObservableCost(b: Billing, s: Timing, now: int): int {
    b.modelCost + RuntimeCost(ActiveTime(s, now))
  }

  predicate BudgetReached(b: Billing, s: Timing, now: int) {
    b.budgetCents.Some? && (!b.costKnown || ObservableCost(b, s, now) >= b.budgetCents.value * NANO_PER_CENT)
  }

  /** The runtime cost is within half a nano-dollar of 80,000,000 an hour. */
  lemma RuntimeCostRounds(active: nat)
    ensures var exact := active * 80_000_000;
      var hour := 3_600_000_000;
      -hour <= 2 * (RuntimeCost(active) * hour - exact) <= hour
  {
  }

  /** Over any run, a budget is reached exactly when the cost is unknown, or the model's cost and
      80,000,000 nano-dollars for each hour spent running come to it, rounded at the half. */
  lemma {:induction false} BudgetReachedExactly(created: int, run: seq<Change>, now: int, b: Billing)
    requires IsRun(created, run) && now >= LastAt(created, run)
    ensures BudgetReached(b, After(created, run), now) <==>
      && b.budgetCents.Some?
      && (b.costKnown ==>
            90 * b.modelCost + 2 * TimeRunning(created, run, now) + 45 >= 900_000_000 * b.budgetCents.value)
  {
    ActiveIsTimeRunning(created, run, now);
    ActiveWithinDuration(created, run, now);
  }

  lemma RuntimeCostMonotone(a: int, b: int)
    requires a <= b
    ensures RuntimeCost(a) <= RuntimeCost(b)
  {
  }

  lemma {:induction false} ActiveMonotone(created: int, run: seq<Change>, k: nat, then0: int, now: int)
    requires IsRun(created, run) && k <= |run| && LastAt(created, run) <= now
    requires LastAt(created, run[..k]) <= then0 <= if k < |run| then run[k].at else now
    ensures IsRun(created, run[..k]) && ActiveTime(After(created, run[..k]), then0)
        <= ActiveTime(After(created, run), now)
    decreases |run|
  {
    if k == |run| {
      assert run[..k] == run;
      ActiveGrowsWhileRunning(created, run, then0, now);
    } else {
      var n := |run| - 1;
      var init, c := run[..n], run[n];
      assert init[..k] == run[..k];
      ActiveMonotone(created, init, k, then0, c.at);
      TransitionKeepsActive(created, init, c.status);
      assert ActiveTime(After(created, run), c.at) == ActiveTime(After(created, init), c.at);
      ActiveGrowsWhileRunning(created, run, c.at, now);
    }
  }

  /** Over any run, with the budget and the knowledge of the cost unchanged and the model cost
      not decreasing, a reached budget stays reached. */
  lemma {:induction false} BudgetStaysReached(created: int, run: seq<Change>, k: nat, then0: int, now: int,
      before: Billing, after: Billing)
    requires IsRun(created, run) && k <= |run| && LastAt(created, run) <= now
    requires LastAt(created, run[..k]) <= then0 <= if k < |run| then run[k].at else now
    requires after.budgetCents == before.budgetCents && after.costKnown == before.costKnown
        && after.modelCost >= before.modelCost
    requires BudgetReached(before, After(created, run[..k]), then0)
    ensures BudgetReached(after, After(created, run), now)
  {
    ActiveMonotone(created, run, k, then0, now);
    RuntimeCostMonotone(ActiveTime(After(created, run[..k]), then0), ActiveTime(After(created, run), now));
  }

  // ---------------------------------------------------------------- token prices

  datatype Usage = Usage(cacheCreation1h: int, cacheCreation5m: int, cacheRead: int, input: int, output: int,
                         webFetch: int, webSearch: int, speed: string)

  method Add(u0: Usage, other: Usage) returns (u: Usage)
    ensures u == Sum(u0, other) == Usage(
      u0.cacheCreation1h + other.cacheCreation1h, u0.cacheCreation5m + other.cacheCreation5m,
      u0.cacheRead + other.cacheRead, u0.input + other.input, u0.output + other.output,
      u0.webFetch + other.webFetch, u0.webSearch + other.webSearch, u0.speed)
  {
    u := u0;
    u := u.(cacheCreation1h := u.cacheCreation1h + other.cacheCreation1h);
    u := u.(cacheCreation5m := u.cacheCreation5m + other.cacheCreation5m);
    u := u.(cacheRead := u.cacheRead + other.cacheRead);
    u := u.(input := u.input + other.input);
    u := u.(output := u.output + other.output);
    u := u.(webFetch := u.webFetch + other.webFetch);
    u := u.(webSearch := u.webSearch + other.webSearch);
  }

  /** Counters add up; the speed of the accumulator stays. */
  function Sum(u: Usage, v: Usage): Usage {
    Usage(u.cacheCreation1h + v.cacheCreation1h, u.cacheCreation5m + v.cacheCreation5m, u.cacheRead + v.cacheRead,
          u.input + v.input, u.output + v.output, u.webFetch + v.webFetch, u.webSearch + v.webSearch, u.speed)
  }

  datatype Price = Price(input: nat, output: nat, geoSurcharge: bool, fastEligible: bool)

  /** The list price of a canonical model id. */
  function ListPrice(id: string): Option<Price> {
    if id == "claude-fable-5" || id == "claude-mythos-5" then Some(Price(10_000, 50_000, true, false))
    else if id == "claude-opus-5" || id == "claude-opus-4-8" then Some(Price(5_000, 25_000, true, true))
    else if id == "claude-sonnet-5" then Some(Price(2_000, 10_000, true, false))
    else if id == "claude-opus-4-7" || id == "claude-opus-4-6" then Some(Price(5_000, 25_000, true, false))
    else if id == "claude-opus-4-5" then Some(Price(5_000, 25_000, false, false))
    else if id == "claude-opus-4-1" || id == "claude-opus-4" then Some(Price(15_000, 75_000, false, false))
    else if id == "claude-sonnet-4-6" then Some(Price(3_000, 15_000, true, false))
    else if id == "claude-sonnet-4-5" || id == "claude-sonnet-4" then Some(Price(3_000, 15_000, false, false))
    else if id == "claude-haiku-4-5" then Some(Price(1_000, 5_000, false, false))
    else if id == "claude-3-5-haiku" then Some(Price(800, 4_000, false, false))
    else None
  }

  const WEB_SEARCH := 10_000_000

  /** The rates in effect, or nothing when the model has no fast-mode price. */
  function Rates(price: Price, speed: string): Option<(nat, nat)> {
    if speed == "fast" then (if price.fastEligible then Some((10_000, 50_000)) else None)
    else Some((price.input, price.output))
  }

  /** Division truncating toward zero. */
  function Quotient(a: int, b: nat): int
    requires b > 0
  {
    if a >= 0 then a / b else -((-a) / b)
  }

  function Scaled(tokens: int, rate: nat, numerator: nat, denominator: nat): int
    requires denominator > 0
  {
    Quotient(tokens * rate * numerator, denominator)
  }

  function CostAt(u: Usage, rates: (nat, nat), surcharged: bool): int {
    var (num, den) := if surcharged then (11, 10) else (1, 1);
    Scaled(u.input, rates.0, num, den)
      + Scaled(u.output, rates.1, num, den)
      + Scaled(u.cacheCreation5m, rates.0 * 5, num, den * 4)
      + Scaled(u.cacheCreation1h, rates.0 * 2, num, den)
      + Scaled(u.cacheRead, rates.0, num, den * 10)
      + u.webSearch * WEB_SEARCH
  }

  /** The list cost of a usage, or nothing when it has no public price. */
  function ListCost(id: string, inUs: bool, u: Usage): Option<int> {
    if ListPrice(id).None? then None
    else
      var price := ListPrice(id).value;
      var rates := Rates(price, u.speed);
      if rates.None? then None else Some(CostAt(u, rates.value, inUs && price.geoSurcharge))
  }

  /** Rates for which every division of the cost is exact. */
  predicate ExactRates(rates: (nat, nat)) {
    rates.0 % 200 == 0 && rates.1 % 200 == 0
  }

  lemma TableExact(id: string, speed: string)
    ensures ListPrice(id).Some? && Rates(ListPrice(id).value, speed).Some? ==>
        ExactRates(Rates(ListPrice(id).value, speed).value)
  {
  }

  lemma MultipleDivides(q: int, b: nat)
    requires b > 0
    ensures (q * b) / b == q
  {
    var d, r := (q * b) / b, (q * b) % b;
    assert q * b == d * b + r;
    assert (q - d) * b == r;
    if q > d { AtLeast(q - d, b); }
    if q < d { AtLeast(d - q, b); }
  }

  lemma AtLeast(k: int, b: nat)
    requires k >= 1
    ensures k * b >= b
  {
  }

  /** Where the rate divides, so does every token count. */
  lemma ScaledExact(tokens: int, rate: nat, numerator: nat, denominator: nat, unit: nat)
    requires denominator > 0 && rate * numerator == unit * denominator
    ensures Scaled(tokens, rate, numerator, denominator) == tokens * unit
    ensures Scaled(tokens, rate, numerator, denominator) * denominator == tokens * rate * numerator
  {
    var product := tokens * rate * numerator;
    calc {
      product;
      tokens * (rate * numerator);
      tokens * (unit * denominator);
      (tokens * unit) * denominator;
    }
    MultipleDivides(tokens * unit, denominator);
    MultipleDivides(-(tokens * unit), denominator);
    assert -product == (-(tokens * unit)) * denominator;
  }

  /** Nano-dollars for one unit of each counter. */
  datatype Units = Units(input: nat, output: nat, cacheCreation5m: nat, cacheCreation1h: nat, cacheRead: nat)

  function UnitsOf(rates: (nat, nat), surcharged: bool): Units
    requires ExactRates(rates)
  {
    var (r, o) := (rates.0 / 200, rates.1 / 200);
    if surcharged then Units(220 * r, 220 * o, 275 * r, 440 * r, 22 * r)
        else Units(200 * r, 200 * o, 250 * r, 400 * r, 20 * r)
  }

  /** No division in the price loses anything: the cost is linear in every counter. */
  lemma CostLinear(u: Usage, rates: (nat, nat), surcharged: bool)
    requires ExactRates(rates)
    ensures var p := UnitsOf(rates, surcharged);
      CostAt(u, rates, surcharged) == u.input * p.input + u.output * p.output + u.cacheCreation5m * p.cacheCreation5m
        + u.cacheCreation1h * p.cacheCreation1h + u.cacheRead * p.cacheRead + u.webSearch * WEB_SEARCH
  {
    var p := UnitsOf(rates, surcharged);
    var (num, den) := if surcharged then (11, 10) else (1, 1);
    ScaledExact(u.input, rates.0, num, den, p.input);
    ScaledExact(u.output, rates.1, num, den, p.output);
    ScaledExact(u.cacheCreation5m, rates.0 * 5, num, den * 4, p.cacheCreation5m);
    ScaledExact(u.cacheCreation1h, rates.0 * 2, num, den, p.cacheCreation1h);
    ScaledExact(u.cacheRead, rates.0, num, den * 10, p.cacheRead);
  }

  lemma Distributes(a: int, b: int, p: int)
    ensures (a + b) * p == a * p + b * p
  {
  }

  lemma CostAdds(u: Usage, v: Usage, rates: (nat, nat), surcharged: bool)
    requires ExactRates(rates)
    ensures CostAt(Sum(u, v), rates, surcharged) == CostAt(u, rates, surcharged) + CostAt(v, rates, surcharged)
  {
    var p := UnitsOf(rates, surcharged);
    CostLinear(u, rates, surcharged);
    CostLinear(v, rates, surcharged);
    CostLinear(Sum(u, v), rates, surcharged);
    Distributes(u.input, v.input, p.input);
    Distributes(u.output, v.output, p.output);
    Distributes(u.cacheCreation5m, v.cacheCreation5m, p.cacheCreation5m);
    Distributes(u.cacheCreation1h, v.cacheCreation1h, p.cacheCreation1h);
    Distributes(u.cacheRead, v.cacheRead, p.cacheRead);
    Distributes(u.webSearch, v.webSearch, WEB_SEARCH);
  }

  /** Cost is additive over Add exactly when the added usage costs the same at the
      accumulator's speed; in particular at one fixed speed. */
  lemma ListCostAdds(id: string, inUs: bool, u: Usage, v: Usage)
    requires ListCost(id, inUs, u).Some? && ListCost(id, inUs, v).Some?
    ensures ListCost(id, inUs, Sum(u, v)).Some?
    ensures ListCost(id, inUs, Sum(u, v)).value == ListCost(id, inUs, u).value + ListCost(id, inUs, v).value
      <==> ListCost(id, inUs, v.(speed := u.speed)) == ListCost(id, inUs, v)
    ensures u.speed == v.speed ==>
      ListCost(id, inUs, Sum(u, v)).value == ListCost(id, inUs, u).value + ListCost(id, inUs, v).value
  {
    TableExact(id, u.speed);
    var price := ListPrice(id).value;
    var rates, surcharged := Rates(price, u.speed).value, inUs && price.geoSurcharge;
    var w := v.(speed := u.speed);
    CostAdds(u, v, rates, surcharged);
    assert CostAt(v, rates, surcharged) == CostAt(w, rates, surcharged);
  }

  const NO_USAGE := Usage(0, 0, 0, 0, 0, 0, 0, "")

  function Total(us: seq<Usage>, speed: string): Usage {
    if us == [] then NO_USAGE.(speed := speed) else Sum(Total(us[..|us| - 1], speed), us[|us| - 1])
  }

  function Costs(id: string, inUs: bool, us: seq<Usage>): int {
    if us == [] then 0
    else Costs(id, inUs, us[..|us| - 1]) + Or(ListCost(id, inUs, us[|us| - 1]))
  }

  function Or(n: Option<int>): int {
    if n.Some? then n.value else 0
  }

  lemma {:induction false} TotalConcat(a: seq<Usage>, b: seq<Usage>, speed: string)
    ensures Total(a + b, speed) == Sum(Total(a, speed), Total(b, speed))
  {
    if b == [] {
      assert a + b == a;
    } else {
      TotalConcat(a, b[..|b| - 1], speed);
      assert (a + b)[..|a + b| - 1] == a + b[..|b| - 1];
    }
  }

  lemma {:induction false} TotalSpeed(us: seq<Usage>, speed: string)
    ensures Total(us, speed).speed == speed
  {
    if us != [] { TotalSpeed(us[..|us| - 1], speed); }
  }

  /** However the rounds of a model at one speed are batched, their cost is the cost of their
      total. */
  lemma {:induction false} BatchesCostTheSame(id: string, inUs: bool, us: seq<Usage>, speed: string)
    requires ListCost(id, inUs, NO_USAGE.(speed := speed)).Some?
    requires forall u | u in us :: u.speed == speed
    ensures ListCost(id, inUs, Total(us, speed)) == Some(Costs(id, inUs, us))
  {
    if us == [] {
      NothingCostsNothing(id, inUs, speed);
    } else {
      var init, last := us[..|us| - 1], us[|us| - 1];
      assert last in us && forall u | u in init :: u in us;
      BatchesCostTheSame(id, inUs, init, speed);
      OneMoreBatch(id, inUs, init, last, speed);
      assert us == init + [last];
    }
  }

  lemma {:induction false} OneMoreBatch(id: string, inUs: bool, init: seq<Usage>, last: Usage, speed: string)
    requires ListCost(id, inUs, Total(init, speed)) == Some(Costs(id, inUs, init)) && last.speed == speed
    ensures ListCost(id, inUs, Total(init + [last], speed)) == Some(Costs(id, inUs, init + [last]))
  {
    TotalSpeed(init, speed);
    NextBatch(id, inUs, Total(init, speed), last, speed);
    assert (init + [last])[..|init|] == init;
  }

  function Joined(groups: seq<seq<Usage>>): seq<Usage> {
    if groups == [] then [] else Joined(groups[..|groups| - 1]) + groups[|groups| - 1]
  }

  function Totals(groups: seq<seq<Usage>>, speed: string): seq<Usage> {
    if groups == [] then [] else Totals(groups[..|groups| - 1], speed) + [Total(groups[|groups| - 1], speed)]
  }

  ghost predicate AtSpeed(us: seq<Usage>, speed: string) {
    forall u | u in us :: u.speed == speed
  }

  lemma {:induction false} GroupTotals(groups: seq<seq<Usage>>, speed: string)
    requires forall g | g in groups :: AtSpeed(g, speed)
    ensures Total(Totals(groups, speed), speed) == Total(Joined(groups), speed)
    ensures AtSpeed(Totals(groups, speed), speed) && AtSpeed(Joined(groups), speed)
  {
    if groups != [] {
      var init, last := groups[..|groups| - 1], groups[|groups| - 1];
      assert last in groups && forall g | g in init :: g in groups;
      GroupTotals(init, speed);
      TotalConcat(Joined(init), last, speed);
      TotalSpeed(last, speed);
      var totals := Totals(groups, speed);
      assert totals[..|totals| - 1] == Totals(init, speed);
    }
  }

  /** However rounds at one speed are grouped into sums, and the sums priced, they cost the same. */
  lemma {:induction false} GroupingIrrelevant(id: string, inUs: bool, groups: seq<seq<Usage>>, speed: string)
    requires ListCost(id, inUs, NO_USAGE.(speed := speed)).Some?
    requires forall g | g in groups :: AtSpeed(g, speed)
    ensures Costs(id, inUs, Totals(groups, speed)) == Costs(id, inUs, Joined(groups))
  {
    GroupTotals(groups, speed);
    BatchesCostTheSame(id, inUs, Totals(groups, speed), speed);
    BatchesCostTheSame(id, inUs, Joined(groups), speed);
  }

  lemma NothingCostsNothing(id: string, inUs: bool, speed: string)
    requires ListCost(id, inUs, NO_USAGE.(speed := speed)).Some?
    ensures ListCost(id, inUs, NO_USAGE.(speed := speed)) == Some(0)
  {
    var price := ListPrice(id).value;
    TableExact(id, speed);
    CostLinear(NO_USAGE.(speed := speed), Rates(price, speed).value, inUs && price.geoSurcharge);
  }

  lemma NextBatch(id: string, inUs: bool, total: Usage, u: Usage, speed: string)
    requires ListCost(id, inUs, total).Some? && total.speed == speed == u.speed
    ensures ListCost(id, inUs, Sum(total, u)) == Some(ListCost(id, inUs, total).value + Or(ListCost(id, inUs, u)))
  {
    PricedAtSpeed(id, inUs, u, total);
    ListCostAdds(id, inUs, total, u);
  }

  lemma PricedAtSpeed(id: string, inUs: bool, u: Usage, v: Usage)
    requires ListCost(id, inUs, v).Some? && u.speed == v.speed
    ensures ListCost(id, inUs, u).Some?
  {
  }

  // ---------------------------------------------------------------- the price list

  /** What a million input and a million output tokens cost, in cents. */
  function PerMillion(id: string, speed: string): Option<(int, int)> {
    if speed == "fast" then (if id in {"claude-opus-5", "claude-opus-4-8"} then Some((1000, 5000)) else None)
    else if id in {"claude-fable-5", "claude-mythos-5"} then Some((1000, 5000))
    else if id in {"claude-opus-5", "claude-opus-4-8", "claude-opus-4-7", "claude-opus-4-6", "claude-opus-4-5"} then
      Some((500, 2500))
    else if id in {"claude-opus-4-1", "claude-opus-4"} then Some((1500, 7500))
    else if id == "claude-sonnet-5" then Some((200, 1000))
    else if id in {"claude-sonnet-4-6", "claude-sonnet-4-5", "claude-sonnet-4"} then Some((300, 1500))
    else if id == "claude-haiku-4-5" then Some((100, 500))
    else if id == "claude-3-5-haiku" then Some((80, 400))
    else None
  }

  /** The models that cost a tenth more where inference stays in the US. */
  predicate DearerInUs(id: string) {
    id in {"claude-fable-5", "claude-mythos-5", "claude-opus-5", "claude-opus-4-8", "claude-opus-4-7",
      "claude-opus-4-6", "claude-sonnet-5", "claude-sonnet-4-6"}
  }

  lemma {:induction false} ListedExactly(id: string, speed: string)
    ensures ListPrice(id).Some? <==> PerMillion(id, "").Some?
    ensures ListPrice(id).Some? ==> (ListPrice(id).value.geoSurcharge <==> DearerInUs(id))
    ensures PerMillion(id, speed).Some? <==> ListPrice(id).Some? && Rates(ListPrice(id).value, speed).Some?
    ensures PerMillion(id, speed).Some? ==>
      var (input, output) := PerMillion(id, speed).value;
      Rates(ListPrice(id).value, speed) == Some((10 * input, 10 * output))
  {
  }

  /** Exactly the listed models have a price, only two of them in fast mode, and the price is
      the list's for input and output, a quarter more than input for a five-minute cache entry,
      twice input for an hour's, a tenth of it for a cache read, a tenth on top of all that in
      the US for the models that are dearer there, and a cent for a web search. */
  lemma {:induction false} ListCostSays(id: string, inUs: bool, u: Usage)
    ensures ListCost(id, inUs, u).Some? <==> PerMillion(id, u.speed).Some?
    ensures ListCost(id, inUs, u).Some? ==>
      var (input, output) := PerMillion(id, u.speed).value;
      20 * ListCost(id, inUs, u).value == (if inUs && DearerInUs(id) then 11 else 10)
        * (u.input * (20 * input) + u.output * (20 * output) + u.cacheCreation5m * (25 * input)
          + u.cacheCreation1h * (40 * input) + u.cacheRead * (2 * input)) + u.webSearch * 200_000_000
  {
    ListedExactly(id, u.speed);
    if ListCost(id, inUs, u).Some? {
      var price := ListPrice(id).value;
      var rates := Rates(price, u.speed).value;
      TableExact(id, u.speed);
      CostLinear(u, rates, inUs && price.geoSurcharge);
      var (input, output) := PerMillion(id, u.speed).value;
      LinearSays(u, input, output, inUs && price.geoSurcharge);
    }
  }

  lemma {:induction false} LinearSays(u: Usage, input: nat, output: nat, surcharged: bool)
    requires input % 20 == 0 && output % 20 == 0
    ensures var p := UnitsOf((10 * input, 10 * output), surcharged);
      20 * (u.input * p.input + u.output * p.output + u.cacheCreation5m * p.cacheCreation5m
        + u.cacheCreation1h * p.cacheCreation1h + u.cacheRead * p.cacheRead)
      == (if surcharged then 11 else 10)
        * (u.input * (20 * input) + u.output * (20 * output) + u.cacheCreation5m * (25 * input)
          + u.cacheCreation1h * (40 * input) + u.cacheRead * (2 * input))
  {
    var p := UnitsOf((10 * input, 10 * output), surcharged);
    var s := if surcharged then 11 else 10;
    assert 20 * p.input == s * (20 * input) && 20 * p.output == s * (20 * output);
    assert 20 * p.cacheCreation5m == s * (25 * input) && 20 * p.cacheCreation1h == s * (40 * input);
    assert 20 * p.cacheRead == s * (2 * input);
    Regroup(u.input, p.input, s, 20 * input);
    Regroup(u.output, p.output, s, 20 * output);
    Regroup(u.cacheCreation5m, p.cacheCreation5m, s, 25 * input);
    Regroup(u.cacheCreation1h, p.cacheCreation1h, s, 40 * input);
    Regroup(u.cacheRead, p.cacheRead, s, 2 * input);
  }

  lemma {:induction false} Regroup(n: int, unit: int, s: int, cents: int)
    requires 20 * unit == s * cents
    ensures 20 * (n * unit) == s * (n * cents)
  {
    calc {
      20 * (n * unit);
      n * (20 * unit);
      n * (s * cents);
      s * (n * cents);
    }
  }

  /** A million tokens in and a million out cost what the list says, to the cent. */
  lemma {:induction false} MillionTokens(id: string, speed: string)
    requires PerMillion(id, speed).Some?
    ensures var (input, output) := PerMillion(id, speed).value;
      && ListCost(id, false, NO_USAGE.(input := 1_000_000, speed := speed)) == Some(input * 10_000_000)
      && ListCost(id, false, NO_USAGE.(output := 1_000_000, speed := speed)) == Some(output * 10_000_000)
  {
    ListCostSays(id, false, NO_USAGE.(input := 1_000_000, speed := speed));
    ListCostSays(id, false, NO_USAGE.(output := 1_000_000, speed := speed));
  }

  // ---------------------------------------------------------------- whole cents

  function Cents(nano: int): nat {
    if nano < 0 then 0 else nano / NANO_PER_CENT + if nano % NANO_PER_CENT >= NANO_PER_CENT / 2 then 1 else 0
  }

  /** The public amount is monotone, within half a cent of the exact cost, and never negative. */
  lemma CentsRound(a: int, b: int)
    requires a <= b
    ensures Cents(a) <= Cents(b)
    ensures if a < 0 then Cents(a) == 0 else -10_000_000 < 2 * (Cents(a) * 10_000_000 - a) <= 10_000_000
  {
  }

  // ---------------------------------------------------------------- the budget amount

  predicate AllDigits(s: string) {
    forall i | 0 <= i < |s| :: '0' <= s[i] <= '9'
  }

  function Digits(s: string): nat
    requires AllDigits(s)
  {
    if s == "" then 0 else Digits(s[..|s| - 1]) * 10 + (s[|s| - 1] as int - '0' as int)
  }

  /** A decimal 64-bit integer with an optional sign. */
  function ParseInt64(s: string): Option<int> {
    var signed := s != "" && (s[0] == '+' || s[0] == '-');
    var digits := if signed then s[1..] else s;
    if digits == "" || !AllDigits(digits) then None
    else
      var d: int := Digits(digits);
      var n := if s[0] == '-' then -d else d;
      if -MAX_INT64 - 1 <= n <= MAX_INT64 then Some(n) else None
  }

  function ParseBudget(amount: string): Option<nat> {
    if amount == "" || (amount != "0" && amount[0] == '0') then None
    else
      var cents := ParseInt64(amount);
      if cents.None? || cents.value < 0 || cents.value > MAX_INT64 / NANO_PER_CENT then None else Some(cents.value)
  }

  lemma {:induction false} DigitsOfDecimal(n: nat)
    ensures AllDigits(Decimal(n)) && Digits(Decimal(n)) == n
    ensures n > 0 ==> Decimal(n)[0] != '0'
  {
    if n >= 10 {
      DigitsOfDecimal(n / 10);
      var d := Decimal(n);
      assert d[..|d| - 1] == Decimal(n / 10);
    } else {
      assert Decimal(n)[..0] == "";
    }
  }

  lemma {:induction false} DigitsSnoc(init: string, d: char)
    requires AllDigits(init + [d])
    ensures AllDigits(init) && '0' <= d <= '9' && Digits(init + [d]) == Digits(init) * 10 + (d as int - '0' as int)
  {
    var s := init + [d];
    assert s[..|s| - 1] == init;
    forall i | 0 <= i < |init| ensures '0' <= init[i] <= '9' { assert s[i] == init[i]; }
    assert s[|init|] == d;
  }

  lemma {:induction false} OneDigit(d: char)
    requires '0' <= d <= '9'
    ensures Decimal(d as int - '0' as int) == [d]
  {
  }

  lemma {:induction false} DecimalOfDigits(s: string)
    requires s != "" && AllDigits(s) && (s == "0" || s[0] != '0')
    ensures Decimal(Digits(s)) == s && (s != "0" ==> Digits(s) > 0)
  {
    var init, d := s[..|s| - 1], s[|s| - 1];
    assert s == init + [d];
    DigitsSnoc(init, d);
    if init == "" {
      DigitsOfOne(init, d, s);
    } else {
      assert s[0] == init[0];
      DecimalOfDigits(init);
      DecimalStep(Digits(init), d);
    }
  }

  lemma {:induction false} DigitsOfOne(init: string, d: char, s: string)
    requires init == "" && s == init + [d] && AllDigits(s) && Digits(s) == d as int - '0' as int && '0' <= d <= '9'
    ensures Decimal(Digits(s)) == s && (s != "0" ==> Digits(s) > 0)
  {
    OneDigit(d);
    assert s == [d];
  }

  lemma {:induction false} DecimalStep(n: nat, d: char)
    requires n > 0 && '0' <= d <= '9'
    ensures Decimal(n * 10 + (d as int - '0' as int)) == Decimal(n) + [d]
  {
    var digit := d as int - '0' as int;
    assert (n * 10 + digit) / 10 == n && (n * 10 + digit) % 10 == digit;
  }

  /** The decimal form of an admissible number of cents is admitted as that number. */
  lemma BudgetRoundTrip(cents: nat)
    requires cents <= MAX_INT64 / NANO_PER_CENT
    ensures ParseBudget(Decimal(cents)) == Some(cents)
  {
    DigitsOfDecimal(cents);
  }

  /** An amount is admitted as a number of cents exactly when it is that number in digits,
      after a sign or without a leading zero, and no more than 922,337,203,685; a negative one
      only as zero. */
  lemma {:induction false} AdmittedExactly(amount: string, cents: nat)
    ensures ParseBudget(amount) == Some(cents) <==>
      && amount != "" && (amount != "0" ==> amount[0] != '0') && cents <= 922_337_203_685
      && var digits := if amount[0] in {'+', '-'} then amount[1..] else amount;
         digits != "" && AllDigits(digits) && Digits(digits) == cents && (amount[0] == '-' ==> cents == 0)
  {
    assert MAX_INT64 / NANO_PER_CENT == 922_337_203_685;
  }

  /** The value of a 64-bit signed product. */
  function Wrapped(n: int): int {
    var low := n % 0x1_0000_0000_0000_0000;
    if low > MAX_INT64 then low - 0x1_0000_0000_0000_0000 else low
  }

  lemma WrapsAbove(n: nat)
    ensures Wrapped(n) == n <==> n <= MAX_INT64
  {
  }

  lemma NotAdmitted(cents: nat)
    requires cents > MAX_INT64 / NANO_PER_CENT
    ensures ParseBudget(Decimal(cents)).None?
  {
    DigitsOfDecimal(cents);
    var s := Decimal(cents);
    assert s[0] != '+' && s[0] != '-';
  }

  /** A number of cents is admitted exactly when the product that BudgetReached compares with
      does not wrap around 64 bits, and no other spelling of an amount is admitted past that. */
  lemma AdmittedBudgetFits(cents: nat, amount: string)
    ensures ParseBudget(Decimal(cents)).Some? <==> Wrapped(cents * NANO_PER_CENT) == cents * NANO_PER_CENT
    ensures var b := ParseBudget(amount); b.Some? ==> Wrapped(b.value * NANO_PER_CENT) == b.value * NANO_PER_CENT
  {
    WrapsAbove(cents * NANO_PER_CENT);
    if cents <= MAX_INT64 / NANO_PER_CENT { BudgetRoundTrip(cents); } else { NotAdmitted(cents); }
    if ParseBudget(amount).Some? { WrapsAbove(ParseBudget(amount).value * NANO_PER_CENT); }
  }

  /** An admitted amount is the decimal form of its value exactly when it carries no sign: a
      signed amount, even with leading zeros after the sign, is admitted too. */
  lemma BudgetCanonical(amount: string)
    requires ParseBudget(amount).Some?
    ensures Decimal(ParseBudget(amount).value) == amount <==> amount[0] != '+' && amount[0] != '-'
  {
    if amount[0] != '+' && amount[0] != '-' {
      DecimalOfDigits(amount);
    } else {
      DigitsOfDecimal(ParseBudget(amount).value);
    }
  }

  lemma SignedBudgetAdmitted()
    ensures ParseBudget("+007") == Some(7)
  {
    assert "+007"[1..] == "007" && "007"[..2] == "00" && "00"[..1] == "0" && "0"[..0] == "";
    assert Digits("0") == 0;
    assert Digits("00") == 0;
    assert Digits("007") == 7;
  }
}
