/** `ForeignTradePlanner` (app/foreign_trade/planning.py): order dates and arrivals around the factory's shutdown. */
module Planner {
  import opened Calendar
  import opened WorkingDays

  datatype LeadTimePolicy = LeadTimePolicy(productionDays: int, seaTravelDays: int, customsDelayDays: int, shutdownMonths: set<int>)

  const DEFAULT_POLICY := LeadTimePolicy(45, 45, 5, {2})

  /** Some month is open; with every month closed the loops run off the calendar. */
  predicate Operates(p: LeadTimePolicy) { exists m :: 1 <= m <= 12 && m !in p.shutdownMonths }

  predicate Works(p: LeadTimePolicy, n: int) { MonthOf(n) !in p.shutdownMonths }

  function Working(p: LeadTimePolicy): int -> bool { n => Works(p, n) }

  /** The open month of the year before and of the year after. */
  lemma OpenDays(p: LeadTimePolicy, n: int)
    requires Operates(p)
    ensures exists t :: n < t && Works(p, t)
    ensures exists t :: t < n && Works(p, t)
  {
    hide MonthOf, YearOf, DaysBeforeYear;
    var m :| 1 <= m <= 12 && m !in p.shutdownMonths;
    var y := YearOf(n);
    YearHolds(n);
    YearLength(y);
    YearLength(y - 1);
    MonthsGrow(y + 1, 1, m);
    MonthsGrow(y - 1, m + 1, 13);
    MonthIs(y + 1, m, 1);
    MonthIs(y - 1, m, 1);
    assert n < Ordinal(y + 1, m, 1) && Works(p, Ordinal(y + 1, m, 1));
    assert Ordinal(y - 1, m, 1) < n && Works(p, Ordinal(y - 1, m, 1));
  }

  lemma WorkingIsEndless(p: LeadTimePolicy)
    requires Operates(p)
    ensures Endless(Working(p))
  {
    hide Works;
    forall n ensures Around(Working(p), n) {
      OpenDays(p, n);
      var t :| n < t && Works(p, t);
      var u :| u < n && Works(p, u);
      assert Working(p)(t) && Working(p)(u);
    }
  }

  // ---------- the planner ----------

  ghost function FactoryDays(p: LeadTimePolicy, start: int, days: int): int
    requires Operates(p)
  {
    WorkingIsEndless(p);
    AddDays(Working(p), start, days)
  }

  ghost function Arrival(p: LeadTimePolicy, order: int): int
    requires Operates(p)
  {
    FactoryDays(p, order, p.productionDays) + p.seaTravelDays + p.customsDelayDays
  }

  ghost function OrderDate(p: LeadTimePolicy, arrival: int): int
    requires Operates(p)
  {
    WorkingIsEndless(p);
    SubDays(Working(p), arrival - (p.seaTravelDays + p.customsDelayDays), p.productionDays)
  }

  class ForeignTradePlanner {
    const policy: LeadTimePolicy

    constructor (policy: LeadTimePolicy)
      ensures this.policy == policy
    {
      this.policy := policy;
    }

    method AddFactoryDays(start: int, days: int) returns (current: int)
      requires Operates(policy)
      ensures current == FactoryDays(policy, start, days)
    {
      hide MonthOf, Operates, Endless, AddDays, Next;
      WorkingIsEndless(policy);
      current := start;
      var remaining := days;
      while remaining > 0
        invariant AddDays(Working(policy), current, remaining) == FactoryDays(policy, start, days)
        decreases remaining, Next(Working(policy), current) - current
      {
        StepUp(Working(policy), current, remaining);
        current := current + 1;
        if Works(policy, current) { remaining := remaining - 1; }
      }
      NoDays(Working(policy), current, remaining);
    }

    method ProjectedArrival(orderDate: int) returns (arrival: int)
      requires Operates(policy)
      ensures arrival == Arrival(policy, orderDate)
    {
      var productionEnd := AddFactoryDays(orderDate, policy.productionDays);
      arrival := productionEnd + policy.seaTravelDays + policy.customsDelayDays;
    }

    method RequiredOrderDate(desiredArrival: int) returns (current: int)
      requires Operates(policy)
      ensures current == OrderDate(policy, desiredArrival)
    {
      hide MonthOf, Operates, Endless, SubDays, Prev;
      WorkingIsEndless(policy);
      current := desiredArrival - (policy.seaTravelDays + policy.customsDelayDays);
      var remaining := policy.productionDays;
      while remaining > 0
        invariant SubDays(Working(policy), current, remaining) == OrderDate(policy, desiredArrival)
        decreases remaining, current - Prev(Working(policy), current)
      {
        StepDown(Working(policy), current, remaining);
        current := current - 1;
        if Works(policy, current) { remaining := remaining - 1; }
      }
      NoDays(Working(policy), current, remaining);
    }
  }

  // ---------- working days ----------

  /** The days after m up to n on which the factory works. */
  ghost function WorkedDays(p: LeadTimePolicy, m: int, n: int): set<int> { set d | m < d <= n && MonthOf(d) !in p.shutdownMonths }

  /** The goods arrive once the factory has worked for the production days after the order, the last of them just before
      travel and customs. */
  lemma ArrivalCountsWorkingDays(p: LeadTimePolicy, order: int)
    requires Operates(p) && p.productionDays >= 0
    ensures var end := Arrival(p, order) - p.seaTravelDays - p.customsDelayDays;
      && order <= end && |WorkedDays(p, order, end)| == p.productionDays
      && (p.productionDays > 0 ==> MonthOf(end) !in p.shutdownMonths)
  {
    hide MonthOf, Endless, AddDays, Next;
    WorkingIsEndless(p);
    var w, end := Working(p), AddDays(Working(p), order, p.productionDays);
    AddCounts(w, order, p.productionDays);
    if p.productionDays > 0 { AddWorks(w, order, p.productionDays); }
    assert Between(w, order, end) == WorkedDays(p, order, end);
  }

  /** An order on the required date leaves the factory exactly the production days, the first of them the order date itself. */
  lemma OrderDateCountsWorkingDays(p: LeadTimePolicy, desired: int)
    requires Operates(p) && p.productionDays >= 0
    ensures var start, end := OrderDate(p, desired), desired - p.seaTravelDays - p.customsDelayDays;
      && start <= end && |WorkedDays(p, start - 1, end - 1)| == p.productionDays
      && (p.productionDays > 0 ==> MonthOf(start) !in p.shutdownMonths)
  {
    hide MonthOf, Endless, SubDays, Prev;
    WorkingIsEndless(p);
    var w, end := Working(p), desired - (p.seaTravelDays + p.customsDelayDays);
    var start := SubDays(w, end, p.productionDays);
    SubCounts(w, end, p.productionDays);
    if p.productionDays > 0 { SubWorks(w, end, p.productionDays); }
    assert Between(w, start - 1, end - 1) == WorkedDays(p, start - 1, end - 1);
  }

  // ---------- round trips ----------

  /** Ordering on the required date, the goods arrive on the desired day if production can end on its day, and
      otherwise as if production ended on the first working day after it. */
  lemma ArrivalOfOrderDate(p: LeadTimePolicy, desired: int)
    requires Operates(p) && p.productionDays >= 1
    ensures var travel := p.seaTravelDays + p.customsDelayDays; var end := desired - travel;
      if Works(p, end) then Arrival(p, OrderDate(p, desired)) == desired
      else end + travel < Arrival(p, OrderDate(p, desired)) && Works(p, Arrival(p, OrderDate(p, desired)) - travel)
           && forall d :: end <= d < Arrival(p, OrderDate(p, desired)) - travel ==> !Works(p, d)
  {
    hide Endless, MonthOf, SubDays, AddDays, Next;
    WorkingIsEndless(p);
    var w, end := Working(p), desired - (p.seaTravelDays + p.customsDelayDays);
    AddOfSub(w, end, p.productionDays);
    forall d ensures w(d) == Works(p, d) {}
  }

  /** The required order date of a projected arrival is the latest working day on or before the order. */
  lemma OrderDateOfArrival(p: LeadTimePolicy, order: int)
    requires Operates(p) && p.productionDays >= 1
    ensures var o := OrderDate(p, Arrival(p, order));
      o <= order && Works(p, o) && forall d :: o < d <= order ==> !Works(p, d)
  {
    hide Endless, MonthOf, SubDays, AddDays, Prev;
    WorkingIsEndless(p);
    var w := Working(p);
    SubOfAdd(w, order, p.productionDays);
    forall d ensures w(d) == Works(p, d) {}
  }

  /** Ordering later never brings the goods earlier. */
  lemma ArrivalIsMonotone(p: LeadTimePolicy, first: int, second: int)
    requires Operates(p) && first <= second
    ensures Arrival(p, first) <= Arrival(p, second)
  {
    WorkingIsEndless(p);
    AddGrows(Working(p), first, second, p.productionDays);
  }

  // ---------- how long an order takes under the default policy ----------

  lemma NextInYear(w: int -> bool, y: int, n: int)
    requires Endless(w) && (forall d :: w(d) <==> MonthOf(d) != 2) && Mar1(y - 1) <= n + 1 < Feb1(y + 1)
    ensures Next(w, n) == if Feb1(y) <= n + 1 < Mar1(y) then Mar1(y) else n + 1
  {
    hide MonthOf, Endless, Next, Feb1, Mar1;
    FebruaryDays(y - 1, n + 1);
    FebruaryDays(y, n + 1);
    FebruaryDays(y, Mar1(y));
    Februaries(y);
    FebruaryDays(y, Next(w, n));
    assert w(n + 1) <==> MonthOf(n + 1) != 2;
    assert w(Mar1(y));
  }

  /** The k-th working day is k days away, or further by the days of the one February passed. */
  lemma {:induction false} AddInYear(w: int -> bool, y: int, n: int, k: nat)
    requires Endless(w) && (forall d :: w(d) <==> MonthOf(d) != 2) && Mar1(y - 1) <= n + 1 < Mar1(y) && k <= 45
    ensures var r := AddDays(w, n, k);
      n + k <= r && if r < Mar1(y) then r == n + k else r <= n + k + Mar1(y) - Feb1(y)
  {
    hide MonthOf, Endless, Next, Feb1, Mar1;
    if k > 0 {
      AddInYear(w, y, n, k - 1);
      AddWorks(w, n, k);
      Februaries(y);
      NextInYear(w, y, AddDays(w, n, k - 1));
      hide AddDays;
    }
  }

  /** Under the default policy the goods arrive 95 to 124 days after the order, whatever the date. */
  lemma ArrivalTakes95To124Days(order: int)
    ensures Operates(DEFAULT_POLICY) && order + 95 <= Arrival(DEFAULT_POLICY, order) <= order + 124
  {
    hide MonthOf;
    assert 1 !in DEFAULT_POLICY.shutdownMonths;
    WorkingIsEndless(DEFAULT_POLICY);
    hide MonthOf, Endless, Next, Feb1, Mar1, AddDays;
    var y := FebruaryAfter(order + 1);
    AddInYear(Working(DEFAULT_POLICY), y, order, 45);
    Februaries(y);
  }
}
