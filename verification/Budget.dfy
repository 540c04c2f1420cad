/** The Google Places spend ledgers (app/prospecting/budget.py): running counters, and sums over a log.

    Amounts are exact reals; a day is a day number, and the clock reading is a parameter. */
module Budget {
  import opened Calendar
  import opened Contracts

  datatype Tier = Pro | Enterprise {
    function Cost(): real { if Pro? then 0.032 else 0.020 }
  }

  /** The configuration rejects budgets that are not positive (app/config.py). */
  datatype Settings = Settings(run: real, daily: real, monthly: real, alertRatio: real) {
    predicate Valid() { run > 0.0 && daily > 0.0 && monthly > 0.0 }
  }

  datatype Reason = RunExhausted | DayExhausted | MonthExhausted

  datatype Reservation = Reservation(allowed: bool, cost: real, run: real, daily: real, monthly: real, alert: bool, reasons: set<Reason>)

  function Biggest(a: real, b: real): real { if a < b then b else a }

  /** `_decision`: the first limit that the cost would break is the reason. */
  function Decision(s: Settings, cost: real, run: real, daily: real, monthly: real): Reservation
    requires s.Valid()
  {
    var reasons: set<Reason> :=
      if run + cost > s.run then {RunExhausted}
      else if daily + cost > s.daily then {DayExhausted}
      else if monthly + cost > s.monthly then {MonthExhausted}
      else {};
    var allowed := reasons == {};
    var ratio := Biggest(Biggest((run + cost) / s.run, (daily + cost) / s.daily), (monthly + cost) / s.monthly);
    Reservation(allowed, cost, if allowed then run + cost else run, if allowed then daily + cost else daily,
                if allowed then monthly + cost else monthly, allowed && ratio >= s.alertRatio, reasons)
  }

  /** A reservation is allowed exactly if no limit would be exceeded; then it is spent, and otherwise nothing is. The reason
      is the first limit, from the run to the month, that would be exceeded. An alert is given exactly if it is allowed and
      one of the spends reaches the given share of its limit. */
  lemma DecisionMeans(s: Settings, cost: real, run: real, daily: real, monthly: real)
    requires s.Valid()
    ensures var r := Decision(s, cost, run, daily, monthly);
      && (r.allowed <==> run + cost <= s.run && daily + cost <= s.daily && monthly + cost <= s.monthly)
      && (r.allowed ==> r.run == run + cost && r.daily == daily + cost && r.monthly == monthly + cost && r.reasons == {})
      && (!r.allowed ==> r.run == run && r.daily == daily && r.monthly == monthly)
      && (run + cost > s.run ==> r.reasons == {RunExhausted})
      && (run + cost <= s.run && daily + cost > s.daily ==> r.reasons == {DayExhausted})
      && (run + cost <= s.run && daily + cost <= s.daily && monthly + cost > s.monthly ==> r.reasons == {MonthExhausted})
      && (r.alert <==> r.allowed && (Reaches(run + cost, s.run, s.alertRatio) || Reaches(daily + cost, s.daily, s.alertRatio)
                                     || Reaches(monthly + cost, s.monthly, s.alertRatio)))
  {
    ShareReaches(run + cost, s.run, s.alertRatio);
    ShareReaches(daily + cost, s.daily, s.alertRatio);
    ShareReaches(monthly + cost, s.monthly, s.alertRatio);
  }

  predicate Reaches(spend: real, limit: real, ratio: real) { spend >= ratio * limit }

  lemma ShareReaches(spend: real, limit: real, ratio: real)
    requires limit > 0.0
    ensures spend / limit >= ratio <==> spend >= ratio * limit
  {
    var q := spend / limit;
    assert q * limit == spend;
    if q >= ratio { assert (q - ratio) * limit >= 0.0; } else { assert (ratio - q) * limit > 0.0; }
  }

  // ---------- the log ----------

  datatype Entry = Entry(run: RunId, day: int, cost: real)

  predicate SameMonth(d: int, e: int) { YearOf(d) == YearOf(e) && MonthOf(d) == MonthOf(e) }

  function MonthStart(day: int): int {
    MonthInRange(day);
    Ordinal(YearOf(day), MonthOf(day), 1)
  }

  lemma MonthInRange(day: int)
    ensures 1 <= MonthOf(day) <= 12
  {
    var y, m, d := EveryDayIsADate(day);
  }

  /** The sum of the logged costs that `keep` selects. */
  function Sum(log: seq<Entry>, keep: Entry -> bool): real {
    if |log| == 0 then 0.0 else Sum(log[..|log| - 1], keep) + if keep(log[|log| - 1]) then log[|log| - 1].cost else 0.0
  }

  function OfRun(run: RunId): Entry -> bool { (e: Entry) => e.run == run }

  function Since(day: int): Entry -> bool { (e: Entry) => e.day >= day }

  function OnDay(day: int): Entry -> bool { (e: Entry) => e.day == day }

  function InMonth(day: int): Entry -> bool { (e: Entry) => SameMonth(e.day, day) }

  lemma {:induction false} SumAgrees(log: seq<Entry>, f: Entry -> bool, g: Entry -> bool)
    requires forall i :: 0 <= i < |log| ==> f(log[i]) == g(log[i])
    ensures Sum(log, f) == Sum(log, g)
  {
    if |log| > 0 { SumAgrees(log[..|log| - 1], f, g); }
  }

  lemma SumAppends(log: seq<Entry>, e: Entry, f: Entry -> bool)
    ensures Sum(log + [e], f) == Sum(log, f) + if f(e) then e.cost else 0.0
  {
    assert (log + [e])[..|log|] == log;
  }

  lemma {:induction false} SumOfNone(log: seq<Entry>, f: Entry -> bool)
    requires forall i :: 0 <= i < |log| ==> !f(log[i])
    ensures Sum(log, f) == 0.0
  {
    if |log| > 0 { SumOfNone(log[..|log| - 1], f); }
  }

  /** What the persistent ledger does: sums since midnight and since the first of the month, over the log. */
  function LogReserve(s: Settings, log: seq<Entry>, run: RunId, today: int, cost: real): (Reservation, seq<Entry>)
    requires s.Valid()
  {
    var r := Decision(s, cost, Sum(log, OfRun(run)), Sum(log, Since(today)), Sum(log, Since(MonthStart(today))));
    (r, if r.allowed then log + [Entry(run, today, cost)] else log)
  }

  // ---------- calendar months ----------

  lemma {:induction false} DatesGrow(y: int, m: int, z: int, n: int)
    requires 1 <= m <= 12 && 1 <= n <= 12 && (y < z || (y == z && m < n))
    ensures Ordinal(y, m, 1) + DaysInMonth(y, m) <= Ordinal(z, n, 1)
  {
    hide DaysBeforeYear;
    YearLength(y);
    if y < z {
      YearsGrow(y + 1, z);
      MonthsGrow(y, m + 1, 13);
      MonthsGrow(z, 1, n);
    } else {
      MonthsGrow(y, m + 1, n);
    }
  }

  /** A day that is not later is in the current month exactly when it is not before the first of the month. */
  lemma SinceMonthStart(d: int, today: int)
    requires d <= today
    ensures d >= MonthStart(today) <==> SameMonth(d, today)
  {
    var y, m, i := EveryDayIsADate(d);
    var z, n, j := EveryDayIsADate(today);
    MonthIs(y, m, i);
    MonthIs(z, n, j);
    hide MonthOf, YearOf, DaysBeforeMonth, DaysBeforeYear, Ordinal;
    OrdinalIs(y, m, i);
    OrdinalIs(z, n, j);
    if y < z || (y == z && m < n) {
      DatesGrow(y, m, z, n);
    } else if z < y || (z == y && n < m) {
      DatesGrow(z, n, y, m);
    }
  }

  lemma OrdinalIs(y: int, m: int, d: int)
    requires 1 <= m <= 12
    ensures Ordinal(y, m, d) == Ordinal(y, m, 1) + d - 1
  {
  }

  lemma Appended(log: seq<Entry>, e: Entry)
    ensures forall run :: Sum(log + [e], OfRun(run)) == Sum(log, OfRun(run)) + if run == e.run then e.cost else 0.0
    ensures Sum(log + [e], OnDay(e.day)) == Sum(log, OnDay(e.day)) + e.cost
    ensures Sum(log + [e], InMonth(e.day)) == Sum(log, InMonth(e.day)) + e.cost
  {
    forall run { SumAppends(log, e, OfRun(run)); }
    SumAppends(log, e, OnDay(e.day));
    SumAppends(log, e, InMonth(e.day));
  }

  // ---------- the in-memory ledger refines the log ----------

  /** Under a clock that never goes back, no entry is later than today. */
  ghost predicate UpTo(log: seq<Entry>, today: int) {
    forall i :: 0 <= i < |log| ==> log[i].day <= today
  }

  /** The sums since midnight and since the first of the month are those of the day and of the month. */
  lemma PeriodSums(log: seq<Entry>, today: int)
    requires UpTo(log, today)
    ensures Sum(log, Since(today)) == Sum(log, OnDay(today))
    ensures Sum(log, Since(MonthStart(today))) == Sum(log, InMonth(today))
  {
    SumAgrees(log, Since(today), OnDay(today));
    forall i | 0 <= i < |log| ensures Since(MonthStart(today))(log[i]) == InMonth(today)(log[i]) {
      SinceMonthStart(log[i].day, today);
    }
    SumAgrees(log, Since(MonthStart(today)), InMonth(today));
  }

  class MemoryGooglePlacesBudget {
    const settings: Settings
    var runSpend: map<RunId, real>
    var dailySpend: real
    var monthlySpend: real
    var day: int
    var month: (int, int)
    ghost var log: seq<Entry>  // the reservations allowed so far

    /** The counters are the sums over the log. */
    ghost predicate Agrees()
      reads this
    {
      && settings.Valid() && UpTo(log, day) && month == (YearOf(day), MonthOf(day))
      && (forall run :: (if run in runSpend then runSpend[run] else 0.0) == Sum(log, OfRun(run)))
      && dailySpend == Sum(log, OnDay(day)) && monthlySpend == Sum(log, InMonth(day))
    }

    constructor (settings: Settings, today: int)
      requires settings.Valid()
      ensures Agrees() && log == [] && this.settings == settings && day == today
    {
      this.settings, runSpend, dailySpend, monthlySpend, log := settings, map[], 0.0, 0.0, [];
      day, month := today, (YearOf(today), MonthOf(today));
    }

    /** A new day or month starts its counter at zero; the log has no entry of it yet. */
    method RollPeriods(today: int)
      modifies this`dailySpend, this`monthlySpend, this`day, this`month
      ensures day == today
      ensures old(Agrees()) && today >= old(day) ==> Agrees()
    {
      ghost var before, entries := day, log;
      if today != day {
        dailySpend := 0.0;
        day := today;
      }
      if (YearOf(today), MonthOf(today)) != month {
        monthlySpend := 0.0;
        month := (YearOf(today), MonthOf(today));
      }
      if old(Agrees()) && today >= before { Rolls(entries, before, today); }
    }

    static lemma Rolls(log: seq<Entry>, day: int, today: int)
      requires UpTo(log, day) && day <= today
      ensures Sum(log, OnDay(today)) == if today == day then Sum(log, OnDay(day)) else 0.0
      ensures Sum(log, InMonth(today)) == if SameMonth(today, day) then Sum(log, InMonth(day)) else 0.0
    {
      if today != day { SumOfNone(log, OnDay(today)); }
      if SameMonth(today, day) {
        SumAgrees(log, InMonth(today), InMonth(day));
      } else {
        forall i | 0 <= i < |log| ensures !SameMonth(log[i].day, today) { Past(log[i].day, day, today); }
        SumOfNone(log, InMonth(today));
      }
    }

    /** A month that has been left does not come back. */
    static lemma Past(d: int, day: int, today: int)
      requires d <= day <= today && !SameMonth(today, day)
      ensures !SameMonth(d, today)
    {
      SinceMonthStart(d, today);
      SinceMonthStart(day, today);
    }

    /** Under a clock that does not go back, the answer and the allowed reservations are those of the log. */
    method Reserve(run: RunId, tier: Tier, today: int) returns (r: Reservation)
      requires settings.Valid()
      modifies this
      ensures r.allowed ==> log == old(log) + [Entry(run, today, tier.Cost())]
      ensures !r.allowed ==> log == old(log)
      ensures old(Agrees()) && today >= old(day) ==>
                Agrees() && day == today && (r, log) == LogReserve(settings, old(log), run, today, tier.Cost())
    {
      hide Decision, SameMonth, MonthOf, YearOf, MonthStart;
      RollPeriods(today);
      var cost := tier.Cost();
      ghost var before := log;
      ghost var agreed := Agrees();
      DecisionMeans(settings, cost, if run in runSpend then runSpend[run] else 0.0, dailySpend, monthlySpend);
      r := Decision(settings, cost, if run in runSpend then runSpend[run] else 0.0, dailySpend, monthlySpend);
      if r.allowed {
        runSpend, dailySpend, monthlySpend := runSpend[run := r.run], r.daily, r.monthly;
        log := log + [Entry(run, today, cost)];
      }
      if agreed {
        PeriodSums(before, today);
        Appended(before, Entry(run, today, cost));
      }
    }
  }

  // ---------- the limits ----------

  /** No run, day or month ever spends more than its budget. */
  ghost predicate Within(s: Settings, log: seq<Entry>) {
    && (forall run :: Sum(log, OfRun(run)) <= s.run)
    && (forall d :: Sum(log, OnDay(d)) <= s.daily)
    && (forall d :: Sum(log, InMonth(d)) <= s.monthly)
  }

  datatype Request = Request(run: RunId, tier: Tier, day: int)

  /** The log after a sequence of requests. */
  function After(s: Settings, log: seq<Entry>, requests: seq<Request>): seq<Entry>
    requires s.Valid()
    decreases |requests|
  {
    if |requests| == 0 then log
    else After(s, LogReserve(s, log, requests[0].run, requests[0].day, requests[0].tier.Cost()).1, requests[1..])
  }

  ghost predicate InOrder(requests: seq<Request>) {
    forall i, j :: 0 <= i < j < |requests| ==> requests[i].day <= requests[j].day
  }

  lemma ReserveStaysWithin(s: Settings, log: seq<Entry>, run: RunId, today: int, cost: real)
    requires s.Valid() && Within(s, log) && UpTo(log, today)
    ensures Within(s, LogReserve(s, log, run, today, cost).1) && UpTo(LogReserve(s, log, run, today, cost).1, today)
  {
    hide SameMonth, MonthStart;
    PeriodSums(log, today);
    var e := Entry(run, today, cost);
    forall other { SumAppends(log, e, OfRun(other)); }
    forall d { SumAppends(log, e, OnDay(d)); }
    forall d ensures Sum(log + [e], InMonth(d)) == if SameMonth(today, d) then Sum(log, InMonth(today)) + cost else Sum(log, InMonth(d)) {
      SumAppends(log, e, InMonth(d));
      if SameMonth(today, d) { MonthsAgree(log, today, d); }
    }
  }

  lemma MonthsAgree(log: seq<Entry>, d: int, e: int)
    requires SameMonth(d, e)
    ensures Sum(log, InMonth(d)) == Sum(log, InMonth(e))
  {
    SumAgrees(log, InMonth(d), InMonth(e));
  }

  lemma {:induction false} StaysWithin(s: Settings, log: seq<Entry>, requests: seq<Request>)
    requires s.Valid() && Within(s, log) && InOrder(requests) && (|requests| > 0 ==> UpTo(log, requests[0].day))
    ensures Within(s, After(s, log, requests))
    decreases |requests|
  {
    if |requests| > 0 {
      var q := requests[0];
      hide Within, LogReserve;
      ReserveStaysWithin(s, log, q.run, q.day, q.tier.Cost());
      StaysWithin(s, LogReserve(s, log, q.run, q.day, q.tier.Cost()).1, requests[1..]);
    }
  }

  /** Whatever is requested, in the order of the clock, no run, day or month exceeds its budget. */
  lemma BudgetsHold(s: Settings, requests: seq<Request>)
    requires s.Valid() && InOrder(requests)
    ensures Within(s, After(s, [], requests))
  {
    StaysWithin(s, [], requests);
  }
}
