/** The proleptic Gregorian calendar on day numbers, where day 1 is 1 January of year 1 (`date.toordinal`). */
module Calendar {
  predicate IsLeap(y: int) { y % 4 == 0 && (y % 100 != 0 || y % 400 == 0) }

  function DaysInMonth(y: int, m: int): int
    requires 1 <= m <= 12
  {
    if m == 2 then (if IsLeap(y) then 29 else 28)
    else if m == 4 || m == 6 || m == 9 || m == 11 then 30 else 31
  }

  function DaysBeforeMonth(y: int, m: int): int
    requires 1 <= m <= 13
    decreases m
  {
    if m == 1 then 0 else DaysBeforeMonth(y, m - 1) + DaysInMonth(y, m - 1)
  }

  function DaysBeforeYear(y: int): int { 365 * (y - 1) + (y - 1) / 4 - (y - 1) / 100 + (y - 1) / 400 }

  predicate IsDate(y: int, m: int, d: int) { 1 <= m <= 12 && 1 <= d <= DaysInMonth(y, m) }

  function Ordinal(y: int, m: int, d: int): int
    requires 1 <= m <= 12
  {
    DaysBeforeYear(y) + DaysBeforeMonth(y, m) + d
  }

  lemma YearLength(y: int)
    ensures DaysBeforeYear(y + 1) == DaysBeforeYear(y) + (if IsLeap(y) then 366 else 365)
    ensures DaysBeforeMonth(y, 13) == (if IsLeap(y) then 366 else 365)
    ensures DaysBeforeMonth(y, 2) == 31 && DaysBeforeMonth(y, 3) == (if IsLeap(y) then 60 else 59)
  {
    DivStep(y, 4);
    DivStep(y, 100);
    DivStep(y, 400);
    assert DaysBeforeMonth(y, 4) == DaysBeforeMonth(y, 3) + 31;
    assert DaysBeforeMonth(y, 7) == DaysBeforeMonth(y, 4) + 91;
    assert DaysBeforeMonth(y, 10) == DaysBeforeMonth(y, 7) + 92;
    assert DaysBeforeMonth(y, 13) == DaysBeforeMonth(y, 10) + 92;
  }

  lemma DivStep(y: int, k: int)
    requires k > 1
    ensures y / k == (y - 1) / k + if y % k == 0 then 1 else 0
  {
    var q, r := (y - 1) / k, (y - 1) % k;
    assert y - 1 == q * k + r;
    if r == k - 1 {
      assert y == (q + 1) * k;
      assert y / k == q + 1 by { DivIs(y, k, q + 1, 0); }
    } else {
      assert y / k == q by { DivIs(y, k, q, r + 1); }
    }
  }

  lemma Multiple(a: int, k: int)
    requires k > 0
    ensures (a >= 1 ==> a * k >= k) && (a <= -1 ==> a * k <= -k)
  {
    if a >= 1 { assert (a - 1) * k >= 0; }
    if a <= -1 { assert (-1 - a) * k >= 0; }
  }

  lemma DivIs(x: int, k: int, q: int, r: int)
    requires k > 0 && x == q * k + r && 0 <= r < k
    ensures x / k == q && x % k == r
  {
    var a, s := x / k - q, x % k;
    assert x == (x / k) * k + s;
    assert a * k == (x / k) * k - q * k;
    Multiple(a, k);
  }

  // ---------- from a day number back to its date ----------

  lemma CycleStart(c: int)
    ensures DaysBeforeYear(400 * c + 1) == 146097 * c
  {
    assert (400 * c) / 4 == 100 * c by { DivIs(400 * c, 4, 100 * c, 0); }
    assert (400 * c) / 100 == 4 * c by { DivIs(400 * c, 100, 4 * c, 0); }
    assert (400 * c) / 400 == c by { DivIs(400 * c, 400, c, 0); }
  }

  function YearFrom(n: int, y: int): int
    requires DaysBeforeYear(y) < n
    decreases n - DaysBeforeYear(y)
  {
    YearLength(y);
    if n <= DaysBeforeYear(y + 1) then y else YearFrom(n, y + 1)
  }

  function YearOf(n: int): int {
    CycleStart((n - 1) / 146097);
    YearFrom(n, 400 * ((n - 1) / 146097) + 1)
  }

  function MonthFrom(y: int, d: int, m: int): int
    requires 1 <= m <= 12
    decreases 12 - m
  {
    if m == 12 || d <= DaysBeforeMonth(y, m + 1) then m else MonthFrom(y, d, m + 1)
  }

  function MonthOf(n: int): int { MonthFrom(YearOf(n), n - DaysBeforeYear(YearOf(n)), 1) }

  lemma {:induction false} YearFromFinds(n: int, y: int)
    requires DaysBeforeYear(y) < n
    ensures y <= YearFrom(n, y) && DaysBeforeYear(YearFrom(n, y)) < n <= DaysBeforeYear(YearFrom(n, y) + 1)
    decreases n - DaysBeforeYear(y)
  {
    YearLength(y);
    if n > DaysBeforeYear(y + 1) { YearFromFinds(n, y + 1); }
  }

  lemma YearHolds(n: int)
    ensures DaysBeforeYear(YearOf(n)) < n <= DaysBeforeYear(YearOf(n) + 1)
  {
    CycleStart((n - 1) / 146097);
    YearFromFinds(n, 400 * ((n - 1) / 146097) + 1);
  }

  lemma {:induction false} YearsGrow(y: int, z: int)
    requires y <= z
    ensures DaysBeforeYear(y) <= DaysBeforeYear(z)
    decreases z - y
  {
    if y < z {
      YearLength(z - 1);
      YearsGrow(y, z - 1);
    }
  }

  lemma YearIs(n: int, y: int)
    requires DaysBeforeYear(y) < n <= DaysBeforeYear(y + 1)
    ensures YearOf(n) == y
  {
    YearHolds(n);
    hide YearOf, DaysBeforeYear;
    var z := YearOf(n);
    if z < y { YearsGrow(z + 1, y); }
    if y < z { YearsGrow(y + 1, z); }
  }

  lemma {:induction false} MonthFromFinds(y: int, d: int, m: int, k: int)
    requires 1 <= k <= m <= 12 && DaysBeforeMonth(y, m) < d && (m == 12 || d <= DaysBeforeMonth(y, m + 1))
    ensures MonthFrom(y, d, k) == m
    decreases m - k
  {
    if k < m {
      MonthsGrow(y, k + 1, m);
      MonthFromFinds(y, d, m, k + 1);
    }
  }

  lemma {:induction false} MonthsGrow(y: int, k: int, m: int)
    requires 1 <= k <= m <= 13
    ensures DaysBeforeMonth(y, k) <= DaysBeforeMonth(y, m)
    decreases m - k
  {
    if k < m { MonthsGrow(y, k, m - 1); }
  }

  /** The day number of a date has that date's month. */
  lemma MonthIs(y: int, m: int, d: int)
    requires IsDate(y, m, d)
    ensures MonthOf(Ordinal(y, m, d)) == m && YearOf(Ordinal(y, m, d)) == y
  {
    YearLength(y);
    MonthsGrow(y, 1, m);
    MonthsGrow(y, m + 1, 13);
    YearIs(Ordinal(y, m, d), y);
    MonthFromFinds(y, DaysBeforeMonth(y, m) + d, m, 1);
  }

  /** Every day number is the day number of a date. */
  lemma EveryDayIsADate(n: int) returns (y: int, m: int, d: int)
    ensures IsDate(y, m, d) && Ordinal(y, m, d) == n && m == MonthOf(n)
  {
    y := YearOf(n);
    YearHolds(n);
    YearLength(y);
    m := MonthWith(y, n - DaysBeforeYear(y), 1);
    d := n - DaysBeforeYear(y) - DaysBeforeMonth(y, m);
    MonthIs(y, m, d);
  }

  lemma {:induction false} MonthWith(y: int, d: int, k: int) returns (m: int)
    requires 1 <= k <= 12 && DaysBeforeMonth(y, k) < d <= DaysBeforeMonth(y, 13)
    ensures k <= m <= 12 && DaysBeforeMonth(y, m) < d <= DaysBeforeMonth(y, m + 1)
    decreases 12 - k
  {
    if d <= DaysBeforeMonth(y, k + 1) { m := k; } else { m := MonthWith(y, d, k + 1); }
  }

  // ---------- February ----------

  function Feb1(y: int): int { Ordinal(y, 2, 1) }

  function Mar1(y: int): int { Ordinal(y, 3, 1) }

  lemma Februaries(y: int)
    ensures Mar1(y) == Feb1(y) + (if IsLeap(y) then 29 else 28) && Feb1(y + 1) == Mar1(y) + 337
  {
    YearLength(y);
    YearLength(y + 1);
  }

  lemma InFebruary(y: int, n: int)
    requires Feb1(y) <= n < Mar1(y)
    ensures MonthOf(n) == 2
  {
    hide MonthOf, DaysBeforeYear;
    Februaries(y);
    MonthIs(y, 2, n - Feb1(y) + 1);
  }

  lemma FromMarch(y: int, n: int)
    requires Mar1(y) <= n <= DaysBeforeYear(y + 1)
    ensures MonthOf(n) != 2
  {
    hide DaysBeforeYear, YearOf;
    YearLength(y);
    YearIs(n, y);
    var m := MonthWith(y, n - DaysBeforeYear(y), 3);
    MonthFromFinds(y, n - DaysBeforeYear(y), m, 1);
  }

  lemma InJanuary(y: int, n: int)
    requires DaysBeforeYear(y) < n < Feb1(y)
    ensures MonthOf(n) != 2
  {
    hide MonthOf, DaysBeforeYear;
    YearLength(y);
    MonthIs(y, 1, n - DaysBeforeYear(y));
  }

  /** From 1 February to 28 or 29 February the month is 2; from 1 March to the next 31 January it is not. */
  lemma FebruaryDays(y: int, n: int)
    ensures Feb1(y) <= n < Mar1(y) ==> MonthOf(n) == 2
    ensures Mar1(y) <= n < Feb1(y + 1) ==> MonthOf(n) != 2
  {
    hide MonthOf, DaysBeforeYear, Feb1, Mar1;
    if Feb1(y) <= n < Mar1(y) {
      InFebruary(y, n);
    } else if Mar1(y) <= n < Feb1(y + 1) {
      if n <= DaysBeforeYear(y + 1) { FromMarch(y, n); } else { InJanuary(y + 1, n); }
    }
  }

  /** Every day lies between a 1 March and the last day of the following February. */
  lemma FebruaryAfter(n: int) returns (y: int)
    ensures Mar1(y - 1) <= n < Mar1(y)
  {
    hide DaysBeforeYear, YearOf;
    y := YearOf(n);
    YearHolds(n);
    YearLength(y);
    YearLength(y - 1);
    YearLength(y + 1);
    if n >= Mar1(y) { y := y + 1; }
  }

  /** Of 400 years 97 are leap years. */
  lemma FourCenturies(y: int)
    ensures DaysBeforeYear(y + 400) == DaysBeforeYear(y) + 146097
  {
    DivShifts(y - 1, 4, 100);
    DivShifts(y - 1, 100, 4);
    DivShifts(y - 1, 400, 1);
  }

  lemma DivShifts(a: int, k: int, q: int)
    requires k > 0
    ensures (a + k * q) / k == a / k + q
  {
    assert a == (a / k) * k + a % k;
    DivIs(a + k * q, k, a / k + q, a % k);
  }

  /** Every fourth year is a leap year, but of the centuries only every fourth. */
  lemma LeapYears()
    ensures IsLeap(2000) && IsLeap(2024) && !IsLeap(1900) && !IsLeap(2023)
  {
  }

  /** 1 January of the years 1, 1970 and 2000. */
  lemma KnownDays(y: int, m: int)
    requires m == 1
    ensures y == 1 ==> Ordinal(y, m, 1) == 1
    ensures y == 1970 ==> Ordinal(y, m, 1) == 719163
    ensures y == 2000 ==> Ordinal(y, m, 1) == 730120
  {
    assert DaysBeforeMonth(y, m) == 0;
  }
}
