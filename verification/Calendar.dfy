// The proleptic Gregorian calendar: valid dates, their ordinals, and adding
// days and months.

module Calendar {
  import opened Prelude

  datatype Date = Date(year: int, month: int, day: int)

  predicate Leap(y: int) { y % 4 == 0 && (y % 100 != 0 || y % 400 == 0) }

  function DaysInMonth(y: int, m: int): (n: int)
    ensures 28 <= n <= 31
  {
    if m == 2 then (if Leap(y) then 29 else 28)
    else if m == 4 || m == 6 || m == 9 || m == 11 then 30 else 31
  }

  predicate Valid(d: Date) { 1 <= d.month <= 12 && 1 <= d.day <= DaysInMonth(d.year, d.month) }

  predicate Before(a: Date, b: Date) {
    a.year < b.year || (a.year == b.year && (a.month < b.month || (a.month == b.month && a.day < b.day)))
  }

  // --- ordinals ------------------------------------------------------------------

  function DaysBeforeYear(y: int): int { 365 * (y - 1) + (y - 1) / 4 - (y - 1) / 100 + (y - 1) / 400 }

  function DaysBeforeMonth(y: int, m: int): int
    requires 1 <= m <= 13
    decreases m
  {
    if m == 1 then 0 else DaysBeforeMonth(y, m - 1) + DaysInMonth(y, m - 1)
  }

  function Ordinal(d: Date): int
    requires Valid(d)
  {
    DaysBeforeYear(d.year) + DaysBeforeMonth(d.year, d.month) + d.day
  }

  /** Days before each month of a common and of a leap year. */
  lemma MonthTable(y: int)
    ensures DaysBeforeMonth(y, 1) == 0 && DaysBeforeMonth(y, 2) == 31
    ensures var leap := if Leap(y) then 1 else 0;
      && DaysBeforeMonth(y, 3) == 59 + leap && DaysBeforeMonth(y, 4) == 90 + leap && DaysBeforeMonth(y, 5) == 120 + leap
      && DaysBeforeMonth(y, 6) == 151 + leap && DaysBeforeMonth(y, 7) == 181 + leap
        && DaysBeforeMonth(y, 8) == 212 + leap
      && DaysBeforeMonth(y, 9) == 243 + leap && DaysBeforeMonth(y, 10) == 273 + leap
      && DaysBeforeMonth(y, 11) == 304 + leap && DaysBeforeMonth(y, 12) == 334 + leap
  {
    assert DaysBeforeMonth(y, 4) == 90 + if Leap(y) then 1 else 0;
    assert DaysBeforeMonth(y, 7) == 181 + if Leap(y) then 1 else 0;
    assert DaysBeforeMonth(y, 10) == 273 + if Leap(y) then 1 else 0;
  }

  /** Some dates and their day numbers, around the leap days of century years. */
  lemma KnownDays(d: Date)
    requires Valid(d)
    ensures d == Date(1, 1, 1) ==> Ordinal(d) == 1
    ensures d == Date(1900, 3, 1) ==> Ordinal(d) == 693655
    ensures d == Date(1970, 1, 1) ==> Ordinal(d) == 719163
    ensures d == Date(2000, 2, 29) ==> Ordinal(d) == 730179
    ensures d == Date(2000, 3, 1) ==> Ordinal(d) == 730180
    ensures d == Date(2024, 12, 31) ==> Ordinal(d) == 739251
  {
    hide DaysBeforeMonth, Valid;
    MonthTable(d.year);
  }

  predicate Divides(n: int, y: int)
    requires n > 0
  {
    y % n == 0
  }

  lemma DivisorChain(y: int, m: int, n: int)
    requires m > 0 && n > 0 && Divides(m * n, y)
    ensures Divides(m, y)
  {
    var q := y / (m * n);
    assert y == (q * n) * m by { assert y == q * (m * n); }
    QuotientUnique(y, m, q * n, 0);
  }

  lemma LeapRule(y: int)
    ensures (if Leap(y) then 1 else 0)
         == (if Divides(4, y) then 1 else 0) - (if Divides(100, y) then 1 else 0) + (if Divides(400, y) then 1 else 0)
  {
    if Divides(400, y) { DivisorChain(y, 100, 4); }
    if Divides(100, y) { DivisorChain(y, 4, 25); }
  }

  lemma MonthsOfYear(y: int)
    ensures DaysBeforeMonth(y, 13) == (if Leap(y) then 366 else 365)
  {
    hide Leap;
    assert DaysBeforeMonth(y, 5) == DaysInMonth(y, 2) + 92;
    assert DaysBeforeMonth(y, 9) == DaysBeforeMonth(y, 5) + 123;
  }

  lemma YearLength(y: int)
    ensures DaysBeforeYear(y + 1) - DaysBeforeYear(y) == (if Leap(y) then 366 else 365)
    ensures DaysBeforeMonth(y, 13) == (if Leap(y) then 366 else 365)
  {
    hide Leap, DaysBeforeMonth;
    MonthsOfYear(y);
    LeapRule(y);
    QuotientStep(y, 4);
    QuotientStep(y, 100);
    QuotientStep(y, 400);
  }

  lemma QuotientStep(y: int, n: int)
    requires n > 1
    ensures y / n - (y - 1) / n == if Divides(n, y) then 1 else 0
  {
    var q, r := y / n, y % n;
    assert y == q * n + r;
    if r == 0 {
      assert y - 1 == (q - 1) * n + (n - 1);
      QuotientUnique(y - 1, n, q - 1, n - 1);
    } else {
      QuotientUnique(y - 1, n, q, r - 1);
    }
  }

  lemma {:induction false} MonthsAdvance(y: int, m: int, n: int)
    requires 1 <= m < n <= 13
    ensures DaysBeforeMonth(y, m) + DaysInMonth(y, m) <= DaysBeforeMonth(y, n)
    decreases n - m
  {
    if m + 1 < n { MonthsAdvance(y, m + 1, n); }
  }

  lemma {:induction false} YearsAdvance(y: int, z: int)
    requires y < z
    ensures DaysBeforeYear(y) + DaysBeforeMonth(y, 13) <= DaysBeforeYear(z)
    decreases z - y
  {
    hide DaysBeforeYear, DaysBeforeMonth, Leap;
    YearLength(y);
    if y + 1 < z {
      YearsAdvance(y + 1, z);
      YearLength(y + 1);
    }
  }

  /** Ordinals order dates as years, months and days do. */
  lemma OrdinalOrders(a: Date, b: Date)
    requires Valid(a) && Valid(b)
    ensures Before(a, b) <==> Ordinal(a) < Ordinal(b)
  {
    if Before(a, b) { OrdinalGrows(a, b); }
    if Before(b, a) { OrdinalGrows(b, a); }
  }

  lemma DaysInMonthPositive(d: Date)
    requires Valid(d)
    ensures DaysBeforeMonth(d.year, d.month) >= 0
  {
    if d.month > 1 { MonthsAdvance(d.year, 1, d.month); }
  }

  lemma OrdinalGrows(a: Date, b: Date)
    requires Valid(a) && Valid(b) && Before(a, b)
    ensures Ordinal(a) < Ordinal(b)
  {
    hide DaysBeforeYear, Leap, DaysInMonth;
    DaysInMonthPositive(b);
    if a.year < b.year {
      YearsAdvance(a.year, b.year);
      MonthsAdvance(a.year, a.month, 13);
      if b.month > 1 { MonthsAdvance(b.year, 1, b.month); }
    } else if a.month < b.month {
      MonthsAdvance(a.year, a.month, b.month);
    }
  }

  // --- adding days -----------------------------------------------------------------

  function DayAfter(d: Date): (e: Date)
    requires Valid(d)
    ensures Valid(e)
  {
    if d.day < DaysInMonth(d.year, d.month) then d.(day := d.day + 1)
    else if d.month < 12 then Date(d.year, d.month + 1, 1)
    else Date(d.year + 1, 1, 1)
  }

  function DayBefore(d: Date): (e: Date)
    requires Valid(d)
    ensures Valid(e)
  {
    if d.day > 1 then d.(day := d.day - 1)
    else if d.month > 1 then Date(d.year, d.month - 1, DaysInMonth(d.year, d.month - 1))
    else Date(d.year - 1, 12, 31)
  }

  lemma NeighbouringOrdinals(d: Date)
    requires Valid(d)
    ensures Ordinal(DayAfter(d)) == Ordinal(d) + 1
    ensures Ordinal(DayBefore(d)) == Ordinal(d) - 1
  {
    hide DaysBeforeYear, Leap;
    YearLength(d.year);
    YearLength(d.year - 1);
    assert DaysBeforeMonth(d.year, 13) == DaysBeforeMonth(d.year, 12) + 31;
    assert DaysBeforeMonth(d.year - 1, 13) == DaysBeforeMonth(d.year - 1, 12) + 31;
    assert DaysBeforeMonth(d.year + 1, 1) == 0;
  }

  function AddDays(d: Date, n: nat): (e: Date)
    requires Valid(d)
    ensures Valid(e) && Ordinal(e) == Ordinal(d) + n
    decreases n
  {
    NeighbouringOrdinals(d);
    if n == 0 then d else AddDays(DayAfter(d), n - 1)
  }

  // --- adding months ---------------------------------------------------------------

  function MonthIndex(d: Date): int { d.year * 12 + d.month - 1 }

  /** The day stays, unless the target month is too short for it. */
  function AddMonths(d: Date, n: nat): (e: Date)
    requires Valid(d)
    ensures Valid(e) && MonthIndex(e) == MonthIndex(d) + n
  {
    var index := MonthIndex(d) + n;
    var year, month := index / 12, index % 12 + 1;
    Date(year, month, Min(d.day, DaysInMonth(year, month)))
  }

  lemma MonthOrder(a: Date, b: Date)
    requires Valid(a) && Valid(b)
    ensures MonthIndex(a) < MonthIndex(b) ==> Before(a, b)
    ensures MonthIndex(a) == MonthIndex(b) ==> a.year == b.year && a.month == b.month
  {}

  /** Clamping picks the latest date of the target month whose day is no later than the original's. */
  lemma AddMonthsClamps(d: Date, n: nat, e: Date)
    requires Valid(d) && Valid(e) && MonthIndex(e) == MonthIndex(d) + n
    ensures AddMonths(d, n).day <= d.day
    ensures e.day <= d.day ==> !Before(AddMonths(d, n), e)
    ensures AddMonths(d, n).day < d.day ==> AddMonths(d, n).day == DaysInMonth(e.year, e.month)
  {
    MonthOrder(AddMonths(d, n), e);
  }
}
