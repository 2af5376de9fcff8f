// The next occurrence of a recurring date.

module Recurrence {
  import opened Prelude
  import opened Calendar

  datatype Frequency = Daily | Weekly | Monthly | Yearly

  /** The sequence a recurrence stands for: start, start + interval, ... */
  function Occurrence(start: Date, frequency: Frequency, interval: nat, k: nat): (d: Date)
    requires Valid(start)
    ensures Valid(d)
  {
    match frequency
    case Daily => AddDays(start, k * interval)
    case Weekly => AddDays(start, 7 * (k * interval))
    case Monthly => AddMonths(start, k * interval)
    case Yearly => AddMonths(start, k * interval * 12)
  }

  /** The k-th occurrence lies k intervals after the start: days, weeks, or months and years with the
      day of the month kept where the month is long enough. */
  lemma OccurrenceLies(start: Date, interval: nat, k: nat)
    requires Valid(start)
    ensures Ordinal(Occurrence(start, Daily, interval, k)) - Ordinal(start) == k * interval
    ensures Ordinal(Occurrence(start, Weekly, interval, k)) - Ordinal(start) == 7 * (k * interval)
    ensures var d := Occurrence(start, Monthly, interval, k);
      && 12 * d.year + d.month == 12 * start.year + start.month + k * interval
      && d.day == Min(start.day, DaysInMonth(d.year, d.month))
    ensures var d := Occurrence(start, Yearly, interval, k);
      && d.year == start.year + k * interval && d.month == start.month
      && d.day == Min(start.day, DaysInMonth(d.year, d.month))
  {
    hide Ordinal, AddDays;
    YearOfMonths(start, k * interval);
    MonthsLie(start, k * interval);
    MonthsLie(start, k * interval * 12);
    QuotientUnique(MonthIndex(start) + k * interval * 12, 12, start.year + k * interval, start.month - 1);
  }

  lemma MonthsLie(start: Date, n: nat)
    requires Valid(start)
    ensures var d := AddMonths(start, n);
      && 12 * d.year + d.month == 12 * start.year + start.month + n
      && d.day == Min(start.day, DaysInMonth(d.year, d.month))
      && d.year == (MonthIndex(start) + n) / 12 && d.month == (MonthIndex(start) + n) % 12 + 1
  {}

  lemma {:induction false} ProductGrows(j: nat, k: nat, interval: nat)
    requires j < k && interval >= 1
    ensures j * interval + interval <= k * interval
    decreases k
  {
    ProductStep(k, interval);
    if j < k - 1 { ProductGrows(j, k - 1, interval); }
  }

  lemma ProductStep(k: int, n: int)
    ensures k * n == (k - 1) * n + n
  {}

  lemma OccurrencesIncrease(start: Date, frequency: Frequency, interval: nat, j: nat, k: nat)
    requires Valid(start) && interval >= 1 && j < k
    ensures Before(Occurrence(start, frequency, interval, j), Occurrence(start, frequency, interval, k))
  {
    hide AddMonths, AddDays, Ordinal, Before, Valid;
    ProductGrows(j, k, interval);
    var a, b := Occurrence(start, frequency, interval, j), Occurrence(start, frequency, interval, k);
    if frequency.Daily? || frequency.Weekly? {
      OrdinalOrders(a, b);
    } else {
      MonthOrder(a, b);
    }
  }

  /** `next` is the first occurrence on or after `today`, namely the `k`-th. */
  predicate IsNext(start: Date, frequency: Frequency, interval: nat, today: Date, next: Date, k: nat)
    requires Valid(start)
  {
    && next == Occurrence(start, frequency, interval, k) && !Before(next, today)
    && (k > 0 ==> Before(Occurrence(start, frequency, interval, k - 1), today))
  }

  /** Being first means being least: every occurrence on or after `today` is on or after `next`. */
  lemma NextIsLeast(start: Date, frequency: Frequency, interval: nat, today: Date, next: Date, k: nat, j: nat)
    requires Valid(start) && Valid(today) && interval >= 1
    requires IsNext(start, frequency, interval, today, next, k)
    ensures Before(Occurrence(start, frequency, interval, j), today) <==> j < k
    ensures !Before(Occurrence(start, frequency, interval, j), today) ==>
      !Before(Occurrence(start, frequency, interval, j), next)
  {
    if j < k - 1 { OccurrencesIncrease(start, frequency, interval, j, k - 1); }
    if k < j { OccurrencesIncrease(start, frequency, interval, k, j); }
  }

  /** Adds months the way the source does: the target month's length is read off the day before
      the following month starts. */
  method PlusMonths(date: Date, months: nat) returns (result: Date)
    requires Valid(date)
    ensures result == AddMonths(date, months)
  {
    var total := date.month - 1 + months;
    var year := date.year + total / 12;
    var month := total % 12 + 1;
    var nextMonthStart := if month == 12 then Date(year + 1, 1, 1) else Date(year, month + 1, 1);
    var lastDay := DayBefore(nextMonthStart).day;
    result := Date(year, month, Min(date.day, lastDay));
    QuotientUnique(MonthIndex(date) + months, 12, year, total % 12);
  }

  /** Rounding up: the least multiple of `n` at or above `x`. */
  lemma CeilingDivision(x: int, n: int)
    requires x >= 0 && n >= 1
    ensures var q := -((-x) / n); q >= 0 && (x > 0 ==> q >= 1) && (q - 1) * n < x <= q * n
  {
    var f, r := (-x) / n, (-x) % n;
    assert -x == f * n + r && 0 <= r < n;
    assert (-f) * n == -(f * n) && (-f - 1) * n == -(f * n) - n;
    assert f >= 1 ==> f * n >= n;
    assert f >= 0 ==> f * n >= 0;
  }

  lemma QuotientBounds(x: int, n: int)
    requires x >= 0 && n >= 1
    ensures x / n >= 0 && (x / n) * n <= x < (x / n) * n + n
  {
    assert x == (x / n) * n + x % n;
  }

  /** `next` is an occurrence on or after `today`, and no such occurrence is earlier. */
  ghost predicate IsLeast(start: Date, frequency: Frequency, interval: nat, today: Date, next: Date)
    requires Valid(start)
  {
    && (exists k: nat :: next == Occurrence(start, frequency, interval, k))
    && !Before(next, today)
    && (forall j: nat ::
      Before(Occurrence(start, frequency, interval, j), today)
        || !Before(Occurrence(start, frequency, interval, j), next))
  }

  lemma FirstIsLeast(start: Date, frequency: Frequency, interval: nat, today: Date, next: Date, k: nat)
    requires Valid(start) && Valid(today) && interval >= 1
    requires IsNext(start, frequency, interval, today, next, k)
    ensures IsLeast(start, frequency, interval, today, next)
  {
    hide Occurrence, Before;
    forall j: nat
      ensures Before(Occurrence(start, frequency, interval, j), today)
        || !Before(Occurrence(start, frequency, interval, j), next)
    {
      NextIsLeast(start, frequency, interval, today, next, k, j);
    }
  }

  /** First occurrence on or after `today`; `rounds` counts the rounds of the catch-up loops. */
  method NextOccurrence(start: Date, frequency: Frequency, interval: nat, today: Date)
    returns (next: Date, ghost rounds: nat)
    requires Valid(start) && Valid(today) && 1 <= interval <= 365
    ensures IsLeast(start, frequency, interval, today, next)
    ensures rounds <= 1 && (frequency.Daily? || frequency.Weekly? ==> rounds == 0)
  {
    hide IsLeast, Occurrence;
    ghost var k: nat := 0;
    if !Before(start, today) {
      StartIsFirst(start, frequency, interval);
      FirstIsLeast(start, frequency, interval, today, start, 0);
      return start, 0;
    }
    match frequency {
      case Daily => next, k := NextDaily(start, interval, today); rounds := 0;
      case Weekly => next, k, rounds := NextWeekly(start, interval, today);
      case Monthly => next, k, rounds := NextMonthly(start, interval, today);
      case Yearly => next, k, rounds := NextYearly(start, interval, today);
    }
    FirstIsLeast(start, frequency, interval, today, next, k);
  }

  lemma StartIsFirst(start: Date, frequency: Frequency, interval: nat)
    requires Valid(start)
    ensures Occurrence(start, frequency, interval, 0) == start
  {
    assert 0 * interval == 0;
    QuotientUnique(MonthIndex(start), 12, start.year, start.month - 1);
  }

  method NextDaily(start: Date, interval: nat, today: Date) returns (next: Date, ghost k: nat)
    requires Valid(start) && Valid(today) && interval >= 1 && Before(start, today)
    ensures IsNext(start, Daily, interval, today, next, k)
  {
    OrdinalOrders(start, today);
    var elapsed := Ordinal(today) - Ordinal(start);
    var steps := -((-elapsed) / interval);
    CeilingDivision(elapsed, interval);
    next := AddDays(start, steps * interval);
    k := steps;
    OrdinalOrders(next, today);
    OrdinalOrders(Occurrence(start, Daily, interval, k - 1), today);
  }

  /** Rounding to thousandths of a week never misses: the step count is exact. */
  lemma WeeklySteps(days: int, interval: int)
    requires days >= 1 && interval >= 1
    ensures var q := -((-(days * 1000 / 7)) / (interval * 1000));
      q >= 1 && 7 * ((q - 1) * interval) < days <= 7 * (q * interval)
  {
    var milli := days * 1000 / 7;
    var q := -((-milli) / (interval * 1000));
    CeilingDivision(milli, interval * 1000);
    var weeks, before := q * interval, (q - 1) * interval;
    ThousandTimes(q, interval);
    ThousandTimes(q - 1, interval);
    assert 1000 * before < milli <= 1000 * weeks;
  }

  lemma ThousandTimes(q: int, n: int)
    ensures q * (n * 1000) == 1000 * (q * n)
  {}

  method NextWeekly(start: Date, interval: nat, today: Date) returns (next: Date, ghost k: nat, ghost rounds: nat)
    requires Valid(start) && Valid(today) && interval >= 1 && Before(start, today)
    ensures IsNext(start, Weekly, interval, today, next, k) && rounds == 0
  {
    hide AddDays, Ordinal, Before, Valid;
    OrdinalOrders(start, today);
    var days := Ordinal(today) - Ordinal(start);
    var milliWeeks := days * 1000 / 7;
    var steps := -((-milliWeeks) / (interval * 1000));
    WeeklySteps(days, interval);
    next := AddDays(start, 7 * (steps * interval));
    k, rounds := steps, 0;
    OrdinalOrders(next, today);
    OrdinalOrders(Occurrence(start, Weekly, interval, k - 1), today);
    next, k, rounds := StepWeeks(start, interval, today, next, k);
    FirstHitIsFirst(start, Weekly, interval, today, steps, k);
  }

  /** The catch-up loop, from any occurrence on. */
  method StepWeeks(start: Date, interval: nat, today: Date, from: Date, ghost k: nat)
    returns (next: Date, ghost reached: nat, ghost rounds: nat)
    requires Valid(start) && Valid(today) && interval >= 1 && from == Occurrence(start, Weekly, interval, k)
    ensures reached == k + rounds && next == Occurrence(start, Weekly, interval, reached) && !Before(next, today)
    ensures rounds > 0 ==> Before(Occurrence(start, Weekly, interval, reached - 1), today)
  {
    hide AddDays, Ordinal, Before, Valid, Occurrence;
    next, reached, rounds := from, k, 0;
    while Before(next, today)
      invariant reached == k + rounds && next == Occurrence(start, Weekly, interval, reached)
      invariant rounds > 0 ==> Before(Occurrence(start, Weekly, interval, reached - 1), today)
      decreases Ordinal(today) - Ordinal(next)
    {
      OrdinalOrders(next, today);
      OneMorePeriod(start, interval, reached);
      next := AddDays(next, 7 * interval);
      reached, rounds := reached + 1, rounds + 1;
    }
  }

  lemma OneMorePeriod(start: Date, interval: nat, k: nat)
    requires Valid(start)
    ensures AddDays(Occurrence(start, Weekly, interval, k), 7 * interval) == Occurrence(start, Weekly, interval, k + 1)
  {
    hide AddDays, Ordinal, Valid;
    ProductStep(k + 1, interval);
    SameDay(start, 7 * (k * interval), 7 * interval);
  }

  lemma SameDay(d: Date, m: nat, n: nat)
    requires Valid(d)
    ensures AddDays(AddDays(d, m), n) == AddDays(d, m + n)
    decreases m
  {
    if m > 0 { SameDay(DayAfter(d), m - 1, n); }
  }

  lemma FirstHitIsFirst(start: Date, frequency: Frequency, interval: nat, today: Date, hit: nat, k: nat)
    requires Valid(start) && Valid(today) && interval >= 1 && hit <= k
    requires !Before(Occurrence(start, frequency, interval, hit), today)
    requires k > hit ==> Before(Occurrence(start, frequency, interval, k - 1), today)
    ensures k == hit
  {
    hide Occurrence, Valid;
    if hit < k - 1 { OccurrencesIncrease(start, frequency, interval, hit, k - 1); }
  }

  method NextMonthly(start: Date, interval: nat, today: Date) returns (next: Date, ghost k: nat, ghost rounds: nat)
    requires Valid(start) && Valid(today) && interval >= 1 && Before(start, today)
    ensures IsNext(start, Monthly, interval, today, next, k) && rounds <= 1
  {
    hide AddMonths, DaysInMonth;
    var months := (today.year - start.year) * 12 + (today.month - start.month);
    var steps := months / interval;
    QuotientBounds(months, interval);
    next := PlusMonths(start, steps * interval);
    k, rounds := steps, 0;
    EarlierMonth(start, Monthly, interval, k, steps * interval, today);
    while Before(next, today)
      invariant steps == k == months / interval + rounds && rounds <= 1
      invariant next == Occurrence(start, Monthly, interval, k)
      invariant k > 0 ==> Before(Occurrence(start, Monthly, interval, k - 1), today)
      invariant rounds == 1 ==> !Before(next, today)
      decreases 1 - rounds
    {
      steps := steps + 1;
      next := PlusMonths(start, steps * interval);
      k, rounds := steps, rounds + 1;
      ProductStep(steps, interval);
      MonthOrder(today, next);
    }
  }

  method NextYearly(start: Date, interval: nat, today: Date) returns (next: Date, ghost k: nat, ghost rounds: nat)
    requires Valid(start) && Valid(today) && interval >= 1 && Before(start, today)
    ensures IsNext(start, Yearly, interval, today, next, k) && rounds <= 1
  {
    hide AddMonths, DaysInMonth;
    var years := today.year - start.year;
    var steps := years / interval;
    QuotientBounds(years, interval);
    next := PlusMonths(start, steps * interval * 12);
    k, rounds := steps, 0;
    EarlierMonth(start, Yearly, interval, k, steps * interval * 12, today);
    while Before(next, today)
      invariant steps == k == years / interval + rounds && rounds <= 1
      invariant next == Occurrence(start, Yearly, interval, k)
      invariant k > 0 ==> Before(Occurrence(start, Yearly, interval, k - 1), today)
      invariant rounds == 1 ==> !Before(next, today)
      decreases 1 - rounds
    {
      steps := steps + 1;
      next := PlusMonths(start, steps * interval * 12);
      k, rounds := steps, rounds + 1;
      ProductStep(steps, interval);
      YearOrder(start, steps * interval * 12, next, steps * interval, today);
    }
  }

  /** An occurrence whose successor lies in an earlier or the same month lies before `today`. */
  lemma EarlierMonth(start: Date, frequency: Frequency, interval: nat, k: nat, offset: int, today: Date)
    requires Valid(start) && Valid(today) && interval >= 1
    requires (frequency.Monthly? && offset == k * interval && MonthIndex(start) + offset <= MonthIndex(today))
          || (frequency.Yearly? && offset == k * interval * 12 && start.year + k * interval <= today.year)
    ensures k > 0 ==> Before(Occurrence(start, frequency, interval, k - 1), today)
  {
    if k > 0 {
      ProductStep(k, interval);
      var previous := Occurrence(start, frequency, interval, k - 1);
      if frequency.Monthly? {
        MonthOrder(previous, today);
      } else {
        YearOfMonths(start, (k - 1) * interval);
      }
    }
  }

  lemma YearOfMonths(start: Date, years: nat)
    requires Valid(start)
    ensures AddMonths(start, years * 12).year == start.year + years
  {
    QuotientUnique(MonthIndex(start) + years * 12, 12, start.year + years, start.month - 1);
  }

  lemma YearOrder(start: Date, offset: nat, next: Date, years: nat, today: Date)
    requires Valid(start) && Valid(today) && offset == years * 12 && next == AddMonths(start, offset)
    requires start.year + years > today.year
    ensures !Before(next, today)
  {
    YearOfMonths(start, years);
  }
}
