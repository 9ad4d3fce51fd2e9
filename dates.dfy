/** Calendar arithmetic behind `addMonthsAndDays` (memberController.js):
    dayjs `add(n, 'month')` keeps the day of the month and clamps it to the
    length of the target month, then `add(k, 'day')` moves forward day by day.
    Dates are proleptic Gregorian civil dates. */
module Dates {

  datatype Date = Date(year: int, month: int, day: int)

  predicate IsLeapYear(y: int)
  {
    y % 4 == 0 && (y % 100 != 0 || y % 400 == 0)
  }

  function DaysInMonth(y: int, m: int): (n: int)
    requires 1 <= m <= 12
    ensures 28 <= n <= 31
    ensures n == 31 <==> m in {1, 3, 5, 7, 8, 10, 12}
    ensures n == 30 <==> m in {4, 6, 9, 11}
    ensures m == 2 ==> n == (if IsLeapYear(y) then 29 else 28)
  {
    if m == 2 then (if IsLeapYear(y) then 29 else 28)
    else if m == 4 || m == 6 || m == 9 || m == 11 then 30
    else 31
  }

  predicate Valid(d: Date)
  {
    1 <= d.month <= 12 && 1 <= d.day <= DaysInMonth(d.year, d.month)
  }

  /** A date that exists on the calendar: what a successful parse yields. */
  type CivilDate = d: Date | Valid(d) witness Date(1970, 1, 1)

  /** Strictly earlier, at day granularity. */
  predicate Before(a: Date, b: Date)
  {
    a.year < b.year
    || (a.year == b.year && a.month < b.month)
    || (a.year == b.year && a.month == b.month && a.day < b.day)
  }

  /** dayjs `isSameOrBefore(other, 'day')`. */
  predicate OnOrBefore(a: Date, b: Date)
  {
    a == b || Before(a, b)
  }

  /** Number of months since the start of year 0. */
  function MonthIndex(d: Date): int
  {
    d.year * 12 + d.month - 1
  }

  /** Leap years among the years from 0 up to, but not including, `y`
      (counted negatively for negative `y`). */
  function LeapYearsBefore(y: int): int
  {
    (y + 3) / 4 - (y + 99) / 100 + (y + 399) / 400
  }

  /** Days from 0000-01-01 to the first day of year `y`. */
  function DaysBeforeYear(y: int): int
  {
    365 * y + LeapYearsBefore(y)
  }

  /** A year is 366 days long exactly when it is a leap year. */
  lemma YearLength(y: int)
    ensures DaysBeforeYear(y + 1) == DaysBeforeYear(y) + (if IsLeapYear(y) then 366 else 365)
  {
    MultiplesStep(y, 4);
    MultiplesStep(y, 100);
    MultiplesStep(y, 400);
    DivisorsNest(y);
    assert DaysBeforeYear(y + 1) - DaysBeforeYear(y)
        == 365 + ((y + 4) / 4 - (y + 3) / 4) - ((y + 100) / 100 - (y + 99) / 100) + ((y + 400) / 400 - (y + 399) / 400);
  }

  /** A multiple of 400 is a multiple of 100, which is a multiple of 4. */
  lemma DivisorsNest(y: int)
    ensures y % 400 == 0 ==> y % 100 == 0
    ensures y % 100 == 0 ==> y % 4 == 0
  {
    if y % 400 == 0 {
      MultipleOf(y, 100, 4 * (y / 400));
    }
    if y % 100 == 0 {
      MultipleOf(y, 4, 25 * (y / 100));
    }
  }

  /** `k * q` leaves no remainder modulo `k`, for the divisors of the leap
      year rule. */
  lemma MultipleOf(y: int, k: int, q: int)
    requires k == 4 || k == 100
    requires y == k * q
    ensures y % k == 0
  {
    if k == 4 {
      assert y == 4 * q;
    } else {
      assert y == 100 * q;
    }
  }

  /** Counting multiples of `k`: `(y + k) / k` exceeds `(y + k - 1) / k` by
      one exactly when `k` divides `y`. */
  lemma MultiplesStep(y: int, k: int)
    requires k == 4 || k == 100 || k == 400
    ensures (y + k) / k == (y + k - 1) / k + (if y % k == 0 then 1 else 0)
  {
    if k == 4 {
      var q, r := (y + 3) / 4, (y + 3) % 4;
      assert y + 3 == 4 * q + r;
    } else if k == 100 {
      var q, r := (y + 99) / 100, (y + 99) % 100;
      assert y + 99 == 100 * q + r;
    } else {
      var q, r := (y + 399) / 400, (y + 399) % 400;
      assert y + 399 == 400 * q + r;
    }
  }

  /** Days from the first of January to the first day of month `m`, read
      off the month lengths. */
  function DaysBeforeMonth(y: int, m: int): int
    requires 1 <= m <= 12
  {
    var feb := if IsLeapYear(y) then 29 else 28;
    if m == 1 then 0
    else if m == 2 then 31
    else if m == 3 then 31 + feb
    else if m == 4 then 62 + feb
    else if m == 5 then 92 + feb
    else if m == 6 then 123 + feb
    else if m == 7 then 153 + feb
    else if m == 8 then 184 + feb
    else if m == 9 then 215 + feb
    else if m == 10 then 245 + feb
    else if m == 11 then 276 + feb
    else 306 + feb
  }

  /** The ordinal of a date: days since 0000-01-01 on the proleptic
      Gregorian calendar. */
  function DayNumber(d: Date): int
    requires 1 <= d.month <= 12
  {
    DaysBeforeYear(d.year) + DaysBeforeMonth(d.year, d.month) + d.day - 1
  }

  /** The calendar day after `d`. */
  function NextDay(d: CivilDate): (r: CivilDate)
    ensures Before(d, r)
    ensures r.day == 1 || (r.year == d.year && r.month == d.month && r.day == d.day + 1)
  {
    if d.day < DaysInMonth(d.year, d.month) then Date(d.year, d.month, d.day + 1)
    else if d.month < 12 then Date(d.year, d.month + 1, 1)
    else Date(d.year + 1, 1, 1)
  }

  /** The next day is exactly one day on. */
  lemma NextDayCounts(d: CivilDate)
    ensures DayNumber(NextDay(d)) == DayNumber(d) + 1
  {
    if d.day == DaysInMonth(d.year, d.month) && d.month == 12 {
      YearLength(d.year);
    }
  }

  /** dayjs `add(n, 'day')` for a non-negative count. */
  function AddDays(d: CivilDate, n: nat): (r: CivilDate)
    ensures n == 0 <==> r == d
    ensures n > 0 ==> Before(d, r)
    decreases n
  {
    if n == 0 then d else AddDays(NextDay(d), n - 1)
  }

  /** Adding `n` days gives exactly the date `n` days on. */
  lemma {:induction false} AddDaysCounts(d: CivilDate, n: nat)
    ensures DayNumber(AddDays(d, n)) == DayNumber(d) + n
    decreases n
  {
    if n > 0 {
      NextDayCounts(d);
      AddDaysCounts(NextDay(d), n - 1);
    }
  }

  /** Adding days in two steps is adding their sum. */
  lemma {:induction false} AddDaysTwice(d: CivilDate, a: nat, b: nat)
    ensures AddDays(AddDays(d, a), b) == AddDays(d, a + b)
    decreases a
  {
    if a > 0 {
      AddDaysTwice(NextDay(d), a - 1, b);
    }
  }

  /** Adding more days never gives an earlier date. */
  lemma {:induction false} AddDaysMonotonic(d: CivilDate, a: nat, b: nat)
    requires a <= b
    ensures OnOrBefore(AddDays(d, a), AddDays(d, b))
  {
    AddDaysTwice(d, a, b - a);
  }

  /** dayjs `add(n, 'month')`: same day of the month, clamped to the length
      of the target month. */
  function AddMonths(d: CivilDate, n: int): (r: CivilDate)
    ensures MonthIndex(r) == MonthIndex(d) + n
    ensures r.day <= d.day
    ensures r.day == d.day <==> d.day <= DaysInMonth(r.year, r.month)
    ensures r.day < d.day ==> r.day == DaysInMonth(r.year, r.month)
  {
    var t := MonthIndex(d) + n;
    var y := t / 12;
    var m := t % 12 + 1;
    var last := DaysInMonth(y, m);
    Date(y, m, if d.day <= last then d.day else last)
  }

  /** `addMonthsAndDays(dateStr, months, days)`. */
  function AddMonthsAndDays(d: CivilDate, months: int, days: nat): (r: CivilDate)
    ensures days == 0 ==> r == AddMonths(d, months)
    ensures days > 0 ==> Before(AddMonths(d, months), r)
  {
    AddDays(AddMonths(d, months), days)
  }

  /** Adding zero months leaves a date unchanged; adding a positive number of
      months gives a strictly later date. */
  lemma AddMonthsDirection(d: CivilDate, n: int)
    ensures n == 0 ==> AddMonths(d, n) == d
    ensures n > 0 ==> Before(d, AddMonths(d, n))
  {
    var r := AddMonths(d, n);
    if n == 0 {
      assert r.year * 12 + r.month == d.year * 12 + d.month;
    } else if n > 0 {
      assert r.year * 12 + r.month > d.year * 12 + d.month;
    }
  }

  /** Twelve months later is the same date one year on, except that
      29 February becomes 28 February. */
  lemma AddTwelveMonths(d: CivilDate)
    ensures AddMonths(d, 12).year == d.year + 1
    ensures AddMonths(d, 12).month == d.month
    ensures AddMonths(d, 12).day == (if d.month == 2 && d.day == 29 then 28 else d.day)
  {
    var r := AddMonths(d, 12);
    assert MonthIndex(r) == MonthIndex(d) + 12;
    if d.month == 2 && d.day == 29 {
      assert IsLeapYear(d.year);
      assert !IsLeapYear(d.year + 1);
    }
  }

  /** The worked examples of the membership rules: a twelve-month
      membership from 2024-01-15 ends on 2025-01-15, ten leave days move that
      to 2025-01-25, and one month from 2024-01-31 is the leap day. */
  lemma MembershipExamples()
    ensures AddMonthsAndDays(Date(2024, 1, 15), 12, 0) == Date(2025, 1, 15)
    ensures AddMonthsAndDays(Date(2024, 1, 15), 12, 10) == Date(2025, 1, 25)
    ensures AddMonths(Date(2024, 1, 31), 1) == Date(2024, 2, 29)
    ensures AddMonths(Date(2023, 1, 31), 1) == Date(2023, 2, 28)
  {
    assert AddMonths(Date(2024, 1, 15), 12) == Date(2025, 1, 15);
    assert AddDays(Date(2025, 1, 15), 10) == Date(2025, 1, 25);
  }

  /** Membership status rule: the end date is expired when it is on or
      before today, at day granularity. */
  predicate IsExpired(end: Date, today: Date)
  {
    OnOrBefore(end, today)
  }

  /** Expiry boundary: a membership ending today is already expired, one
      ending tomorrow is not, and extending the end date by leave days never
      turns an active membership into an expired one. */
  lemma ExpiryBoundary(today: CivilDate, end: CivilDate, leaveDays: nat)
    ensures IsExpired(today, today)
    ensures !IsExpired(NextDay(today), today)
    ensures !IsExpired(end, today) ==> !IsExpired(AddDays(end, leaveDays), today)
  {
    if leaveDays > 0 {
      assert Before(end, AddDays(end, leaveDays));
    }
  }
}
