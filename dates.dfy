/** Calendar dates as the report fields hold them: Python `datetime.date` values,
    proleptic Gregorian, years 1 to 9999, with the day ordinal Python uses for
    date subtraction (day 1 is 0001-01-01) and the ISO week of `isocalendar()`. */
module Dates {

  datatype YearMonthDay = YearMonthDay(year: int, month: int, day: int)

  const MinYear: int := 1
  const MaxYear: int := 9999

  predicate IsLeap(y: int) {
    y % 4 == 0 && (y % 100 != 0 || y % 400 == 0)
  }

  function DaysInYear(y: int): int {
    if IsLeap(y) then 366 else 365
  }

  function DaysInMonth(y: int, m: int): int
    requires 1 <= m <= 12
  {
    if m == 2 then (if IsLeap(y) then 29 else 28)
    else if m == 4 || m == 6 || m == 9 || m == 11 then 30
    else 31
  }

  predicate ValidDate(d: YearMonthDay) {
    && MinYear <= d.year <= MaxYear
    && 1 <= d.month <= 12
    && 1 <= d.day <= DaysInMonth(d.year, d.month)
  }

  /** A date that `datetime.date` can represent. */
  type Date = d: YearMonthDay | ValidDate(d) witness YearMonthDay(1, 1, 1)

  /** Calendar order, as Python compares dates: by (year, month, day). */
  predicate DateBefore(a: Date, b: Date) {
    || a.year < b.year
    || (a.year == b.year && a.month < b.month)
    || (a.year == b.year && a.month == b.month && a.day < b.day)
  }

  predicate DateLe(a: Date, b: Date) {
    a == b || DateBefore(a, b)
  }

  /** Days in the years before `y` (Python's `_days_before_year`). */
  function DaysBeforeYear(y: int): int {
    var p := y - 1;
    p * 365 + p / 4 - p / 100 + p / 400
  }

  /** Days in the months of year `y` before month `m` (Python's `_days_before_month`). */
  function DaysBeforeMonth(y: int, m: int): int
    requires 1 <= m <= 12
  {
    [0, 31, 59, 90, 120, 151, 181, 212, 243, 273, 304, 334][m - 1]
      + (if m > 2 && IsLeap(y) then 1 else 0)
  }

  /** The proleptic Gregorian ordinal of a date (Python's `date.toordinal()`):
      it lies inside its own year's range of ordinals, and between 1
      (0001-01-01) and 3652059 (9999-12-31). */
  function ToOrdinal(d: Date): (o: int)
    ensures DaysBeforeYear(d.year) < o <= DaysBeforeYear(d.year) + DaysInYear(d.year)
    ensures 1 <= o <= MaxOrdinal
  {
    MonthWithinYear(d.year, d.month);
    YearsMonotone(MinYear, d.year);
    YearStep(d.year);
    YearsMonotone(d.year + 1, MaxYear + 1);
    DaysBeforeYear(d.year) + DaysBeforeMonth(d.year, d.month) + d.day
  }

  /** Python's `date.max.toordinal()`. */
  const MaxOrdinal: int := 3652059

  /** Euclidean division by `n` moves up by one exactly at multiples of `n`. */
  lemma QuotientStep(y: int, n: int)
    requires n == 4 || n == 100 || n == 400
    ensures y / n - (y - 1) / n == if y % n == 0 then 1 else 0
  {
    var q, r := (y - 1) / n, (y - 1) % n;
    assert y - 1 == n * q + r && 0 <= r < n;
    if r == n - 1 {
      assert y == n * (q + 1) + 0;
      DivisionIsUnique(y, n, q + 1, 0);
    } else {
      assert y == n * q + (r + 1);
      DivisionIsUnique(y, n, q, r + 1);
    }
  }

  /** Quotient and remainder by a Gregorian divisor are the unique ones. */
  lemma DivisionIsUnique(x: int, n: int, q: int, r: int)
    requires n == 4 || n == 100 || n == 400
    requires x == n * q + r && 0 <= r < n
    ensures x / n == q && x % n == r
  {
    if n == 4 {
    } else if n == 100 {
    } else {
    }
  }

  lemma LeapDivisors(y: int)
    ensures y % 400 == 0 ==> y % 100 == 0
    ensures y % 100 == 0 ==> y % 4 == 0
  {
    if y % 400 == 0 {
      assert y == 100 * (4 * (y / 400));
      DivisionIsUnique(y, 100, 4 * (y / 400), 0);
    }
    if y % 100 == 0 {
      assert y == 4 * (25 * (y / 100));
      DivisionIsUnique(y, 4, 25 * (y / 100), 0);
    }
  }

  lemma YearStep(y: int)
    ensures DaysBeforeYear(y + 1) == DaysBeforeYear(y) + DaysInYear(y)
  {
    QuotientStep(y, 4);
    QuotientStep(y, 100);
    QuotientStep(y, 400);
    LeapDivisors(y);
  }

  lemma {:induction false} YearsMonotone(y1: int, y2: int)
    requires y1 <= y2
    ensures DaysBeforeYear(y1) + 365 * (y2 - y1) <= DaysBeforeYear(y2)
    decreases y2 - y1
  {
    if y1 < y2 {
      YearsMonotone(y1 + 1, y2);
      YearStep(y1);
    }
  }

  lemma MonthsFit(y: int, m: int)
    requires 1 <= m <= 12
    ensures DaysBeforeMonth(y, m) + DaysInMonth(y, m)
            == if m == 12 then DaysInYear(y) else DaysBeforeMonth(y, m + 1)
  {
  }

  lemma {:induction false} MonthsMonotone(y: int, m1: int, m2: int)
    requires 1 <= m1 < m2 <= 12
    ensures DaysBeforeMonth(y, m1) + DaysInMonth(y, m1) <= DaysBeforeMonth(y, m2)
    decreases m2 - m1
  {
    MonthsFit(y, m1);
    if m1 + 1 < m2 {
      MonthsMonotone(y, m1 + 1, m2);
    }
  }

  /** A month ends no later than its year. */
  lemma MonthWithinYear(y: int, m: int)
    requires 1 <= m <= 12
    ensures DaysBeforeMonth(y, m) + DaysInMonth(y, m) <= DaysInYear(y)
  {
    MonthsFit(y, m);
    if m < 12 {
      MonthsMonotone(y, m, 12);
      MonthsFit(y, 12);
    }
  }

  lemma BeforeMeansSmallerOrdinal(a: Date, b: Date)
    requires DateBefore(a, b)
    ensures ToOrdinal(a) < ToOrdinal(b)
  {
    if a.year < b.year {
      YearStep(a.year);
      YearsMonotone(a.year + 1, b.year);
    } else if a.month < b.month {
      MonthsMonotone(a.year, a.month, b.month);
    }
  }

  /** The ordinal is an order isomorphism: calendar order is ordinal order,
      and two dates with the same ordinal are the same date. */
  lemma OrdinalOrder(a: Date, b: Date)
    ensures DateBefore(a, b) <==> ToOrdinal(a) < ToOrdinal(b)
    ensures a == b <==> ToOrdinal(a) == ToOrdinal(b)
  {
    if DateBefore(a, b) {
      BeforeMeansSmallerOrdinal(a, b);
    } else if DateBefore(b, a) {
      BeforeMeansSmallerOrdinal(b, a);
    } else {
      assert a == b;
    }
  }

  predicate IsMaxDate(d: Date) {
    d.year == MaxYear && d.month == 12 && d.day == 31
  }

  /** The calendar day after `d` (Python's `d + timedelta(days=1)`, which
      overflows past 9999-12-31). */
  function NextDay(d: Date): (e: Date)
    requires !IsMaxDate(d)
    ensures DateBefore(d, e)
  {
    if d.day < DaysInMonth(d.year, d.month) then YearMonthDay(d.year, d.month, d.day + 1)
    else if d.month < 12 then YearMonthDay(d.year, d.month + 1, 1)
    else YearMonthDay(d.year + 1, 1, 1)
  }

  lemma NextDayOrdinal(d: Date)
    requires !IsMaxDate(d)
    ensures ToOrdinal(NextDay(d)) == ToOrdinal(d) + 1
  {
    MonthsFit(d.year, d.month);
    if d.month == 12 && d.day == 31 {
      YearStep(d.year);
    }
  }

  /** Ordinal of the Monday that starts ISO week 1 of year `y`
      (CPython's `_isoweek1monday`): the Monday of the week holding January 4. */
  function IsoWeek1Monday(y: int): (monday: int)
    ensures DaysBeforeYear(y) + 1 - 3 <= monday <= DaysBeforeYear(y) + 1 + 3
    ensures monday % 7 == 1
  {
    MondayNear(DaysBeforeYear(y) + 1)
  }

  /** The Monday nearest to the day with ordinal `firstDay` (ordinal 1 is a Monday). */
  function MondayNear(firstDay: int): (monday: int)
    ensures firstDay - 3 <= monday <= firstDay + 3
    ensures monday % 7 == 1
  {
    var firstWeekday := (firstDay + 6) % 7;
    var monday := firstDay - firstWeekday;
    assert monday == 7 * ((firstDay + 6) / 7) - 6;
    if firstWeekday > 3 then monday + 7 else monday
  }

  /** The ISO week number, `d.isocalendar()[1]`, as CPython computes it;
      it is always between 1 and 53. */
  function IsoWeek(d: Date): (w: int)
    ensures 1 <= w <= 53
  {
    var today := ToOrdinal(d);
    var week := (today - IsoWeek1Monday(d.year)) / 7;
    if week < 0 then
      YearStep(d.year - 1);
      IsoYearLength(d.year - 1);
      (today - IsoWeek1Monday(d.year - 1)) / 7 + 1
    else if week >= 52 && today >= IsoWeek1Monday(d.year + 1) then
      1
    else
      week + 1
  }

  /** Consecutive ISO years start a whole number of weeks apart, at most 53. */
  lemma IsoYearLength(y: int)
    ensures IsoWeek1Monday(y + 1) - IsoWeek1Monday(y) <= 371
  {
    YearStep(y);
    var a, b := IsoWeek1Monday(y), IsoWeek1Monday(y + 1);
    assert b - a == 7 * (b / 7 - a / 7);
  }
}
