/**
 * The calendar arithmetic that `java.util.GregorianCalendar` performs for the
 * first-repayment-date code, over the proleptic Gregorian calendar.
 *
 * An instant is a Java `Date`: milliseconds since 1970-01-01T00:00:00Z.  A day
 * is numbered by the days since 1970-01-01.  Months are numbered 1..12 here;
 * Java's `Calendar.MONTH` is the same value minus one.
 */
module Calendar {

  const MS_PER_DAY: int := 86_400_000

  datatype CivilDate = CivilDate(year: int, month: int, day: int)

  predicate IsLeapYear(y: int) {
    y % 4 == 0 && (y % 100 != 0 || y % 400 == 0)
  }

  function DaysInMonth(y: int, m: int): (n: int)
    requires 1 <= m <= 12
    ensures 28 <= n <= 31
    ensures n == 29 <==> m == 2 && IsLeapYear(y)
  {
    if m == 2 then (if IsLeapYear(y) then 29 else 28)
    else if m == 4 || m == 6 || m == 9 || m == 11 then 30
    else 31
  }

  predicate IsValid(d: CivilDate) {
    1 <= d.month <= 12 && 1 <= d.day <= DaysInMonth(d.year, d.month)
  }

  /** A date a calendar can show: the month exists and so does the day in it. */
  type ValidDate = d: CivilDate | IsValid(d) witness CivilDate(1970, 1, 1)

  function Min(a: int, b: int): int {
    if a <= b then a else b
  }

  /** Leap years before year y, counted from a fixed origin (only differences matter). */
  function LeapYearsBefore(y: int): int {
    (y - 1) / 4 - (y - 1) / 100 + (y - 1) / 400
  }

  /** Day number of January 1st of year y. */
  function DaysBeforeYear(y: int): int {
    365 * (y - 1970) + LeapYearsBefore(y) - LeapYearsBefore(1970)
  }

  /** Days of year y that come before the first of month m. */
  function DaysBeforeMonth(y: int, m: int): int
    requires 1 <= m <= 12
  {
    var common := [0, 31, 59, 90, 120, 151, 181, 212, 243, 273, 304, 334][m - 1];
    if m > 2 && IsLeapYear(y) then common + 1 else common
  }

  /**
   * Day number of day d of month m of year y.  The day is lenient, as in a
   * lenient `Calendar.set`: day 0 is the last day of the previous month and a
   * day past the month's end runs on into the following months.
   */
  function EpochDay(y: int, m: int, d: int): int
    requires 1 <= m <= 12
  {
    DaysBeforeYear(y) + DaysBeforeMonth(y, m) + d - 1
  }

  function DayNumber(d: ValidDate): int {
    EpochDay(d.year, d.month, d.day)
  }

  /** The instant of 00:00 UTC on date d. */
  function MidnightUtc(d: ValidDate): (t: int)
    ensures t % MS_PER_DAY == 0
  {
    WholeDays(DayNumber(d));
    DayNumber(d) * MS_PER_DAY
  }

  lemma WholeDays(k: int)
    ensures (k * MS_PER_DAY) % MS_PER_DAY == 0
  {
  }

  /** The month m of year y with an out-of-range m carried into the year (month 13 is next January). */
  function NormalizeMonth(y: int, m: int): (r: (int, int))
    ensures 1 <= r.1 <= 12
    ensures r.0 * 12 + r.1 == y * 12 + m
  {
    (y + (m - 1) / 12, (m - 1) % 12 + 1)
  }

  /** Day number that a lenient `Calendar.set(y, m - 1, d)` in UTC denotes, for any month and day. */
  function LenientDayNumber(y: int, m: int, d: int): (day: int)
    ensures 1 <= m <= 12 ==> day == EpochDay(y, m, d)
    ensures m == 13 ==> day == EpochDay(y + 1, 1, d)
    ensures 1 <= m <= 12 && 1 <= d <= DaysInMonth(y, m) ==> day == DayNumber(CivilDate(y, m, d))
  {
    var ym := NormalizeMonth(y, m);
    EpochDay(ym.0, ym.1, d)
  }

  /**
   * `Calendar.add(Calendar.MONTH, n)`: move n months and pin the day of month
   * to the length of the target month.
   */
  function AddMonths(d: ValidDate, n: int): (r: ValidDate)
    ensures r.year * 12 + r.month == d.year * 12 + d.month + n
    ensures r.day == Min(d.day, DaysInMonth(r.year, r.month))
  {
    var ym := NormalizeMonth(d.year, d.month + n);
    CivilDate(ym.0, ym.1, Min(d.day, DaysInMonth(ym.0, ym.1)))
  }

  /** `Calendar.add(Calendar.YEAR, n)`: same month, n years on, day pinned (February 29th becomes the 28th). */
  function AddYears(d: ValidDate, n: int): (r: ValidDate)
    ensures r.year == d.year + n && r.month == d.month
    ensures r.day == Min(d.day, DaysInMonth(r.year, r.month))
  {
    CivilDate(d.year + n, d.month, Min(d.day, DaysInMonth(d.year + n, d.month)))
  }

  /** Lexicographic order of dates: the order of a calendar. */
  predicate Before(a: CivilDate, b: CivilDate) {
    a.year < b.year
    || (a.year == b.year && (a.month < b.month || (a.month == b.month && a.day < b.day)))
  }

  // ----- Counting leap years -----

  lemma DivisibleBy400(y: int)
    requires y % 400 == 0
    ensures y % 100 == 0
  {
    var q := y / 400;
    assert y == 400 * q;
    var k := 4 * q;
    assert y == 100 * k + 0;
  }

  lemma DivisibleBy100(y: int)
    requires y % 100 == 0
    ensures y % 4 == 0
  {
    var q := y / 100;
    assert y == 100 * q;
    var k := 25 * q;
    assert y == 4 * k + 0;
  }

  /** Exactly the leap years make the leap-year count step up. */
  lemma LeapYearsBeforeStep(y: int)
    ensures LeapYearsBefore(y + 1) == LeapYearsBefore(y) + (if IsLeapYear(y) then 1 else 0)
  {
    assert y / 4 - (y - 1) / 4 == (if y % 4 == 0 then 1 else 0);
    assert y / 100 - (y - 1) / 100 == (if y % 100 == 0 then 1 else 0);
    assert y / 400 - (y - 1) / 400 == (if y % 400 == 0 then 1 else 0);
    if y % 400 == 0 {
      DivisibleBy400(y);
      DivisibleBy100(y);
    } else if y % 100 == 0 {
      DivisibleBy100(y);
    }
  }

  /** A year has 366 days when it is a leap year and 365 otherwise. */
  lemma YearLength(y: int)
    ensures DaysBeforeYear(y + 1) == DaysBeforeYear(y) + (if IsLeapYear(y) then 366 else 365)
  {
    LeapYearsBeforeStep(y);
  }

  // ----- Months follow each other -----

  /** The day after the last day of a month is the first day of the next month (December runs into January). */
  lemma MonthsAdjoin(y: int, m: int)
    requires 1 <= m <= 12
    ensures EpochDay(y, m, DaysInMonth(y, m) + 1) == LenientDayNumber(y, m + 1, 1)
  {
    if m == 12 {
      assert NormalizeMonth(y, 13) == (y + 1, 1);
      YearLength(y);
    }
  }

  /**
   * A lenient day past the end of month m is the same day as the day that far
   * into month m + 1: an oversized day spills into the following month.
   */
  lemma LenientSpill(y: int, m: int, d: int)
    requires 1 <= m <= 12
    ensures EpochDay(y, m, d) == LenientDayNumber(y, m + 1, d - DaysInMonth(y, m))
  {
    MonthsAdjoin(y, m);
  }

  /** Month 13 of a year is January of the next year. */
  lemma LenientThirteenthMonth(y: int, d: int)
    ensures LenientDayNumber(y, 13, d) == EpochDay(y + 1, 1, d)
  {
    assert NormalizeMonth(y, 13) == (y + 1, 1);
  }

  /** Day 1970-01-01 is day 0, the day of the Java epoch, and 2024-01-01 is day 19723. */
  lemma EpochAnchors()
    ensures DayNumber(CivilDate(1970, 1, 1)) == 0
    ensures DayNumber(CivilDate(2024, 1, 1)) == 19723
  {
  }

  // ----- Day numbers are ordered as dates are -----

  lemma DayNumberWithinYear(d: ValidDate)
    ensures DaysBeforeYear(d.year) <= DayNumber(d) < DaysBeforeYear(d.year + 1)
  {
    YearLength(d.year);
  }

  lemma {:induction false} YearsIncrease(y1: int, y2: int)
    requires y1 < y2
    ensures DaysBeforeYear(y1 + 1) <= DaysBeforeYear(y2)
    decreases y2 - y1
  {
    if y1 + 1 < y2 {
      YearsIncrease(y1, y2 - 1);
      YearLength(y2 - 1);
    }
  }

  lemma MonthsIncrease(y: int, m1: int, m2: int)
    requires 1 <= m1 < m2 <= 12
    ensures DaysBeforeMonth(y, m1) + DaysInMonth(y, m1) <= DaysBeforeMonth(y, m2)
  {
  }

  lemma BeforeHasSmallerDayNumber(a: ValidDate, b: ValidDate)
    requires Before(a, b)
    ensures DayNumber(a) < DayNumber(b)
  {
    if a.year < b.year {
      DayNumberWithinYear(a);
      DayNumberWithinYear(b);
      YearsIncrease(a.year, b.year);
    } else if a.month < b.month {
      MonthsIncrease(a.year, a.month, b.month);
    }
  }

  /** Day numbers order valid dates exactly as the calendar does; in particular distinct dates have distinct day numbers. */
  lemma DayNumberOrder(a: ValidDate, b: ValidDate)
    ensures DayNumber(a) < DayNumber(b) <==> Before(a, b)
    ensures DayNumber(a) == DayNumber(b) <==> a == b
  {
    if Before(a, b) {
      BeforeHasSmallerDayNumber(a, b);
    } else if a != b {
      assert Before(b, a);
      BeforeHasSmallerDayNumber(b, a);
    }
  }

  /** Adding years is adding twelve months per year. */
  lemma AddYearsIsTwelveMonths(d: ValidDate, n: int)
    ensures AddYears(d, n) == AddMonths(d, 12 * n)
  {
    var ym := NormalizeMonth(d.year, d.month + 12 * n);
    assert (d.month + 12 * n - 1) / 12 == n + (d.month - 1) / 12;
    assert ym == (d.year + n, d.month);
  }
}
