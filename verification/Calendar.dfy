/**
  The proleptic Gregorian calendar in UTC, as Go's time package presents it to
  the cron matcher. Day 0 is Monday, 1 January of year 1. Date follows the
  calendar one day at a time; DayNumber is its inverse.
*/
module Calendar {
  datatype Date = Date(year: nat, month: nat, day: nat)

  const YEAR_WINDOW := 366

  predicate Leap(y: nat) {
    y % 4 == 0 && (y % 100 != 0 || y % 400 == 0)
  }

  function MonthDays(leap: bool, m: nat): nat {
    if m == 2 then (if leap then 29 else 28)
    else if m == 4 || m == 6 || m == 9 || m == 11 then 30
    else 31
  }

  function YearDays(y: nat): nat {
    if Leap(y) then 366 else 365
  }

  predicate Valid(x: Date) {
    1 <= x.year && 1 <= x.month <= 12 && 1 <= x.day <= MonthDays(Leap(x.year), x.month)
  }

  function NextDay(x: Date): Date {
    if x.day < MonthDays(Leap(x.year), x.month) then x.(day := x.day + 1)
    else if x.month < 12 then Date(x.year, x.month + 1, 1)
    else Date(x.year + 1, 1, 1)
  }

  function DateOf(d: nat): (x: Date)
    ensures Valid(x)
  {
    if d == 0 then Date(1, 1, 1) else NextDay(DateOf(d - 1))
  }

  /** 0 is Sunday. */
  function Weekday(d: nat): nat {
    (d + 1) % 7
  }

  // ---- day numbers ---------------------------------------------------------

  function DaysBeforeYear(y: nat): nat {
    if y <= 1 then 0 else DaysBeforeYear(y - 1) + YearDays(y - 1)
  }

  function DaysBeforeMonth(leap: bool, m: nat): nat {
    if m <= 1 then 0 else DaysBeforeMonth(leap, m - 1) + MonthDays(leap, m - 1)
  }

  /** Position in the year, from 0. */
  function DayOfYear(leap: bool, m: nat, day: nat): int {
    DaysBeforeMonth(leap, m) + day - 1
  }

  function DayNumber(x: Date): int {
    DaysBeforeYear(x.year) + DayOfYear(Leap(x.year), x.month, x.day)
  }

  /** Lexicographic order within a year. */
  predicate Before(m: nat, day: nat, m': nat, day': nat) {
    m < m' || (m == m' && day < day')
  }

  lemma MonthTable(leap: bool)
    ensures DaysBeforeMonth(leap, 1) == 0 && DaysBeforeMonth(leap, 2) == 31
    ensures var l := if leap then 1 else 0;
      && DaysBeforeMonth(leap, 3) == 59 + l && DaysBeforeMonth(leap, 4) == 90 + l && DaysBeforeMonth(leap, 5) == 120 + l
      && DaysBeforeMonth(leap, 6) == 151 + l && DaysBeforeMonth(leap, 7) == 181 + l && DaysBeforeMonth(leap, 8) == 212 + l
      && DaysBeforeMonth(leap, 9) == 243 + l && DaysBeforeMonth(leap, 10) == 273 + l && DaysBeforeMonth(leap, 11) == 304 + l
      && DaysBeforeMonth(leap, 12) == 334 + l
  {
    assert DaysBeforeMonth(leap, 4) == DaysBeforeMonth(leap, 3) + 31;
    assert DaysBeforeMonth(leap, 6) == DaysBeforeMonth(leap, 5) + 31;
    assert DaysBeforeMonth(leap, 8) == DaysBeforeMonth(leap, 7) + 31;
    assert DaysBeforeMonth(leap, 10) == DaysBeforeMonth(leap, 9) + 30;
    assert DaysBeforeMonth(leap, 12) == DaysBeforeMonth(leap, 11) + 30;
  }

  lemma DayOfYearRange(leap: bool, m: nat, day: nat)
    requires 1 <= m <= 12 && 1 <= day <= MonthDays(leap, m)
    ensures 0 <= DayOfYear(leap, m, day) < (if leap then 366 else 365)
  {
    MonthTable(leap);
  }

  lemma DayOfYearMonotone(leap: bool, m: nat, day: nat, m': nat, day': nat)
    requires 1 <= m <= 12 && 1 <= day <= MonthDays(leap, m)
    requires 1 <= m' <= 12 && 1 <= day' <= MonthDays(leap, m')
    ensures Before(m, day, m', day') <==> DayOfYear(leap, m, day) < DayOfYear(leap, m', day')
  {
    MonthTable(leap);
  }

  lemma NextDayNumber(x: Date)
    requires Valid(x)
    ensures Valid(NextDay(x)) && DayNumber(NextDay(x)) == DayNumber(x) + 1
  {
    MonthTable(Leap(x.year));
    if x.month == 12 && x.day == 31 {
      MonthTable(Leap(x.year + 1));
    }
  }

  /** DayNumber inverts the calendar. */
  lemma {:induction false} DayNumberOfDate(d: nat)
    ensures DayNumber(DateOf(d)) == d
  {
    if d > 0 {
      DayNumberOfDate(d - 1);
      NextDayNumber(DateOf(d - 1));
    }
  }

  lemma {:induction false} YearsMonotone(y: nat, y': nat)
    requires 1 <= y < y'
    ensures DaysBeforeYear(y) + YearDays(y) <= DaysBeforeYear(y')
  {
    if y + 1 < y' {
      YearsMonotone(y, y' - 1);
    }
  }

  lemma DayNumberInjective(x: Date, x': Date)
    requires Valid(x) && Valid(x') && DayNumber(x) == DayNumber(x')
    ensures x == x'
  {
    DayOfYearRange(Leap(x.year), x.month, x.day);
    DayOfYearRange(Leap(x'.year), x'.month, x'.day);
    if x.year < x'.year {
      YearsMonotone(x.year, x'.year);
    } else if x'.year < x.year {
      YearsMonotone(x'.year, x.year);
    } else {
      DayOfYearMonotone(Leap(x.year), x.month, x.day, x'.month, x'.day);
      DayOfYearMonotone(Leap(x.year), x'.month, x'.day, x.month, x.day);
    }
  }

  /** Every valid date is the date of its day number. */
  lemma DateOfDayNumber(x: Date)
    requires Valid(x)
    ensures DayNumber(x) >= 0 && DateOf(DayNumber(x)) == x
  {
    DayOfYearRange(Leap(x.year), x.month, x.day);
    DayNumberOfDate(DayNumber(x));
    DayNumberInjective(DateOf(DayNumber(x)), x);
  }

  // ---- recurrence ----------------------------------------------------------

  /** A date of the same year, not earlier, is at most 365 days ahead. */
  lemma LaterSameYear(x: Date, m: nat, day: nat)
    requires Valid(x) && Valid(Date(x.year, m, day)) && !Before(m, day, x.month, x.day)
    ensures DayNumber(x) <= DayNumber(Date(x.year, m, day)) < DayNumber(x) + YEAR_WINDOW
  {
    var leap := Leap(x.year);
    DayOfYearMonotone(leap, m, day, x.month, x.day);
    DayOfYearRange(leap, m, day);
    DayOfYearRange(leap, x.month, x.day);
  }

  /** A date earlier in the year comes again, next year, at most 365 days ahead. */
  lemma EarlierNextYear(x: Date, m: nat, day: nat)
    requires Valid(x) && 1 <= m <= 12 && 1 <= day <= MonthDays(false, m) && Before(m, day, x.month, x.day)
    ensures DayNumber(x) <= DayNumber(Date(x.year + 1, m, day)) < DayNumber(x) + YEAR_WINDOW
  {
    var y := x.year;
    MonthTable(true);
    MonthTable(false);
    DayOfYearMonotone(Leap(y), m, day, x.month, x.day);
    DayOfYearRange(Leap(y), x.month, x.day);
    DayOfYearRange(Leap(y + 1), m, day);
    assert !(Leap(y) && Leap(y + 1));
    assert DayOfYear(Leap(y + 1), m, day) <= DayOfYear(Leap(y), m, day) + (if Leap(y + 1) then 1 else 0);
  }

  /** The least day number at or after d with this month and day-of-month, for a date every year has. */
  lemma CommonDateRecurs(d: nat, m: nat, day: nat) returns (d': nat)
    requires 1 <= m <= 12 && 1 <= day <= MonthDays(false, m)
    ensures d <= d' < d + YEAR_WINDOW && DateOf(d').month == m && DateOf(d').day == day
  {
    var x := DateOf(d);
    DayNumberOfDate(d);
    var x' := Date(if Before(m, day, x.month, x.day) then x.year + 1 else x.year, m, day);
    if Before(m, day, x.month, x.day) {
      EarlierNextYear(x, m, day);
    } else {
      LaterSameYear(x, m, day);
    }
    DateOfDayNumber(x');
    d' := DayNumber(x');
  }

  lemma WeekdayOffset(d: nat, w: nat) returns (k: nat)
    requires w < 7
    ensures k < 7 && Weekday(d + k) == w
  {
    var r := Weekday(d);
    k := if r <= w then w - r else w + 7 - r;
  }

  /** Seven consecutive days of the month, one of them on the wanted weekday. */
  lemma WeekdayInWeek(x: Date, lo: nat, w: nat) returns (d': nat)
    requires Valid(x) && x.day == lo && lo + 6 <= MonthDays(false, x.month) && w < 7
    ensures DayNumber(x) <= d' <= DayNumber(x) + 6 && DateOf(d').month == x.month && Weekday(d') == w
  {
    DateOfDayNumber(x);
    var k := WeekdayOffset(DayNumber(x), w);
    d' := DayNumber(x) + k;
    assert x.day + k <= MonthDays(Leap(x.year), x.month);
    DateOfDayNumber(x.(day := lo + k));
  }

  lemma SameMonth(x: Date, x': Date)
    requires x.year == x'.year && x.month == x'.month
    ensures DayNumber(x') == DayNumber(x) + x'.day - x.day
  {
  }

  lemma WeekNextYearFits(x: Date, m: nat)
    requires Valid(x) && 1 <= m <= 12 && Before(m, 22, x.month, x.day)
    ensures DayNumber(x) <= DayNumber(Date(x.year + 1, m, 1))
    ensures DayNumber(Date(x.year + 1, m, 1)) + 6 < DayNumber(x) + YEAR_WINDOW
  {
    var first, seventh := Date(x.year + 1, m, 1), Date(x.year + 1, m, 7);
    assert DayNumber(x) <= DayNumber(first) by {
      EarlierNextYear(x, m, 1);
    }
    assert DayNumber(seventh) < DayNumber(x) + YEAR_WINDOW by {
      EarlierNextYear(x, m, 7);
    }
    SameMonth(first, seventh);
  }

  lemma WeekNextYear(x: Date, m: nat, w: nat) returns (d': nat)
    requires Valid(x) && 1 <= m <= 12 && w < 7 && Before(m, 22, x.month, x.day)
    ensures DayNumber(x) <= d' < DayNumber(x) + YEAR_WINDOW && DateOf(d').month == m && Weekday(d') == w
  {
    WeekNextYearFits(x, m);
    d' := WeekdayInWeek(Date(x.year + 1, m, 1), 1, w);
  }

  lemma WeekThisYear(x: Date, m: nat, w: nat) returns (d': nat)
    requires Valid(x) && 1 <= m <= 12 && w < 7 && !Before(m, 22, x.month, x.day)
    ensures DayNumber(x) <= d' < DayNumber(x) + YEAR_WINDOW && DateOf(d').month == m && Weekday(d') == w
  {
    LaterSameYear(x, m, 22);
    LaterSameYear(x, m, 28);
    SameMonth(Date(x.year, m, 22), Date(x.year, m, 28));
    d' := WeekdayInWeek(Date(x.year, m, 22), 22, w);
  }

  /** Within 366 days every weekday falls in every month. */
  lemma WeekdayInMonthRecurs(d: nat, m: nat, w: nat) returns (d': nat)
    requires 1 <= m <= 12 && w < 7
    ensures d <= d' < d + YEAR_WINDOW && DateOf(d').month == m && Weekday(d') == w
  {
    DayNumberOfDate(d);
    if Before(m, 22, DateOf(d).month, DateOf(d).day) {
      d' := WeekNextYear(DateOf(d), m, w);
    } else {
      d' := WeekThisYear(DateOf(d), m, w);
    }
  }

  /** The first 366 days of the calendar hold no 29 February. */
  lemma NoLeapDayAtTheStart(d: nat)
    requires d <= YEAR_WINDOW
    ensures !(DateOf(d).month == 2 && DateOf(d).day == 29)
  {
    DayNumberOfDate(d);
    var x := DateOf(d);
    DayOfYearRange(Leap(x.year), x.month, x.day);
    if x.year >= 3 {
      YearsMonotone(1, 3);
      if x.year > 3 {
        YearsMonotone(3, x.year);
      }
      assert DaysBeforeYear(3) == 730;
    }
  }
}
