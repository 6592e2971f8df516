/**
  When a cron expression (Cron) fires, read off its text: the minutes, hours, dates
  and weekdays its parts name, with the textbook's rule for weekdays.
*/
module CronAnswers {
  import opened Common
  import opened Calendar
  import opened Cron

  /** Some part names the value: a star, a step counted from the field's first value, or the number itself. */
  ghost predicate Picks(parts: seq<Part>, first: int, v: int) {
    exists p :: p in parts && Names(p, first, v)
  }

  predicate Names(p: Part, first: int, v: int) {
    p.Star? || (p.Every? && p.n > 0 && (v - first) % p.n == 0) || (p.Number? && p.n == v)
  }

  /** A number within the field's bounds, a step of at least one, or a star. */
  predicate Acceptable(p: Part, first: int, last: int) {
    p.Star? || (p.Every? && p.n >= 1) || (p.Number? && first <= p.n && p.n <= last)
  }

  ghost predicate AllAcceptable(parts: seq<Part>, first: int, last: int) {
    parts != [] && forall p :: p in parts ==> Acceptable(p, first, last)
  }

  /** An expression is accepted exactly when it has five fields and every part of each is acceptable there. */
  lemma AcceptedIff(fields: seq<seq<Part>>)
    ensures Parsed(fields).Some? <==>
      && |fields| == 5 && AllAcceptable(fields[0], 0, 59) && AllAcceptable(fields[1], 0, 23)
      && AllAcceptable(fields[2], 1, 31) && AllAcceptable(fields[3], 1, 12) && AllAcceptable(fields[4], 0, 7)
  {
    if |fields| == 5 {
      FieldAccepted(fields[0], 0, 59);
      FieldAccepted(fields[1], 0, 23);
      FieldAccepted(fields[2], 1, 31);
      FieldAccepted(fields[3], 1, 12);
      FieldAccepted(fields[4], 0, 7);
    }
  }

  lemma FieldAccepted(parts: seq<Part>, first: int, last: int)
    ensures GoodField(parts, first, last) <==> AllAcceptable(parts, first, last)
  {
    assert forall p: Part :: GoodPart(p, first, last) <==> Acceptable(p, first, last);
  }

  lemma FieldHolds(parts: seq<Part>, first: int, last: int, v: int)
    requires 0 <= first <= v <= last
    ensures v in FieldValues(parts, first, last) <==> Picks(parts, first, v)
  {
    assert forall p: Part :: Selects(p, first, v) <==> Names(p, first, v);
    assert Within(v, first, last);
  }

  // ---- days ------------------------------------------------------------------

  /** Sunday is 0 and also 7. */
  ghost predicate PicksWeekday(parts: seq<Part>, w: int) {
    Picks(parts, 0, w) || (w == 0 && Picks(parts, 0, 7))
  }

  ghost predicate PicksEveryDay(parts: seq<Part>) {
    forall d :: 1 <= d <= 31 ==> Picks(parts, 1, d)
  }

  ghost predicate PicksEveryWeekday(parts: seq<Part>) {
    forall w :: 0 <= w <= 6 ==> PicksWeekday(parts, w)
  }

  /** Dates and weekdays are alternatives when both are restricted; otherwise both must agree. */
  ghost predicate DayFires(dates: seq<Part>, weekdays: seq<Part>, day: int, w: int) {
    if PicksEveryDay(dates) || PicksEveryWeekday(weekdays) then Picks(dates, 1, day) && PicksWeekday(weekdays, w)
    else Picks(dates, 1, day) || PicksWeekday(weekdays, w)
  }

  lemma WeekdayHolds(fields: seq<seq<Part>>, w: int)
    requires Parsed(fields).Some? && 0 <= w <= 6
    ensures w in Parsed(fields).value.dow <==> PicksWeekday(fields[4], w)
  {
    FieldHolds(fields[4], 0, 7, w);
    FieldHolds(fields[4], 0, 7, 7);
  }

  lemma EveryWeekdayIff(fields: seq<seq<Part>>)
    requires Parsed(fields).Some?
    ensures DowAll(Parsed(fields).value) <==> PicksEveryWeekday(fields[4])
  {
    var dow := Parsed(fields).value.dow;
    ParsedInDomain(fields);
    UpToCard(0, 6);
    forall w | 0 <= w <= 6 ensures w in dow <==> PicksWeekday(fields[4], w) {
      WeekdayHolds(fields, w);
    }
    if |dow| == 7 {
      FullField(dow, 0, 6);
    }
    if PicksEveryWeekday(fields[4]) {
      WholeWeek(dow);
    }
  }

  lemma WholeWeek(dow: set<int>)
    requires FieldIn(dow, 0, 6) && forall w :: 0 <= w <= 6 ==> w in dow
    ensures |dow| == 7
  {
    UpToCard(0, 6);
    forall i ensures i in dow <==> i in UpTo(0, 6) {
      assert Within(i, 0, 6) <==> 0 <= i <= 6;
    }
    assert dow == UpTo(0, 6);
  }

  lemma EveryDayIff(fields: seq<seq<Part>>)
    requires Parsed(fields).Some? && !AnyWraps(fields[2], 1)
    ensures DomAll(Parsed(fields).value) <==> PicksEveryDay(fields[2])
  {
    DomAllMeansEveryDayIff(fields);
    forall d | 1 <= d <= 31 ensures d in Parsed(fields).value.dom <==> Picks(fields[2], 1, d) {
      FieldHolds(fields[2], 1, 31, d);
    }
  }

  // ---- the calendar ------------------------------------------------------------

  /** Leap days up to the end of year y. */
  function LeapDays(y: nat): int {
    y / 4 - y / 100 + y / 400
  }

  lemma LeapDaysStep(y: nat)
    requires y >= 1
    ensures LeapDays(y) == LeapDays(y - 1) + if Leap(y) then 1 else 0
  {
    QuotientStep(y, 4);
    QuotientStep(y, 100);
    QuotientStep(y, 400);
    Multiples400(y);
  }

  lemma Multiples400(y: nat)
    ensures y % 400 == 0 ==> y % 100 == 0
    ensures y % 100 == 0 ==> y % 4 == 0
  {
    MultipleOf(y, 400, 100);
    MultipleOf(y, 100, 4);
  }

  lemma MultipleOf(y: nat, n: nat, k: nat)
    requires (n == 400 && k == 100) || (n == 100 && k == 4)
    ensures y % n == 0 ==> y % k == 0
  {
    var q := y / n;
    if n == 400 {
      assert y % n == 0 ==> y == 100 * (4 * q);
    } else {
      assert y % n == 0 ==> y == 4 * (25 * q);
    }
  }

  lemma QuotientStep(y: nat, n: nat)
    requires y >= 1 && n in {4, 100, 400}
    ensures y / n == (y - 1) / n + if y % n == 0 then 1 else 0
  {
  }

  /** Days before a year: 365 for each, and the leap days between. */
  lemma {:induction false} DaysBefore(y: nat)
    requires y >= 1
    ensures DaysBeforeYear(y) == 365 * (y - 1) + LeapDays(y - 1)
  {
    if y > 1 {
      DaysBefore(y - 1);
      LeapDaysStep(y - 1);
    }
  }

  /** Days of a common year before each month. */
  const MONTH_STARTS := [0, 31, 59, 90, 120, 151, 181, 212, 243, 273, 304, 334]

  predicate LeapDayPassed(x: Date) {
    x.month > 2 && x.year % 4 == 0 && (x.year % 100 != 0 || x.year % 400 == 0)
  }

  /** What the leap days, the month and the day add to the weekday. */
  function Shift(x: Date): int
    requires Valid(x)
  {
    LeapDays(x.year - 1) + MONTH_STARTS[x.month - 1] + (if LeapDayPassed(x) then 1 else 0) + x.day
  }

  /** The weekday of a date as the textbook counts it, Sunday being 0. */
  function WeekdayOf(x: Date): int
    requires Valid(x)
  {
    (x.year - 1 + Shift(x)) % 7
  }

  lemma DayNumberIs(x: Date)
    requires Valid(x)
    ensures DayNumber(x) + 1 == 365 * (x.year - 1) + Shift(x)
  {
    DaysBefore(x.year);
    MonthStart(Leap(x.year), x.month);
  }

  lemma MonthStart(leap: bool, m: nat)
    requires 1 <= m <= 12
    ensures DaysBeforeMonth(leap, m) == MONTH_STARTS[m - 1] + if leap && m > 2 then 1 else 0
  {
    MonthTable(leap);
  }

  lemma WeeksDropOut(n: int, a: int, b: int)
    requires n == 365 * a + b
    ensures n % 7 == (a + b) % 7
  {
    SameWeekday(52 * a, a + b);
  }

  lemma SameWeekday(k: int, b: int)
    ensures (7 * k + b) % 7 == b % 7
  {
  }

  lemma WeekdayAfter(d: nat, a: int, b: int)
    requires d + 1 == 365 * a + b
    ensures Weekday(d) == (a + b) % 7
  {
    WeeksDropOut(d + 1, a, b);
  }

  /** The calendar's weekdays are the textbook's. */
  lemma WeekdaysAreTheTextbooks(x: Date)
    requires Valid(x)
    ensures DayNumber(x) >= 0 && Weekday(DayNumber(x)) == WeekdayOf(x)
  {
    DateOfDayNumber(x);
    DayNumberIs(x);
    WeekdayAfter(DayNumber(x), x.year - 1, Shift(x));
  }

  // ---- when it fires -------------------------------------------------------------

  /**
    A minute of any day matches exactly when the fields name its minute, hour and
    month and its day fires; for expressions whose date steps do not wrap around.
  */
  lemma MatchesAsWritten(fields: seq<seq<Part>>, d: nat, h: nat, mi: nat)
    requires Parsed(fields).Some? && !AnyWraps(fields[2], 1) && h < 24 && mi < 60
    ensures Matches(Parsed(fields).value, d * 1440 + h * 60 + mi) <==>
      && Picks(fields[0], 0, mi) && Picks(fields[1], 0, h) && Picks(fields[3], 1, DateOf(d).month)
      && DayFires(fields[2], fields[4], DateOf(d).day, WeekdayOf(DateOf(d)))
  {
    MatchesOn(fields, d, h, mi);
    DayNumberOfDate(d);
    WeekdaysAreTheTextbooks(DateOf(d));
  }

  lemma MatchesOn(fields: seq<seq<Part>>, d: nat, h: nat, mi: nat)
    requires Parsed(fields).Some? && !AnyWraps(fields[2], 1) && h < 24 && mi < 60
    ensures Matches(Parsed(fields).value, d * 1440 + h * 60 + mi) <==>
      && Picks(fields[0], 0, mi) && Picks(fields[1], 0, h) && Picks(fields[3], 1, DateOf(d).month)
      && DayFires(fields[2], fields[4], DateOf(d).day, Weekday(d))
  {
    MatchesAt(Parsed(fields).value, d, h, mi);
    TimeHolds(fields, DateOf(d).month, h, mi);
    DayFiresIff(fields, d);
  }

  lemma MatchesAt(c: Cron, d: nat, h: nat, mi: nat)
    requires h < 24 && mi < 60
    ensures Matches(c, d * 1440 + h * 60 + mi) <==> mi in c.min && h in c.hour && DateOf(d).month in c.mon && DayMatches(c, d)
  {
    TimeParts(d, h, mi);
  }

  lemma TimeParts(d: nat, h: nat, mi: nat)
    requires h < 24 && mi < 60
    ensures var m := d * 1440 + h * 60 + mi; m / DAY == d && (m % DAY) / 60 == h && m % 60 == mi
  {
  }

  lemma TimeHolds(fields: seq<seq<Part>>, mon: nat, h: nat, mi: nat)
    requires Parsed(fields).Some? && 1 <= mon <= 12 && h < 24 && mi < 60
    ensures mi in Parsed(fields).value.min <==> Picks(fields[0], 0, mi)
    ensures h in Parsed(fields).value.hour <==> Picks(fields[1], 0, h)
    ensures mon in Parsed(fields).value.mon <==> Picks(fields[3], 1, mon)
  {
    FieldHolds(fields[0], 0, 59, mi);
    FieldHolds(fields[1], 0, 23, h);
    FieldHolds(fields[3], 1, 12, mon);
  }

  lemma DayHolds(fields: seq<seq<Part>>, day: nat)
    requires Parsed(fields).Some? && 1 <= day <= 31
    ensures day in Parsed(fields).value.dom <==> Picks(fields[2], 1, day)
  {
    FieldHolds(fields[2], 1, 31, day);
  }

  lemma DayFiresIff(fields: seq<seq<Part>>, d: nat)
    requires Parsed(fields).Some? && !AnyWraps(fields[2], 1)
    ensures DayMatches(Parsed(fields).value, d) <==> DayFires(fields[2], fields[4], DateOf(d).day, Weekday(d))
  {
    var c, day, w := Parsed(fields).value, DateOf(d).day, Weekday(d);
    EveryPicksEach(fields[2], fields[4], day, w);
    AllAsWritten(fields);
    DayHolds(fields, day);
    WeekdayHolds(fields, w);
    DayRule(c, d, PicksEveryDay(fields[2]), PicksEveryWeekday(fields[4]), Picks(fields[2], 1, day), PicksWeekday(fields[4], w));
  }

  lemma AllAsWritten(fields: seq<seq<Part>>)
    requires Parsed(fields).Some? && !AnyWraps(fields[2], 1)
    ensures DomAll(Parsed(fields).value) <==> PicksEveryDay(fields[2])
    ensures DowAll(Parsed(fields).value) <==> PicksEveryWeekday(fields[4])
  {
    EveryDayIff(fields);
    EveryWeekdayIff(fields);
  }

  /** The rule for days, from what is restricted and what is picked. */
  lemma DayRule(c: Cron, d: nat, everyDay: bool, everyWeekday: bool, day: bool, weekday: bool)
    requires DomAll(c) == everyDay && DowAll(c) == everyWeekday
    requires (DateOf(d).day in c.dom) == day && (Weekday(d) in c.dow) == weekday
    requires (everyDay ==> day) && (everyWeekday ==> weekday)
    ensures DayMatches(c, d) <==> if everyDay || everyWeekday then day && weekday else day || weekday
  {
  }

  lemma EveryPicksEach(dates: seq<Part>, weekdays: seq<Part>, day: int, w: int)
    requires 1 <= day <= 31 && 0 <= w <= 6
    ensures PicksEveryDay(dates) ==> Picks(dates, 1, day)
    ensures PicksEveryWeekday(weekdays) ==> PicksWeekday(weekdays, w)
  {
  }
}
