/** What the 366-day cap of the minute search (Cron) loses: exactly the schedules only 29 February satisfies. */
module CronCap {
  import opened Common
  import opened Calendar
  import opened Cron

  /** Every year has a day the day fields accept: the weekday is restricted, or some allowed date exists in common years. */
  ghost predicate EveryYear(c: Cron) {
    !DowAll(c) || CommonDate(c)
  }

  ghost predicate CommonDate(c: Cron) {
    exists m: nat, d: nat :: m in c.mon && d in c.dom && d <= MonthDays(false, m)
  }

  /** Any 366 consecutive days hold one the expression accepts. */
  lemma AcceptedDayRecurs(c: Cron, d: nat) returns (d': nat)
    requires InDomain(c) && EveryYear(c)
    ensures d <= d' < d + YEAR_WINDOW && DateOf(d').month in c.mon && DayMatches(c, d')
  {
    if DowAll(c) {
      var m: nat, day: nat :| m in c.mon && day in c.dom && day <= MonthDays(false, m);
      assert m in c.mon - WRAPPED && day in c.dom - WRAPPED;
      d' := CommonDateRecurs(d, m, day);
    } else {
      var m := Pick(c.mon - WRAPPED);
      var w := Pick(c.dow);
      d' := WeekdayInMonthRecurs(d, m, w);
    }
  }

  lemma DayOfMinute(d: nat, r: int)
    requires 0 <= r < DAY
    ensures (d * DAY + r) / DAY == d && (d * DAY + r) % DAY == r
  {
  }

  lemma MinuteParts(d: nat, h: int, mi: int)
    requires 0 <= h < 24 && 0 <= mi < 60
    ensures var m := d * DAY + h * 60 + mi; m / DAY == d && (m % DAY) / 60 == h && m % 60 == mi
  {
    var m := d * DAY + h * 60 + mi;
    DayOfMinute(d, h * 60 + mi);
    assert m % DAY == h * 60 + mi;
  }

  /** Minute t's window of CAP minutes holds, for any fixed time of day, 366 consecutive days. */
  lemma FoundWithinCap(c: Cron, t: nat)
    requires InDomain(c) && EveryYear(c)
    ensures NextAfterOf(c, t).Some?
  {
    var h := Pick(c.hour);
    var mi := Pick(c.min);
    var start := t / 60 + 1;
    var d0 := if start % DAY <= h * 60 + mi then start / DAY else start / DAY + 1;
    var d := AcceptedDayRecurs(c, d0);
    var m := d * DAY + h * 60 + mi;
    MinuteParts(d, h, mi);
    assert Matches(c, m);
    assert t / 60 < m <= t / 60 + CAP;
  }

  /** The cap drops an occurrence: none is found within it, yet a later minute matches. */
  ghost predicate Loses(c: Cron, t: nat) {
    NextAfterOf(c, t).None? && exists m: nat :: m > t / 60 && Matches(c, m)
  }

  lemma SomeEarlyDay(c: Cron)
    requires InDomain(c) && DomAll(c)
    ensures c.dom * UpTo(1, 28) != {}
  {
    var early, late := c.dom * UpTo(1, 28), {29, 30, 31} + WRAPPED;
    forall i | i in c.dom ensures i in early + late {
      assert i in c.dom - WRAPPED || i in WRAPPED;
      assert Within(i, 1, 28) || i >= 29 || i < 1;
    }
    SubsetCard(c.dom, early + late);
    assert |late| <= 5;
    assert |early + late| <= |early| + |late|;
  }

  /** Thirty-one day values, two of them perhaps left by wrapping, include one that every month has. */
  lemma AllDaysIncludeCommonOnes(c: Cron)
    requires InDomain(c) && DomAll(c)
    ensures CommonDate(c)
  {
    var early := c.dom * UpTo(1, 28);
    SomeEarlyDay(c);
    var m: nat, d: nat := Pick(c.mon - WRAPPED), Pick(early);
    assert m in c.mon && d in c.dom && d <= MonthDays(false, m);
  }

  /** Without a weekday restriction and without a common date, only 29 February can match. */
  lemma OnlyLeapDays(c: Cron, m: nat)
    requires InDomain(c) && !EveryYear(c) && Matches(c, m)
    ensures DateOf(m / DAY).month == 2 && DateOf(m / DAY).day == 29 && 2 in c.mon && 29 in c.dom
  {
    var x := DateOf(m / DAY);
    if DomAll(c) {
      AllDaysIncludeCommonOnes(c);
    }
    assert x.day in c.dom && x.month in c.mon;
    assert x.day > MonthDays(false, x.month);
  }

  lemma SomeMinuteMatches(c: Cron, d: nat) returns (m: nat)
    requires InDomain(c) && DateOf(d).month in c.mon && DayMatches(c, d)
    ensures Matches(c, m)
  {
    var h, mi := Pick(c.hour), Pick(c.min);
    m := d * DAY + h * 60 + mi;
    MinuteParts(d, h, mi);
  }

  lemma LeapDayMatches(c: Cron) returns (m: nat)
    requires InDomain(c) && DowAll(c) && 2 in c.mon && 29 in c.dom
    ensures Matches(c, m)
  {
    var x := Date(4, 2, 29);
    DateOfDayNumber(x);
    m := SomeMinuteMatches(c, DayNumber(x));
  }

  /**
    The cap loses an occurrence of a parsed expression exactly when its weekday
    is unrestricted, no allowed date exists in common years, and 29 February is
    allowed.
  */
  lemma CapLosesExactlyLeapDayOnly(c: Cron)
    requires InDomain(c)
    ensures (exists t: nat :: Loses(c, t)) <==> !EveryYear(c) && 2 in c.mon && 29 in c.dom
  {
    if exists t: nat :: Loses(c, t) {
      var t: nat :| Loses(c, t);
      if EveryYear(c) {
        FoundWithinCap(c, t);
      }
      var m: nat :| m > t / 60 && Matches(c, m);
      OnlyLeapDays(c, m);
    }
    if !EveryYear(c) && 2 in c.mon && 29 in c.dom {
      var t: nat := 0;
      NothingInTheFirstYear(c);
      var m := LeapDayMatches(c);
      assert m > t / 60;
      assert Loses(c, t);
    }
  }

  lemma NothingInTheFirstYear(c: Cron)
    requires InDomain(c) && !EveryYear(c)
    ensures forall m: nat :: m <= CAP ==> !Matches(c, m)
    ensures NextAfterOf(c, 0).None?
  {
    forall m: nat | m <= CAP
      ensures !Matches(c, m)
    {
      if Matches(c, m) {
        OnlyLeapDays(c, m);
        NoLeapDayAtTheStart(m / DAY);
      }
    }
  }

  /** An expression the cap loses nothing of always has a next occurrence, or never matches at all. */
  lemma NothingFoundMeansNothingThere(c: Cron, t: nat)
    requires InDomain(c) && (EveryYear(c) || !(2 in c.mon && 29 in c.dom))
    ensures NextAfterOf(c, t).None? ==> forall m: nat :: !Matches(c, m)
  {
    if EveryYear(c) {
      FoundWithinCap(c, t);
    } else {
      forall m: nat ensures !Matches(c, m) {
        if Matches(c, m) {
          OnlyLeapDays(c, m);
        }
      }
    }
  }
}
