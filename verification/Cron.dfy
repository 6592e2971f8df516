/**
  The cron evaluator (internal/schedule/cron.go): five fields of stars, steps,
  numbers and comma lists of those, evaluated minute by minute in UTC with a
  366-day cap. A field arrives as its comma-separated parts, already lexed; times
  are seconds and minutes counted from the start of day 0 of Calendar.
*/
module Cron {
  import opened Common
  import opened Calendar

  /** A 64-bit signed integer; a part whose number does not fit one does not parse. */
  type Int = n: int | MIN_INT <= n <= MAX_INT

  const MIN_INT: int := -0x8000_0000_0000_0000
  const MAX_INT: int := 0x7fff_ffff_ffff_ffff

  /** Addition wraps around. */
  function Add(a: Int, b: Int): Int {
    if a + b > MAX_INT then a + b - 0x1_0000_0000_0000_0000
    else if a + b < MIN_INT then a + b + 0x1_0000_0000_0000_0000
    else a + b
  }

  /** One comma-separated part; Junk is a part whose number does not parse. */
  datatype Part = Star | Every(n: Int) | Number(n: Int) | Junk

  datatype Cron = Cron(min: set<int>, hour: set<int>, dom: set<int>, mon: set<int>, dow: set<int>)

  const DAY := 1440
  const CAP := 366 * 24 * 60

  // ---- parsing -------------------------------------------------------------

  predicate Within(i: int, lo: int, hi: int) {
    lo <= i <= hi
  }

  predicate GoodPart(p: Part, min: int, max: int) {
    match p
    case Star => true
    case Every(n) => n > 0
    case Number(n) => min <= n <= max
    case Junk => false
  }

  predicate OnGrid(i: int, min: int, n: int)
    requires n > 0
  {
    (i - min) % n == 0
  }

  predicate Selects(p: Part, min: int, i: int) {
    match p
    case Star => true
    case Every(n) => n > 0 && OnGrid(i, min, n)
    case Number(n) => i == n
    case Junk => false
  }

  predicate SelectedBy(parts: seq<Part>, min: int, i: int) {
    exists p :: p in parts && Selects(p, min, i)
  }

  /** The part's step leaves the integers on its first addition. */
  predicate Wraps(p: Part, min: int) {
    p.Every? && min + p.n > MAX_INT
  }

  predicate AnyWraps(parts: seq<Part>, min: int) {
    exists p :: p in parts && Wraps(p, min)
  }

  /** What a wrapping step also puts in the set: the two values it passes before it exceeds every range. */
  const WRAPPED := {MIN_INT, -1}

  function InRange(parts: seq<Part>, min: int, max: int): set<int> {
    set i | min <= i <= max && Within(i, min, max) && SelectedBy(parts, min, i)
  }

  function FieldValues(parts: seq<Part>, min: int, max: int): set<int> {
    InRange(parts, min, max) + if AnyWraps(parts, min) then WRAPPED else {}
  }

  function UpTo(lo: int, hi: int): set<int> {
    set i | lo <= i <= hi && Within(i, lo, hi)
  }

  /** The values a step of n reaches from min, below both bounds. */
  function Multiples(min: int, below: int, max: int, n: int): set<int>
    requires n > 0
  {
    set v | min <= v <= max && v < below && OnGrid(v, min, n)
  }

  predicate GoodField(parts: seq<Part>, min: int, max: int) {
    parts != [] && forall p :: p in parts ==> GoodPart(p, min, max)
  }

  /** What one step part adds. */
  function Steps(min: int, max: int, n: int): set<int>
    requires n > 0
  {
    Multiples(min, max + 1, max, n) + if min + n > MAX_INT then WRAPPED else {}
  }

  ghost predicate Plain(values: set<int>, before: set<int>, min: int, max: int, n: int, i: int)
    requires n > 0
  {
    min <= i <= max + n && OnGrid(i, min, n) && values == before + Multiples(min, i, max, n)
  }

  ghost predicate Wrapping(values: set<int>, before: set<int>, i: int) {
    || (i == 1 && values == before) || (i == MIN_INT && values == before + {1})
    || (i == -1 && values == before + {1, MIN_INT}) || (i == MAX_INT - 1 && values == before + {1} + WRAPPED)
  }

  /** Where the step loop is: on the grid, or, when a step wraps, at one of four values. */
  ghost predicate Stepped(values: set<int>, before: set<int>, min: int, max: int, n: int, i: int)
    requires n > 0
  {
    if min + n <= MAX_INT then Plain(values, before, min, max, n, i)
    else min == 1 && n == MAX_INT && Wrapping(values, before, i)
  }

  function WrapsToGo(i: int): int {
    if i == 1 then 3 else if i == MIN_INT then 2 else if i == -1 then 1 else 0
  }

  /** How far the step loop is from its end. */
  function ToGo(min: int, max: int, n: int, i: int): int {
    if min + n <= MAX_INT then max + n - i else WrapsToGo(i)
  }

  lemma StepPlain(values: set<int>, before: set<int>, min: Int, max: Int, n: Int, i: Int)
    requires n > 0 && min <= max < 60 && i <= max && Plain(values, before, min, max, n, i)
    ensures Plain(values + {i}, before, min, max, n, i + n)
  {
    MultiplesStep(min, i, max, n);
  }

  lemma GridGap(x: nat, n: int)
    requires n > 0 && x % n == 0
    ensures x == 0 || x >= n
  {
  }

  lemma PlainAdd(min: Int, max: Int, n: Int, i: Int)
    requires n > 0 && 0 <= min <= 1 && min <= i <= max < 60 && min + n <= MAX_INT && OnGrid(i, min, n)
    ensures Add(i, n) == i + n
  {
    GridGap(i - min, n);
  }

  lemma StepWraps(values: set<int>, before: set<int>, i: Int)
    requires i < 60 && Wrapping(values, before, i)
    ensures Wrapping(values + {i}, before, Add(i, MAX_INT)) && 0 <= WrapsToGo(Add(i, MAX_INT)) < WrapsToGo(i)
  {
    if i == 1 {
      assert Add(i, MAX_INT) == MIN_INT;
    } else if i == MIN_INT {
      assert Add(i, MAX_INT) == -1;
      assert before + {1} + {MIN_INT} == before + {1, MIN_INT};
    } else {
      assert Add(i, MAX_INT) == MAX_INT - 1;
      assert before + {1, MIN_INT} + {-1} == before + {1} + WRAPPED;
    }
  }

  lemma StepNext(values: set<int>, before: set<int>, min: Int, max: Int, n: Int, i: Int)
    requires n > 0 && 0 <= min <= 1 && min <= max < 60 && i <= max && Stepped(values, before, min, max, n, i)
    ensures Stepped(values + {i}, before, min, max, n, Add(i, n)) && 0 <= ToGo(min, max, n, Add(i, n)) < ToGo(min, max, n, i)
  {
    if min + n <= MAX_INT {
      PlainAdd(min, max, n, i);
      StepPlain(values, before, min, max, n, i);
    } else {
      StepWraps(values, before, i);
    }
  }

  /** A grid wider than the range holds only its first value. */
  lemma WideGrid(min: int, max: int)
    requires 0 <= min <= max < 60
    ensures Multiples(min, max + 1, max, MAX_INT) == {min}
  {
    var wide := Multiples(min, max + 1, max, MAX_INT);
    forall v: int ensures v in wide <==> v == min {
      assert min <= v <= max && OnGrid(v, min, MAX_INT) ==> v == min;
    }
  }

  lemma StepEnd(values: set<int>, before: set<int>, min: Int, max: Int, n: Int, i: Int)
    requires n > 0 && 0 <= min <= 1 && min <= max < 60 && i > max && Stepped(values, before, min, max, n, i)
    ensures values == before + Steps(min, max, n)
  {
    if min + n <= MAX_INT {
      assert Multiples(min, i, max, n) == Multiples(min, max + 1, max, n);
    } else {
      WideGrid(min, max);
    }
  }

  /** The step loop, on wrapping integers. */
  method AddSteps(before: set<int>, min: Int, max: Int, n: Int) returns (values: set<int>)
    requires n > 0 && 0 <= min <= 1 && min <= max < 60
    ensures values == before + Steps(min, max, n)
  {
    values := before;
    var i: Int := min;
    assert min + n <= MAX_INT ==> Multiples(min, i, max, n) == {};
    while i <= max
      invariant Stepped(values, before, min, max, n, i)
      decreases ToGo(min, max, n, i)
    {
      StepNext(values, before, min, max, n, i);
      values := values + {i};
      i := Add(i, n);
    }
    StepEnd(values, before, min, max, n, i);
  }

  /** The five fields begin at 0 or 1. */
  method ParseField(parts: seq<Part>, min: Int, max: Int) returns (r: Option<set<int>>)
    requires 0 <= min <= 1 && min <= max < 60
    ensures r == if GoodField(parts, min, max) then Some(FieldValues(parts, min, max)) else None
  {
    var values: set<int> := {};
    for k := 0 to |parts|
      invariant forall p :: p in parts[..k] ==> GoodPart(p, min, max)
      invariant values == FieldValues(parts[..k], min, max)
    {
      assert parts[..k + 1] == parts[..k] + [parts[k]];
      ghost var before := values;
      match parts[k] {
        case Star =>
          var i := min;
          while i <= max
            invariant min <= i <= max + 1
            invariant values == before + UpTo(min, i - 1)
          {
            values := values + {i};
            i := i + 1;
          }
        case Every(n) =>
          if n <= 0 {
            assert !GoodPart(parts[k], min, max);
            return None;
          }
          values := AddSteps(values, min, max, n);
        case Number(n) =>
          if n < min || n > max {
            assert !GoodPart(parts[k], min, max);
            return None;
          }
          values := values + {n};
        case Junk =>
          assert !GoodPart(parts[k], min, max);
          return None;
      }
      OnePartMore(parts[..k], parts[k], min, max);
      assert values == before + FieldValues([parts[k]], min, max);
    }
    assert parts[..|parts|] == parts;
    if parts != [] {
      GoodPartSelects(parts, min, max);
    }
    if values == {} {
      return None;
    }
    r := Some(values);
  }

  /** From a multiple of n on, the next value selected is that multiple, then n further. */
  lemma MultiplesStep(min: int, i: int, max: int, n: int)
    requires n > 0 && min <= i <= max && OnGrid(i, min, n)
    ensures Multiples(min, i + n, max, n) == Multiples(min, i, max, n) + {i}
    ensures OnGrid(i + n, min, n)
  {
    ModAdd(i - min, n, n);
    forall v | Within(v, i + 1, i + n - 1)
      ensures !OnGrid(v, min, n)
    {
      ModAdd(i - min, v - i, n);
    }
    forall v: int ensures v in Multiples(min, i + n, max, n) <==> v in Multiples(min, i, max, n) + {i} {
      assert Within(v, i + 1, i + n - 1) || v <= i || v >= i + n;
    }
  }

  lemma ModAdd(x: int, r: int, n: int)
    requires n > 0 && x % n == 0 && 0 <= r <= n
    ensures (x + r) % n == if r == n then 0 else r
  {
    SameRemainder(x / n, r, (x + r) / n, (x + r) % n, n);
  }

  lemma SameRemainder(q: int, r: int, q': int, s: int, n: int)
    requires n > 0 && 0 <= r <= n && 0 <= s < n && q * n + r == q' * n + s
    ensures s == if r == n then 0 else r
  {
    Distributes(q, q', n);
    MulBounds(q' - q, n);
    RemainderCases(q' - q, (q' - q) * n, r, s, n);
  }

  lemma Distributes(q: int, q': int, n: int)
    ensures (q' - q) * n == q' * n - q * n
  {
  }

  /** The linear half: a difference of remainders is a multiple of n only as 0 or n. */
  lemma RemainderCases(k: int, kn: int, r: int, s: int, n: int)
    requires n > 0 && 0 <= r <= n && 0 <= s < n && kn == r - s
    requires (k <= -1 ==> kn <= -n) && (k == 0 ==> kn == 0) && (k == 1 ==> kn == n) && (k >= 2 ==> kn >= 2 * n)
    ensures s == if r == n then 0 else r
  {
  }

  lemma MulBounds(k: int, n: int)
    requires n > 0
    ensures k <= -1 ==> k * n <= -n
    ensures k >= 2 ==> k * n >= 2 * n
  {
  }

  lemma OnePartMore(parts: seq<Part>, p: Part, min: int, max: int)
    requires GoodPart(p, min, max)
    ensures FieldValues(parts + [p], min, max) == FieldValues(parts, min, max) + FieldValues([p], min, max)
    ensures FieldValues([p], min, max) == (
      match p
      case Star => UpTo(min, max)
      case Every(n) => Steps(min, max, n)
      case Number(n) => {n}
      case Junk => {})
  {
    assert forall i :: Selects(p, min, i) <==> SelectedBy([p], min, i) by {
      assert p in [p];
    }
    forall i ensures SelectedBy(parts + [p], min, i) <==> SelectedBy(parts, min, i) || SelectedBy([p], min, i) {
      assert forall x :: x in parts + [p] <==> x in parts || x in [p];
    }
    WrapsMore(parts, p, min);
  }

  lemma WrapsMore(parts: seq<Part>, p: Part, min: int)
    ensures AnyWraps(parts + [p], min) <==> AnyWraps(parts, min) || Wraps(p, min)
    ensures AnyWraps([p], min) <==> Wraps(p, min)
  {
    assert p in [p] && forall x :: x in parts + [p] <==> x in parts || x == p;
  }

  lemma GoodPartSelects(parts: seq<Part>, min: int, max: int)
    requires min <= max && parts != [] && GoodPart(parts[0], min, max)
    ensures InRange(parts, min, max) != {}
  {
    var p := parts[0];
    var i := if p.Number? then p.n else min;
    assert p in parts && Selects(p, min, i);
    assert i in InRange(parts, min, max);
  }

  function Sunday(dow: set<int>): set<int> {
    if 7 in dow then dow + {0} - {7} else dow
  }

  /** The five fields in order, both 0 and 7 meaning Sunday. */
  function Parsed(fields: seq<seq<Part>>): Option<Cron> {
    if |fields| == 5
      && GoodField(fields[0], 0, 59) && GoodField(fields[1], 0, 23) && GoodField(fields[2], 1, 31)
      && GoodField(fields[3], 1, 12) && GoodField(fields[4], 0, 7)
    then
      Some(Cron(FieldValues(fields[0], 0, 59), FieldValues(fields[1], 0, 23), FieldValues(fields[2], 1, 31),
                FieldValues(fields[3], 1, 12), Sunday(FieldValues(fields[4], 0, 7))))
    else None
  }

  method Parse(fields: seq<seq<Part>>) returns (r: Option<Cron>)
    ensures r == Parsed(fields)
  {
    if |fields| != 5 {
      return None;
    }
    var min := ParseField(fields[0], 0, 59);
    if min.None? { return None; }
    var hour := ParseField(fields[1], 0, 23);
    if hour.None? { return None; }
    var dom := ParseField(fields[2], 1, 31);
    if dom.None? { return None; }
    var mon := ParseField(fields[3], 1, 12);
    if mon.None? { return None; }
    var dow := ParseField(fields[4], 0, 7);
    if dow.None? { return None; }
    var days := dow.value;
    if 7 in days {
      days := days + {0};
      days := days - {7};
    }
    r := Some(Cron(min.value, hour.value, dom.value, mon.value, days));
  }

  ghost predicate FieldIn(s: set<int>, lo: int, hi: int) {
    s != {} && forall i :: i in s ==> lo <= i <= hi
  }

  /** A field that begins at 1 may also hold what a wrapping step leaves. */
  ghost predicate FieldAbout(s: set<int>, lo: int, hi: int) {
    FieldIn(s - WRAPPED, lo, hi)
  }

  /** Every field has a value within its range, and beyond it at most what a wrapping step leaves in the dates. */
  ghost predicate InDomain(c: Cron) {
    FieldIn(c.min, 0, 59) && FieldIn(c.hour, 0, 23) && FieldAbout(c.dom, 1, 31) && FieldAbout(c.mon, 1, 12) && FieldIn(c.dow, 0, 6)
  }

  lemma GoodFieldNonEmpty(parts: seq<Part>, min: int, max: int)
    requires min <= max && 0 <= min && GoodField(parts, min, max)
    ensures FieldAbout(FieldValues(parts, min, max), min, max)
    ensures FieldValues(parts, min, max) - WRAPPED == InRange(parts, min, max)
    ensures min == 0 ==> FieldIn(FieldValues(parts, min, max), min, max)
  {
    GoodPartSelects(parts, min, max);
    assert min == 0 ==> !AnyWraps(parts, min);
    assert FieldValues(parts, min, max) - WRAPPED == InRange(parts, min, max);
  }

  lemma ParsedInDomain(fields: seq<seq<Part>>)
    requires Parsed(fields).Some?
    ensures InDomain(Parsed(fields).value)
  {
    GoodFieldNonEmpty(fields[0], 0, 59);
    GoodFieldNonEmpty(fields[1], 0, 23);
    GoodFieldNonEmpty(fields[2], 1, 31);
    GoodFieldNonEmpty(fields[3], 1, 12);
    GoodFieldNonEmpty(fields[4], 0, 7);
    var dow := FieldValues(fields[4], 0, 7);
    var i := Pick(dow);
    assert (if 7 in dow then 0 else i) in Sunday(dow);
  }

  // ---- what wrapping does to "every day" --------------------------------------

  lemma UpToNext(lo: int, hi: int)
    requires lo <= hi
    ensures UpTo(lo, hi) == UpTo(lo, hi - 1) + {hi} && hi !in UpTo(lo, hi - 1)
  {
    forall i ensures i in UpTo(lo, hi) <==> i in UpTo(lo, hi - 1) + {hi} {
      assert Within(i, lo, hi) <==> Within(i, lo, hi - 1) || i == hi;
    }
  }

  lemma {:induction false} UpToCard(lo: int, hi: int)
    requires lo <= hi + 1
    ensures |UpTo(lo, hi)| == hi - lo + 1
    decreases hi - lo + 1
  {
    if lo <= hi {
      UpToCard(lo, hi - 1);
      UpToNext(lo, hi);
    } else {
      assert UpTo(lo, hi) == {};
    }
  }

  /** A field as large as its range is its range. */
  lemma FullField(s: set<int>, lo: int, hi: int)
    requires FieldIn(s, lo, hi) && |s| == hi - lo + 1
    ensures forall i :: lo <= i <= hi ==> i in s
  {
    UpToCard(lo, hi);
    forall i | lo <= i <= hi
      ensures i in s
    {
      if i !in s {
        assert s <= UpTo(lo, hi) - {i};
        SubsetCard(s, UpTo(lo, hi) - {i});
      }
    }
  }

  ghost predicate EveryDay(c: Cron) {
    forall d :: 1 <= d <= 31 ==> d in c.dom
  }

  lemma EveryDayIsAFullField(c: Cron)
    requires InDomain(c)
    ensures EveryDay(c) <==> |c.dom - WRAPPED| == 31
  {
    if |c.dom - WRAPPED| == 31 {
      FullField(c.dom - WRAPPED, 1, 31);
      forall d | 1 <= d <= 31 ensures d in c.dom {
        assert d in c.dom - WRAPPED;
      }
    }
    if EveryDay(c) {
      UpToCard(1, 31);
      forall i: int ensures i in c.dom - WRAPPED <==> i in UpTo(1, 31) {
        assert Within(i, 1, 31) <==> 1 <= i <= 31;
        assert 1 <= i <= 31 ==> i in c.dom && i !in WRAPPED;
      }
      assert c.dom - WRAPPED == UpTo(1, 31);
    }
  }

  /**
    The count of day values stands for "every day", except where a step in that field
    wraps around: then 29 listed days are taken for all, and all 31 are not.
  */
  lemma {:induction false} DomAllMeansEveryDayIff(fields: seq<seq<Part>>)
    requires Parsed(fields).Some?
    ensures var c := Parsed(fields).value;
      (DomAll(c) <==> EveryDay(c)) <==> !AnyWraps(fields[2], 1) || |InRange(fields[2], 1, 31)| !in {29, 31}
  {
    var c := Parsed(fields).value;
    ParsedInDomain(fields);
    GoodFieldNonEmpty(fields[2], 1, 31);
    EveryDayIsAFullField(c);
    var days := InRange(fields[2], 1, 31);
    if AnyWraps(fields[2], 1) {
      assert |WRAPPED| == 2 && days !! WRAPPED;
      assert |c.dom| == |days| + 2;
    } else {
      assert c.dom == days;
    }
  }

  /** The first day by the widest step, then the days from 2 to `last` one by one. */
  function WidestStepThenDays(last: Int): seq<Part>
    requires 1 <= last <= 31
  {
    [Every(MAX_INT)] + seq(last - 1, i requires 0 <= i < last - 1 => Number(i + 2))
  }

  lemma DaysUpTo(last: Int)
    requires 1 <= last <= 31
    ensures var parts := WidestStepThenDays(last);
      GoodField(parts, 1, 31) && AnyWraps(parts, 1) && InRange(parts, 1, 31) == UpTo(1, last)
  {
    var parts := WidestStepThenDays(last);
    assert parts[0] == Every(MAX_INT) && parts[0] in parts && Wraps(parts[0], 1);
    var days := InRange(parts, 1, 31);
    forall i: int ensures i in days <==> i in UpTo(1, last) {
      assert Within(i, 1, last) <==> 1 <= i <= last;
      if i == 1 {
        assert Selects(parts[0], 1, 1);
      } else if 2 <= i <= last {
        assert parts[i - 1] == Number(i) && parts[i - 1] in parts && Selects(parts[i - 1], 1, i);
      }
      assert 1 <= i <= 31 && OnGrid(i, 1, MAX_INT) ==> i == 1;
    }
  }

  lemma OnlyDaysGiven(days: seq<Part>)
    requires GoodField(days, 1, 31)
    ensures var r := Parsed([[Star], [Star], days, [Star], [Star]]); r.Some? && r.value.dom == FieldValues(days, 1, 31)
  {
  }

  lemma TwoDaysShort()
    ensures var dom := UpTo(1, 29) + WRAPPED; |dom| == 31 && 30 !in dom
  {
    UpToCard(1, 29);
    assert UpTo(1, 29) !! WRAPPED;
  }

  /** An accepted expression that leaves out two days and is taken for every day. */
  lemma WrappingStepIsTakenForEveryDay()
    ensures var r := Parsed([[Star], [Star], WidestStepThenDays(29), [Star], [Star]]);
      r.Some? && DomAll(r.value) && !EveryDay(r.value)
  {
    var days := WidestStepThenDays(29);
    DaysUpTo(29);
    OnlyDaysGiven(days);
    TwoDaysShort();
    var c := Parsed([[Star], [Star], days, [Star], [Star]]).value;
    assert c.dom == UpTo(1, 29) + WRAPPED;
    assert 1 <= 30 <= 31;
  }

  // ---- matching ------------------------------------------------------------

  predicate DomAll(c: Cron) {
    |c.dom| == 31
  }

  predicate DowAll(c: Cron) {
    |c.dow| == 7
  }

  predicate DayMatches(c: Cron, d: nat) {
    var domOK := DateOf(d).day in c.dom;
    var dowOK := Weekday(d) in c.dow;
    if DomAll(c) && DowAll(c) then true
    else if DomAll(c) then dowOK
    else if DowAll(c) then domOK
    else domOK || dowOK
  }

  /** Minute m satisfies the expression. */
  predicate Matches(c: Cron, m: nat) {
    m % 60 in c.min && (m % DAY) / 60 in c.hour && DateOf(m / DAY).month in c.mon && DayMatches(c, m / DAY)
  }

  /** `r` is the least matching minute strictly after second t within the cap, if there is one. */
  ghost predicate IsNextAfter(c: Cron, t: nat, r: Option<nat>) {
    match r
    case Some(m) => t / 60 < m <= t / 60 + CAP && Matches(c, m) && forall k: nat :: t / 60 < k < m ==> !Matches(c, k)
    case None => forall k: nat :: t / 60 < k <= t / 60 + CAP ==> !Matches(c, k)
  }

  lemma NextAfterUnique(c: Cron, t: nat, r: Option<nat>, r': Option<nat>)
    requires IsNextAfter(c, t, r) && IsNextAfter(c, t, r')
    ensures r == r'
  {
  }

  /** The minute walk. None stands for the zero time. */
  method NextAfter(c: Cron, t: nat) returns (r: Option<nat>)
    ensures IsNextAfter(c, t, r)
    ensures r.Some? ==> t < 60 * r.value
  {
    var next := t / 60 + 1;
    var i := 0;
    while i < CAP
      invariant 0 <= i <= CAP && next == t / 60 + 1 + i
      invariant forall k: nat :: t / 60 < k < next ==> !Matches(c, k)
    {
      if Matches(c, next) {
        return Some(next);
      }
      next := next + 1;
      i := i + 1;
    }
    r := None;
  }

  ghost function Least(c: Cron, lo: nat, hi: nat): (m: nat)
    requires lo <= hi && Matches(c, hi)
    ensures lo <= m <= hi && Matches(c, m) && forall k: nat :: lo <= k < m ==> !Matches(c, k)
    decreases hi - lo
  {
    if Matches(c, lo) then lo else Least(c, lo + 1, hi)
  }

  /** NextAfter as a function, for what is built on it. */
  ghost function NextAfterOf(c: Cron, t: nat): (r: Option<nat>)
    ensures IsNextAfter(c, t, r)
  {
    if exists m: nat :: t / 60 < m <= t / 60 + CAP && Matches(c, m) then
      var m: nat :| t / 60 < m <= t / 60 + CAP && Matches(c, m);
      Some(Least(c, t / 60 + 1, m))
    else None
  }

  /** A later time never yields an earlier occurrence. */
  lemma NextAfterMonotone(c: Cron, t: nat, t': nat)
    requires t <= t' && NextAfterOf(c, t').Some?
    ensures NextAfterOf(c, t).Some? ==> NextAfterOf(c, t).value <= NextAfterOf(c, t').value
    ensures NextAfterOf(c, t).None? ==> NextAfterOf(c, t').value > t / 60 + CAP
  {
    var m' := NextAfterOf(c, t').value;
    assert t / 60 <= t' / 60;
    if NextAfterOf(c, t).Some? {
      assert !(t / 60 < m' < NextAfterOf(c, t).value);
    }
  }
}
