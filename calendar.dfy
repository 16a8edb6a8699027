/**
 * Calendar arithmetic of the projection engine: Python's proleptic Gregorian
 * `datetime` dates (time of day is always midnight here, since every date the
 * engine uses went through parse_date), `calendar.monthrange`, `timedelta`
 * day steps, `date.weekday`, and the service's own month arithmetic
 * (add_months, add_month_if_possible, is_within_date_range, date_range).
 */
module Calendar {
  import opened Wrappers

  datatype Date = Date(year: int, month: int, day: int)

  // ---------------------------------------------------------------------------
  // Month lengths (calendar.isleap, calendar.monthrange(y, m)[1])

  predicate IsLeapYear(y: int)
  {
    y % 4 == 0 && (y % 100 != 0 || y % 400 == 0)
  }

  function DaysInMonth(y: int, m: int): (n: int)
    requires 1 <= m <= 12
    ensures 28 <= n <= 31
    ensures n == 31 <==> m in {1, 3, 5, 7, 8, 10, 12}
    ensures m == 2 ==> (n == 29 <==> IsLeapYear(y))
  {
    if m == 2 then (if IsLeapYear(y) then 29 else 28)
    else if m == 4 || m == 6 || m == 9 || m == 11 then 30
    else 31
  }

  /** The dates a Python `datetime` can hold (its MINYEAR..MAXYEAR bound is separate, see InDatetimeRange). */
  predicate ValidDate(d: Date)
  {
    1 <= d.month <= 12 && 1 <= d.day <= DaysInMonth(d.year, d.month)
  }

  /** Python's datetime.MINYEAR .. datetime.MAXYEAR. */
  predicate InDatetimeRange(d: Date)
  {
    1 <= d.year <= 9999
  }

  // ---------------------------------------------------------------------------
  // Order: Python compares datetimes field by field.

  predicate Le(a: Date, b: Date)
  {
    a.year < b.year || (a.year == b.year && (a.month < b.month || (a.month == b.month && a.day <= b.day)))
  }

  predicate Lt(a: Date, b: Date)
  {
    !Le(b, a)
  }

  /** A numbering of dates that is monotone in the order above; used for termination. */
  function Key(d: Date): int
  {
    d.year * 372 + (d.month - 1) * 31 + (d.day - 1)
  }

  /** Months since year 0: equal months of equal years have equal indexes. */
  function MonthIndex(d: Date): int
  {
    d.year * 12 + d.month - 1
  }

  lemma KeyOrder(a: Date, b: Date)
    requires ValidDate(a) && ValidDate(b)
    ensures Le(a, b) <==> Key(a) <= Key(b)
    ensures Le(a, b) ==> MonthIndex(a) <= MonthIndex(b)
  {
  }

  lemma SameMonth(a: Date, b: Date)
    requires 1 <= a.month <= 12 && 1 <= b.month <= 12
    requires MonthIndex(a) == MonthIndex(b)
    ensures a.year == b.year && a.month == b.month
  {
  }

  // ---------------------------------------------------------------------------
  // Ordinal day numbers (date.toordinal) and weekdays (date.weekday)

  function DaysBeforeYear(y: int): int
  {
    var y1 := y - 1;
    y1 * 365 + y1 / 4 - y1 / 100 + y1 / 400
  }

  function DaysBeforeMonth(y: int, m: int): int
    requires 1 <= m <= 12
  {
    [0, 0, 31, 59, 90, 120, 151, 181, 212, 243, 273, 304, 334][m] + (if m > 2 && IsLeapYear(y) then 1 else 0)
  }

  /** date.toordinal(): 0001-01-01 is day 1. */
  function Ordinal(d: Date): int
    requires 1 <= d.month <= 12
  {
    DaysBeforeYear(d.year) + DaysBeforeMonth(d.year, d.month) + d.day
  }

  /** date.weekday(): Monday is 0, Sunday is 6. */
  function Weekday(d: Date): int
    requires 1 <= d.month <= 12
  {
    (Ordinal(d) + 6) % 7
  }

  // ---------------------------------------------------------------------------
  // Day steps (datetime + timedelta(days=n))

  function NextDay(d: Date): (r: Date)
    requires ValidDate(d)
    ensures ValidDate(r) && Key(d) < Key(r) && Lt(d, r)
  {
    if d.day < DaysInMonth(d.year, d.month) then Date(d.year, d.month, d.day + 1)
    else if d.month < 12 then Date(d.year, d.month + 1, 1)
    else Date(d.year + 1, 1, 1)
  }

  function PrevDay(d: Date): (r: Date)
    requires ValidDate(d)
    ensures ValidDate(r) && NextDay(r) == d
  {
    if d.day > 1 then Date(d.year, d.month, d.day - 1)
    else if d.month > 1 then Date(d.year, d.month - 1, DaysInMonth(d.year, d.month - 1))
    else Date(d.year - 1, 12, 31)
  }

  lemma DaysBeforeYearStep(y: int)
    ensures DaysBeforeYear(y + 1) == DaysBeforeYear(y) + (if IsLeapYear(y) then 366 else 365)
  {
    var a, b, c := y / 4 - (y - 1) / 4, y / 100 - (y - 1) / 100, y / 400 - (y - 1) / 400;
    FloorStep4(y);
    FloorStep100(y);
    FloorStep400(y);
    LeapDivisors(y);
    assert DaysBeforeYear(y + 1) == DaysBeforeYear(y) + 365 + a - b + c;
    YearStepArith(a, b, c, IsLeapYear(y));
  }

  lemma FloorStep4(x: int)
    ensures x / 4 - (x - 1) / 4 == if x % 4 == 0 then 1 else 0
  {
  }

  lemma FloorStep100(x: int)
    ensures x / 100 - (x - 1) / 100 == if x % 100 == 0 then 1 else 0
  {
  }

  lemma FloorStep400(x: int)
    ensures x / 400 - (x - 1) / 400 == if x % 400 == 0 then 1 else 0
  {
  }

  lemma LeapDivisors(x: int)
    ensures x % 400 == 0 ==> x % 100 == 0
    ensures x % 100 == 0 ==> x % 4 == 0
  {
  }

  /** The leap-year rule on the three divisibility indicators. */
  lemma YearStepArith(a: int, b: int, c: int, leap: bool)
    requires a in {0, 1} && b in {0, 1} && c in {0, 1}
    requires (c == 1 ==> b == 1) && (b == 1 ==> a == 1)
    requires leap <==> a == 1 && (b == 0 || c == 1)
    ensures 365 + a - b + c == if leap then 366 else 365
  {
  }

  /** The next day is exactly one ordinal later. */
  lemma NextDayOrdinal(d: Date)
    requires ValidDate(d)
    ensures Ordinal(NextDay(d)) == Ordinal(d) + 1
  {
    if d.day == DaysInMonth(d.year, d.month) && d.month == 12 {
      DaysBeforeYearStep(d.year);
    }
  }

  /** The date `n` days after `d` (before it when `n` is negative). */
  function AddDays(d: Date, n: int): (r: Date)
    requires ValidDate(d)
    ensures ValidDate(r)
    ensures n > 0 ==> Key(d) < Key(r)
    decreases if n >= 0 then n else -n
  {
    if n == 0 then d
    else if n > 0 then AddDays(NextDay(d), n - 1)
    else AddDays(PrevDay(d), n + 1)
  }

  /** AddDays is timedelta arithmetic: it moves the ordinal by exactly n. */
  lemma {:induction false} AddDaysOrdinal(d: Date, n: int)
    requires ValidDate(d)
    ensures Ordinal(AddDays(d, n)) == Ordinal(d) + n
    decreases if n >= 0 then n else -n
  {
    if n > 0 {
      NextDayOrdinal(d);
      AddDaysOrdinal(NextDay(d), n - 1);
    } else if n < 0 {
      NextDayOrdinal(PrevDay(d));
      AddDaysOrdinal(PrevDay(d), n + 1);
    }
  }

  /** Moving n days shifts the weekday by n modulo 7. */
  lemma WeekdayAddDays(d: Date, n: int)
    requires ValidDate(d)
    ensures Weekday(AddDays(d, n)) == (Weekday(d) + n) % 7
  {
    AddDaysOrdinal(d, n);
    WeekdayShift(Ordinal(d), Ordinal(AddDays(d, n)), n);
  }

  lemma WeekdayShift(a: int, b: int, n: int)
    requires b == a + n
    ensures (b + 6) % 7 == ((a + 6) % 7 + n) % 7
  {
    var o := a + 6;
    ModShift(o / 7, o % 7 + n);
    assert o + n == 7 * (o / 7) + (o % 7 + n);
  }

  lemma ModShift(q: int, x: int)
    ensures (7 * q + x) % 7 == x % 7
  {
  }

  /** No valid date lies strictly between a date and its successor. */
  lemma NextDayIsSuccessor(a: Date, b: Date)
    requires ValidDate(a) && ValidDate(b) && Lt(a, b)
    ensures Le(NextDay(a), b)
  {
  }

  /** Ordinals are strictly monotone, so a valid date is determined by its ordinal. */
  lemma {:induction false} OrdinalMonotone(a: Date, b: Date)
    requires ValidDate(a) && ValidDate(b) && Lt(a, b)
    ensures Ordinal(a) < Ordinal(b)
    decreases Key(b) - Key(a)
  {
    NextDayOrdinal(a);
    NextDayIsSuccessor(a, b);
    if NextDay(a) != b {
      OrdinalMonotone(NextDay(a), b);
    }
  }

  lemma OrdinalInjective(a: Date, b: Date)
    requires ValidDate(a) && ValidDate(b) && Ordinal(a) == Ordinal(b)
    ensures a == b
  {
    if Lt(a, b) {
      OrdinalMonotone(a, b);
    } else if Lt(b, a) {
      OrdinalMonotone(b, a);
    }
  }

  /** AddDays(d, n) is the one valid date whose ordinal is Ordinal(d) + n. */
  lemma AddDaysUnique(d: Date, n: int, r: Date)
    requires ValidDate(d) && ValidDate(r) && Ordinal(r) == Ordinal(d) + n
    ensures AddDays(d, n) == r
  {
    AddDaysOrdinal(d, n);
    OrdinalInjective(AddDays(d, n), r);
  }

  // ---------------------------------------------------------------------------
  // Month arithmetic of MainService

  /** The day clamping of add_months and add_month_if_possible. */
  function Min(a: int, b: int): int
  {
    if a <= b then a else b
  }

  /**
   * add_months: n months later, the day clamped to the target month's length.
   * The target month is the one n months after d's, whatever the sign of n.
   */
  function AddMonths(d: Date, n: int): (r: Date)
    requires ValidDate(d)
    ensures ValidDate(r)
    ensures MonthIndex(r) == MonthIndex(d) + n
    ensures r.day == Min(d.day, DaysInMonth(r.year, r.month))
  {
    var month0 := d.month - 1 + n;
    // Python's // and % with a positive divisor floor, as Dafny's do.
    var year := d.year + month0 / 12;
    var month := month0 % 12 + 1;
    Date(year, month, Min(d.day, DaysInMonth(year, month)))
  }

  /**
   * add_month_if_possible: the month after `current`, with the day taken from
   * the anchor `original` (not from `current`), clamped to that month's length.
   */
  function AddMonthIfPossible(original: Date, current: Date): (r: Date)
    requires ValidDate(original) && ValidDate(current)
    ensures ValidDate(r)
    ensures MonthIndex(r) == MonthIndex(current) + 1
    ensures r.day == Min(original.day, DaysInMonth(r.year, r.month))
  {
    var nextMonth := if current.month + 1 > 12 then 1 else current.month + 1;
    var nextYear := if current.month + 1 > 12 then current.year + 1 else current.year;
    var lastDay := DaysInMonth(nextYear, nextMonth);
    if original.day <= lastDay then Date(nextYear, nextMonth, original.day)
    else Date(nextYear, nextMonth, lastDay)
  }

  /** The k-th date of the monthly schedule anchored at `anchor`. */
  function MonthlyStep(anchor: Date, k: nat): (r: Date)
    requires ValidDate(anchor)
    ensures ValidDate(r)
  {
    if k == 0 then anchor else AddMonthIfPossible(anchor, MonthlyStep(anchor, k - 1))
  }

  /**
   * No drift: k anchored steps land where a single jump of k months from the
   * anchor lands, so a clamped day returns to the anchor's day in long months.
   */
  lemma {:induction false} MonthlyStepNoDrift(anchor: Date, k: nat)
    requires ValidDate(anchor)
    ensures MonthlyStep(anchor, k) == AddMonths(anchor, k)
  {
    if k > 0 {
      MonthlyStepNoDrift(anchor, k - 1);
      var x, y := MonthlyStep(anchor, k), AddMonths(anchor, k);
      assert MonthIndex(x) == MonthIndex(anchor) + k;
      SameMonth(x, y);
    }
  }

  /** Jan 31 anchored: Feb 28, Mar 31, Apr 30, May 31 (2023 is not a leap year). */
  lemma MonthlyFromJan31()
    ensures MonthlyStep(Date(2023, 1, 31), 1) == Date(2023, 2, 28)
    ensures MonthlyStep(Date(2023, 1, 31), 2) == Date(2023, 3, 31)
    ensures MonthlyStep(Date(2023, 1, 31), 3) == Date(2023, 4, 30)
    ensures MonthlyStep(Date(2023, 1, 31), 4) == Date(2023, 5, 31)
  {
    MonthlyStepNoDrift(Date(2023, 1, 31), 1);
    MonthlyStepNoDrift(Date(2023, 1, 31), 2);
    MonthlyStepNoDrift(Date(2023, 1, 31), 3);
    MonthlyStepNoDrift(Date(2023, 1, 31), 4);
  }

  /** Repeated add_months(·, 1), as the semi-monthly schedule advances, drifts: Jan 31 becomes Mar 28. */
  lemma AddMonthsDrifts()
    ensures AddMonths(AddMonths(Date(2023, 1, 31), 1), 1) == Date(2023, 3, 28)
    ensures AddMonths(Date(2023, 1, 31), 2) == Date(2023, 3, 31)
  {
    assert AddMonths(Date(2023, 1, 31), 1) == Date(2023, 2, 28);
  }

  // ---------------------------------------------------------------------------
  // Intervals

  predicate InInterval(d: Date, lo: Date, hi: Date)
  {
    ValidDate(d) && Le(lo, d) && Le(d, hi)
  }

  /** is_within_date_range(start, end, checkStart, checkEnd). */
  function IsWithinDateRange(startDate: Date, endDate: Date, checkStart: Date, checkEnd: Date): bool
  {
    Le(checkStart, endDate) && Le(startDate, checkEnd)
  }

  /** For non-empty intervals the test is exactly "some day lies in both". */
  lemma IsWithinDateRangeIsOverlap(s: Date, e: Date, cs: Date, ce: Date)
    requires ValidDate(s) && ValidDate(e) && ValidDate(cs) && ValidDate(ce)
    requires Le(s, e) && Le(cs, ce)
    ensures IsWithinDateRange(s, e, cs, ce) <==> exists d :: InInterval(d, s, e) && InInterval(d, cs, ce)
  {
    if IsWithinDateRange(s, e, cs, ce) {
      var w := if Le(s, cs) then cs else s;
      assert InInterval(w, s, e) && InInterval(w, cs, ce);
    }
  }

  // ---------------------------------------------------------------------------
  // date_range: every day from start to end inclusive

  /** The days of [start, end] in order; empty when start is after end. */
  function Span(start: Date, end: Date): (s: seq<Date>)
    requires ValidDate(start) && ValidDate(end)
    ensures forall i :: 0 <= i < |s| ==> ValidDate(s[i])
    decreases Key(end) - Key(start)
  {
    KeyOrder(start, end);
    if !Le(start, end) then [] else [start] + Span(NextDay(start), end)
  }

  /** A date is in Span(start, end) exactly when it is a valid date of [start, end]. */
  lemma {:induction false} SpanMembers(start: Date, end: Date, d: Date)
    requires ValidDate(start) && ValidDate(end)
    ensures d in Span(start, end) <==> InInterval(d, start, end)
    decreases Key(end) - Key(start)
  {
    KeyOrder(start, end);
    if Le(start, end) {
      SpanMembers(NextDay(start), end, d);
      if InInterval(d, start, end) && d != start {
        NextDayIsSuccessor(start, d);
      }
    }
  }

  /** Span(start, end)[i] is start + i days, and the span has Ordinal(end) - Ordinal(start) + 1 days. */
  lemma {:induction false} SpanIndex(start: Date, end: Date)
    requires ValidDate(start) && ValidDate(end)
    ensures |Span(start, end)| == if Le(start, end) then Ordinal(end) - Ordinal(start) + 1 else 0
    ensures forall i :: 0 <= i < |Span(start, end)| ==> Span(start, end)[i] == AddDays(start, i)
    decreases Key(end) - Key(start)
  {
    KeyOrder(start, end);
    if Le(start, end) {
      NextDayOrdinal(start);
      SpanIndex(NextDay(start), end);
      var s := Span(start, end);
      forall i | 0 <= i < |s| ensures s[i] == AddDays(start, i) {
        if i > 0 {
          assert s[i] == Span(NextDay(start), end)[i - 1];
        }
      }
      if start == end {
        assert Span(NextDay(start), end) == [];
      } else {
        NextDayIsSuccessor(start, end);
      }
    }
  }

  /** Consecutive days of a span are one day apart, so the span is strictly increasing. */
  lemma {:induction false} SpanConsecutive(start: Date, end: Date)
    requires ValidDate(start) && ValidDate(end)
    ensures forall i :: 0 <= i < |Span(start, end)| - 1 ==> Span(start, end)[i + 1] == NextDay(Span(start, end)[i])
    decreases Key(end) - Key(start)
  {
    KeyOrder(start, end);
    if Le(start, end) {
      SpanConsecutive(NextDay(start), end);
      var s := Span(start, end);
      var t := Span(NextDay(start), end);
      forall i | 0 <= i < |s| - 1 ensures s[i + 1] == NextDay(s[i]) {
        if i > 0 {
          assert s[i] == t[i - 1] && s[i + 1] == t[i];
        } else {
          SpanIndex(NextDay(start), end);
        }
      }
    }
  }

  /** The date_range generator, collected: it yields exactly Span(start, end). */
  method DateRange(start: Date, end: Date) returns (days: seq<Date>)
    requires ValidDate(start) && ValidDate(end)
    ensures days == Span(start, end)
  {
    days := [];
    var current := start;
    while Le(current, end)
      invariant ValidDate(current)
      invariant days + Span(current, end) == Span(start, end)
      decreases Key(end) - Key(current)
    {
      KeyOrder(current, end);
      days := days + [current];
      current := NextDay(current);
    }
  }
}
