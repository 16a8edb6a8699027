/**
 * What calculate_recurring_dates promises, proved about the specification
 * functions of the Recurrence module: where each branch's dates fall, how far
 * apart they are, what the occurrence map holds afterwards and when a
 * KeyError is raised.
 */
module RecurrenceLaws {
  import opened Wrappers
  import opened Calendar
  import opened TransactionModel
  import opened Recurrence
  import DateFormat

  // ---------------------------------------------------------------------------
  // Weekly and bi-weekly

  /** Every stepped date is included (on or after the window start, on or before the end date) and within the window end. */
  lemma {:induction false} StepDatesBounds(c: Date, step: int, windowStart: Date, endDate: Date, windowEnd: Date)
    requires ValidDate(c) && ValidDate(windowEnd) && step > 0
    ensures forall d :: d in StepDates(c, step, windowStart, endDate, windowEnd) ==>
              ValidDate(d) && Included(d, windowStart, endDate) && Le(d, windowEnd)
    decreases Key(windowEnd) - Key(c)
  {
    KeyOrder(c, windowEnd);
    if Le(c, windowEnd) {
      StepDatesBounds(AddDays(c, step), step, windowStart, endDate, windowEnd);
    }
  }

  /** Past the end date nothing more is included. */
  lemma {:induction false} StepDatesPastEnd(c: Date, step: int, windowStart: Date, endDate: Date, windowEnd: Date)
    requires ValidDate(c) && ValidDate(endDate) && ValidDate(windowEnd) && step > 0
    requires Lt(endDate, c)
    ensures StepDates(c, step, windowStart, endDate, windowEnd) == []
    decreases Key(windowEnd) - Key(c)
  {
    KeyOrder(c, windowEnd);
    if Le(c, windowEnd) {
      var n := AddDays(c, step);
      KeyOrder(c, endDate);
      KeyOrder(n, endDate);
      StepDatesPastEnd(n, step, windowStart, endDate, windowEnd);
    }
  }

  /** Each date after the first is the one before it moved by `step` days. */
  predicate Stepped(ds: seq<Date>, step: int)
  {
    forall i :: 0 <= i < |ds| - 1 ==> ValidDate(ds[i]) && ds[i + 1] == AddDays(ds[i], step)
  }

  /** Consecutive occurrences are one step apart: nothing between two of them is skipped. */
  lemma {:induction false} StepDatesConsecutive(c: Date, step: int, windowStart: Date, endDate: Date, windowEnd: Date)
    requires ValidDate(c) && ValidDate(windowStart) && ValidDate(endDate) && ValidDate(windowEnd) && step > 0
    ensures Stepped(StepDates(c, step, windowStart, endDate, windowEnd), step)
    decreases Key(windowEnd) - Key(c)
  {
    KeyOrder(c, windowEnd);
    if Le(c, windowEnd) {
      var n := AddDays(c, step);
      var rest := StepDates(n, step, windowStart, endDate, windowEnd);
      StepDatesConsecutive(n, step, windowStart, endDate, windowEnd);
      if Included(c, windowStart, endDate) && rest != [] {
        KeyOrder(windowStart, c);
        KeyOrder(c, n);
        KeyOrder(windowStart, n);
        KeyOrder(n, windowEnd);
        if !Included(n, windowStart, endDate) {
          StepDatesPastEnd(n, step, windowStart, endDate, windowEnd);
        }
        assert rest[0] == n;
        var ds := StepDates(c, step, windowStart, endDate, windowEnd);
        assert ds == [c] + rest;
        forall i | 0 <= i < |ds| - 1
          ensures ValidDate(ds[i]) && ds[i + 1] == AddDays(ds[i], step)
        {
          if i > 0 {
            assert ds[i] == rest[i - 1] && ds[i + 1] == rest[i];
            assert rest[i] == AddDays(rest[i - 1], step);
          } else {
            assert ds[0] == c && ds[1] == rest[0];
            assert rest[0] == AddDays(c, step);
          }
        }
      }
    }
  }

  /** Consecutive occurrences are exactly `step` days apart. */
  lemma StepDatesSpacing(c: Date, step: int, windowStart: Date, endDate: Date, windowEnd: Date)
    requires ValidDate(c) && ValidDate(windowStart) && ValidDate(endDate) && ValidDate(windowEnd) && step > 0
    ensures var ds := StepDates(c, step, windowStart, endDate, windowEnd);
            forall i :: 0 <= i < |ds| - 1 ==> Ordinal(ds[i + 1]) == Ordinal(ds[i]) + step
  {
    var ds := StepDates(c, step, windowStart, endDate, windowEnd);
    StepDatesConsecutive(c, step, windowStart, endDate, windowEnd);
    forall i | 0 <= i < |ds| - 1
      ensures Ordinal(ds[i + 1]) == Ordinal(ds[i]) + step
    {
      var x, y := ds[i], ds[i + 1];
      AddDaysOrdinal(x, step);
      assert y == AddDays(x, step);
    }
  }

  /** With a step of whole weeks every occurrence keeps the anchor's weekday. */
  predicate OnWeekday(ds: seq<Date>, w: int)
  {
    forall i :: 0 <= i < |ds| ==> ValidDate(ds[i]) && Weekday(ds[i]) == w
  }

  lemma {:induction false} StepDatesWeekday(c: Date, step: int, windowStart: Date, endDate: Date, windowEnd: Date)
    requires ValidDate(c) && ValidDate(windowEnd) && step > 0 && step % 7 == 0
    ensures OnWeekday(StepDates(c, step, windowStart, endDate, windowEnd), Weekday(c))
    decreases Key(windowEnd) - Key(c)
  {
    KeyOrder(c, windowEnd);
    if Le(c, windowEnd) {
      var n := AddDays(c, step);
      var ds := StepDates(c, step, windowStart, endDate, windowEnd);
      var rest := StepDates(n, step, windowStart, endDate, windowEnd);
      var pre := if Included(c, windowStart, endDate) then [c] else [];
      assert ds == pre + rest;
      StepDatesWeekday(n, step, windowStart, endDate, windowEnd);
      WeekdayWholeWeeks(c, step);
      var w := Weekday(c);
      forall i | 0 <= i < |ds|
        ensures ValidDate(ds[i]) && Weekday(ds[i]) == w
      {
        if i >= |pre| {
          assert ds[i] == rest[i - |pre|];
        }
      }
    }
  }

  lemma WeekdayWholeWeeks(c: Date, step: int)
    requires ValidDate(c) && step % 7 == 0
    ensures Weekday(AddDays(c, step)) == Weekday(c)
  {
    WeekdayAddDays(c, step);
    var w := Weekday(c);
    assert step == 7 * (step / 7);
    ModShift(step / 7, w);
  }

  /**
   * The weekly and bi-weekly loop from a start date and a `day` field: every
   * occurrence falls on weekday `day - 1` (mod 7) and consecutive ones are
   * `step` days apart.
   */
  lemma WeeklyDatesLaws(start: Date, day: int, step: int, windowStart: Date, endDate: Date, windowEnd: Date)
    requires ValidDate(start) && ValidDate(windowStart) && ValidDate(endDate) && ValidDate(windowEnd)
    requires step == 7 || step == 14
    ensures OnWeekday(StepDates(WeeklyAnchor(start, day), step, windowStart, endDate, windowEnd), (day - 1) % 7)
    ensures var ds := StepDates(WeeklyAnchor(start, day), step, windowStart, endDate, windowEnd);
            forall i :: 0 <= i < |ds| - 1 ==> Ordinal(ds[i + 1]) == Ordinal(ds[i]) + step
  {
    var anchor := WeeklyAnchor(start, day);
    WeeklyAnchorLaws(start, day);
    StepDatesSpacing(anchor, step, windowStart, endDate, windowEnd);
    StepDatesWeekday(anchor, step, windowStart, endDate, windowEnd);
  }

  // ---------------------------------------------------------------------------
  // Monthly

  /** Every monthly date is included and within the window end, and keeps the anchor's day clamped to its month. */
  lemma {:induction false} MonthlyDatesBounds(original: Date, c: Date, windowStart: Date, endDate: Date, windowEnd: Date)
    requires ValidDate(original) && ValidDate(c) && ValidDate(windowEnd)
    requires c.day == Min(original.day, DaysInMonth(c.year, c.month))
    ensures forall d :: d in MonthlyDates(original, c, windowStart, endDate, windowEnd) ==>
              ValidDate(d) && Included(d, windowStart, endDate) && Le(d, windowEnd)
              && d.day == Min(original.day, DaysInMonth(d.year, d.month))
    decreases MonthIndex(windowEnd) - MonthIndex(c)
  {
    KeyOrder(c, windowEnd);
    if Le(c, windowEnd) {
      MonthlyDatesBounds(original, AddMonthIfPossible(original, c), windowStart, endDate, windowEnd);
    }
  }

  lemma {:induction false} MonthlyDatesPastEnd(original: Date, c: Date, windowStart: Date, endDate: Date, windowEnd: Date)
    requires ValidDate(original) && ValidDate(c) && ValidDate(endDate) && ValidDate(windowEnd)
    requires Lt(endDate, c)
    ensures MonthlyDates(original, c, windowStart, endDate, windowEnd) == []
    decreases MonthIndex(windowEnd) - MonthIndex(c)
  {
    KeyOrder(c, windowEnd);
    if Le(c, windowEnd) {
      var n := AddMonthIfPossible(original, c);
      KeyOrder(n, c);
      KeyOrder(c, endDate);
      KeyOrder(n, endDate);
      MonthlyDatesPastEnd(original, n, windowStart, endDate, windowEnd);
    }
  }

  /** Consecutive dates fall in consecutive calendar months. */
  predicate MonthSpaced(ds: seq<Date>)
  {
    forall i :: 0 <= i < |ds| - 1 ==> MonthIndex(ds[i + 1]) == MonthIndex(ds[i]) + 1
  }

  /** Consecutive monthly occurrences fall in consecutive months: one per month, none skipped. */
  lemma {:induction false} MonthlyDatesSpacing(original: Date, c: Date, windowStart: Date, endDate: Date, windowEnd: Date)
    requires ValidDate(original) && ValidDate(c) && ValidDate(windowStart) && ValidDate(endDate) && ValidDate(windowEnd)
    ensures MonthSpaced(MonthlyDates(original, c, windowStart, endDate, windowEnd))
    decreases MonthIndex(windowEnd) - MonthIndex(c)
  {
    KeyOrder(c, windowEnd);
    if Le(c, windowEnd) {
      var n := AddMonthIfPossible(original, c);
      var rest := MonthlyDates(original, n, windowStart, endDate, windowEnd);
      var ds := MonthlyDates(original, c, windowStart, endDate, windowEnd);
      MonthlyDatesSpacing(original, n, windowStart, endDate, windowEnd);
      if !Included(c, windowStart, endDate) {
        assert ds == rest;
      } else if rest != [] {
        assert ds == [c] + rest;
        KeyOrder(c, n);
        KeyOrder(windowStart, n);
        if !Included(n, windowStart, endDate) {
          KeyOrder(n, endDate);
          MonthlyDatesPastEnd(original, n, windowStart, endDate, windowEnd);
        }
        KeyOrder(n, windowEnd);
        assert rest[0] == n;
        forall i | 0 <= i < |ds| - 1
          ensures MonthIndex(ds[i + 1]) == MonthIndex(ds[i]) + 1
        {
          if i == 0 {
            assert ds[0] == c && ds[1] == rest[0];
          } else {
            assert ds[i] == rest[i - 1] && ds[i + 1] == rest[i];
          }
        }
      }
    }
  }

  // ---------------------------------------------------------------------------
  // Semi-monthly

  /** Every semi-monthly date is included; unlike the other branches nothing bounds it by the window end. */
  lemma {:induction false} SemiMonthlyDatesBounds(first: Date, second: Date, windowStart: Date, endDate: Date, windowEnd: Date)
    requires ValidDate(first) && ValidDate(second) && ValidDate(windowEnd)
    ensures forall d :: d in SemiMonthlyDates(first, second, windowStart, endDate, windowEnd) ==>
              ValidDate(d) && Included(d, windowStart, endDate)
    decreases MonthIndex(windowEnd) - Min(MonthIndex(first), MonthIndex(second))
  {
    KeyOrder(first, windowEnd);
    KeyOrder(second, windowEnd);
    if Le(first, windowEnd) || Le(second, windowEnd) {
      SemiMonthlyUnfold(first, second, windowStart, endDate, windowEnd);
      SemiMonthlyDatesBounds(AddMonths(first, 1), AddMonths(second, 1), windowStart, endDate, windowEnd);
    }
  }

  /**
   * An end date after the window end lets the second anchor of the last
   * round (Aug 20) through although it lies past the window end (Aug 12).
   */
  lemma SemiMonthlyPastWindow()
    ensures SemiMonthlyDates(Date(2024, 8, 1), Date(2024, 8, 20), Date(2023, 12, 16), Date(2024, 12, 31), Date(2024, 8, 12))
         == [Date(2024, 8, 1), Date(2024, 8, 20)]
    ensures Lt(Date(2024, 8, 12), Date(2024, 8, 20))
  {
    SemiMonthlyUnfold(Date(2024, 8, 1), Date(2024, 8, 20), Date(2023, 12, 16), Date(2024, 12, 31), Date(2024, 8, 12));
  }

  /** A second anchor earlier in the month than the first is appended after it: one transaction's dates need not ascend. */
  lemma SemiMonthlyOutOfOrder()
    ensures SemiMonthlyDates(Date(2024, 1, 20), Date(2024, 1, 5), Date(2024, 1, 1), Date(2024, 1, 31), Date(2024, 1, 31))
         == [Date(2024, 1, 20), Date(2024, 1, 5)]
  {
    SemiMonthlyUnfold(Date(2024, 1, 20), Date(2024, 1, 5), Date(2024, 1, 1), Date(2024, 1, 31), Date(2024, 1, 31));
  }

  /** A semi-monthly paycheck from Jan 10 to Dec 31, 2024, whose second date is missing. */
  function NoSecondDate(): Transaction
  {
    Transaction("s", TransactionBase("u", Income, "pay", 100.0, SemiMonthly,
                  Some("01-10-2024"), None, None, None, Some("12-31-2024"), Some(false), Some(false)))
  }

  lemma NoSecondDateDates()
    ensures TransactionDates(NoSecondDate(), Date(2024, 1, 1), Date(2024, 6, 30))
         == Err(MissingField("date_of_second_transaction"))
  {
    NoSecondDateFields();
    assert IsWithinDateRange(Date(2024, 1, 10), Date(2024, 12, 31), Date(2024, 1, 1), Date(2024, 6, 30));
  }

  lemma NoSecondDateBefore()
    ensures DatesBeforeError(NoSecondDate(), Date(2024, 1, 1), Date(2024, 6, 30)) == [Date(2024, 1, 10)]
  {
    NoSecondDateDates();
    NoSecondDateFields();
  }

  lemma NoSecondDateFields()
    ensures ParseField(NoSecondDate().base.dateOfTransaction, "date_of_transaction") == Ok(Some(Date(2024, 1, 10)))
    ensures ParseField(NoSecondDate().base.dateOfSecondTransaction, "date_of_second_transaction") == Ok(None)
    ensures EffectiveStart(NoSecondDate()) == Ok(Some(Date(2024, 1, 10)))
    ensures EffectiveEnd(NoSecondDate(), Date(2024, 6, 30)) == Ok(Some(Date(2024, 12, 31)))
  {
    ParsesJan10();
    ParsesDec31();
  }

  lemma ParsesJan10()
    ensures DateFormat.ParseDate("01-10-2024") == Some(Date(2024, 1, 10))
  {
    ParsesAs(Date(2024, 1, 10), "01-10-2024");
  }

  lemma ParsesDec31()
    ensures DateFormat.ParseDate("12-31-2024") == Some(Date(2024, 12, 31))
  {
    ParsesAs(Date(2024, 12, 31), "12-31-2024");
  }

  /**
   * Without a bucket for its first date the transaction above raises KeyError,
   * not TypeError: the first date is appended before the missing second date
   * is compared. With a bucket for it the same transaction raises TypeError.
   */
  lemma SemiMonthlyFirstBeforeTypeError()
    ensures ExpandOne(Expansion(map[], map[]), NoSecondDate(), Date(2024, 1, 1), Date(2024, 6, 30))
         == Err(MissingKey(Date(2024, 1, 10)))
    ensures ExpandOne(Expansion(map[], map[Date(2024, 1, 10) := []]), NoSecondDate(), Date(2024, 1, 1), Date(2024, 6, 30))
         == Err(MissingField("date_of_second_transaction"))
  {
    NoSecondDateDates();
    NoSecondDateBefore();
    RecordAllCons(Expansion(map[], map[]), NoSecondDate(), Date(2024, 1, 10), []);
    RecordAllCons(Expansion(map[], map[Date(2024, 1, 10) := []]), NoSecondDate(), Date(2024, 1, 10), []);
    assert [Date(2024, 1, 10)] + [] == [Date(2024, 1, 10)];
  }

  lemma ParsesAs(d: Date, s: string)
    requires ValidDate(d) && DateFormat.FormattableYear(d) && DateFormat.FormatDate(d) == s
    ensures DateFormat.ParseDate(s) == Some(d)
  {
    DateFormat.ParseFormatRoundTrip(d);
  }

  // ---------------------------------------------------------------------------
  // One transaction

  /**
   * Every date a transaction is appended to is on or after the window start;
   * outside the semi-monthly branch it is also on or before the window end,
   * and outside the one-time branch on or before the transaction's end date.
   */
  lemma TransactionDatesBounds(t: Transaction, windowStart: Date, windowEnd: Date)
    requires ValidDate(windowStart) && ValidDate(windowEnd)
    requires TransactionDates(t, windowStart, windowEnd).Ok?
    ensures forall d :: d in TransactionDates(t, windowStart, windowEnd).value ==>
              ValidDate(d) && Le(windowStart, d)
              && (t.base.frequency != SemiMonthly ==> Le(d, windowEnd))
              && (t.base.frequency != OneTime ==> Le(d, EffectiveEnd(t, windowEnd).value.value))
  {
    var start := EffectiveStart(t).value;
    var end := EffectiveEnd(t, windowEnd).value;
    if end.Some? && start.Some? && IsWithinDateRange(start.value, end.value, windowStart, windowEnd) {
      match t.base.frequency
      case OneTime =>
      case Weekly =>
        var from := ParseField(t.base.startDate, "start_date").value.value;
        StepDatesBounds(WeeklyAnchor(from, t.base.day.value), 7, windowStart, end.value, windowEnd);
      case BiWeekly =>
        var from := ParseField(t.base.startDate, "start_date").value.value;
        StepDatesBounds(WeeklyAnchor(from, t.base.day.value), 14, windowStart, end.value, windowEnd);
      case SemiMonthly =>
        var first := ParseField(t.base.dateOfTransaction, "date_of_transaction").value.value;
        var second := ParseField(t.base.dateOfSecondTransaction, "date_of_second_transaction").value.value;
        SemiMonthlyDatesBounds(first, second, windowStart, end.value, windowEnd);
      case Monthly =>
        var first := ParseField(t.base.dateOfTransaction, "date_of_transaction").value.value;
        MonthlyDatesBounds(first, first, windowStart, end.value, windowEnd);
    }
  }

  /** A transaction whose [start, end] misses the window appends nothing. */
  lemma NoOverlapNoDates(e: Expansion, t: Transaction, windowStart: Date, windowEnd: Date, start: Date, end: Date)
    requires ValidDate(windowStart) && ValidDate(windowEnd)
    requires EffectiveStart(t) == Ok(Some(start)) && EffectiveEnd(t, windowEnd) == Ok(Some(end))
    requires !IsWithinDateRange(start, end, windowStart, windowEnd)
    ensures TransactionDates(t, windowStart, windowEnd) == Ok([])
    ensures ExpandOne(e, t, windowStart, windowEnd) == Ok(e)
  {
  }

  // ---------------------------------------------------------------------------
  // Appending

  /** `k` copies of one transaction. */
  function Repeat(t: Transaction, k: nat): (r: seq<Transaction>)
    ensures |r| == k && forall i :: 0 <= i < k ==> r[i] == t
  {
    if k == 0 then [] else Repeat(t, k - 1) + [t]
  }

  lemma RepeatCons(t: Transaction, k: nat)
    ensures [t] + Repeat(t, k) == Repeat(t, k + 1)
    ensures SumAmounts(Repeat(t, k + 1)) == t.base.amount + SumAmounts(Repeat(t, k))
  {
    assert [t] + Repeat(t, k) == Repeat(t, k + 1);
    SumAmountsAppend([t], Repeat(t, k));
    assert [t][..0] == [];
  }

  /** How often `d` occurs in `ds`. */
  function Occurrences(ds: seq<Date>, d: Date): nat
    decreases |ds|
  {
    if ds == [] then 0 else (if ds[0] == d then 1 else 0) + Occurrences(ds[1..], d)
  }

  /** Appending along a list succeeds iff every date has a bucket; a failure names a date without one. */
  lemma {:induction false} RecordAllOutcome(e: Expansion, t: Transaction, ds: seq<Date>)
    ensures RecordAll(e, t, ds).Ok? <==> forall d :: d in ds ==> d in e.buckets
    ensures RecordAll(e, t, ds).Ok? ==> RecordAll(e, t, ds).value.buckets.Keys == e.buckets.Keys
    ensures RecordAll(e, t, ds).Err? ==>
              RecordAll(e, t, ds).error.MissingKey? && RecordAll(e, t, ds).error.date in ds
              && RecordAll(e, t, ds).error.date !in e.buckets
    decreases |ds|
  {
    if ds != [] && ds[0] in e.buckets {
      var e' := Record(e, t, ds[0]).value;
      RecordAllOutcome(e', t, ds[1..]);
      assert ds == [ds[0]] + ds[1..];
      forall d | d in ds[1..]
        ensures d in ds
      {
      }
    }
  }

  /**
   * A successful append along a list extends the bucket of `d` by the
   * transaction once per occurrence of `d`, and its total by those amounts.
   */
  lemma {:induction false} RecordAllAt(e: Expansion, t: Transaction, ds: seq<Date>, d: Date)
    requires RecordAll(e, t, ds).Ok? && d in e.buckets
    ensures d in RecordAll(e, t, ds).value.buckets
    ensures RecordAll(e, t, ds).value.buckets[d] == e.buckets[d] + Repeat(t, Occurrences(ds, d))
    ensures TotalAt(RecordAll(e, t, ds).value.totals, d) == TotalAt(e.totals, d) + SumAmounts(Repeat(t, Occurrences(ds, d)))
    decreases |ds|
  {
    if ds == [] {
      assert e.buckets[d] + [] == e.buckets[d];
    } else {
      var e' := Record(e, t, ds[0]).value;
      RecordAllAt(e', t, ds[1..], d);
      var r := RecordAll(e', t, ds[1..]).value;
      var hit := ds[0] == d;
      AppendedAt(e.buckets[d], e'.buckets[d], r.buckets[d], TotalAt(e.totals, d), TotalAt(e'.totals, d), TotalAt(r.totals, d),
                 t, Occurrences(ds[1..], d), hit);
    }
  }

  /** One more append, on one bucket and its total. */
  lemma AppendedAt(b0: seq<Transaction>, b1: seq<Transaction>, b2: seq<Transaction>, s0: real, s1: real, s2: real,
                   t: Transaction, k: nat, hit: bool)
    requires b1 == b0 + (if hit then [t] else []) && s1 == s0 + (if hit then t.base.amount else 0.0)
    requires b2 == b1 + Repeat(t, k) && s2 == s1 + SumAmounts(Repeat(t, k))
    ensures var n := if hit then k + 1 else k;
            b2 == b0 + Repeat(t, n) && s2 == s0 + SumAmounts(Repeat(t, n))
  {
    if hit {
      RepeatCons(t, k);
      assert b2 == b0 + ([t] + Repeat(t, k));
    } else {
      assert b1 == b0;
    }
  }

  /** What one transaction's expansion does to the map: it fails iff a date has no bucket. */
  lemma ExpandOneOutcome(e: Expansion, t: Transaction, windowStart: Date, windowEnd: Date)
    requires ValidDate(windowStart) && ValidDate(windowEnd)
    ensures ExpandOne(e, t, windowStart, windowEnd).Ok? <==> DatesFit(t, windowStart, windowEnd, e.buckets.Keys)
    ensures ExpandOne(e, t, windowStart, windowEnd).Ok? ==> ExpandOne(e, t, windowStart, windowEnd).value.buckets.Keys == e.buckets.Keys
  {
    if TransactionDates(t, windowStart, windowEnd).Ok? {
      RecordAllOutcome(e, t, TransactionDates(t, windowStart, windowEnd).value);
    }
  }

  /** All of a transaction's dates parse and have a bucket among `keys`. */
  predicate DatesFit(t: Transaction, windowStart: Date, windowEnd: Date, keys: set<Date>)
    requires ValidDate(windowStart) && ValidDate(windowEnd)
  {
    TransactionDates(t, windowStart, windowEnd).Ok?
    && forall d :: d in TransactionDates(t, windowStart, windowEnd).value ==> d in keys
  }

  /** Every transaction of the list fits. */
  predicate AllFit(ts: seq<Transaction>, windowStart: Date, windowEnd: Date, keys: set<Date>)
    requires ValidDate(windowStart) && ValidDate(windowEnd)
  {
    forall i :: 0 <= i < |ts| ==> DatesFit(ts[i], windowStart, windowEnd, keys)
  }

  /**
   * Over a map with a bucket for every day of the window, only a semi-monthly
   * transaction can raise KeyError, and only for a date past the window end.
   */
  lemma MissingKeyOnlyPastWindow(e: Expansion, t: Transaction, windowStart: Date, windowEnd: Date)
    requires ValidDate(windowStart) && ValidDate(windowEnd)
    requires forall d :: ValidDate(d) && InInterval(d, windowStart, windowEnd) ==> d in e.buckets
    requires ExpandOne(e, t, windowStart, windowEnd).Err?
    requires ExpandOne(e, t, windowStart, windowEnd).error.MissingKey?
    ensures t.base.frequency == SemiMonthly
    ensures Lt(windowEnd, ExpandOne(e, t, windowStart, windowEnd).error.date)
  {
    var r := TransactionDates(t, windowStart, windowEnd);
    var before := DatesBeforeError(t, windowStart, windowEnd);
    RecordAllOutcome(e, t, before);
    assert RecordAll(e, t, before).Ok?;
    assert r.Ok?;
    var ds := r.value;
    assert ExpandOne(e, t, windowStart, windowEnd) == RecordAll(e, t, ds);
    RecordAllOutcome(e, t, ds);
    var k := RecordAll(e, t, ds).error.date;
    assert k in ds && k !in e.buckets;
    TransactionDatesBounds(t, windowStart, windowEnd);
    assert ValidDate(k) && Le(windowStart, k);
    assert !Le(k, windowEnd);
  }

  // ---------------------------------------------------------------------------
  // All transactions

  /**
   * What the call appends to the bucket of `d`: the transactions in input
   * order, each as often as it occurs on `d`.
   */
  function Contribution(ts: seq<Transaction>, windowStart: Date, windowEnd: Date, d: Date): seq<Transaction>
    requires ValidDate(windowStart) && ValidDate(windowEnd)
    decreases |ts|
  {
    if ts == [] then []
    else
      (match TransactionDates(ts[0], windowStart, windowEnd)
       case Ok(ds) => Repeat(ts[0], Occurrences(ds, d))
       case Err(_) => [])
      + Contribution(ts[1..], windowStart, windowEnd, d)
  }

  /** After the whole call the bucket of `d` is extended by its contribution, and its total by the contribution's amounts. */
  lemma {:induction false} ExpandAllAt(e: Expansion, ts: seq<Transaction>, windowStart: Date, windowEnd: Date, d: Date)
    requires ValidDate(windowStart) && ValidDate(windowEnd)
    requires ExpandAll(e, ts, windowStart, windowEnd).Ok? && d in e.buckets
    ensures d in ExpandAll(e, ts, windowStart, windowEnd).value.buckets
    ensures ExpandAll(e, ts, windowStart, windowEnd).value.buckets[d] == e.buckets[d] + Contribution(ts, windowStart, windowEnd, d)
    ensures TotalAt(ExpandAll(e, ts, windowStart, windowEnd).value.totals, d)
         == TotalAt(e.totals, d) + SumAmounts(Contribution(ts, windowStart, windowEnd, d))
    decreases |ts|
  {
    if ts == [] {
      assert e.buckets[d] + [] == e.buckets[d];
    } else {
      var ds := TransactionDates(ts[0], windowStart, windowEnd).value;
      var e' := ExpandOne(e, ts[0], windowStart, windowEnd).value;
      RecordAllAt(e, ts[0], ds, d);
      ExpandAllAt(e', ts[1..], windowStart, windowEnd, d);
      var r := ExpandAll(e', ts[1..], windowStart, windowEnd).value;
      var head := Repeat(ts[0], Occurrences(ds, d));
      var tail := Contribution(ts[1..], windowStart, windowEnd, d);
      assert Contribution(ts, windowStart, windowEnd, d) == head + tail;
      ConcatAt(e.buckets[d], e'.buckets[d], r.buckets[d], TotalAt(e.totals, d), TotalAt(e'.totals, d), TotalAt(r.totals, d), head, tail);
    }
  }

  /** Two appends in a row, on one bucket and its total. */
  lemma ConcatAt(b0: seq<Transaction>, b1: seq<Transaction>, b2: seq<Transaction>, s0: real, s1: real, s2: real,
                 head: seq<Transaction>, tail: seq<Transaction>)
    requires b1 == b0 + head && s1 == s0 + SumAmounts(head)
    requires b2 == b1 + tail && s2 == s1 + SumAmounts(tail)
    ensures b2 == b0 + (head + tail) && s2 == s0 + SumAmounts(head + tail)
  {
    SumAmountsAppend(head, tail);
  }

  /** The call succeeds iff every transaction's dates parse and have buckets. */
  lemma {:induction false} ExpandAllOutcome(e: Expansion, ts: seq<Transaction>, windowStart: Date, windowEnd: Date)
    requires ValidDate(windowStart) && ValidDate(windowEnd)
    ensures ExpandAll(e, ts, windowStart, windowEnd).Ok? <==> AllFit(ts, windowStart, windowEnd, e.buckets.Keys)
    decreases |ts|
  {
    if ts != [] {
      var first := ExpandOne(e, ts[0], windowStart, windowEnd);
      ExpandOneOutcome(e, ts[0], windowStart, windowEnd);
      AllFitCons(ts, windowStart, windowEnd, e.buckets.Keys);
      if first.Ok? {
        var e' := first.value;
        assert ExpandAll(e, ts, windowStart, windowEnd) == ExpandAll(e', ts[1..], windowStart, windowEnd);
        ExpandAllOutcome(e', ts[1..], windowStart, windowEnd);
        assert e'.buckets.Keys == e.buckets.Keys;
      } else {
        assert ExpandAll(e, ts, windowStart, windowEnd).Err?;
      }
    }
  }

  lemma AllFitCons(ts: seq<Transaction>, windowStart: Date, windowEnd: Date, keys: set<Date>)
    requires ValidDate(windowStart) && ValidDate(windowEnd) && ts != []
    ensures AllFit(ts, windowStart, windowEnd, keys)
        <==> DatesFit(ts[0], windowStart, windowEnd, keys) && AllFit(ts[1..], windowStart, windowEnd, keys)
  {
    assert forall i :: 1 <= i < |ts| ==> ts[i] == ts[1..][i - 1];
  }

  /**
   * calculate_recurring_dates from an empty totals map: the total of each
   * date is the sum of the amounts appended to its bucket during the call.
   */
  lemma RecurringDatesTotals(ts: seq<Transaction>, buckets: map<Date, seq<Transaction>>, windowStart: Date, windowEnd: Date, d: Date)
    requires ValidDate(windowStart) && ValidDate(windowEnd)
    requires ExpandAll(Expansion(map[], buckets), ts, windowStart, windowEnd).Ok? && d in buckets
    ensures var r := ExpandAll(Expansion(map[], buckets), ts, windowStart, windowEnd).value;
            d in r.buckets
            && r.buckets[d] == buckets[d] + Contribution(ts, windowStart, windowEnd, d)
            && TotalAt(r.totals, d) == SumAmounts(Contribution(ts, windowStart, windowEnd, d))
  {
    ExpandAllAt(Expansion(map[], buckets), ts, windowStart, windowEnd, d);
  }
}
