/**
 * The recurrence expander (MainService.calculate_recurring_dates): every
 * transaction is turned into the dates it occurs on inside the window, and is
 * appended to those dates' buckets of the dense occurrence map while a sum of
 * amounts per date is kept beside it.
 *
 * The functions here give the specification: TransactionDates lists a
 * transaction's dates in the order the source visits them, RecordAll appends
 * along such a list, ExpandAll folds over the transactions. The methods are
 * the source's loops, proved to compute the same.
 */
module Recurrence {
  import opened Wrappers
  import opened Calendar
  import opened DateFormat
  import opened TransactionModel
  import opened Sequences

  /** What the source raises. */
  datatype Error =
    | MalformedDate(field: string)   // ValueError from strptime
    | MissingField(field: string)    // TypeError or AttributeError on a None field
    | MissingKey(date: Date)         // KeyError: a date outside the dense occurrence map

  /** transaction_dates (date -> summed amount) and recurring_transactions (date -> bucket). */
  datatype Expansion = Expansion(totals: map<Date, real>, buckets: map<Date, seq<Transaction>>)

  /** The window is fixed by the clock reading `today`: [today - 30 days, today + 210 days]. */
  function WindowStart(today: Date): (d: Date)
    requires ValidDate(today)
    ensures ValidDate(d)
  {
    AddDays(today, -30)
  }

  function WindowEnd(today: Date): (d: Date)
    requires ValidDate(today)
    ensures ValidDate(d)
  {
    AddDays(today, 210)
  }

  /** The window always has 241 days. */
  lemma WindowLength(today: Date)
    requires ValidDate(today)
    ensures |Span(WindowStart(today), WindowEnd(today))| == 241
  {
    AddDaysOrdinal(today, -30);
    AddDaysOrdinal(today, 210);
    OrdinalMonotoneLe(WindowStart(today), WindowEnd(today));
    SpanIndex(WindowStart(today), WindowEnd(today));
  }

  lemma OrdinalMonotoneLe(a: Date, b: Date)
    requires ValidDate(a) && ValidDate(b) && Ordinal(a) < Ordinal(b)
    ensures Le(a, b)
  {
    if Lt(b, a) {
      OrdinalMonotone(b, a);
    }
  }

  // ---------------------------------------------------------------------------
  // Fields

  /** parse_date on an optional field: absent or empty gives None, a bad string raises. */
  function ParseField(s: Option<string>, field: string): (r: Result<Option<Date>, Error>)
    ensures r.Ok? && r.value.Some? ==> ValidDate(r.value.value)
    ensures r.Ok? <==> !IsGiven(s) || ParseDate(s.value).Some?
    ensures r.Ok? ==> (r.value.Some? <==> IsGiven(s))
  {
    if !IsGiven(s) then Ok(None)
    else match ParseDate(s.value)
      case Some(d) => Ok(Some(d))
      case None => Err(MalformedDate(field))
  }

  /** start_date if given, else date_of_transaction. */
  function EffectiveStart(t: Transaction): (r: Result<Option<Date>, Error>)
    ensures r.Ok? && r.value.Some? ==> ValidDate(r.value.value)
  {
    if IsGiven(t.base.startDate) then ParseField(t.base.startDate, "start_date")
    else ParseField(t.base.dateOfTransaction, "date_of_transaction")
  }

  /** The window end if skip_end_date is set, else end_date if given, else date_of_transaction. */
  function EffectiveEnd(t: Transaction, windowEnd: Date): (r: Result<Option<Date>, Error>)
    requires ValidDate(windowEnd)
    ensures r.Ok? && r.value.Some? ==> ValidDate(r.value.value)
  {
    if IsSet(t.base.skipEndDate) then Ok(Some(windowEnd))
    else if IsGiven(t.base.endDate) then ParseField(t.base.endDate, "end_date")
    else ParseField(t.base.dateOfTransaction, "date_of_transaction")
  }

  /**
   * The days the weekly anchor moves from weekday `w` to weekday `target`
   * (mod 7): none when they are equal, forward when that is at most 3 days,
   * otherwise backward.
   */
  function AnchorShift(w: int, target: int): int
  {
    if w == target then 0
    else
      var diff := (target - w) % 7;
      if diff > 3 then diff - 7 else diff
  }

  /** The weekly anchor: the start date moved to the weekday `day - 1` (Monday is 0). */
  function WeeklyAnchor(start: Date, day: int): (r: Date)
    requires ValidDate(start)
    ensures ValidDate(r)
  {
    AddDays(start, AnchorShift(Weekday(start), day - 1))
  }

  /** The anchor has the target weekday and lies at most 3 days from the start date. */
  lemma WeeklyAnchorLaws(start: Date, day: int)
    requires ValidDate(start)
    ensures Weekday(WeeklyAnchor(start, day)) == (day - 1) % 7
    ensures -3 <= Ordinal(WeeklyAnchor(start, day)) - Ordinal(start) <= 3
  {
    var w := Weekday(start);
    var shift := AnchorShift(w, day - 1);
    var a := AddDays(start, shift);
    assert WeeklyAnchor(start, day) == a;
    NearestWeekdayShift(w, day - 1);
    WeekdayAddDays(start, shift);
    AnchorDistance(start, shift);
  }

  /** For the documented weekdays 1 (Monday) .. 7 (Sunday), the anchor falls on weekday `day - 1`. */
  lemma WeeklyAnchorOnDay(start: Date, day: int)
    requires ValidDate(start) && 1 <= day <= 7
    ensures Weekday(WeeklyAnchor(start, day)) == day - 1
  {
    WeeklyAnchorLaws(start, day);
    ModOfSmall(day - 1, Weekday(WeeklyAnchor(start, day)));
  }

  lemma ModOfSmall(x: int, r: int)
    requires 0 <= x < 7 && r == x % 7
    ensures r == x
  {
  }

  lemma AnchorDistance(start: Date, shift: int)
    requires ValidDate(start) && -3 <= shift <= 3
    ensures -3 <= Ordinal(AddDays(start, shift)) - Ordinal(start) <= 3
  {
    AddDaysOrdinal(start, shift);
  }

  /** The shift of the weekly anchor, on weekday numbers alone. */
  lemma NearestWeekdayShift(w: int, target: int)
    requires 0 <= w < 7
    ensures -3 <= AnchorShift(w, target) <= 3 && (w + AnchorShift(w, target)) % 7 == target % 7
  {
    if w == target {
      return;
    }
    var diff := (target - w) % 7;
    var q := (target - w) / 7;
    assert target - w == 7 * q + diff;
    var k := if diff > 3 then -q - 1 else -q;
    ModShift(k, target);
  }

  /** Wednesday (day 3) from a Monday start: two days later. */
  lemma WeeklyAnchorFromMonday(monday: Date)
    requires ValidDate(monday) && Weekday(monday) == 0
    ensures Ordinal(WeeklyAnchor(monday, 3)) == Ordinal(monday) + 2
  {
    AddDaysOrdinal(monday, 2);
  }

  // ---------------------------------------------------------------------------
  // The dates each loop visits and includes

  predicate Included(d: Date, windowStart: Date, endDate: Date)
  {
    Le(windowStart, d) && Le(d, endDate)
  }

  /** Weekly and bi-weekly: from `current` in steps of `step` days while on or before the window end. */
  function StepDates(current: Date, step: int, windowStart: Date, endDate: Date, windowEnd: Date): (ds: seq<Date>)
    requires ValidDate(current) && ValidDate(windowEnd) && step > 0
    ensures forall i :: 0 <= i < |ds| ==> ValidDate(ds[i])
    decreases Key(windowEnd) - Key(current)
  {
    KeyOrder(current, windowEnd);
    if !Le(current, windowEnd) then []
    else (if Included(current, windowStart, endDate) then [current] else [])
         + StepDates(AddDays(current, step), step, windowStart, endDate, windowEnd)
  }

  /** Monthly: from `current`, each next date re-derived from the anchor `original`. */
  function MonthlyDates(original: Date, current: Date, windowStart: Date, endDate: Date, windowEnd: Date): (ds: seq<Date>)
    requires ValidDate(original) && ValidDate(current) && ValidDate(windowEnd)
    ensures forall i :: 0 <= i < |ds| ==> ValidDate(ds[i])
    decreases MonthIndex(windowEnd) - MonthIndex(current)
  {
    KeyOrder(current, windowEnd);
    if !Le(current, windowEnd) then []
    else (if Included(current, windowStart, endDate) then [current] else [])
         + MonthlyDates(original, AddMonthIfPossible(original, current), windowStart, endDate, windowEnd)
  }

  /**
   * Semi-monthly: two dates advanced together by add_months(·, 1) while either
   * is on or before the window end; each is included on its own test, first
   * before second. The test is against end_date only, not the window end.
   */
  function SemiMonthlyDates(first: Date, second: Date, windowStart: Date, endDate: Date, windowEnd: Date): (ds: seq<Date>)
    requires ValidDate(first) && ValidDate(second) && ValidDate(windowEnd)
    decreases MonthIndex(windowEnd) - Min(MonthIndex(first), MonthIndex(second))
  {
    KeyOrder(first, windowEnd);
    KeyOrder(second, windowEnd);
    if !(Le(first, windowEnd) || Le(second, windowEnd)) then []
    else (if Included(first, windowStart, endDate) then [first] else [])
         + (if Included(second, windowStart, endDate) then [second] else [])
         + SemiMonthlyDates(AddMonths(first, 1), AddMonths(second, 1), windowStart, endDate, windowEnd)
  }

  lemma SemiMonthlyUnfold(first: Date, second: Date, windowStart: Date, endDate: Date, windowEnd: Date)
    requires ValidDate(first) && ValidDate(second) && ValidDate(windowEnd)
    requires Le(first, windowEnd) || Le(second, windowEnd)
    ensures SemiMonthlyDates(first, second, windowStart, endDate, windowEnd)
         == (if Included(first, windowStart, endDate) then [first] else [])
            + ((if Included(second, windowStart, endDate) then [second] else [])
               + SemiMonthlyDates(AddMonths(first, 1), AddMonths(second, 1), windowStart, endDate, windowEnd))
  {
    var a := if Included(first, windowStart, endDate) then [first] else [];
    var b := if Included(second, windowStart, endDate) then [second] else [];
    var rest := SemiMonthlyDates(AddMonths(first, 1), AddMonths(second, 1), windowStart, endDate, windowEnd);
    assert SemiMonthlyDates(first, second, windowStart, endDate, windowEnd) == (a + b) + rest;
    AppendAssoc(a, b, rest);
  }

  /**
   * The dates one transaction is appended to, in the order the source appends,
   * or the exception it raises before appending anything. The checks come in
   * the source's order: start, end, the overlap test (which compares the end
   * first), then the fields of the frequency's branch.
   */
  function TransactionDates(t: Transaction, windowStart: Date, windowEnd: Date): (r: Result<seq<Date>, Error>)
    requires ValidDate(windowStart) && ValidDate(windowEnd)
    ensures r.Err? ==> !r.error.MissingKey?
  {
    var start :- EffectiveStart(t);
    var end :- EffectiveEnd(t, windowEnd);
    if end.None? then Err(MissingField("end_date"))
    else if start.None? then
      (if Le(windowStart, end.value) then Err(MissingField("start_date")) else Ok([]))
    else if !IsWithinDateRange(start.value, end.value, windowStart, windowEnd) then Ok([])
    else match t.base.frequency
      case OneTime =>
        var d :- ParseField(t.base.dateOfTransaction, "date_of_transaction");
        if d.None? then Err(MissingField("date_of_transaction"))
        else Ok(if Le(windowStart, d.value) && Le(d.value, windowEnd) then [d.value] else [])
      case Weekly => WeeklyDates(t, 7, windowStart, end.value, windowEnd)
      case BiWeekly => WeeklyDates(t, 14, windowStart, end.value, windowEnd)
      case SemiMonthly =>
        var first :- ParseField(t.base.dateOfTransaction, "date_of_transaction");
        var second :- ParseField(t.base.dateOfSecondTransaction, "date_of_second_transaction");
        if first.None? then Err(MissingField("date_of_transaction"))
        else if second.None? then Err(MissingField("date_of_second_transaction"))
        else Ok(SemiMonthlyDates(first.value, second.value, windowStart, end.value, windowEnd))
      case Monthly =>
        var first :- ParseField(t.base.dateOfTransaction, "date_of_transaction");
        if first.None? then Err(MissingField("date_of_transaction"))
        else Ok(MonthlyDates(first.value, first.value, windowStart, end.value, windowEnd))
  }

  /**
   * The appends the source makes before it raises. Only one case has any: a
   * semi-monthly transaction without a second date still passes the loop test
   * on its first date (the `or` short-circuits) and appends that date when it
   * is included, before comparing the missing second date raises TypeError.
   */
  function DatesBeforeError(t: Transaction, windowStart: Date, windowEnd: Date): (ds: seq<Date>)
    requires ValidDate(windowStart) && ValidDate(windowEnd)
    ensures |ds| <= 1
    ensures ds != [] ==> t.base.frequency == SemiMonthly
                         && TransactionDates(t, windowStart, windowEnd) == Err(MissingField("date_of_second_transaction"))
    ensures forall d :: d in ds ==> InInterval(d, windowStart, windowEnd)
    // the one date is the parsed date_of_transaction, and it passed the loop test and the inclusion test
    ensures ds != [] ==>
              ParseField(t.base.dateOfTransaction, "date_of_transaction") == Ok(Some(ds[0]))
              && EffectiveEnd(t, windowEnd).Ok? && EffectiveEnd(t, windowEnd).value.Some?
              && Le(ds[0], windowEnd) && Included(ds[0], windowStart, EffectiveEnd(t, windowEnd).value.value)
    // conversely, such a first date is always appended
    ensures t.base.frequency == SemiMonthly
            && TransactionDates(t, windowStart, windowEnd) == Err(MissingField("date_of_second_transaction"))
            && ParseField(t.base.dateOfTransaction, "date_of_transaction").Ok?
            && ParseField(t.base.dateOfTransaction, "date_of_transaction").value.Some?
            && EffectiveEnd(t, windowEnd).Ok? && EffectiveEnd(t, windowEnd).value.Some?
            && Le(ParseField(t.base.dateOfTransaction, "date_of_transaction").value.value, windowEnd)
            && Included(ParseField(t.base.dateOfTransaction, "date_of_transaction").value.value,
                        windowStart, EffectiveEnd(t, windowEnd).value.value)
            ==> ds == [ParseField(t.base.dateOfTransaction, "date_of_transaction").value.value]
  {
    var end := EffectiveEnd(t, windowEnd);
    var first := ParseField(t.base.dateOfTransaction, "date_of_transaction");
    if t.base.frequency == SemiMonthly
       && TransactionDates(t, windowStart, windowEnd) == Err(MissingField("date_of_second_transaction"))
       && end.Ok? && end.value.Some? && first.Ok? && first.value.Some?
       && Le(first.value.value, windowEnd) && Included(first.value.value, windowStart, end.value.value)
    then [first.value.value]
    else []
  }

  /** The weekly and bi-weekly branch: `day` is read before the start date is used. */
  function WeeklyDates(t: Transaction, step: int, windowStart: Date, endDate: Date, windowEnd: Date): Result<seq<Date>, Error>
    requires ValidDate(windowEnd) && step > 0
  {
    var start :- ParseField(t.base.startDate, "start_date");
    if t.base.day.None? then Err(MissingField("day"))
    else if start.None? then Err(MissingField("start_date"))
    else Ok(StepDates(WeeklyAnchor(start.value, t.base.day.value), step, windowStart, endDate, windowEnd))
  }

  // ---------------------------------------------------------------------------
  // Appending to the occurrence map

  function TotalAt(totals: map<Date, real>, d: Date): real
  {
    if d in totals then totals[d] else 0.0
  }

  /** One append: the date's total grows by the amount, its bucket by the transaction; a missing bucket raises KeyError. */
  function Record(e: Expansion, t: Transaction, d: Date): (r: Result<Expansion, Error>)
    ensures r.Ok? <==> d in e.buckets
    ensures r.Ok? ==> r.value.buckets.Keys == e.buckets.Keys
  {
    if d in e.buckets then
      Ok(Expansion(e.totals[d := TotalAt(e.totals, d) + t.base.amount], e.buckets[d := e.buckets[d] + [t]]))
    else Err(MissingKey(d))
  }

  function RecordAll(e: Expansion, t: Transaction, ds: seq<Date>): Result<Expansion, Error>
    decreases |ds|
  {
    if ds == [] then Ok(e)
    else
      var e' :- Record(e, t, ds[0]);
      RecordAll(e', t, ds[1..])
  }

  lemma RecordAllCons(e: Expansion, t: Transaction, d: Date, ds: seq<Date>)
    ensures RecordAll(e, t, [d] + ds)
         == if d in e.buckets then RecordAll(Record(e, t, d).value, t, ds) else Err(MissingKey(d))
  {
    assert ([d] + ds)[1..] == ds;
  }

  function ExpandOne(e: Expansion, t: Transaction, windowStart: Date, windowEnd: Date): Result<Expansion, Error>
    requires ValidDate(windowStart) && ValidDate(windowEnd)
  {
    var dates := TransactionDates(t, windowStart, windowEnd);
    if dates.Ok? then RecordAll(e, t, dates.value)
    else
      var e' :- RecordAll(e, t, DatesBeforeError(t, windowStart, windowEnd));
      Err(dates.error)
  }

  /** The whole call: the transactions in input order. */
  function ExpandAll(e: Expansion, ts: seq<Transaction>, windowStart: Date, windowEnd: Date): Result<Expansion, Error>
    requires ValidDate(windowStart) && ValidDate(windowEnd)
    decreases |ts|
  {
    if ts == [] then Ok(e)
    else
      var e' :- ExpandOne(e, ts[0], windowStart, windowEnd);
      ExpandAll(e', ts[1..], windowStart, windowEnd)
  }

  // ---------------------------------------------------------------------------
  // The loops of calculate_recurring_dates

  method ExpandStepping(e0: Expansion, t: Transaction, first: Date, step: int,
                        windowStart: Date, endDate: Date, windowEnd: Date) returns (r: Result<Expansion, Error>)
    requires ValidDate(first) && ValidDate(windowEnd) && step > 0
    ensures r == RecordAll(e0, t, StepDates(first, step, windowStart, endDate, windowEnd))
  {
    var e := e0;
    var current := first;
    while Le(current, windowEnd)
      invariant ValidDate(current)
      invariant RecordAll(e, t, StepDates(current, step, windowStart, endDate, windowEnd))
             == RecordAll(e0, t, StepDates(first, step, windowStart, endDate, windowEnd))
      decreases Key(windowEnd) - Key(current)
    {
      KeyOrder(current, windowEnd);
      ghost var rest := StepDates(AddDays(current, step), step, windowStart, endDate, windowEnd);
      if Included(current, windowStart, endDate) {
        assert StepDates(current, step, windowStart, endDate, windowEnd) == [current] + rest;
        RecordAllCons(e, t, current, rest);
        e :- Record(e, t, current);
      } else {
        assert StepDates(current, step, windowStart, endDate, windowEnd) == rest;
      }
      current := AddDays(current, step);
    }
    return Ok(e);
  }

  method ExpandMonthly(e0: Expansion, t: Transaction, original: Date,
                       windowStart: Date, endDate: Date, windowEnd: Date) returns (r: Result<Expansion, Error>)
    requires ValidDate(original) && ValidDate(windowEnd)
    ensures r == RecordAll(e0, t, MonthlyDates(original, original, windowStart, endDate, windowEnd))
  {
    var e := e0;
    var current := original;
    while Le(current, windowEnd)
      invariant ValidDate(current)
      invariant RecordAll(e, t, MonthlyDates(original, current, windowStart, endDate, windowEnd))
             == RecordAll(e0, t, MonthlyDates(original, original, windowStart, endDate, windowEnd))
      decreases MonthIndex(windowEnd) - MonthIndex(current)
    {
      KeyOrder(current, windowEnd);
      ghost var rest := MonthlyDates(original, AddMonthIfPossible(original, current), windowStart, endDate, windowEnd);
      if Included(current, windowStart, endDate) {
        assert MonthlyDates(original, current, windowStart, endDate, windowEnd) == [current] + rest;
        RecordAllCons(e, t, current, rest);
        e :- Record(e, t, current);
      } else {
        assert MonthlyDates(original, current, windowStart, endDate, windowEnd) == rest;
      }
      current := AddMonthIfPossible(original, current);
    }
    return Ok(e);
  }

  /** One guarded append of the semi-monthly loop, proved against the appends still to come. */
  method RecordWhen(e: Expansion, t: Transaction, d: Date, taken: bool, ghost rest: seq<Date>)
    returns (r: Result<Expansion, Error>)
    ensures r.Ok? ==> RecordAll(e, t, (if taken then [d] else []) + rest) == RecordAll(r.value, t, rest)
    ensures r.Err? ==> RecordAll(e, t, (if taken then [d] else []) + rest) == r
  {
    if taken {
      RecordAllCons(e, t, d, rest);
      r := Record(e, t, d);
    } else {
      assert [] + rest == rest;
      r := Ok(e);
    }
  }

  method ExpandSemiMonthly(e0: Expansion, t: Transaction, first0: Date, second0: Date,
                           windowStart: Date, endDate: Date, windowEnd: Date) returns (r: Result<Expansion, Error>)
    requires ValidDate(first0) && ValidDate(second0) && ValidDate(windowEnd)
    ensures r == RecordAll(e0, t, SemiMonthlyDates(first0, second0, windowStart, endDate, windowEnd))
  {
    var e := e0;
    var first, second := first0, second0;
    while Le(first, windowEnd) || Le(second, windowEnd)
      invariant ValidDate(first) && ValidDate(second)
      invariant RecordAll(e, t, SemiMonthlyDates(first, second, windowStart, endDate, windowEnd))
             == RecordAll(e0, t, SemiMonthlyDates(first0, second0, windowStart, endDate, windowEnd))
      decreases MonthIndex(windowEnd) - Min(MonthIndex(first), MonthIndex(second))
    {
      KeyOrder(first, windowEnd);
      KeyOrder(second, windowEnd);
      ghost var rest := SemiMonthlyDates(AddMonths(first, 1), AddMonths(second, 1), windowStart, endDate, windowEnd);
      ghost var b := if Included(second, windowStart, endDate) then [second] else [];
      SemiMonthlyUnfold(first, second, windowStart, endDate, windowEnd);
      var r1 := RecordWhen(e, t, first, Included(first, windowStart, endDate), b + rest);
      if r1.Err? {
        return r1;
      }
      e := r1.value;
      var r2 := RecordWhen(e, t, second, Included(second, windowStart, endDate), rest);
      if r2.Err? {
        return r2;
      }
      e := r2.value;
      first, second := AddMonths(first, 1), AddMonths(second, 1);
    }
    return Ok(e);
  }

  /** The body of the source's loop over transactions, for one transaction. */
  method ExpandTransaction(e: Expansion, t: Transaction, windowStart: Date, windowEnd: Date) returns (r: Result<Expansion, Error>)
    requires ValidDate(windowStart) && ValidDate(windowEnd)
    ensures r == ExpandOne(e, t, windowStart, windowEnd)
  {
    var start :- EffectiveStart(t);
    var end :- EffectiveEnd(t, windowEnd);
    if end.None? {
      return Err(MissingField("end_date"));
    }
    if start.None? {
      if Le(windowStart, end.value) {
        return Err(MissingField("start_date"));
      }
      return Ok(e);
    }
    if !IsWithinDateRange(start.value, end.value, windowStart, windowEnd) {
      return Ok(e);
    }
    match t.base.frequency {
      case OneTime =>
        var d :- ParseField(t.base.dateOfTransaction, "date_of_transaction");
        if d.None? {
          return Err(MissingField("date_of_transaction"));
        }
        if Le(windowStart, d.value) && Le(d.value, windowEnd) {
          RecordAllCons(e, t, d.value, []);
          assert [d.value] + [] == [d.value];
          r := Record(e, t, d.value);
        } else {
          r := Ok(e);
        }
      case Weekly =>
        r := ExpandWeekly(e, t, 7, windowStart, end.value, windowEnd);
      case BiWeekly =>
        r := ExpandWeekly(e, t, 14, windowStart, end.value, windowEnd);
      case SemiMonthly =>
        var first :- ParseField(t.base.dateOfTransaction, "date_of_transaction");
        var second :- ParseField(t.base.dateOfSecondTransaction, "date_of_second_transaction");
        if first.None? {
          return Err(MissingField("date_of_transaction"));
        }
        if second.None? {
          assert TransactionDates(t, windowStart, windowEnd) == Err(MissingField("date_of_second_transaction"));
          ghost var before := DatesBeforeError(t, windowStart, windowEnd);
          if Le(first.value, windowEnd) && Included(first.value, windowStart, end.value) {
            assert before == [first.value] + [];
            RecordAllCons(e, t, first.value, []);
            var e' :- Record(e, t, first.value);
          } else {
            assert before == [];
          }
          return Err(MissingField("date_of_second_transaction"));
        }
        r := ExpandSemiMonthly(e, t, first.value, second.value, windowStart, end.value, windowEnd);
      case Monthly =>
        var first :- ParseField(t.base.dateOfTransaction, "date_of_transaction");
        if first.None? {
          return Err(MissingField("date_of_transaction"));
        }
        r := ExpandMonthly(e, t, first.value, windowStart, end.value, windowEnd);
    }
  }

  method ExpandWeekly(e: Expansion, t: Transaction, step: int, windowStart: Date, endDate: Date, windowEnd: Date)
    returns (r: Result<Expansion, Error>)
    requires ValidDate(windowEnd) && step > 0
    ensures WeeklyDates(t, step, windowStart, endDate, windowEnd).Err? ==>
              r == Err(WeeklyDates(t, step, windowStart, endDate, windowEnd).error)
    ensures WeeklyDates(t, step, windowStart, endDate, windowEnd).Ok? ==>
              r == RecordAll(e, t, WeeklyDates(t, step, windowStart, endDate, windowEnd).value)
  {
    var start :- ParseField(t.base.startDate, "start_date");
    if t.base.day.None? {
      return Err(MissingField("day"));
    }
    if start.None? {
      return Err(MissingField("start_date"));
    }
    var first := WeeklyAnchor(start.value, t.base.day.value);
    r := ExpandStepping(e, t, first, step, windowStart, endDate, windowEnd);
  }

  /**
   * calculate_recurring_dates(transactions, recurring_transactions) with the
   * clock reading `today`: the totals start empty, the buckets are the
   * caller's map.
   */
  method CalculateRecurringDates(transactions: seq<Transaction>, buckets: map<Date, seq<Transaction>>, today: Date)
    returns (r: Result<Expansion, Error>)
    requires ValidDate(today)
    ensures r == ExpandAll(Expansion(map[], buckets), transactions, WindowStart(today), WindowEnd(today))
  {
    var windowStart, windowEnd := WindowStart(today), WindowEnd(today);
    var e := Expansion(map[], buckets);
    for i := 0 to |transactions|
      invariant ExpandAll(e, transactions[i..], windowStart, windowEnd)
             == ExpandAll(Expansion(map[], buckets), transactions, windowStart, windowEnd)
    {
      assert transactions[i..][1..] == transactions[i + 1..];
      e :- ExpandTransaction(e, transactions[i], windowStart, windowEnd);
    }
    return Ok(e);
  }
}
