/**
 * MainService: the per-user object that splits the user's transactions by
 * type, expands them over the window [today - 30 days, today + 210 days]
 * into one bucket per day, and runs the ledger simulator over that window.
 */
module Service {
  import opened Wrappers
  import opened Calendar
  import opened DateFormat
  import opened TransactionModel
  import opened Recurrence
  import opened RecurrenceLaws
  import opened Finances

  /** The transactions of `ts` of type `k`, in input order. */
  function OfType(ts: seq<Transaction>, k: TransactionType): (r: seq<Transaction>)
    ensures forall i :: 0 <= i < |r| ==> r[i].base.transactionType == k && r[i] in ts
    decreases |ts|
  {
    if ts == [] then []
    else
      var last := ts[|ts| - 1];
      OfType(ts[..|ts| - 1], k) + (if last.base.transactionType == k then [last] else [])
  }

  /**
   * Splitting by type keeps the input order: the income and the expense list
   * interleave the input.
   */
  lemma {:induction false} SeparateInterleaves(ts: seq<Transaction>)
    ensures Interleaves(ts, OfType(ts, Income), OfType(ts, Expense))
    decreases |ts|
  {
    if ts != [] {
      var n := |ts| - 1;
      var last := ts[n];
      SeparateInterleaves(ts[..n]);
      var inc, exp := OfType(ts, Income), OfType(ts, Expense);
      if last.base.transactionType == Income {
        assert inc[..|inc| - 1] == OfType(ts[..n], Income);
        assert exp == OfType(ts[..n], Expense);
      } else {
        assert exp[..|exp| - 1] == OfType(ts[..n], Expense);
        assert inc == OfType(ts[..n], Income);
      }
    }
  }

  /** Splitting by type loses and invents nothing: the two lists together hold the input's transactions. */
  lemma SeparatePartition(ts: seq<Transaction>)
    ensures multiset(ts) == multiset(OfType(ts, Income)) + multiset(OfType(ts, Expense))
    ensures |OfType(ts, Income)| + |OfType(ts, Expense)| == |ts|
  {
    SeparateInterleaves(ts);
    InterleavesPartition(ts, OfType(ts, Income), OfType(ts, Expense));
  }

  /** Filtering distributes over concatenation, so separating twice appends twice. */
  lemma {:induction false} OfTypeAppend(a: seq<Transaction>, b: seq<Transaction>, k: TransactionType)
    ensures OfType(a + b, k) == OfType(a, k) + OfType(b, k)
    decreases |b|
  {
    if b == [] {
      assert a + b == a;
    } else {
      var n := |b| - 1;
      assert (a + b)[..|a + b| - 1] == a + b[..n];
      OfTypeAppend(a, b[..n], k);
    }
  }

  /** One cell of balance_dict as initialize_balance_dict creates it. */
  datatype BalanceCell = BalanceCell(balance: real, overdraft: Option<real>, canPay: bool)

  /** initialize_balance_dict(start, end): a fresh cell for start + i days, for i in range((end - start).days + 1). */
  function InitializeBalanceDict(start: Date, end: Date): map<Date, BalanceCell>
    requires ValidDate(start) && ValidDate(end)
  {
    map i | 0 <= i < Ordinal(end) - Ordinal(start) + 1 :: AddDays(start, i) := BalanceCell(0.0, None, true)
  }

  /** The dict has a key for exactly the days of [start, end], each holding a zero balance that can pay. */
  lemma BalanceDictAt(start: Date, end: Date, d: Date)
    requires ValidDate(start) && ValidDate(end)
    ensures d in InitializeBalanceDict(start, end) <==> InInterval(d, start, end)
    ensures d in InitializeBalanceDict(start, end) ==> InitializeBalanceDict(start, end)[d] == BalanceCell(0.0, None, true)
  {
    if d in InitializeBalanceDict(start, end) {
      var i :| 0 <= i < Ordinal(end) - Ordinal(start) + 1 && AddDays(start, i) == d;
      OffsetInInterval(start, end, i);
    }
    if InInterval(d, start, end) {
      IntervalHasOffset(start, end, d);
    }
  }

  lemma OffsetInInterval(start: Date, end: Date, i: int)
    requires ValidDate(start) && ValidDate(end) && 0 <= i < Ordinal(end) - Ordinal(start) + 1
    ensures InInterval(AddDays(start, i), start, end)
  {
    var d := AddDays(start, i);
    AddDaysOrdinal(start, i);
    if !Le(start, d) {
      OrdinalMonotone(d, start);
    }
    if !Le(d, end) {
      OrdinalMonotone(end, d);
    }
  }

  lemma IntervalHasOffset(start: Date, end: Date, d: Date)
    requires ValidDate(start) && ValidDate(end) && InInterval(d, start, end)
    ensures d in InitializeBalanceDict(start, end)
  {
    var i := Ordinal(d) - Ordinal(start);
    if d != start {
      OrdinalMonotone(start, d);
    }
    if d != end {
      OrdinalMonotone(d, end);
    }
    AddDaysUnique(start, i, d);
    assert 0 <= i < Ordinal(end) - Ordinal(start) + 1;
  }

  /**
   * convert_balance_keys_to_string: the same dict keyed by the dates
   * rendered as MM-DD-YYYY. Its keys are exactly the renderings of the input's
   * keys, and every entry is kept under its date's rendering.
   */
  method ConvertBalanceKeysToString<V>(balanceDict: map<Date, V>) returns (convertedDict: map<string, V>)
    requires forall d :: d in balanceDict ==> ValidDate(d) && FormattableYear(d)
    ensures convertedDict.Keys == set d | d in balanceDict :: FormatDate(d)
    ensures forall d :: d in balanceDict ==> convertedDict[FormatDate(d)] == balanceDict[d]
  {
    convertedDict := map[];
    var remaining := balanceDict.Keys;
    while remaining != {}
      invariant remaining <= balanceDict.Keys
      invariant convertedDict.Keys == set d | d in balanceDict && d !in remaining :: FormatDate(d)
      invariant forall d :: d in balanceDict && d !in remaining ==> convertedDict[FormatDate(d)] == balanceDict[d]
      decreases |remaining|
    {
      var dateKey :| dateKey in remaining;
      var dateStr := FormatDate(dateKey);
      forall d | d in balanceDict && d !in remaining
        ensures FormatDate(d) != dateStr
      {
        if FormatDate(d) == dateStr {
          FormatInjective(d, dateKey);
        }
      }
      convertedDict := convertedDict[dateStr := balanceDict[dateKey]];
      remaining := remaining - {dateKey};
    }
  }

  /** Each key of the converted dict parses back to the date it was rendered from. */
  lemma ConvertedKeysParse<V>(balanceDict: map<Date, V>, s: string)
    requires forall d :: d in balanceDict ==> ValidDate(d) && FormattableYear(d)
    requires s in set d | d in balanceDict :: FormatDate(d)
    ensures ParseDate(s).Some? && ParseDate(s).value in balanceDict && FormatDate(ParseDate(s).value) == s
  {
    var d :| d in balanceDict && FormatDate(d) == s;
    ParseFormatRoundTrip(d);
  }

  /** {date: [] for date in date_range(start, end)}. */
  function EmptyBuckets(days: seq<Date>): map<Date, seq<Transaction>>
  {
    map d | d in days :: []
  }

  /** The days of the window, as date_range yields them. */
  function WindowDays(today: Date): seq<Date>
    requires ValidDate(today)
  {
    Span(WindowStart(today), WindowEnd(today))
  }

  /** calculate_recurring_dates of `ts` over empty buckets for every day of the window. */
  function Expanded(ts: seq<Transaction>, today: Date): Result<Expansion, Error>
    requires ValidDate(today)
  {
    ExpandAll(Expansion(map[], EmptyBuckets(WindowDays(today))), ts, WindowStart(today), WindowEnd(today))
  }

  /** After a successful expansion, the bucket of each day of the window holds exactly that day's occurrences. */
  lemma ExpandedAt(ts: seq<Transaction>, today: Date, d: Date)
    requires ValidDate(today) && Expanded(ts, today).Ok? && d in WindowDays(today)
    ensures d in Expanded(ts, today).value.buckets
    ensures Get(Expanded(ts, today).value.buckets, d) == Contribution(ts, WindowStart(today), WindowEnd(today), d)
  {
    var e := Expansion(map[], EmptyBuckets(WindowDays(today)));
    ExpandAllAt(e, ts, WindowStart(today), WindowEnd(today), d);
    assert e.buckets[d] == [];
  }

  /**
   * What calculate_balances returns once the transactions are split: the
   * income and then the expense transactions expanded over empty buckets for
   * every day of the window (the first KeyError or unparsable field is the
   * error), then the ledger over the window.
   */
  function Projection(income: seq<Transaction>, expense: seq<Transaction>, today: Date): Result<seq<(string, DayEntry)>, Error>
    requires ValidDate(today) && FormattableYear(WindowStart(today)) && FormattableYear(WindowEnd(today))
  {
    var recurringIncome :- Expanded(income, today);
    var recurringExpense :- Expanded(expense, today);
    SpanFormattable(WindowStart(today), WindowEnd(today));
    Ok(Ledger(recurringIncome.buckets, recurringExpense.buckets, WindowDays(today), 0.0))
  }

  /**
   * The projection succeeds iff every income and every expense transaction
   * has parsable fields and all its dates fall on days of the window.
   */
  lemma ProjectionOutcome(income: seq<Transaction>, expense: seq<Transaction>, today: Date)
    requires ValidDate(today) && FormattableYear(WindowStart(today)) && FormattableYear(WindowEnd(today))
    ensures Projection(income, expense, today).Ok?
        <==> AllFit(income, WindowStart(today), WindowEnd(today), EmptyBuckets(WindowDays(today)).Keys)
             && AllFit(expense, WindowStart(today), WindowEnd(today), EmptyBuckets(WindowDays(today)).Keys)
  {
    ProjectionOk(income, expense, today);
    var e := Expansion(map[], EmptyBuckets(WindowDays(today)));
    ExpandAllOutcome(e, income, WindowStart(today), WindowEnd(today));
    ExpandAllOutcome(e, expense, WindowStart(today), WindowEnd(today));
  }

  lemma ProjectionOk(income: seq<Transaction>, expense: seq<Transaction>, today: Date)
    requires ValidDate(today) && FormattableYear(WindowStart(today)) && FormattableYear(WindowEnd(today))
    ensures Projection(income, expense, today).Ok? <==> Expanded(income, today).Ok? && Expanded(expense, today).Ok?
  {
  }

  /**
   * Over buckets for every day of the window, a KeyError comes only from a
   * semi-monthly transaction, for a date past the window end.
   */
  lemma {:induction false} ExpandAllMissingKey(e: Expansion, ts: seq<Transaction>, windowStart: Date, windowEnd: Date)
    requires ValidDate(windowStart) && ValidDate(windowEnd)
    requires forall d :: ValidDate(d) && InInterval(d, windowStart, windowEnd) ==> d in e.buckets
    requires ExpandAll(e, ts, windowStart, windowEnd).Err?
    requires ExpandAll(e, ts, windowStart, windowEnd).error.MissingKey?
    ensures exists i :: 0 <= i < |ts| && ts[i].base.frequency == SemiMonthly
    ensures Lt(windowEnd, ExpandAll(e, ts, windowStart, windowEnd).error.date)
    decreases |ts|
  {
    var first := ExpandOne(e, ts[0], windowStart, windowEnd);
    if first.Err? {
      MissingKeyOnlyPastWindow(e, ts[0], windowStart, windowEnd);
      assert ts[0].base.frequency == SemiMonthly;
    } else {
      ExpandOneOutcome(e, ts[0], windowStart, windowEnd);
      ExpandAllMissingKey(first.value, ts[1..], windowStart, windowEnd);
      var j :| 0 <= j < |ts[1..]| && ts[1..][j].base.frequency == SemiMonthly;
      assert ts[j + 1] == ts[1..][j];
    }
  }

  /** So the projection's only KeyError is a semi-monthly date past the window end. */
  lemma ProjectionMissingKey(income: seq<Transaction>, expense: seq<Transaction>, today: Date)
    requires ValidDate(today) && FormattableYear(WindowStart(today)) && FormattableYear(WindowEnd(today))
    requires Projection(income, expense, today).Err? && Projection(income, expense, today).error.MissingKey?
    ensures exists t :: t in income + expense && t.base.frequency == SemiMonthly
    ensures Lt(WindowEnd(today), Projection(income, expense, today).error.date)
  {
    var ws, we := WindowStart(today), WindowEnd(today);
    var e := Expansion(map[], EmptyBuckets(WindowDays(today)));
    forall d | ValidDate(d) && InInterval(d, ws, we)
      ensures d in e.buckets
    {
      SpanMembers(ws, we, d);
    }
    var inc := ExpandAll(e, income, ws, we);
    if inc.Err? {
      ExpandAllMissingKey(e, income, ws, we);
      var i :| 0 <= i < |income| && income[i].base.frequency == SemiMonthly;
      assert income[i] in income + expense;
    } else {
      ExpandAllMissingKey(e, expense, ws, we);
      var i :| 0 <= i < |expense| && expense[i].base.frequency == SemiMonthly;
      assert expense[i] == (income + expense)[|income| + i];
    }
  }

  /**
   * The shape of a successful projection: 241 entries, entry i keyed by the
   * rendering of start_window + i days; the first day opens at 0 and every
   * later one at the previous day's closing balance.
   */
  lemma ProjectionShape(income: seq<Transaction>, expense: seq<Transaction>, today: Date, i: int)
    requires ValidDate(today) && FormattableYear(WindowStart(today)) && FormattableYear(WindowEnd(today))
    requires Projection(income, expense, today).Ok? && 0 <= i < 241
    ensures |Projection(income, expense, today).value| == 241
    ensures ValidDate(AddDays(WindowStart(today), i)) && FormattableYear(AddDays(WindowStart(today), i))
    ensures Projection(income, expense, today).value[i].0 == FormatDate(AddDays(WindowStart(today), i))
    ensures i == 0 ==> Projection(income, expense, today).value[i].1.openingBalance == 0.0
    ensures i > 0 ==> (Projection(income, expense, today).value[i].1.openingBalance
                       == Projection(income, expense, today).value[i - 1].1.closingBalance)
  {
    var ws, we := WindowStart(today), WindowEnd(today);
    var days := WindowDays(today);
    var inc := Expanded(income, today).value.buckets;
    var exp := Expanded(expense, today).value.buckets;
    SpanFormattable(ws, we);
    WindowLength(today);
    SpanIndex(ws, we);
    assert days[i] == AddDays(ws, i);
    LedgerAt(inc, exp, days, 0.0, i);
  }

  /**
   * A day of a successful projection, in terms of the transactions: its
   * income transactions are the income transactions occurring that day, in
   * input order and once per occurrence, and its income is their total;
   * its paid and unpaid lists interleave the expense transactions occurring
   * that day; everything is paid iff they total at most the opening balance
   * plus the income; and the day opens and closes non-negative.
   */
  lemma ProjectionDay(income: seq<Transaction>, expense: seq<Transaction>, today: Date, i: int)
    requires ValidDate(today) && FormattableYear(WindowStart(today)) && FormattableYear(WindowEnd(today))
    requires Projection(income, expense, today).Ok? && 0 <= i < |Projection(income, expense, today).value|
    ensures DayOf(Contribution(income, WindowStart(today), WindowEnd(today), AddDays(WindowStart(today), i)),
                  Contribution(expense, WindowStart(today), WindowEnd(today), AddDays(WindowStart(today), i)),
                  Projection(income, expense, today).value[i].1)
  {
    var ws, we := WindowStart(today), WindowEnd(today);
    var days := WindowDays(today);
    var inc := Expanded(income, today).value.buckets;
    var exp := Expanded(expense, today).value.buckets;
    SpanFormattable(ws, we);
    LedgerLength(inc, exp, days, 0.0);
    SpanIndex(ws, we);
    var d := days[i];
    assert d == AddDays(ws, i);
    LedgerDays(inc, exp, days, 0.0);
    assert DayHoldsAt(inc, exp, days, 0.0, i);
    var r := Ledger(inc, exp, days, 0.0)[i].1;
    DayHoldsDayOf(inc, exp, d, r);
    ExpandedAt(income, today, d);
    ExpandedAt(expense, today, d);
  }

  /** The service object of one user. */
  class MainService {
    const userId: string
    var incomeTransactions: seq<Transaction>
    var expenseTransactions: seq<Transaction>

    constructor (userId: string)
      ensures this.userId == userId
      ensures incomeTransactions == [] && expenseTransactions == []
    {
      this.userId := userId;
      incomeTransactions := [];
      expenseTransactions := [];
    }

    /** separate_transactions_by_type: appends each transaction to the list of its type. */
    method SeparateTransactionsByType(transactions: seq<Transaction>)
      modifies this
      ensures incomeTransactions == old(incomeTransactions) + OfType(transactions, Income)
      ensures expenseTransactions == old(expenseTransactions) + OfType(transactions, Expense)
    {
      for i := 0 to |transactions|
        invariant incomeTransactions == old(incomeTransactions) + OfType(transactions[..i], Income)
        invariant expenseTransactions == old(expenseTransactions) + OfType(transactions[..i], Expense)
      {
        var transaction := transactions[i];
        assert transactions[..i + 1][..i] == transactions[..i];
        if transaction.base.transactionType == Income {
          incomeTransactions := incomeTransactions + [transaction];
        } else if transaction.base.transactionType == Expense {
          expenseTransactions := expenseTransactions + [transaction];
        }
      }
      assert transactions[..|transactions|] == transactions;
    }

    /**
     * calculate_balances, with the user's stored transactions and today's
     * date passed in: the transactions are split onto this object's lists,
     * and the projection of the lists is returned.
     */
    method CalculateBalances(transactions: seq<Transaction>, today: Date) returns (results: Result<seq<(string, DayEntry)>, Error>)
      requires ValidDate(today) && FormattableYear(WindowStart(today)) && FormattableYear(WindowEnd(today))
      modifies this
      ensures incomeTransactions == old(incomeTransactions) + OfType(transactions, Income)
      ensures expenseTransactions == old(expenseTransactions) + OfType(transactions, Expense)
      ensures results == Projection(incomeTransactions, expenseTransactions, today)
    {
      SeparateTransactionsByType(transactions);
      var startWindow, endWindow := WindowStart(today), WindowEnd(today);
      var days := DateRange(startWindow, endWindow);
      var recurringIncomeTransactions := EmptyBuckets(days);
      var recurringExpenseTransactions := EmptyBuckets(days);
      var recurringIncome :- CalculateRecurringDates(incomeTransactions, recurringIncomeTransactions, today);
      var recurringExpense :- CalculateRecurringDates(expenseTransactions, recurringExpenseTransactions, today);
      var ledger := CalculateDailyFinances(recurringIncome.buckets, recurringExpense.buckets, startWindow, endWindow);
      return Ok(ledger);
    }
  }
}
