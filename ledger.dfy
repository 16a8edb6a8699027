/**
 * The ledger simulator (MainService.calculate_daily_finances): one pass over
 * the days of the window, carrying the balance from each day's close to the
 * next day's opening. Each day the income is added to the balance, then the
 * day's expenses are settled in bucket order: an expense the balance covers
 * is paid from it; one it does not cover is unpaid, the shortfall is added
 * to the overdraft and the balance drops to zero. Processing goes on after a
 * shortfall, so every later expense with a positive amount is unpaid too.
 */
module Finances {
  import opened Wrappers
  import opened Calendar
  import opened DateFormat
  import opened TransactionModel
  import opened Sequences

  /** The state of the expense loop of one day. */
  datatype Settlement = Settlement(available: real, paid: seq<Transaction>, unpaid: seq<Transaction>,
                                   overdraft: real, canPay: bool)

  /** One iteration of the expense loop. */
  function Pay(s: Settlement, expense: Transaction): Settlement
  {
    if s.available >= expense.base.amount then
      s.(available := s.available - expense.base.amount, paid := s.paid + [expense])
    else
      s.(canPay := false, unpaid := s.unpaid + [expense],
         overdraft := s.overdraft + (expense.base.amount - s.available), available := 0.0)
  }

  /** The expense loop over `expenses`, starting from the balance `available`. */
  function Settle(available: real, expenses: seq<Transaction>): Settlement
    decreases |expenses|
  {
    if expenses == [] then Settlement(available, [], [], 0.0, true)
    else Pay(Settle(available, expenses[..|expenses| - 1]), expenses[|expenses| - 1])
  }

  /** `paid` and `unpaid` split `expenses` between them, each keeping the order of `expenses`. */
  predicate Interleaves(expenses: seq<Transaction>, paid: seq<Transaction>, unpaid: seq<Transaction>)
    decreases |expenses|
  {
    if expenses == [] then paid == [] && unpaid == []
    else
      var last := expenses[|expenses| - 1];
      (paid != [] && paid[|paid| - 1] == last && Interleaves(expenses[..|expenses| - 1], paid[..|paid| - 1], unpaid))
      || (unpaid != [] && unpaid[|unpaid| - 1] == last && Interleaves(expenses[..|expenses| - 1], paid, unpaid[..|unpaid| - 1]))
  }

  /** An interleaving neither loses nor invents an expense. */
  lemma {:induction false} InterleavesPartition(expenses: seq<Transaction>, paid: seq<Transaction>, unpaid: seq<Transaction>)
    requires Interleaves(expenses, paid, unpaid)
    ensures multiset(expenses) == multiset(paid) + multiset(unpaid)
    decreases |expenses|
  {
    if expenses != [] {
      var n := |expenses| - 1;
      var last := expenses[n];
      assert expenses == expenses[..n] + [last];
      if paid != [] && paid[|paid| - 1] == last && Interleaves(expenses[..n], paid[..|paid| - 1], unpaid) {
        InterleavesPartition(expenses[..n], paid[..|paid| - 1], unpaid);
        assert paid == paid[..|paid| - 1] + [last];
      } else {
        InterleavesPartition(expenses[..n], paid, unpaid[..|unpaid| - 1]);
        assert unpaid == unpaid[..|unpaid| - 1] + [last];
      }
    }
  }

  /** So the amounts paid and unpaid add up to the day's expenses. */
  lemma {:induction false} InterleavesSum(expenses: seq<Transaction>, paid: seq<Transaction>, unpaid: seq<Transaction>)
    requires Interleaves(expenses, paid, unpaid)
    ensures SumAmounts(expenses) == SumAmounts(paid) + SumAmounts(unpaid)
    decreases |expenses|
  {
    if expenses != [] {
      var n := |expenses| - 1;
      var last := expenses[n];
      if paid != [] && paid[|paid| - 1] == last && Interleaves(expenses[..n], paid[..|paid| - 1], unpaid) {
        InterleavesSum(expenses[..n], paid[..|paid| - 1], unpaid);
      } else {
        InterleavesSum(expenses[..n], paid, unpaid[..|unpaid| - 1]);
      }
    }
  }

  /**
   * The balance sheet of the expense loop from a non-negative balance: the
   * balance never goes negative; everything could be paid iff nothing is
   * unpaid; while everything is paid the balance is the start less what was
   * paid; after a shortfall the balance is zero and the overdraft is the
   * unpaid total less what was left after paying, which is positive; and
   * only positive expenses go unpaid.
   */
  lemma {:induction false} SettleBalance(available: real, expenses: seq<Transaction>)
    requires available >= 0.0
    ensures Settled(available, Settle(available, expenses))
    decreases |expenses|
  {
    if expenses != [] {
      var n := |expenses| - 1;
      SettleBalance(available, expenses[..n]);
      var s := Settle(available, expenses[..n]);
      PayKeepsSettled(available, s, expenses[n]);
    }
  }

  predicate Settled(start: real, s: Settlement)
  {
    s.available >= 0.0
    && (s.canPay <==> s.unpaid == [])
    && (s.canPay ==> s.available == start - SumAmounts(s.paid) && s.overdraft == 0.0)
    && (!s.canPay ==> s.available == 0.0 && s.overdraft == SumAmounts(s.unpaid) - (start - SumAmounts(s.paid))
                      && s.overdraft > 0.0)
    && (forall i :: 0 <= i < |s.unpaid| ==> s.unpaid[i].base.amount > 0.0)
  }

  lemma PayKeepsSettled(start: real, s: Settlement, expense: Transaction)
    requires Settled(start, s)
    ensures Settled(start, Pay(s, expense))
  {
    if s.available >= expense.base.amount {
      PayCoveredKeepsSettled(start, s, expense);
    } else {
      PayShortKeepsSettled(start, s, expense);
    }
  }

  lemma PayCoveredKeepsSettled(start: real, s: Settlement, expense: Transaction)
    requires Settled(start, s) && s.available >= expense.base.amount
    ensures Settled(start, Pay(s, expense))
  {
    SumAmountsAppend(s.paid, [expense]);
    assert [expense][..0] == [];
    if !s.canPay {
      assert expense.base.amount == 0.0;
    }
  }

  lemma PayShortKeepsSettled(start: real, s: Settlement, expense: Transaction)
    requires Settled(start, s) && s.available < expense.base.amount
    ensures Settled(start, Pay(s, expense))
  {
    var a := expense.base.amount;
    var s' := Pay(s, expense);
    assert s'.unpaid == s.unpaid + [expense];
    SumAmountsAppend(s.unpaid, [expense]);
    assert [expense][..0] == [];
    assert SumAmounts(s'.unpaid) == SumAmounts(s.unpaid) + a;
    if s.canPay {
      assert SumAmounts(s.unpaid) == 0.0;
    }
    assert s'.overdraft == SumAmounts(s'.unpaid) - (start - SumAmounts(s'.paid));
    forall i | 0 <= i < |s'.unpaid|
      ensures s'.unpaid[i].base.amount > 0.0
    {
      if i < |s.unpaid| {
        assert s'.unpaid[i] == s.unpaid[i];
      }
    }
  }

  /** The expense loop appends every expense to exactly one of `paid` and `unpaid`, in order. */
  lemma {:induction false} SettleInterleaves(available: real, expenses: seq<Transaction>)
    ensures Interleaves(expenses, Settle(available, expenses).paid, Settle(available, expenses).unpaid)
    decreases |expenses|
  {
    if expenses != [] {
      var n := |expenses| - 1;
      SettleInterleaves(available, expenses[..n]);
      var s := Settle(available, expenses[..n]);
      var s' := Settle(available, expenses);
      if s.available >= expenses[n].base.amount {
        assert s'.paid[..|s'.paid| - 1] == s.paid;
      } else {
        assert s'.unpaid[..|s'.unpaid| - 1] == s.unpaid;
      }
    }
  }

  /**
   * In terms of the whole day: all of it can be paid iff the expenses total at
   * most the available balance; then the balance left is the difference, and
   * otherwise the overdraft is the excess of the expenses over the balance.
   */
  lemma SettleTotals(available: real, expenses: seq<Transaction>)
    requires available >= 0.0
    ensures Settle(available, expenses).canPay <==> SumAmounts(expenses) <= available
    ensures Settle(available, expenses).canPay ==>
              Settle(available, expenses).paid == expenses
              && Settle(available, expenses).available == available - SumAmounts(expenses)
    ensures !Settle(available, expenses).canPay ==>
              Settle(available, expenses).overdraft == SumAmounts(expenses) - available
  {
    var s := Settle(available, expenses);
    SettleBalance(available, expenses);
    SettleInterleaves(available, expenses);
    InterleavesSum(expenses, s.paid, s.unpaid);
    if s.canPay {
      InterleavesAllPaid(expenses, s.paid);
    }
  }

  lemma {:induction false} InterleavesAllPaid(expenses: seq<Transaction>, paid: seq<Transaction>)
    requires Interleaves(expenses, paid, [])
    ensures paid == expenses
    decreases |expenses|
  {
    if expenses != [] {
      var n := |expenses| - 1;
      InterleavesAllPaid(expenses[..n], paid[..|paid| - 1]);
      assert paid == paid[..|paid| - 1] + [paid[|paid| - 1]];
    }
  }

  /** An expense-bucket transaction of the given amount, for the scenarios below. */
  function Bill(id: string, amount: Amount): Transaction
  {
    Transaction(id, NewTransactionBase("user", Expense, id, amount, OneTime))
  }

  /** 1000 available against 1500 due: nothing is paid, the overdraft is 500 and the day closes at 0. */
  lemma ShortfallScenario()
    ensures Settle(1000.0, [Bill("rent", 1500.0)])
         == Settlement(0.0, [], [Bill("rent", 1500.0)], 500.0, false)
  {
    assert [Bill("rent", 1500.0)][..0] == [];
  }

  /**
   * Processing goes on after a shortfall: a smaller later expense is unpaid
   * too and its whole amount joins the overdraft, while a zero-amount one
   * counts as paid.
   */
  lemma NoBreakScenario()
    ensures Settle(1000.0, [Bill("rent", 1500.0), Bill("gym", 100.0), Bill("free", 0.0)])
         == Settlement(0.0, [Bill("free", 0.0)], [Bill("rent", 1500.0), Bill("gym", 100.0)], 600.0, false)
  {
    var es := [Bill("rent", 1500.0), Bill("gym", 100.0), Bill("free", 0.0)];
    assert es[..1] == [Bill("rent", 1500.0)];
    ShortfallScenario();
    var s1 := Settle(1000.0, es[..1]);
    assert s1 == Settlement(0.0, [], [Bill("rent", 1500.0)], 500.0, false);
    assert es[..2][..1] == es[..1];
    var s2 := Settle(1000.0, es[..2]);
    assert s2 == Pay(s1, Bill("gym", 100.0));
    assert s2 == Settlement(0.0, [], [Bill("rent", 1500.0), Bill("gym", 100.0)], 600.0, false);
    assert es[..|es| - 1] == es[..2];
  }

  // ---------------------------------------------------------------------------
  // The days

  /** One day of the result dict; `overdraft` is absent (None) when everything was paid. */
  datatype DayEntry = DayEntry(
    openingBalance: real,
    closingBalance: real,
    canPay: bool,
    paidTransactions: seq<Transaction>,
    unpaidTransactions: seq<Transaction>,
    income: real,
    incomeTransactions: seq<Transaction>,
    overdraft: Option<real>)

  /** dict.get(d, []). */
  function Get(m: map<Date, seq<Transaction>>, d: Date): seq<Transaction>
  {
    if d in m then m[d] else []
  }

  /** One day of the simulation, opening at `opening`. */
  function DayResult(income: map<Date, seq<Transaction>>, expense: map<Date, seq<Transaction>>, d: Date, opening: real): DayEntry
  {
    var dailyIncome := SumAmounts(Get(income, d));
    var s := Settle(opening + dailyIncome, Get(expense, d));
    DayEntry(opening, s.available, s.canPay, s.paid, s.unpaid, dailyIncome, Get(income, d),
             if s.canPay then None else Some(s.overdraft))
  }

  /**
   * The laws of one day: the available balance is the opening plus the day's
   * income; paid and unpaid interleave the day's expenses; can_pay holds iff
   * nothing is unpaid, and the overdraft is present iff can_pay fails; the
   * closing balance is then the available balance less what was paid, or
   * zero with the overdraft the unpaid total less what was left; closing is
   * never negative.
   */
  lemma DayLaws(income: map<Date, seq<Transaction>>, expense: map<Date, seq<Transaction>>, d: Date, opening: real)
    requires opening >= 0.0
    ensures DayHolds(income, expense, d, DayResult(income, expense, d, opening))
    ensures DayResult(income, expense, d, opening).openingBalance == opening
  {
    var available := opening + SumAmounts(Get(income, d));
    var es := Get(expense, d);
    var s := Settle(available, es);
    SettleBalance(available, es);
    SettleInterleaves(available, es);
    SettleTotals(available, es);
    var r := DayResult(income, expense, d, opening);
    assert r == DayEntry(opening, s.available, s.canPay, s.paid, s.unpaid, SumAmounts(Get(income, d)), Get(income, d),
                         if s.canPay then None else Some(s.overdraft));
  }

  predicate DayHolds(income: map<Date, seq<Transaction>>, expense: map<Date, seq<Transaction>>, d: Date, r: DayEntry)
  {
    var available := r.openingBalance + SumAmounts(Get(income, d));
    r.income == SumAmounts(Get(income, d)) && r.incomeTransactions == Get(income, d)
    && Interleaves(Get(expense, d), r.paidTransactions, r.unpaidTransactions)
    && (r.canPay <==> r.unpaidTransactions == [])
    && (r.overdraft.Some? <==> !r.canPay)
    && (r.canPay <==> SumAmounts(Get(expense, d)) <= available)
    && (r.canPay ==> r.closingBalance == available - SumAmounts(r.paidTransactions))
    && (!r.canPay ==> r.closingBalance == 0.0
                      && r.overdraft.value == SumAmounts(r.unpaidTransactions) - (available - SumAmounts(r.paidTransactions))
                      && r.overdraft.value == SumAmounts(Get(expense, d)) - available)
    && r.closingBalance >= 0.0
  }

  /**
   * A day in terms of what came in and what was due: the income is the
   * total of the incoming transactions; paid and unpaid interleave the due
   * ones, and everything is paid iff they total at most the opening balance
   * plus the income; the overdraft is present iff something was unpaid; the
   * closing balance is what is left after paying everything, or else zero
   * with the overdraft the excess of the due total over the available
   * balance; and the day opens and closes non-negative.
   */
  predicate DayOf(incoming: seq<Transaction>, due: seq<Transaction>, r: DayEntry)
  {
    r.incomeTransactions == incoming && r.income == SumAmounts(incoming)
    && Interleaves(due, r.paidTransactions, r.unpaidTransactions)
    && (r.canPay <==> r.unpaidTransactions == [])
    && (r.canPay <==> SumAmounts(due) <= r.openingBalance + r.income)
    && (r.canPay <==> r.overdraft.None?)
    && (r.canPay ==> r.closingBalance == r.openingBalance + r.income - SumAmounts(due))
    && (!r.canPay ==> r.closingBalance == 0.0 && r.overdraft.value == SumAmounts(due) - (r.openingBalance + r.income))
    && r.openingBalance >= 0.0 && r.closingBalance >= 0.0
  }

  /** The day laws, restated on the day's income and expense lists. */
  lemma DayHoldsDayOf(income: map<Date, seq<Transaction>>, expense: map<Date, seq<Transaction>>, d: Date, r: DayEntry)
    requires DayHolds(income, expense, d, r) && r.openingBalance >= 0.0
    ensures DayOf(Get(income, d), Get(expense, d), r)
  {
    InterleavesSum(Get(expense, d), r.paidTransactions, r.unpaidTransactions);
  }

  /** Every day of `days` renders as a ledger key. */
  predicate AllFormattable(days: seq<Date>)
  {
    forall i :: 0 <= i < |days| ==> ValidDate(days[i]) && FormattableYear(days[i])
  }

  lemma AllFormattableTail(days: seq<Date>)
    requires AllFormattable(days) && days != []
    ensures AllFormattable(days[1..])
  {
    forall k | 0 <= k < |days[1..]|
      ensures ValidDate(days[1..][k]) && FormattableYear(days[1..][k])
    {
      assert days[1..][k] == days[k + 1];
    }
  }

  /** The result dict over `days`, in order, the first day opening at `opening`. */
  function Ledger(income: map<Date, seq<Transaction>>, expense: map<Date, seq<Transaction>>,
                  days: seq<Date>, opening: real): seq<(string, DayEntry)>
    requires AllFormattable(days)
    decreases |days|
  {
    if days == [] then []
    else
      var r := DayResult(income, expense, days[0], opening);
      [(FormatDate(days[0]), r)] + Ledger(income, expense, days[1..], r.closingBalance)
  }

  /**
   * The shape of the result at day i: one entry per day, entry i keyed by
   * day i and holding that day's result from its own opening balance; the
   * first day opens at `opening` and every later one at the previous day's
   * closing balance.
   */
  lemma {:induction false} LedgerAt(income: map<Date, seq<Transaction>>, expense: map<Date, seq<Transaction>>,
                                    days: seq<Date>, opening: real, i: int)
    requires AllFormattable(days) && 0 <= i < |days|
    ensures |Ledger(income, expense, days, opening)| == |days|
    ensures Ledger(income, expense, days, opening)[i].0 == FormatDate(days[i])
    ensures Ledger(income, expense, days, opening)[i].1
         == DayResult(income, expense, days[i], Ledger(income, expense, days, opening)[i].1.openingBalance)
    ensures i == 0 ==> Ledger(income, expense, days, opening)[i].1.openingBalance == opening
    ensures i > 0 ==> (Ledger(income, expense, days, opening)[i].1.openingBalance
                       == Ledger(income, expense, days, opening)[i - 1].1.closingBalance)
    decreases |days|
  {
    LedgerLength(income, expense, days, opening);
    var r := DayResult(income, expense, days[0], opening);
    var rest := Ledger(income, expense, days[1..], r.closingBalance);
    var l := Ledger(income, expense, days, opening);
    AllFormattableTail(days);
    assert l == [(FormatDate(days[0]), r)] + rest;
    if i > 0 {
      LedgerAt(income, expense, days[1..], r.closingBalance, i - 1);
      assert l[i] == rest[i - 1];
      if i > 1 {
        assert l[i - 1] == rest[i - 2];
      }
    }
  }

  lemma {:induction false} LedgerLength(income: map<Date, seq<Transaction>>, expense: map<Date, seq<Transaction>>,
                                        days: seq<Date>, opening: real)
    requires AllFormattable(days)
    ensures |Ledger(income, expense, days, opening)| == |days|
    decreases |days|
  {
    if days != [] {
      AllFormattableTail(days);
      LedgerLength(income, expense, days[1..], DayResult(income, expense, days[0], opening).closingBalance);
    }
  }

  /** From a non-negative opening every day opens and closes non-negative and obeys the day laws. */
  lemma {:induction false} LedgerDays(income: map<Date, seq<Transaction>>, expense: map<Date, seq<Transaction>>,
                                      days: seq<Date>, opening: real)
    requires AllFormattable(days) && opening >= 0.0
    ensures forall i :: 0 <= i < |days| ==> DayHoldsAt(income, expense, days, opening, i)
    decreases |days|
  {
    if days != [] {
      var r := DayResult(income, expense, days[0], opening);
      DayLaws(income, expense, days[0], opening);
      LedgerDays(income, expense, days[1..], r.closingBalance);
      var rest := Ledger(income, expense, days[1..], r.closingBalance);
      var l := Ledger(income, expense, days, opening);
      assert l == [(FormatDate(days[0]), r)] + rest;
      forall i | 0 <= i < |days|
        ensures DayHoldsAt(income, expense, days, opening, i)
      {
        if i > 0 {
          assert DayHoldsAt(income, expense, days[1..], r.closingBalance, i - 1);
          assert l[i] == rest[i - 1];
        }
      }
    }
  }

  predicate DayHoldsAt(income: map<Date, seq<Transaction>>, expense: map<Date, seq<Transaction>>,
                       days: seq<Date>, opening: real, i: int)
    requires AllFormattable(days)
  {
    var l := Ledger(income, expense, days, opening);
    0 <= i < |l| && i < |days| && l[i].1.openingBalance >= 0.0 && DayHolds(income, expense, days[i], l[i].1)
  }

  /** Distinct days give distinct keys, so the result dict has one entry per day. */
  lemma LedgerKeysDistinct(income: map<Date, seq<Transaction>>, expense: map<Date, seq<Transaction>>,
                           days: seq<Date>, opening: real, i: int, j: int)
    requires AllFormattable(days)
    requires 0 <= i < |days| && 0 <= j < |days| && days[i] != days[j]
    ensures |Ledger(income, expense, days, opening)| == |days|
    ensures Ledger(income, expense, days, opening)[i].0 != Ledger(income, expense, days, opening)[j].0
  {
    LedgerAt(income, expense, days, opening, i);
    LedgerAt(income, expense, days, opening, j);
    if FormatDate(days[i]) == FormatDate(days[j]) {
      FormatInjective(days[i], days[j]);
    }
  }

  /** The days of [start, end] all render when the two ends do. */
  lemma SpanFormattable(start: Date, end: Date)
    requires ValidDate(start) && ValidDate(end) && FormattableYear(start) && FormattableYear(end)
    ensures AllFormattable(Span(start, end))
  {
    var s := Span(start, end);
    forall i | 0 <= i < |s|
      ensures ValidDate(s[i]) && FormattableYear(s[i])
    {
      SpanMembers(start, end, s[i]);
    }
  }

  /** The day's entry read off the settlement of its expenses. */
  lemma DayResultOf(income: map<Date, seq<Transaction>>, expense: map<Date, seq<Transaction>>, d: Date, opening: real,
                    s: Settlement)
    requires s == Settle(opening + SumAmounts(Get(income, d)), Get(expense, d))
    ensures DayResult(income, expense, d, opening)
         == DayEntry(opening, s.available, s.canPay, s.paid, s.unpaid, SumAmounts(Get(income, d)), Get(income, d),
                     if s.canPay then None else Some(s.overdraft))
  {
  }

  /** One day off the front of the ledger over [current, end]. */
  lemma LedgerStep(income: map<Date, seq<Transaction>>, expense: map<Date, seq<Transaction>>,
                   current: Date, end: Date, opening: real)
    requires ValidDate(current) && ValidDate(end) && Le(current, end) && AllFormattable(Span(current, end))
    ensures FormattableYear(current) && AllFormattable(Span(NextDay(current), end))
    ensures Ledger(income, expense, Span(current, end), opening)
         == [(FormatDate(current), DayResult(income, expense, current, opening))]
            + Ledger(income, expense, Span(NextDay(current), end), DayResult(income, expense, current, opening).closingBalance)
  {
    var days := Span(current, end);
    assert days == [current] + Span(NextDay(current), end);
    assert days[0] == current;
    assert days[1..] == Span(NextDay(current), end);
    forall i | 0 <= i < |days| - 1
      ensures ValidDate(days[1..][i]) && FormattableYear(days[1..][i])
    {
      assert days[1..][i] == days[i + 1];
    }
  }

  /**
   * The expense loop of calculate_daily_finances: settles `dailyExpenses` in
   * order against `available`, giving what the loop leaves in its five
   * variables.
   */
  method PayExpenses(available: real, dailyExpenses: seq<Transaction>)
    returns (availableBalance: real, paidExpenses: seq<Transaction>, unpaidExpenses: seq<Transaction>,
             overdraft: real, canPayAll: bool)
    ensures Settlement(availableBalance, paidExpenses, unpaidExpenses, overdraft, canPayAll)
         == Settle(available, dailyExpenses)
  {
    availableBalance := available;
    canPayAll := true;
    paidExpenses := [];
    unpaidExpenses := [];
    overdraft := 0.0;
    for j := 0 to |dailyExpenses|
      invariant Settlement(availableBalance, paidExpenses, unpaidExpenses, overdraft, canPayAll)
             == Settle(available, dailyExpenses[..j])
    {
      var e := dailyExpenses[j];
      assert dailyExpenses[..j + 1][..j] == dailyExpenses[..j];
      if availableBalance >= e.base.amount {
        availableBalance := availableBalance - e.base.amount;
        paidExpenses := paidExpenses + [e];
      } else {
        canPayAll := false;
        unpaidExpenses := unpaidExpenses + [e];
        overdraft := overdraft + (e.base.amount - availableBalance);
        availableBalance := 0.0;
      }
    }
    assert dailyExpenses[..|dailyExpenses|] == dailyExpenses;
  }

  /** The body of the day loop of calculate_daily_finances: the entry of day `d`, opening at `opening`. */
  method SimulateDay(income: map<Date, seq<Transaction>>, expense: map<Date, seq<Transaction>>, d: Date, opening: real)
    returns (dayResult: DayEntry)
    ensures dayResult == DayResult(income, expense, d, opening)
  {
    var incomeToday := Get(income, d);
    var dailyIncome := SumAmounts(incomeToday);
    var dailyExpenses := Get(expense, d);
    var availableBalance, paidExpenses, unpaidExpenses, overdraft, canPayAll :=
      PayExpenses(opening + dailyIncome, dailyExpenses);
    dayResult := DayEntry(opening, availableBalance, canPayAll, paidExpenses, unpaidExpenses,
                          dailyIncome, incomeToday, if canPayAll then None else Some(overdraft));
    DayResultOf(income, expense, d, opening,
                Settlement(availableBalance, paidExpenses, unpaidExpenses, overdraft, canPayAll));
  }

  /** calculate_daily_finances(income, expense, start, end): the day loop. */
  method CalculateDailyFinances(income: map<Date, seq<Transaction>>, expense: map<Date, seq<Transaction>>,
                                start: Date, end: Date) returns (result: seq<(string, DayEntry)>)
    requires ValidDate(start) && ValidDate(end) && FormattableYear(start) && FormattableYear(end)
    ensures AllFormattable(Span(start, end))
    ensures result == Ledger(income, expense, Span(start, end), 0.0)
  {
    SpanFormattable(start, end);
    result := [];
    var prevBalance := 0.0;
    var current := start;
    while Le(current, end)
      invariant ValidDate(current)
      invariant AllFormattable(Span(current, end))
      invariant result + Ledger(income, expense, Span(current, end), prevBalance)
             == Ledger(income, expense, Span(start, end), 0.0)
      decreases Key(end) - Key(current)
    {
      KeyOrder(current, end);
      LedgerStep(income, expense, current, end, prevBalance);
      var dateStr := FormatDate(current);
      var dayResult := SimulateDay(income, expense, current, prevBalance);
      ghost var rest := Ledger(income, expense, Span(NextDay(current), end), dayResult.closingBalance);
      AppendAssoc(result, [(dateStr, dayResult)], rest);
      result := result + [(dateStr, dayResult)];
      prevBalance := dayResult.closingBalance;
      current := NextDay(current);
    }
  }
}
