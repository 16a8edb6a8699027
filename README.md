# Cash-flow projection engine — a Dafny model

This project models `MainService`, the projection engine of a personal
budgeting API (`services/main_service.py`), and the transaction record it
consumes (`models/transaction.py`).

- **Input.** The user's income and expense transactions and the current date.
- **Window.** The engine fixes a window of 241 days, from 30 days before
  today to 210 days after it.
- **Expansion.** It expands every transaction into the dates it occurs on:
  one-time, weekly, bi-weekly, semi-monthly or monthly.
- **Buckets.** It appends each occurrence to a dense map with one bucket per
  window day. A per-date sum of amounts is kept beside it.
- **Ledger.** It walks the window day by day: the previous closing balance
  plus the day's income is what is available. The day's expenses are settled
  in insertion order. One entry per day, keyed `MM-DD-YYYY`, is recorded with
  the opening and closing balance, the paid and unpaid expenses, `can_pay`
  and, when some expense was not paid, the overdraft.

The model is split by the program's own layers:

- `wrappers.dfy`: `Option` and `Result`.
- `sequences.dfy` (module `Sequences`): associativity of concatenation,
  shared by the date lists and the ledger.
- `calendar.dfy` (module `Calendar`): proleptic Gregorian dates.
  - `date.toordinal`, `weekday`, `timedelta` steps, `calendar.monthrange`.
  - `add_months`, `add_month_if_possible`, `is_within_date_range`, `date_range`.
- `dateformat.dfy` (module `DateFormat`): `strftime("%m-%d-%Y")` and
  `strptime(·, "%m-%d-%Y")`. The parser accepts what CPython's `_strptime`
  accepts: a 1–2 digit month, a 1–2 digit or space-padded day (`" 5"`), a
  4-digit year, and a real calendar date.
- `transaction.dfy` (module `TransactionModel`): the pydantic record, its two
  string enums and the non-negative `Decimal` amount.
- `recurrence.dfy` (module `Recurrence`): `calculate_recurring_dates`.
  - The functions are the specification: the dates each branch visits, one
    append, the fold over the transactions.
  - The methods are the source's loops, proved equal to those functions.
- `recurrence_laws.dfy` (module `RecurrenceLaws`): what the expansion
  guarantees. This covers bounds, spacing, weekdays, the no-drift property,
  bucket contents and totals, and when a `KeyError` can happen.
- `ledger.dfy` (module `Finances`): `calculate_daily_finances`.
  - A settlement function for one day's expenses, with the balance laws it
    keeps.
  - The ledger as a function of the day list, and the loop proved equal to it.
- `mainservice.dfy` (module `Service`): the remaining pieces and the whole
  projection.
  - `separate_transactions_by_type`, `initialize_balance_dict` and
    `convert_balance_keys_to_string`.
  - The class `MainService` whose methods update its two transaction lists,
    and the laws of the whole projection.

Each of the three errors the source can raise becomes a `Result` error:

- `MalformedDate(field)`: `strptime` raises `ValueError` on a date string it
  cannot parse.
- `MissingField(field)`: a `None` field is used, raising `TypeError` or
  `AttributeError`. This happens for `day`, `start_date`,
  `date_of_transaction`, `date_of_second_transaction` and `end_date`, at the
  point where the source first dereferences each.
- `MissingKey(date)`: the dense map raises `KeyError` on an occurrence outside
  the window.

The source behaviour is modelled as written where it is surprising:

- **No break on a shortfall.** After an expense cannot be paid, later
  expenses of the same day are still tried. The `break` is commented out
  (line 221), and the guard `if available_balance < 0` (line 222) can never
  hold because the balance was just set to 0. So every later positive expense
  is unpaid and adds to the overdraft, and a later zero expense is paid.
  A stop-at-the-first-shortfall policy, which the commented-out `break`
  suggests was once intended, is not what the code does. The model follows
  the code (`NoBreakScenario`).
- **Semi-monthly dates drift.** Semi-monthly dates advance with the drifting
  `add_months`. The loop runs while either date is on or before the window
  end (line 159), but the inclusion tests (lines 160 and 164) compare a date
  with `start_window` and `end_date` only. So a date past the window end,
  in any round whose other date is still within the window, is included
  when it is on or before `end_date`. When the first anchor falls later in
  the month than the second, this can happen in more than one round. Such a
  date hits a missing key (`SemiMonthlyPastWindow`,
  `ProjectionMissingKey`).
- **A missing second semi-monthly date.** The loop test at line 159
  short-circuits on the first date. When that date is on or before the
  window end and included, it is appended before the missing second date is
  compared, so a missing bucket for it raises `KeyError` before the
  `TypeError` (`DatesBeforeError`, `SemiMonthlyFirstBeforeTypeError`).
- **Semi-monthly dates can be out of order.** A first anchor later in the
  month than the second gives dates out of ascending order
  (`SemiMonthlyOutOfOrder`).
- **One-time dates ignore `end_date`.** A one-time date is compared with
  the window, not with `end_date`. So the "every date is `<= end_date`"
  guarantee holds for every frequency except one-time
  (`TransactionDatesBounds`).
- **Monthly dates are anchored.** Monthly dates re-derive the day from the
  original date, so they never drift (`MonthlyStepNoDrift`).

## Model

| member | source | states |
|---|---|---|
| Calendar.DaysInMonth | services/main_service.py:79 | `monthrange(y, m)[1]` is between 28 and 31. It is 31 exactly for the months 1, 3, 5, 7, 8, 10 and 12, and February has 29 days exactly in leap years. |
| Calendar.NextDayOrdinal | services/main_service.py:96 | Adding one day moves the proleptic ordinal by exactly one. |
| Calendar.AddDaysOrdinal | services/main_service.py:145 | `d + timedelta(days=n)` has ordinal `toordinal(d) + n`, for positive and negative `n`. |
| Calendar.AddDaysUnique | services/main_service.py:37 | The date `n` days after `d` is the one valid date whose ordinal is `toordinal(d) + n`. |
| Calendar.OrdinalMonotone | services/main_service.py:94 | A strictly earlier valid date has a strictly smaller ordinal. |
| Calendar.OrdinalInjective | services/main_service.py:94 | Two valid dates with the same ordinal are equal. |
| Calendar.WeekdayAddDays | services/main_service.py:138-145 | Moving `n` days shifts `weekday()` by `n` modulo 7. |
| Calendar.AddMonths | services/main_service.py:63-68 | The result is a valid date `n` months after `d`, counted in whole months since year 0. Its day is `min(d.day, days in the target month)`. |
| Calendar.AddMonthIfPossible | services/main_service.py:70-86 | The result is a valid date in the month after `current`. Its day is `min(original.day, days in that month)`. |
| Calendar.MonthlyStepNoDrift | services/main_service.py:173-181 | Iterating `add_month_if_possible` `k` times from an anchor equals `add_months(anchor, k)`. The day is re-derived from the anchor each time, so a clamped date does not drift. |
| Calendar.MonthlyFromJan31 | services/main_service.py:173-181 | From a Jan 31 anchor the monthly dates are Feb 28, Mar 31, Apr 30 and May 31. |
| Calendar.AddMonthsDrifts | services/main_service.py:168-169 | Chaining `add_months(·, 1)` from Jan 31 gives Mar 28. A single two-month step gives Mar 31, so the chained step drifts. |
| Calendar.IsWithinDateRangeIsOverlap | services/main_service.py:60-61 | For non-empty intervals, the test holds iff some valid date lies in both intervals. |
| Calendar.SpanMembers | services/main_service.py:88-96 | A date is yielded iff it is a valid date in `[start, end]`. |
| Calendar.SpanIndex | services/main_service.py:88-96 | `end - start + 1` days are yielded (none when `start > end`). The i-th is `start + i days`. |
| Calendar.SpanConsecutive | services/main_service.py:94-96 | Each yielded day is the day after the previous one. |
| Calendar.DateRange | services/main_service.py:88-96 | The generator's loop yields exactly the span of `[start, end]` (see the three Span lemmas). |
| DateFormat.FormatDate | services/main_service.py:54 | `strftime("%m-%d-%Y")` gives ten characters, with the dashes at positions 2 and 5. |
| DateFormat.ParseDate | services/main_service.py:31-33 | A successful parse is a valid date within datetime's years. |
| DateFormat.ParseFormatRoundTrip | services/main_service.py:103-104 | Parsing a formatted date (year 1000–9999) gives the same date back, as the re-parse of the window bounds needs. |
| DateFormat.FormatInjective | services/main_service.py:48-57 | Distinct dates format to distinct keys, so converting keys loses no entry. |
| DateFormat.ParseAcceptsUnpadded | services/main_service.py:33 | `"1-5-2024"` parses: strptime's `%m` and `%d` take one digit. |
| DateFormat.ParseRejectsFeb30 | services/main_service.py:33 | `"02-30-2024"` is rejected because it is not a calendar date. |
| DateFormat.ParseRejectsMonth13 | services/main_service.py:33 | `"13-01-2024"` is rejected. |
| TransactionModel.TypeOfValue | models/transaction.py:6-8 | A type string is accepted iff it is `income` or `expense`. The accepted member carries that value. |
| TransactionModel.FrequencyOfValue | models/transaction.py:10-15 | A frequency string is accepted iff it is one of the five listed values. The accepted member carries that value. |
| TransactionModel.EnumValuesRoundTrip | models/transaction.py:6-15 | Every enum member is found again from its value, so the values are distinct. |
| TransactionModel.NewTransactionBase | models/transaction.py:17-29 | A record built from the required fields keeps them. The five optional fields are absent, and `skip_end_date` and `last_day_of_month` are false. |
| TransactionModel.SumAmounts | models/transaction.py:21 | A sum of amounts is never negative, since every amount is `ge=0`. |
| TransactionModel.SumAmountsAppend | services/main_service.py:199 | The sum over a concatenation is the sum of the two sums. |
| Recurrence.WindowLength | services/main_service.py:100-102 | The window `[today - 30, today + 210]` always has 241 days. |
| Recurrence.ParseField | services/main_service.py:31-33 | An absent or empty field gives `None`. A given field fails iff strptime rejects it, and otherwise gives a valid date. |
| Recurrence.WeeklyAnchorLaws | services/main_service.py:136-145 | The shifted anchor has weekday `(day - 1) mod 7` and lies at most 3 days before or after `start_date`. |
| Recurrence.WeeklyAnchorOnDay | services/main_service.py:136-145 | For `day` in 1..7 the anchor's weekday is exactly `day - 1`. |
| Recurrence.NearestWeekdayShift | services/main_service.py:138-145 | The shift is between -3 and 3 and reaches the target weekday modulo 7. |
| Recurrence.WeeklyAnchorFromMonday | services/main_service.py:138-145 | A Wednesday (`day = 3`) from a Monday start is two days later. |
| Recurrence.DatesBeforeError | services/main_service.py:155-162 | At most one append is made before an exception, and only for a semi-monthly transaction without a second date. When it is made, that date is the parsed `date_of_transaction`: on or before the window end (the loop test) and in `[start_window, end_date]` (the inclusion test), so inside the window. Conversely, such a first date is always appended. |
| Recurrence.TransactionDates | services/main_service.py:108-181 | Computing a transaction's dates never raises `KeyError`; only the appends do. |
| Recurrence.Record | services/main_service.py:130-131 | One append succeeds iff the date has a bucket (otherwise `KeyError`). It keeps the map's key set. |
| Recurrence.ExpandStepping | services/main_service.py:147-153 | The weekly/bi-weekly loop appends exactly along the stepped date list; the loop terminates. |
| Recurrence.ExpandWeekly | services/main_service.py:133-153 | The weekly branch raises what the source raises (a malformed `start_date`, a missing `day` or `start_date`). Otherwise it appends along the stepped list from the shifted anchor. |
| Recurrence.ExpandSemiMonthly | services/main_service.py:155-169 | The semi-monthly loop appends exactly along the two-anchor date list; the loop terminates. |
| Recurrence.ExpandMonthly | services/main_service.py:171-181 | The monthly loop appends exactly along the anchored monthly date list; the loop terminates. |
| Recurrence.ExpandTransaction | services/main_service.py:108-181 | One transaction's pass (field selection, overlap test, frequency branches) equals the specification `ExpandOne`. |
| Recurrence.CalculateRecurringDates | services/main_service.py:98-184 | The whole call equals the fold `ExpandAll` over the transactions in input order, over the window of `today`. |
| RecurrenceLaws.StepDatesBounds | services/main_service.py:148-151 | Every weekly date appended is `>= start_window`, `<= end_date` and `<= end_window`. |
| RecurrenceLaws.StepDatesConsecutive | services/main_service.py:153 | Each weekly date is the previous one plus `interval_days`. |
| RecurrenceLaws.StepDatesSpacing | services/main_service.py:148-153 | Consecutive weekly dates are exactly `step` days apart by ordinal, so they are ascending. |
| RecurrenceLaws.StepDatesWeekday | services/main_service.py:148-153 | With a step that is a multiple of 7, every date has the anchor's weekday. |
| RecurrenceLaws.WeeklyDatesLaws | services/main_service.py:133-153 | For steps 7 and 14, every date from the shifted anchor has weekday `(day - 1) mod 7`, and consecutive dates are `step` days apart. |
| RecurrenceLaws.MonthlyDatesBounds | services/main_service.py:175-181 | Every monthly date appended lies in `[start_window, end_date]` and on or before `end_window`. Its day is `min(anchor day, month length)`. |
| RecurrenceLaws.MonthlyDatesSpacing | services/main_service.py:175-181 | Consecutive monthly dates fall in consecutive months, one per month, none skipped. |
| RecurrenceLaws.SemiMonthlyDatesBounds | services/main_service.py:159-166 | Every semi-monthly date appended is `>= start_window` and `<= end_date`. Nothing bounds it by the window end. |
| RecurrenceLaws.SemiMonthlyPastWindow | services/main_service.py:159-166 | A concrete case: a semi-monthly date after the window end is still included, because only `end_date` is checked. |
| RecurrenceLaws.SemiMonthlyOutOfOrder | services/main_service.py:159-169 | A concrete case: with the first anchor on the 20th and the second on the 5th, the dates come out in non-ascending order. |
| RecurrenceLaws.SemiMonthlyFirstBeforeTypeError | services/main_service.py:155-164 | A concrete case: a semi-monthly transaction from Jan 10 with no second date raises `KeyError` for Jan 10 over an empty map, and `TypeError` over a map with a bucket for Jan 10. |
| RecurrenceLaws.TransactionDatesBounds | services/main_service.py:124-181 | Every date of a transaction is valid and `>= start_window`. It is `<= end_window` unless semi-monthly, and `<= end_date` unless one-time. |
| RecurrenceLaws.NoOverlapNoDates | services/main_service.py:124-125 | A transaction whose `[start, end]` does not overlap the window yields no dates and leaves both maps unchanged. |
| RecurrenceLaws.RecordAllOutcome | services/main_service.py:130-131 | Appending along a date list succeeds iff every date has a bucket, and keeps the key set. A failure names a listed date with no bucket. |
| RecurrenceLaws.RecordAllAt | services/main_service.py:150-151 | After a successful pass, a date's bucket gains the transaction once per occurrence of the date, and its total gains those amounts. |
| RecurrenceLaws.ExpandOneOutcome | services/main_service.py:108-181 | One transaction's pass succeeds iff its fields parse and all its dates have buckets. The key set is kept. |
| RecurrenceLaws.MissingKeyOnlyPastWindow | services/main_service.py:155-166 | With a bucket for every window day, a `KeyError` comes only from a semi-monthly transaction, for a date after the window end. |
| RecurrenceLaws.ExpandAllAt | services/main_service.py:108-184 | After the whole call, each bucket is extended by the transactions occurring on its date, in input order. Its total grows by their amounts. |
| RecurrenceLaws.ExpandAllOutcome | services/main_service.py:108-184 | The whole call succeeds iff every transaction's dates parse and fit the buckets. |
| RecurrenceLaws.RecurringDatesTotals | services/main_service.py:106-178 | `transaction_dates[d]` equals the sum of the amounts appended to `recurring_transactions[d]` during the call. |
| Finances.InterleavesPartition | services/main_service.py:212-218 | When the expenses interleave paid and unpaid, the two lists partition the expenses as a multiset. |
| Finances.InterleavesSum | services/main_service.py:212-219 | When they interleave, the expenses' total is the paid total plus the unpaid total. |
| Finances.SettleInterleaves | services/main_service.py:212-218 | Settling splits the day's expenses into paid and unpaid, each keeping the input order. |
| Finances.SettleBalance | services/main_service.py:204-223 | Settling from a non-negative balance keeps the invariant `Settled`. `can_pay` holds iff nothing is unpaid. If so, closing is available minus paid. If not, closing is 0 and the overdraft is unpaid minus (available minus paid), and positive. Every unpaid expense has a positive amount. |
| Finances.SettleTotals | services/main_service.py:204-223 | `can_pay` holds iff the expenses total at most what is available. Then every expense is paid and the closing balance is available minus the total. Otherwise the overdraft is the total minus the available amount. |
| Finances.ShortfallScenario | services/main_service.py:212-220 | 1000 available and a 1500 bill: nothing paid, overdraft 500, closing 0. |
| Finances.NoBreakScenario | services/main_service.py:212-223 | 1000 available and bills of 1500, 100 and 0: processing continues after the shortfall. 1500 and 100 are unpaid, the 0 bill is paid, and the overdraft is 600. |
| Finances.PayExpenses | services/main_service.py:207-223 | The inner loop computes the settlement of the day's expenses from the available balance (see SettleBalance, SettleTotals). |
| Finances.SimulateDay | services/main_service.py:196-239 | One iteration of the day loop computes the day's entry from its opening balance (see DayLaws). |
| Finances.DayLaws | services/main_service.py:199-237 | A day entry opens at the given balance and records the day's income and income transactions. Paid and unpaid interleave the day's expenses. `can_pay` holds iff unpaid is empty, iff the expenses are covered, iff there is no overdraft key. The closing balance is available minus paid, or 0 with the overdraft as the shortfall. It is never negative. |
| Finances.CalculateDailyFinances | services/main_service.py:186-246 | The day loop computes the ledger of the span `[start, end]` with opening balance 0 (see LedgerAt, LedgerDays, LedgerKeysDistinct). |
| Finances.LedgerAt | services/main_service.py:192-244 | One entry per day. Entry i is keyed by day i formatted `MM-DD-YYYY` and is that day's result from its opening balance. The first opening is the initial balance, and each later opening is the previous closing. |
| Finances.LedgerDays | services/main_service.py:195-244 | Every entry satisfies the day laws with a non-negative opening balance. |
| Finances.LedgerKeysDistinct | services/main_service.py:239 | Distinct days get distinct string keys, so no entry of the result dict overwrites another. |
| Service.OfType | services/main_service.py:40-46 | The selected transactions all have the requested type and come from the input. |
| Service.SeparateInterleaves | services/main_service.py:40-46 | The income and expense lists interleave to the input, each keeping the input order. |
| Service.SeparatePartition | services/main_service.py:40-46 | The two lists partition the input as a multiset, and their lengths add up to its length. |
| Service.OfTypeAppend | services/main_service.py:40-46 | Selecting from a concatenation is concatenating the selections. So two calls of `separate_transactions_by_type` leave the lists one call on the concatenated input would, and a transaction passed twice is held twice. |
| Service.BalanceDictAt | services/main_service.py:35-38 | The dict has a key for exactly the days of `[start, end]`. Each holds balance 0, no overdraft and `can_pay` true. |
| Service.ConvertBalanceKeysToString | services/main_service.py:48-57 | The converted dict's keys are exactly the formatted keys. Each carries the value of its date. |
| Service.ConvertedKeysParse | services/main_service.py:48-57 | Every converted key parses back to a date of the original dict that formats to it. |
| Service.ExpandedAt | services/main_service.py:257-261 | After a successful expansion over the window buckets, each window day's bucket is exactly the day's contribution. |
| Service.ProjectionOutcome | services/main_service.py:248-263 | The projection succeeds iff every income and every expense transaction's fields parse and all its dates are window days. |
| Service.ExpandAllMissingKey | services/main_service.py:257-261 | Over a bucket for every window day, a `KeyError` implies a semi-monthly transaction in the list, and a date after the window end. |
| Service.ProjectionMissingKey | services/main_service.py:248-263 | A `KeyError` from the projection comes from a semi-monthly transaction and names a date after the window end. |
| Service.ProjectionShape | services/main_service.py:248-263 | A successful projection has 241 entries. Entry i is keyed by window day i. The first opening balance is 0, and each later opening is the previous closing. |
| Service.ProjectionDay | services/main_service.py:248-263 | Each day's entry obeys the day laws, where the day's income and expenses are the transactions occurring on that day, in input order. |
| Service.MainService.constructor | services/main_service.py:21-29 | A new service holds the user id and two empty transaction lists. |
| Service.MainService.SeparateTransactionsByType | services/main_service.py:40-46 | The income list is extended by the income transactions and the expense list by the expense transactions, in input order. |
| Service.MainService.CalculateBalances | services/main_service.py:248-263 | The method separates the transactions into its lists. It builds both dense maps over the window and expands the income and then the expense list. It returns the ledger, which equals `Projection` of its lists and `today` (see the Projection lemmas). |

## Left out

- The clock. The source reads `datetime.now()` four times, at three sites:
  in the constructor (line 23), in `calculate_balances` (line 254, the read
  that fixes the dense maps and the ledger window), and in each of the two
  `calculate_recurring_dates` calls (line 100). The model takes one `today`
  parameter for the whole call. It does not model a call that
  crosses midnight, or the time of day, which the source drops by re-parsing
  the window bounds as dates.
- The transaction store. `list_user_transactions` is a DynamoDB call; the
  transactions are a parameter of `CalculateBalances`.
- Logging (lines 105 and 251).
- The constructor's `balance_dict` and `current_balance` fields. They are
  never read, so `MainService.constructor` does not build them.
  `initialize_balance_dict` is modelled on its own (`InitializeBalanceDict`,
  `BalanceDictAt`).
- `datetime`'s year range (1–9999). Dates are unbounded. The projection
  requires a window whose years have four digits, which is where
  `strftime`/`strptime` round-trip.
- ConvertBalanceKeysToString: requires every key's year to have four digits
  (1000–9999), which `strftime` does not demand. The model's `FormatDate`
  renders only four-digit years. This is enough for every window
  `calculate_balances` builds, but it does not cover a dict with other
  years.
- Unicode digits. `strptime` also accepts non-ASCII decimal digits; the
  parser accepts ASCII digits only.
- Decimal context precision. Amounts are exact reals. `Decimal` rounds a
  result that needs more than 28 significant digits; the model does not.
- In-place mutation of the caller's dict. `calculate_recurring_dates` appends
  to the dict it is passed and returns it. The model passes the map by value
  and returns the new one, which is the same thing for the one caller,
  `calculate_balances`. When an append raises, the appends already made to
  the caller's dict are not represented; the model only returns the error,
  which `calculate_balances` propagates.
- Dict ordering.
  - `dict(sorted(transaction_dates.items()))` is modelled as a map, so the
    sorted key order is not represented. The totals are not used by
    `calculate_balances`.
  - `convert_balance_keys_to_string` iterates in dict order; the model
    visits the keys in an arbitrary order, and the result is a map either
    way.
  - The ledger result keeps the day order as a sequence of (key, entry)
    pairs.
- The dead `if available_balance < 0: break` guard (line 222). It can never
  fire, so the model has no branch for it.
- `last_day_of_month` is a field of the record but is never read by the
  engine.
