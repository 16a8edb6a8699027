/**
 * The transaction record the engine consumes (models/transaction.py): a
 * pydantic model with two string enums, a non-negative Decimal amount, and
 * optional date strings, weekday and flags.
 */
module TransactionModel {
  import opened Wrappers

  /** TransactionType, a str enum. */
  datatype TransactionType = Income | Expense

  /** TransactionFrequency, a str enum. */
  datatype TransactionFrequency = OneTime | Weekly | BiWeekly | SemiMonthly | Monthly

  /** Decimal money with the `ge=0` constraint: exact, never negative. */
  type Amount = x: real | x >= 0.0

  /** TransactionBase (and TransactionCreate, which adds nothing to it). */
  datatype TransactionBase = TransactionBase(
    userId: string,
    transactionType: TransactionType,
    name: string,
    amount: Amount,
    frequency: TransactionFrequency,
    dateOfTransaction: Option<string>,
    dateOfSecondTransaction: Option<string>,
    day: Option<int>,
    startDate: Option<string>,
    endDate: Option<string>,
    skipEndDate: Option<bool>,
    lastDayOfMonth: Option<bool>)

  type TransactionCreate = TransactionBase

  /** Transaction: the base fields plus the required id. */
  datatype Transaction = Transaction(id: string, base: TransactionBase)

  /** The value each enum member carries. */
  function TypeValue(t: TransactionType): string
  {
    match t
    case Income => "income"
    case Expense => "expense"
  }

  function FrequencyValue(f: TransactionFrequency): string
  {
    match f
    case OneTime => "one-time"
    case Weekly => "weekly"
    case BiWeekly => "bi-weekly"
    case SemiMonthly => "semi-monthly"
    case Monthly => "monthly"
  }

  /** Looking an enum up by value (pydantic's validation): only the listed values are accepted. */
  function TypeOfValue(s: string): (r: Option<TransactionType>)
    ensures r.Some? <==> s in {"income", "expense"}
    ensures r.Some? ==> TypeValue(r.value) == s
  {
    if s == "income" then Some(Income)
    else if s == "expense" then Some(Expense)
    else None
  }

  function FrequencyOfValue(s: string): (r: Option<TransactionFrequency>)
    ensures r.Some? <==> s in {"one-time", "weekly", "bi-weekly", "semi-monthly", "monthly"}
    ensures r.Some? ==> FrequencyValue(r.value) == s
  {
    if s == "one-time" then Some(OneTime)
    else if s == "weekly" then Some(Weekly)
    else if s == "bi-weekly" then Some(BiWeekly)
    else if s == "semi-monthly" then Some(SemiMonthly)
    else if s == "monthly" then Some(Monthly)
    else None
  }

  /** Every member is found again by its value, so the values are distinct. */
  lemma EnumValuesRoundTrip(t: TransactionType, f: TransactionFrequency)
    ensures TypeOfValue(TypeValue(t)) == Some(t)
    ensures FrequencyOfValue(FrequencyValue(f)) == Some(f)
  {
    match t
    case Income =>
    case Expense =>
  }

  /** A record built from the required fields only: every optional field takes its declared default. */
  function NewTransactionBase(userId: string, transactionType: TransactionType, name: string,
                              amount: Amount, frequency: TransactionFrequency): (b: TransactionBase)
    ensures b.userId == userId && b.transactionType == transactionType && b.name == name
    ensures b.amount == amount && b.frequency == frequency
    ensures b.dateOfTransaction.None? && b.dateOfSecondTransaction.None? && b.day.None?
    ensures b.startDate.None? && b.endDate.None?
    ensures b.skipEndDate == Some(false) && b.lastDayOfMonth == Some(false)
  {
    TransactionBase(userId, transactionType, name, amount, frequency,
                    None, None, None, None, None, Some(false), Some(false))
  }

  /** Python truthiness of an optional string: present and non-empty. */
  predicate IsGiven(s: Option<string>)
  {
    s.Some? && s.value != ""
  }

  /** Python truthiness of an optional flag. */
  predicate IsSet(b: Option<bool>)
  {
    b == Some(true)
  }

  function SumAmounts(ts: seq<Transaction>): (r: real)
    ensures r >= 0.0
  {
    if ts == [] then 0.0 else SumAmounts(ts[..|ts| - 1]) + ts[|ts| - 1].base.amount
  }

  lemma {:induction false} SumAmountsAppend(a: seq<Transaction>, b: seq<Transaction>)
    ensures SumAmounts(a + b) == SumAmounts(a) + SumAmounts(b)
    decreases |b|
  {
    if b != [] {
      assert (a + b)[..|a + b| - 1] == a + b[..|b| - 1];
      SumAmountsAppend(a, b[..|b| - 1]);
    } else {
      assert a + b == a;
    }
  }
}
