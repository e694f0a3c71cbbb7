/** The transaction record of src/models/transaction.py: its two enumerations, the record
    itself, the sign convention the analytics rely on, and the calendar arithmetic on its
    date field (whole-day spans and the "YYYY-MM" month key). */
module Transactions {
  import opened Wrappers

  /** The eighteen spending/income categories, in declaration order. */
  datatype Category =
    | Groceries | Fuel | Rent | Utilities | Shopping | Clothes | CarService | CarPurchase
    | Entertainment | Dining | Healthcare | Insurance | LoanPayment | CreditCardPayment
    | DebtPayment | Income | Savings | Other

  const AllCategories: seq<Category> :=
    [ Groceries, Fuel, Rent, Utilities, Shopping, Clothes, CarService, CarPurchase,
      Entertainment, Dining, Healthcare, Insurance, LoanPayment, CreditCardPayment,
      DebtPayment, Income, Savings, Other ]

  /** The enumeration value of a category: the lower-case spelling of its member name. */
  function CategoryValue(c: Category): string {
    match c
    case Groceries => "groceries"
    case Fuel => "fuel"
    case Rent => "rent"
    case Utilities => "utilities"
    case Shopping => "shopping"
    case Clothes => "clothes"
    case CarService => "car_service"
    case CarPurchase => "car_purchase"
    case Entertainment => "entertainment"
    case Dining => "dining"
    case Healthcare => "healthcare"
    case Insurance => "insurance"
    case LoanPayment => "loan_payment"
    case CreditCardPayment => "credit_card_payment"
    case DebtPayment => "debt_payment"
    case Income => "income"
    case Savings => "savings"
    case Other => "other"
  }

  /** `TransactionCategory(s)`: lookup by value; any other string is refused. */
  function ParseCategory(s: string): (r: Option<Category>)
    ensures r.Some? ==> CategoryValue(r.value) == s
  {
    if s == "groceries" then Some(Groceries)
    else if s == "fuel" then Some(Fuel)
    else if s == "rent" then Some(Rent)
    else if s == "utilities" then Some(Utilities)
    else if s == "shopping" then Some(Shopping)
    else if s == "clothes" then Some(Clothes)
    else if s == "car_service" then Some(CarService)
    else if s == "car_purchase" then Some(CarPurchase)
    else if s == "entertainment" then Some(Entertainment)
    else if s == "dining" then Some(Dining)
    else if s == "healthcare" then Some(Healthcare)
    else if s == "insurance" then Some(Insurance)
    else if s == "loan_payment" then Some(LoanPayment)
    else if s == "credit_card_payment" then Some(CreditCardPayment)
    else if s == "debt_payment" then Some(DebtPayment)
    else if s == "income" then Some(Income)
    else if s == "savings" then Some(Savings)
    else if s == "other" then Some(Other)
    else None
  }

  lemma CategoryRoundTrip(c: Category)
    ensures ParseCategory(CategoryValue(c)) == Some(c)
  {
    match c
    case Groceries => case Fuel => case Rent => case Utilities => case Shopping =>
    case Clothes => case CarService => case CarPurchase => case Entertainment =>
    case Dining => case Healthcare => case Insurance => case LoanPayment =>
    case CreditCardPayment => case DebtPayment => case Income => case Savings => case Other =>
  }

  /** Parsing succeeds exactly on the eighteen value strings. */
  lemma ParseCategoryExact(s: string)
    ensures ParseCategory(s).Some? <==> exists c :: CategoryValue(c) == s
  {
    if c :| CategoryValue(c) == s {
      CategoryRoundTrip(c);
    }
  }

  /** A category's position in the enumeration. */
  function Ordinal(c: Category): nat {
    match c
    case Groceries => 0 case Fuel => 1 case Rent => 2 case Utilities => 3 case Shopping => 4
    case Clothes => 5 case CarService => 6 case CarPurchase => 7 case Entertainment => 8
    case Dining => 9 case Healthcare => 10 case Insurance => 11 case LoanPayment => 12
    case CreditCardPayment => 13 case DebtPayment => 14 case Income => 15 case Savings => 16
    case Other => 17
  }

  /** The enumeration lists all eighteen members, each at its own position. */
  lemma CategoriesComplete()
    ensures |AllCategories| == 18
    ensures forall c :: c in AllCategories && AllCategories[Ordinal(c)] == c
  {
    forall c ensures c in AllCategories && AllCategories[Ordinal(c)] == c {
      match c
      case Groceries => case Fuel => case Rent => case Utilities => case Shopping =>
      case Clothes => case CarService => case CarPurchase => case Entertainment =>
      case Dining => case Healthcare => case Insurance => case LoanPayment =>
      case CreditCardPayment => case DebtPayment => case Income => case Savings => case Other =>
    }
  }

  /** Distinct members of the enumeration have distinct value strings. */
  lemma CategoriesDistinct()
    ensures forall i, j :: 0 <= i < j < |AllCategories| ==>
      CategoryValue(AllCategories[i]) != CategoryValue(AllCategories[j])
  {
    forall i | 0 <= i < |AllCategories| ensures Ordinal(AllCategories[i]) == i {
      assert i in {0, 1, 2, 3, 4, 5, 6, 7, 8, 9, 10, 11, 12, 13, 14, 15, 16, 17};
    }
    forall i, j | 0 <= i < j < |AllCategories|
      ensures CategoryValue(AllCategories[i]) != CategoryValue(AllCategories[j])
    {
      CategoryRoundTrip(AllCategories[i]);
      CategoryRoundTrip(AllCategories[j]);
    }
  }

  /** The five transaction types, in declaration order. */
  datatype TransactionType = DebitTx | CreditTx | LoanPaymentTx | DebtPaymentTx | TransferTx

  const AllTransactionTypes: seq<TransactionType> :=
    [ DebitTx, CreditTx, LoanPaymentTx,
      DebtPaymentTx, TransferTx ]

  function TypeValue(k: TransactionType): string {
    match k
    case DebitTx => "debit"
    case CreditTx => "credit"
    case LoanPaymentTx => "loan_payment"
    case DebtPaymentTx => "debt_payment"
    case TransferTx => "transfer"
  }

  function ParseType(s: string): (r: Option<TransactionType>)
    ensures r.Some? ==> TypeValue(r.value) == s
  {
    if s == "debit" then Some(DebitTx)
    else if s == "credit" then Some(CreditTx)
    else if s == "loan_payment" then Some(LoanPaymentTx)
    else if s == "debt_payment" then Some(DebtPaymentTx)
    else if s == "transfer" then Some(TransferTx)
    else None
  }

  lemma TypeRoundTrip(k: TransactionType)
    ensures ParseType(TypeValue(k)) == Some(k)
  {
    match k
    case DebitTx => case CreditTx => case LoanPaymentTx => case DebtPaymentTx => case TransferTx =>
  }

  /** The type enumeration lists five distinct members, each with its own value string. */
  lemma TypesDistinct()
    ensures |AllTransactionTypes| == 5
    ensures forall k :: k in AllTransactionTypes
    ensures forall i, j :: 0 <= i < j < |AllTransactionTypes| ==>
      TypeValue(AllTransactionTypes[i]) != TypeValue(AllTransactionTypes[j])
  {
    forall k ensures k in AllTransactionTypes {
      match k
      case DebitTx => case CreditTx => case LoanPaymentTx => case DebtPaymentTx => case TransferTx =>
    }
    forall i, j | 0 <= i < j < |AllTransactionTypes|
      ensures TypeValue(AllTransactionTypes[i]) != TypeValue(AllTransactionTypes[j])
    {
      TypeRoundTrip(AllTransactionTypes[i]);
      TypeRoundTrip(AllTransactionTypes[j]);
    }
  }

  /** A calendar day, counted in whole days from 1970-01-01 (day 0). */
  type Day = int

  /** One transaction. Positive amounts are income or credits, negative amounts expenses or
      debits; the account type is optional and absent unless given. */
  datatype Transaction = Transaction(
    date: Day,
    amount: real,
    category: Category,
    description: string,
    kind: TransactionType,
    accountType: Option<string> := None)

  predicate IsIncome(t: Transaction) { t.amount > 0.0 }
  predicate IsExpense(t: Transaction) { t.amount < 0.0 }

  /** Every transaction is exactly one of income, expense, or (amount zero) neither. */
  lemma SignConvention(t: Transaction)
    ensures IsIncome(t) ==> !IsExpense(t)
    ensures !IsIncome(t) && !IsExpense(t) <==> t.amount == 0.0
  {
  }

  lemma AccountTypeDefaultsToNone(d: Day, x: real, c: Category, s: string, k: TransactionType)
    ensures Transaction(d, x, c, s, k).accountType == None
  {
  }

  function Abs(x: real): (r: real)
    ensures r >= 0.0 && (r == x || r == -x)
  {
    if x < 0.0 then -x else x
  }

  /** `min(t.date for t in ts)`. */
  function MinDate(ts: seq<Transaction>): (r: Day)
    requires |ts| > 0
    ensures forall t | t in ts :: r <= t.date
    ensures exists t | t in ts :: t.date == r
  {
    if |ts| == 1 then ts[0].date
    else
      var m := MinDate(ts[1..]);
      assert forall t | t in ts[1..] :: t in ts;
      if ts[0].date <= m then ts[0].date else m
  }

  /** `max(t.date for t in ts)`. */
  function MaxDate(ts: seq<Transaction>): (r: Day)
    requires |ts| > 0
    ensures forall t | t in ts :: t.date <= r
    ensures exists t | t in ts :: t.date == r
  {
    if |ts| == 1 then ts[0].date
    else
      var m := MaxDate(ts[1..]);
      assert forall t | t in ts[1..] :: t in ts;
      if ts[0].date >= m then ts[0].date else m
  }

  /** `(max(dates) - min(dates)).days`: the whole-day span of a non-empty list. */
  function Span(ts: seq<Transaction>): (r: int)
    requires |ts| > 0
    ensures r >= 0
    ensures forall t, u | t in ts && u in ts :: t.date - u.date <= r
  {
    assert ts[0] in ts;
    MaxDate(ts) - MinDate(ts)
  }

  /** The span is attained: some transaction lies exactly that many days after another. */
  lemma SpanAttained(ts: seq<Transaction>)
    requires |ts| > 0
    ensures exists t, u | t in ts && u in ts :: t.date - u.date == Span(ts)
  {
    var mx, mn := MaxDate(ts), MinDate(ts);
    var hi :| hi in ts && hi.date == mx;
    var lo :| lo in ts && lo.date == mn;
    assert hi.date - lo.date == Span(ts);
  }

  /** A span over a sub-list never exceeds the span over the whole list. */
  lemma SpanOfSublist(sub: seq<Transaction>, ts: seq<Transaction>)
    requires |sub| > 0
    requires forall t | t in sub :: t in ts
    ensures |ts| > 0 && Span(sub) <= Span(ts)
  {
    assert sub[0] in ts;
    var mx, mn := MaxDate(sub), MinDate(sub);
    var hi :| hi in sub && hi.date == mx;
    var lo :| lo in sub && lo.date == mn;
  }

  /** The calendar month of a day: the value `strftime("%Y-%m")` prints. */
  datatype YearMonth = YearMonth(year: int, month: int)

  /** Proleptic Gregorian year and month of a day count (days-to-civil conversion over
      400-year eras of 146097 days; Dafny's `/` floors for a positive divisor). */
  function MonthOf(d: Day): YearMonth {
    var z := d + 719468;
    var era := z / 146097;
    var doe := z - era * 146097;
    var yoe := (doe - doe / 1460 + doe / 36524 - doe / 146096) / 365;
    var doy := doe - (365 * yoe + yoe / 4 - yoe / 100);
    var mp := (5 * doy + 2) / 153;
    var m := if mp < 10 then mp + 3 else mp - 9;
    var y := yoe + era * 400;
    YearMonth(if m <= 2 then y + 1 else y, m)
  }
}
