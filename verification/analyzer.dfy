/** The analytics engine of src/analysis/financial_analyzer.py. An analyzer is built once from
    a list of transactions and never changes, so it is a value; its reports are sums over
    filtered transactions. The reports whose source code loops over the transactions and
    updates a dictionary or list in place are methods, each proved equal to a function that
    says what the loop builds; the lemmas state what those functions mean. */
module FinancialAnalyzer {
  import opened Wrappers
  import opened Transactions
  import opened Ledger
  import opened Text

  datatype ValidationError =
    | NoTransactions           // "No transactions provided."
    | NotEnoughData(days: int) // "Not enough data: only {days} days of transactions."

  datatype Analyzer = Analyzer(transactions: seq<Transaction>) {
    /** What construction checks: at least one transaction, spanning 30 days or more. */
    predicate Valid() {
      |transactions| > 0 && Span(transactions) >= 30
    }
  }

  /** `FinancialAnalyzer(transactions)`: refuses an empty list and a span under 30 days. */
  function Create(ts: seq<Transaction>): (r: Result<Analyzer, ValidationError>)
    ensures r.Success? <==> exists t, u | t in ts && u in ts :: t.date - u.date >= 30
    ensures r.Success? ==> r.value.transactions == ts && r.value.Valid()
    ensures r == Failure(NoTransactions) <==> ts == []
    ensures r.Failure? && ts != [] ==> r == Failure(NotEnoughData(Span(ts))) && Span(ts) < 30
  {
    if ts == [] then Failure(NoTransactions)
    else
      SpanAttained(ts);
      if Span(ts) < 30 then Failure(NotEnoughData(Span(ts))) else Success(Analyzer(ts))
  }

  /** Python's `max(x, y)` on numbers. */
  function MaxReal(x: real, y: real): (r: real)
    ensures r >= x && r >= y && (r == x || r == y)
  {
    if x >= y then x else y
  }

  /** `_months()`: the span of all transactions in 30-day months, never less than one. */
  function Months(ts: seq<Transaction>): (r: real)
    requires |ts| > 0
    ensures r >= 1.0 && r >= Span(ts) as real / 30.0
    ensures r == 1.0 || r == Span(ts) as real / 30.0
  {
    MaxReal(Span(ts) as real / 30.0, 1.0)
  }

  /** On an analyzer that passed validation the floor of one month never applies. */
  lemma {:induction false} MonthsOfValid(a: Analyzer)
    requires a.Valid()
    ensures Months(a.transactions) == Span(a.transactions) as real / 30.0
  {
  }

  function CategoryKey(t: Transaction): Category { t.category }

  /** `t.date.strftime("%Y-%m")`. */
  function MonthKey(t: Transaction): YearMonth { MonthOf(t.date) }

  /** The three categories the debt analysis counts. */
  predicate IsDebtPayment(t: Transaction) {
    t.category == LoanPayment || t.category == DebtPayment || t.category == CreditCardPayment
  }

  /** The contributions `d[key(t)] += abs(t.amount)` that a loop over the transactions makes
      for each transaction it keeps, in list order. */
  function Tally<K>(ts: seq<Transaction>, keep: Transaction -> bool, key: Transaction -> K)
    : seq<(K, real)>
  {
    if ts == [] then []
    else
      var t := ts[|ts| - 1];
      Tally(ts[..|ts| - 1], keep, key) + (if keep(t) then [(key(t), Abs(t.amount))] else [])
  }

  /** `sum(abs(t.amount) for t in ts if keep(t))`. */
  function TotalAbs(ts: seq<Transaction>, keep: Transaction -> bool): (r: real)
    ensures r >= 0.0
  {
    if ts == [] then 0.0
    else
      var t := ts[|ts| - 1];
      TotalAbs(ts[..|ts| - 1], keep) + (if keep(t) then Abs(t.amount) else 0.0)
  }

  /** What was spent on category c: the sum of |amount| over its negative transactions. */
  function SpentOn(ts: seq<Transaction>, c: Category): (r: real)
    ensures r >= 0.0
  {
    if ts == [] then 0.0
    else
      var t := ts[|ts| - 1];
      SpentOn(ts[..|ts| - 1], c) + (if IsExpense(t) && t.category == c then -t.amount else 0.0)
  }

  lemma {:induction false} TallySnoc<K>(ts: seq<Transaction>, t: Transaction, keep: Transaction -> bool,
                     key: Transaction -> K)
    ensures Tally(ts + [t], keep, key)
      == Tally(ts, keep, key) + (if keep(t) then [(key(t), Abs(t.amount))] else [])
  {
    assert (ts + [t])[..|ts|] == ts;
  }

  lemma {:induction false} TallyConcat<K>(a: seq<Transaction>, b: seq<Transaction>,
                                          keep: Transaction -> bool, key: Transaction -> K)
    ensures Tally(a + b, keep, key) == Tally(a, keep, key) + Tally(b, keep, key)
  {
    if b == [] {
      assert a + b == a;
    } else {
      var p := b[..|b| - 1];
      TallyConcat(a, p, keep, key);
      assert a + b == (a + p) + [b[|b| - 1]];
      TallySnoc(a + p, b[|b| - 1], keep, key);
    }
  }

  /** The keys contributed are exactly the keys of the kept transactions. */
  lemma {:induction false} TallyKeys<K>(ts: seq<Transaction>, keep: Transaction -> bool,
                                        key: Transaction -> K, k: K)
    ensures k in Keys(Tally(ts, keep, key)) <==> exists t :: t in ts && keep(t) && key(t) == k
  {
    if ts != [] {
      var p := ts[..|ts| - 1];
      var t := ts[|ts| - 1];
      TallyKeys(p, keep, key, k);
      assert ts == p + [t];
      var x := if keep(t) then [(key(t), Abs(t.amount))] else [];
      KeysConcat(Tally(p, keep, key), x);
      if keep(t) {
        assert Keys(x) == [key(t)];
      } else {
        assert Keys(x) == [];
      }
      if exists u :: u in ts && keep(u) && key(u) == k {
        var u :| u in ts && keep(u) && key(u) == k;
        if u != t {
          assert u in p;
        }
      }
      if exists u :: u in p && keep(u) && key(u) == k {
        var u :| u in p && keep(u) && key(u) == k;
        assert u in ts;
      }
    }
  }

  /** The contributions add up to the total over the kept transactions, whatever the key. */
  lemma {:induction false} TallySum<K>(ts: seq<Transaction>, keep: Transaction -> bool,
                                       key: Transaction -> K)
    ensures Sum(Values(Tally(ts, keep, key))) == TotalAbs(ts, keep)
  {
    if ts != [] {
      var p := ts[..|ts| - 1];
      var t := ts[|ts| - 1];
      TallySum(p, keep, key);
      var x := if keep(t) then [(key(t), Abs(t.amount))] else [];
      ValuesConcat(Tally(p, keep, key), x);
      SumConcat(Values(Tally(p, keep, key)), Values(x));
      assert Sum(Values(x)) == if keep(t) then Abs(t.amount) else 0.0 by {
        if keep(t) {
          assert Values(x) == [Abs(t.amount)];
          assert Values(x)[..0] == [];
        }
      }
    }
  }

  /** An expense contributes its magnitude, which is positive. */
  lemma {:induction false} TallyExpensePositive<K>(ts: seq<Transaction>, key: Transaction -> K)
    ensures AllPositive(Tally(ts, IsExpense, key))
  {
    if ts != [] {
      TallyExpensePositive(ts[..|ts| - 1], key);
    }
  }

  lemma {:induction false} TallyCategoryTotal(ts: seq<Transaction>, c: Category)
    ensures KeyTotal(Tally(ts, IsExpense, CategoryKey), c) == SpentOn(ts, c)
  {
    if ts != [] {
      var p := ts[..|ts| - 1];
      var t := ts[|ts| - 1];
      TallyCategoryTotal(p, c);
      var e := Tally(ts, IsExpense, CategoryKey);
      var ep := Tally(p, IsExpense, CategoryKey);
      assert SpentOn(ts, c) == SpentOn(p, c) + (if IsExpense(t) && t.category == c then -t.amount else 0.0);
      if IsExpense(t) {
        var x := (t.category, Abs(t.amount));
        assert e == ep + [x];
        assert e[..|e| - 1] == ep && e[|e| - 1] == x;
        assert Abs(t.amount) == -t.amount;
        assert KeyTotal(e, c) == KeyTotal(ep, c) + (if t.category == c then -t.amount else 0.0);
      } else {
        assert e == ep;
      }
    }
  }

  /** `get_spending_by_category()`, as a value: the dictionary of category totals. */
  function CategorySpending(ts: seq<Transaction>): seq<(Category, real)> {
    Grouped(Tally(ts, IsExpense, CategoryKey))
  }

  /** `get_monthly_spending()`, as a value: the dictionary of "YYYY-MM" totals. */
  function MonthlySpending(ts: seq<Transaction>): seq<(YearMonth, real)> {
    Grouped(Tally(ts, IsExpense, MonthKey))
  }

  /** The loop `for t in ts: if keep(t): d[key(t)] += abs(t.amount)` over a fresh
      `defaultdict(float)`, returning the dictionary it builds. */
  method GroupTally<K(==)>(ts: seq<Transaction>, keep: Transaction -> bool, key: Transaction -> K)
    returns (r: seq<(K, real)>)
    ensures r == Grouped(Tally(ts, keep, key))
  {
    r := [];
    var i := 0;
    while i < |ts|
      invariant 0 <= i <= |ts|
      invariant r == Grouped(Tally(ts[..i], keep, key))
    {
      var t := ts[i];
      if keep(t) {
        r := Add(r, key(t), Abs(t.amount));
      }
      assert ts[..i + 1] == ts[..i] + [t];
      TallySnoc(ts[..i], t, keep, key);
      if keep(t) {
        GroupedSnoc(Tally(ts[..i], keep, key), (key(t), Abs(t.amount)));
        assert Tally(ts[..i + 1], keep, key) == Tally(ts[..i], keep, key) + [(key(t), Abs(t.amount))];
      } else {
        assert Tally(ts[..i + 1], keep, key) == Tally(ts[..i], keep, key);
      }
      i := i + 1;
    }
    assert ts[..i] == ts;
  }

  /** `get_spending_by_category()`: each expense adds its magnitude to its category. */
  method SpendingByCategory(a: Analyzer) returns (r: seq<(Category, real)>)
    ensures r == CategorySpending(a.transactions)
  {
    r := GroupTally(a.transactions, IsExpense, CategoryKey);
  }

  /** `get_monthly_spending()`: each expense adds its magnitude to its month. */
  method MonthlySpendingOf(a: Analyzer) returns (r: seq<(YearMonth, real)>)
    ensures r == MonthlySpending(a.transactions)
  {
    r := GroupTally(a.transactions, IsExpense, MonthKey);
  }

  /** Spending by category: one entry per category that has an expense, in the order the
      categories first occur, each holding what was spent on it, which is positive. */
  lemma {:induction false} CategorySpendingSpec(ts: seq<Transaction>)
    ensures Distinct(Keys(CategorySpending(ts)))
    ensures forall c :: (c in Keys(CategorySpending(ts))
      <==> exists t :: t in ts && t.amount < 0.0 && t.category == c)
    ensures forall c :: Get(CategorySpending(ts), c) == SpentOn(ts, c)
    ensures forall i :: 0 <= i < |CategorySpending(ts)| ==>
      CategorySpending(ts)[i].1 > 0.0
      && CategorySpending(ts)[i].1 == SpentOn(ts, CategorySpending(ts)[i].0)
    ensures Keys(CategorySpending(ts)) == FirstSeen(Keys(Tally(ts, IsExpense, CategoryKey)))
  {
    var e := Tally(ts, IsExpense, CategoryKey);
    GroupedSpec(e);
    TallyExpensePositive(ts, CategoryKey);
    GroupedPositive(e);
    forall c ensures c in Keys(e) <==> exists t :: t in ts && t.amount < 0.0 && t.category == c {
      TallyKeys(ts, IsExpense, CategoryKey, c);
    }
    forall c ensures KeyTotal(e, c) == SpentOn(ts, c) {
      TallyCategoryTotal(ts, c);
    }
  }

  /** Both spending dictionaries add up to the same total: the magnitudes of all expenses. */
  lemma {:induction false} SpendingTotalsAgree(ts: seq<Transaction>)
    ensures Sum(Values(MonthlySpending(ts))) == Sum(Values(CategorySpending(ts)))
    ensures Sum(Values(CategorySpending(ts))) == TotalAbs(ts, IsExpense)
  {
    GroupedSum(Tally(ts, IsExpense, CategoryKey));
    GroupedSum(Tally(ts, IsExpense, MonthKey));
    TallySum(ts, IsExpense, CategoryKey);
    TallySum(ts, IsExpense, MonthKey);
  }

  /** Monthly spending: one entry per month with an expense, each positive. */
  lemma {:induction false} MonthlySpendingSpec(ts: seq<Transaction>)
    ensures Distinct(Keys(MonthlySpending(ts)))
    ensures forall m :: (m in Keys(MonthlySpending(ts))
      <==> exists t :: t in ts && t.amount < 0.0 && MonthOf(t.date) == m)
    ensures AllPositive(MonthlySpending(ts))
  {
    var e := Tally(ts, IsExpense, MonthKey);
    GroupedSpec(e);
    TallyExpensePositive(ts, MonthKey);
    GroupedPositive(e);
    forall m ensures m in Keys(e) <==> exists t :: t in ts && t.amount < 0.0 && MonthOf(t.date) == m {
      TallyKeys(ts, IsExpense, MonthKey, m);
    }
  }

  /** A transaction of amount zero counts nowhere: removing it changes neither spending
      dictionary. */
  lemma {:induction false} ZeroAmountIgnored(p: seq<Transaction>, t: Transaction, q: seq<Transaction>)
    requires t.amount == 0.0
    ensures CategorySpending(p + [t] + q) == CategorySpending(p + q)
    ensures MonthlySpending(p + [t] + q) == MonthlySpending(p + q)
  {
    ZeroAmountTally(p, t, q, CategoryKey);
    ZeroAmountTally(p, t, q, MonthKey);
  }

  lemma {:induction false} ZeroAmountTally<K>(p: seq<Transaction>, t: Transaction, q: seq<Transaction>,
                           key: Transaction -> K)
    requires t.amount == 0.0
    ensures Tally(p + [t] + q, IsExpense, key) == Tally(p + q, IsExpense, key)
  {
    TallyConcat(p + [t], q, IsExpense, key);
    TallyConcat(p, q, IsExpense, key);
    TallySnoc(p, t, IsExpense, key);
    assert Tally(p + [t], IsExpense, key) == Tally(p, IsExpense, key);
  }

  /** `[t for t in ts if t.amount > 0]`. */
  function Incomes(ts: seq<Transaction>): (r: seq<Transaction>)
    ensures |r| <= |ts|
    ensures forall t :: t in r <==> t in ts && IsIncome(t)
  {
    if ts == [] then []
    else
      var t := ts[|ts| - 1];
      assert forall u :: u in ts <==> u in ts[..|ts| - 1] || u == t;
      Incomes(ts[..|ts| - 1]) + (if IsIncome(t) then [t] else [])
  }

  /** `sum(t.amount for t in ts)`. */
  function AmountTotal(ts: seq<Transaction>): real {
    if ts == [] then 0.0 else AmountTotal(ts[..|ts| - 1]) + ts[|ts| - 1].amount
  }

  lemma {:induction false} IncomeTotalPositive(ts: seq<Transaction>)
    ensures AmountTotal(Incomes(ts)) >= 0.0
    ensures Incomes(ts) != [] ==> AmountTotal(Incomes(ts)) > 0.0
  {
    if ts != [] {
      var p := ts[..|ts| - 1];
      var t := ts[|ts| - 1];
      IncomeTotalPositive(p);
      var r := Incomes(ts);
      if IsIncome(t) {
        assert r == Incomes(p) + [t];
        assert r[..|r| - 1] == Incomes(p);
        assert AmountTotal(r) == AmountTotal(Incomes(p)) + t.amount;
      } else {
        assert r == Incomes(p);
      }
    }
  }

  /** The dictionary `get_income_summary()` returns. */
  datatype IncomeSummary = IncomeSummary(
    total: real,
    averageMonthly: real,
    count: nat,
    monthsCovered: real,
    monthlySavings: real,
    savingsRate: real,
    averageMonthlySpending: real)

  const NoIncome := IncomeSummary(0.0, 0.0, 0, 0.0, 0.0, 0.0, 0.0)

  /** The months the income covers: the span of the income transactions alone, in 30-day
      months, never less than one. */
  function IncomeMonths(ts: seq<Transaction>): (r: real)
    requires Incomes(ts) != []
    ensures r >= 1.0
  {
    MaxReal(Span(Incomes(ts)) as real / 30.0, 1.0)
  }

  /** `sum(monthly.values()) / len(monthly)`, or 0 with no spending. */
  function AverageMonthlySpending(ts: seq<Transaction>): real {
    MeanValue(MonthlySpending(ts))
  }

  /** The figures of an income summary from its total, the months it covers, the number of
      income transactions and the average monthly spending. */
  function Summarize(total: real, months: real, count: nat, avgSpending: real): IncomeSummary
    requires months > 0.0
  {
    var avgIncome := total / months;
    var savings := avgIncome - avgSpending;
    IncomeSummary(
      total, avgIncome, count, months, savings,
      if avgIncome > 0.0 then savings / avgIncome * 100.0 else 0.0,
      avgSpending)
  }

  /** Income per month times the months is the total; savings are income less spending per
      month; the savings rate is the savings in percent of income, negative exactly when
      spending exceeds income and under ten exactly when spending exceeds nine tenths of it. */
  lemma {:induction false} SummarizeSpec(total: real, months: real, count: nat, avgSpending: real)
    requires total > 0.0 && months > 0.0
    ensures var r := Summarize(total, months, count, avgSpending);
      && r.averageMonthly > 0.0
      && r.averageMonthly * r.monthsCovered == r.total
      && r.monthlySavings == r.averageMonthly - r.averageMonthlySpending
      && r.savingsRate == r.monthlySavings / r.averageMonthly * 100.0
      && (r.savingsRate < 0.0 <==> r.averageMonthlySpending > r.averageMonthly)
      && (r.savingsRate < 10.0 <==> r.averageMonthlySpending > 0.9 * r.averageMonthly)
  {
    var avgIncome := total / months;
    assert avgIncome > 0.0;
    assert avgIncome * months == total;
    RateBelow(avgIncome, avgSpending, 0.0);
    RateBelow(avgIncome, avgSpending, 10.0);
  }

  /** `get_income_summary()`. The months covered are measured over the income transactions
      alone, not over all transactions as `_months()` is; the average monthly spending is the
      mean over the months that had spending. */
  function IncomeSummaryOf(ts: seq<Transaction>): (r: IncomeSummary)
    ensures Incomes(ts) == [] <==> r == NoIncome
    ensures r.averageMonthly >= 0.0
    ensures Incomes(ts) != [] ==>
      r.total > 0.0 && r.monthsCovered >= 1.0 && r.averageMonthly > 0.0
      && r.count == |Incomes(ts)|
  {
    if Incomes(ts) == [] then NoIncome
    else
      IncomeTotalPositive(ts);
      var total := AmountTotal(Incomes(ts));
      var months := IncomeMonths(ts);
      SummarizeSpec(total, months, |Incomes(ts)|, AverageMonthlySpending(ts));
      Summarize(total, months, |Incomes(ts)|, AverageMonthlySpending(ts))
  }

  /** The average monthly spending is the total spent divided by the number of months
      with spending, and zero when nothing was spent. */
  lemma {:induction false} MeanOfSpending(ts: seq<Transaction>)
    ensures AverageMonthlySpending(ts) >= 0.0
    ensures AverageMonthlySpending(ts) == if MonthlySpending(ts) == [] then 0.0
      else TotalAbs(ts, IsExpense) / (|MonthlySpending(ts)| as real)
  {
    GroupedSum(Tally(ts, IsExpense, MonthKey));
    TallySum(ts, IsExpense, MonthKey);
    MeanValueSpec(MonthlySpending(ts));
  }

  /** The spending the summary reports is the mean over the months with spending, and the
      income months never exceed `_months()`, which spans all transactions. */
  lemma {:induction false} IncomeSpendingAndMonths(ts: seq<Transaction>)
    requires Incomes(ts) != []
    ensures var r := IncomeSummaryOf(ts);
      && r.averageMonthlySpending == AverageMonthlySpending(ts)
      && r.monthsCovered <= Months(ts)
  {
    SpanOfSublist(Incomes(ts), ts);
  }

  lemma {:induction false} RateBelow(income: real, spending: real, bound: real)
    requires income > 0.0
    ensures (income - spending) / income * 100.0 < bound
      <==> spending > (1.0 - bound / 100.0) * income
  {
    var rate := (income - spending) / income * 100.0;
    assert rate * income == (income - spending) * 100.0;
  }

  /** `[t for t in ts if t.category in debt_categories]`. */
  function DebtPayments(ts: seq<Transaction>): (r: seq<Transaction>)
    ensures |r| <= |ts|
    ensures forall t :: t in r ==> IsDebtPayment(t)
  {
    if ts == [] then []
    else
      var t := ts[|ts| - 1];
      DebtPayments(ts[..|ts| - 1]) + (if IsDebtPayment(t) then [t] else [])
  }

  function AnyTransaction(t: Transaction): bool { true }

  /** Walking the debt payments and keeping all of them contributes what walking all
      transactions and keeping the debt payments does. */
  lemma {:induction false} TallyDebtPayments<K>(ts: seq<Transaction>, key: Transaction -> K)
    ensures Tally(DebtPayments(ts), AnyTransaction, key) == Tally(ts, IsDebtPayment, key)
    ensures TotalAbs(DebtPayments(ts), AnyTransaction) == TotalAbs(ts, IsDebtPayment)
  {
    if ts != [] {
      var p := ts[..|ts| - 1];
      var t := ts[|ts| - 1];
      TallyDebtPayments(p, key);
      var d := DebtPayments(ts);
      if IsDebtPayment(t) {
        assert d == DebtPayments(p) + [t];
        assert d[..|d| - 1] == DebtPayments(p) && d[|d| - 1] == t;
        assert Tally(d, AnyTransaction, key)
          == Tally(DebtPayments(p), AnyTransaction, key) + [(key(t), Abs(t.amount))];
      } else {
        assert d == DebtPayments(p);
      }
    }
  }

  /** The per-month debt totals add up to the total debt payments. */
  lemma {:induction false} DebtMonthlySum(ts: seq<Transaction>)
    ensures Sum(Values(Grouped(Tally(ts, IsDebtPayment, MonthKey)))) == TotalAbs(ts, IsDebtPayment)
  {
    GroupedSum(Tally(ts, IsDebtPayment, MonthKey));
    TallySum(ts, IsDebtPayment, MonthKey);
  }

  datatype Strategy = Strategy(name: string, description: string, monthlyAllocation: real)

  const SnowballDescription: string :=
    "Pay minimums on all debts, then put extra toward the smallest balance."
  const AvalancheDescription: string :=
    "Pay minimums on all debts, then put extra toward the highest-interest balance."

  /** The payoff strategies offered for a given average monthly debt payment and a given
      monthly amount available beyond it: none when nothing is paid towards debt, otherwise
      the snowball and the avalanche, both allocating the average payment plus half of what is
      available, when that is positive. */
  function Strategies(avgMonthly: real, available: real): (r: seq<Strategy>)
    ensures r != [] <==> avgMonthly > 0.0
    ensures r != [] ==>
      |r| == 2 && r[0].name == "debt_snowball" && r[1].name == "debt_avalanche"
      && r[0].monthlyAllocation == r[1].monthlyAllocation
    ensures r != [] ==>
      r[0].description == SnowballDescription && r[1].description == AvalancheDescription
    ensures forall s :: s in r ==>
      s.monthlyAllocation == MaxReal(avgMonthly, avgMonthly + available * 0.5)
  {
    var potential := avgMonthly + MaxReal(0.0, available * 0.5);
    if avgMonthly > 0.0 then
      [ Strategy("debt_snowball", SnowballDescription, potential),
        Strategy("debt_avalanche", AvalancheDescription, potential) ]
    else []
  }

  /** The dictionary `get_debt_analysis()` returns. */
  datatype DebtReport = DebtReport(
    totalDebtPayments: real,
    averageMonthlyDebt: real,
    debtTransactionCount: nat,
    monthlyBreakdown: seq<(YearMonth, real)>,
    strategies: seq<Strategy>,
    availableForDebt: real)

  /** `get_debt_analysis()`: the payments in the three debt categories, whatever their sign,
      their per-month totals, and the two payoff strategies when there is anything to pay. */
  method DebtAnalysis(a: Analyzer) returns (r: DebtReport)
    ensures r.totalDebtPayments == TotalAbs(a.transactions, IsDebtPayment)
    ensures r.debtTransactionCount == |DebtPayments(a.transactions)|
    ensures r.monthlyBreakdown == Grouped(Tally(a.transactions, IsDebtPayment, MonthKey))
    ensures Sum(Values(r.monthlyBreakdown)) == r.totalDebtPayments
    ensures r.averageMonthlyDebt == MeanValue(r.monthlyBreakdown)
    ensures r.averageMonthlyDebt > 0.0 <==> r.totalDebtPayments > 0.0
    ensures r.availableForDebt == IncomeSummaryOf(a.transactions).monthlySavings
    ensures r.strategies == Strategies(r.averageMonthlyDebt, r.availableForDebt)
  {
    var ts := a.transactions;
    var debt := DebtPayments(ts);
    TallyDebtPayments(ts, MonthKey);
    var total := TotalAbs(debt, AnyTransaction);
    var monthly := GroupTally(debt, AnyTransaction, MonthKey);
    var avgMonthly := if |monthly| > 0 then Sum(Values(monthly)) / (|monthly| as real) else 0.0;
    var available := IncomeSummaryOf(ts).monthlySavings;
    var strategies := Strategies(avgMonthly, available);
    DebtMonthlySum(ts);
    MeanValueSpec(monthly);
    r := DebtReport(total, avgMonthly, |debt|, monthly, strategies, available);
  }

  /** A flagged spending pattern. A frequency pattern names its category: fuel gives the
      "frequent_fuel" entry, dining the "frequent_dining" one. */
  datatype Pattern =
    | HighSpending(category: Category, monthlyAverage: real)
    | Frequent(category: Category, frequency: nat)

  /** The "type" field of a pattern. */
  function PatternType(p: Pattern): string {
    match p
    case HighSpending(_, _) => "high_spending"
    case Frequent(c, _) => if c == Fuel then "frequent_fuel" else "frequent_dining"
  }

  /** The "insight" field of a pattern. */
  function Insight(p: Pattern): Doc {
    match p
    case HighSpending(c, m) =>
      [Lit("High spending in "), Lit(CategoryValue(c)), Lit(": $"), Num(m, Grouped2), Lit("/month")]
    case Frequent(c, n) =>
      if c == Fuel then [Lit("Frequent fuel purchases: "), Count(n), Lit(" times over the period")]
      else [Lit("Frequent dining out: "), Count(n), Lit(" times over the period")]
  }

  /** The high-spending entries the loop over `sorted(...)` appends, in the order of s. */
  function HighSpendingFlags(s: seq<(Category, real)>, months: real, threshold: real)
    : (r: seq<Pattern>)
    requires months > 0.0
    ensures |r| <= |s|
    ensures forall i :: 0 <= i < |r| ==> r[i].HighSpending? && r[i].monthlyAverage > threshold
  {
    if s == [] then []
    else
      var x := s[|s| - 1];
      HighSpendingFlags(s[..|s| - 1], months, threshold)
        + (if x.1 / months > threshold then [HighSpending(x.0, x.1 / months)] else [])
  }

  /** `len([t for t in ts if t.category == c])`. */
  function CountCategory(ts: seq<Transaction>, c: Category): nat {
    if ts == [] then 0
    else CountCategory(ts[..|ts| - 1], c) + (if ts[|ts| - 1].category == c then 1 else 0)
  }

  /** The frequency entry for category c: present when c has spending and more than `limit`
      transactions of c (of any sign) occur. */
  function FrequencyFlag(ts: seq<Transaction>, spending: seq<(Category, real)>, c: Category,
                         limit: real): (r: seq<Pattern>)
    ensures r == [] || r == [Frequent(c, CountCategory(ts, c))]
  {
    if c in Keys(spending) && CountCategory(ts, c) as real > limit
    then [Frequent(c, CountCategory(ts, c))]
    else []
  }

  /** What `identify_spending_patterns()` returns. */
  function Patterns(ts: seq<Transaction>): seq<Pattern>
    requires ts != []
  {
    PatternsOf(ts, CategorySpending(ts), Months(ts), HighSpendingThreshold(ts))
  }

  /** A category's monthly average is high when it exceeds 30% of average monthly spending. */
  function HighSpendingThreshold(ts: seq<Transaction>): real {
    AverageMonthlySpending(ts) * 0.3
  }

  /** The patterns given the spending by category, the months and the high-spending
      threshold. */
  function PatternsOf(ts: seq<Transaction>, spending: seq<(Category, real)>, months: real,
                      threshold: real): seq<Pattern>
    requires months > 0.0
  {
    HighSpendingFlags(SortDesc(spending), months, threshold)
      + FrequencyFlag(ts, spending, Fuel, 4.0 * months * 1.5)
      + FrequencyFlag(ts, spending, Dining, 8.0 * months * 1.5)
  }

  /** The loop of `identify_spending_patterns()` over the categories from the largest total
      down: a category whose monthly average exceeds the threshold is appended. */
  method FlagHighSpending(sorted: seq<(Category, real)>, months: real, threshold: real)
    returns (ps: seq<Pattern>)
    requires months > 0.0
    ensures ps == HighSpendingFlags(sorted, months, threshold)
  {
    ps := [];
    var i := 0;
    while i < |sorted|
      invariant 0 <= i <= |sorted|
      invariant ps == HighSpendingFlags(sorted[..i], months, threshold)
    {
      var (category, total) := sorted[i];
      var monthlyAvg := total / months;
      if monthlyAvg > threshold {
        ps := ps + [HighSpending(category, monthlyAvg)];
      }
      assert sorted[..i + 1][..i] == sorted[..i];
      i := i + 1;
    }
    assert sorted[..i] == sorted;
  }

  /** `identify_spending_patterns()`: the reports it reads, then the patterns they give. */
  method SpendingPatterns(a: Analyzer) returns (ps: seq<Pattern>)
    requires a.transactions != []
    ensures ps == Patterns(a.transactions)
  {
    var ts := a.transactions;
    var monthlySpending := MonthlySpendingOf(a);
    var avgMonthly := MeanValue(monthlySpending);
    var threshold := avgMonthly * 0.3;
    assert threshold == HighSpendingThreshold(ts);
    var categorySpending := SpendingByCategory(a);
    var months := Months(ts);
    ps := FlagPatterns(ts, categorySpending, months, threshold);
  }

  /** The body of `identify_spending_patterns()` once the reports are in hand: the
      high-spending loop over the sorted categories, then the fuel and the dining checks. */
  method FlagPatterns(ts: seq<Transaction>, categorySpending: seq<(Category, real)>, months: real,
                      threshold: real) returns (ps: seq<Pattern>)
    requires months > 0.0
    ensures ps == PatternsOf(ts, categorySpending, months, threshold)
  {
    var high := FlagHighSpending(SortDesc(categorySpending), months, threshold);
    ps := AppendFrequent(high, ts, categorySpending, Fuel, 4.0 * months * 1.5);
    ps := AppendFrequent(ps, ts, categorySpending, Dining, 8.0 * months * 1.5);
  }

  /** The fuel and dining checks of `identify_spending_patterns()`: when category c has
      spending, its transactions are counted and a frequency entry is appended when the
      count exceeds the limit. */
  method AppendFrequent(ps: seq<Pattern>, ts: seq<Transaction>, spending: seq<(Category, real)>,
                        c: Category, limit: real) returns (r: seq<Pattern>)
    ensures r == ps + FrequencyFlag(ts, spending, c, limit)
  {
    r := ps;
    if c in Keys(spending) {
      var frequency := CountCategory(ts, c);
      if frequency as real > limit {
        r := r + [Frequent(c, frequency)];
      }
    }
  }

  lemma {:induction false} FlagsConcat(a: seq<(Category, real)>, b: seq<(Category, real)>,
                                       months: real, threshold: real)
    requires months > 0.0
    ensures HighSpendingFlags(a + b, months, threshold)
      == HighSpendingFlags(a, months, threshold) + HighSpendingFlags(b, months, threshold)
  {
    if b == [] {
      assert a + b == a;
    } else {
      var p := b[..|b| - 1];
      FlagsConcat(a, p, months, threshold);
      assert (a + b)[..|a + b| - 1] == a + p;
    }
  }

  /** An entry is flagged, with its monthly average, exactly when its average exceeds the
      threshold. */
  lemma {:induction false} FlagsMember(s: seq<(Category, real)>, months: real, threshold: real)
    requires months > 0.0
    ensures forall p :: p in HighSpendingFlags(s, months, threshold) <==>
      exists x :: x in s && x.1 / months > threshold && p == HighSpending(x.0, x.1 / months)
  {
    if s != [] {
      var q := s[..|s| - 1];
      var x := s[|s| - 1];
      FlagsMember(q, months, threshold);
      assert s == q + [x];
      assert forall y :: y in s <==> y in q || y == x;
    }
  }

  /** The high-spending entries of ps come in non-increasing order of monthly average. */
  predicate AveragesDescend(ps: seq<Pattern>) {
    forall i, j :: 0 <= i < j < |ps| && ps[i].HighSpending? && ps[j].HighSpending? ==>
      ps[i].monthlyAverage >= ps[j].monthlyAverage
  }

  lemma {:induction false} DescendSnoc(ps: seq<Pattern>, p: Pattern)
    requires AveragesDescend(ps)
    requires p.HighSpending? ==> AveragesAtLeast(ps, p.monthlyAverage)
    ensures AveragesDescend(ps + [p])
  {
    var g := ps + [p];
    forall i, j | 0 <= i < j < |g| && g[i].HighSpending? && g[j].HighSpending?
      ensures g[i].monthlyAverage >= g[j].monthlyAverage
    {
      assert g[i] == ps[i];
      if j < |ps| {
        assert g[j] == ps[j];
      }
    }
  }

  /** Every high-spending entry of ps has a monthly average of at least m. */
  predicate AveragesAtLeast(ps: seq<Pattern>, m: real) {
    forall i :: 0 <= i < |ps| && ps[i].HighSpending? ==> ps[i].monthlyAverage >= m
  }

  lemma {:induction false} FlagsBounded(s: seq<(Category, real)>, months: real, threshold: real,
                                        b: real)
    requires months > 0.0
    requires forall i :: 0 <= i < |s| ==> s[i].1 >= b
    ensures AveragesAtLeast(HighSpendingFlags(s, months, threshold), b / months)
  {
    if s != [] {
      var x := s[|s| - 1];
      var f := HighSpendingFlags(s[..|s| - 1], months, threshold);
      FlagsBounded(s[..|s| - 1], months, threshold, b);
      assert x.1 / months - b / months == (x.1 - b) / months;
      var g := HighSpendingFlags(s, months, threshold);
      if x.1 / months > threshold {
        assert g == f + [HighSpending(x.0, x.1 / months)];
        forall i | 0 <= i < |g| && g[i].HighSpending? ensures g[i].monthlyAverage >= b / months {
          if i < |f| {
            assert g[i] == f[i];
          }
        }
      } else {
        assert g == f;
      }
    }
  }

  /** Flagging a list sorted by value, largest first, gives non-increasing averages. */
  lemma {:induction false} FlagsSorted(s: seq<(Category, real)>, months: real, threshold: real)
    requires months > 0.0 && NonIncreasing(s)
    ensures AveragesDescend(HighSpendingFlags(s, months, threshold))
  {
    if s != [] {
      var q := s[..|s| - 1];
      var x := s[|s| - 1];
      FlagsSorted(q, months, threshold);
      FlagsBounded(q, months, threshold, x.1);
      if x.1 / months > threshold {
        DescendSnoc(HighSpendingFlags(q, months, threshold), HighSpending(x.0, x.1 / months));
      }
    }
  }

  /** The categories of the high-spending entries whose monthly average is m, in order. */
  function HighAt(ps: seq<Pattern>, m: real): seq<Category> {
    if ps == [] then []
    else
      (if ps[0].HighSpending? && ps[0].monthlyAverage == m then [ps[0].category] else [])
        + HighAt(ps[1..], m)
  }

  lemma {:induction false} HighAtConcat(a: seq<Pattern>, b: seq<Pattern>, m: real)
    ensures HighAt(a + b, m) == HighAt(a, m) + HighAt(b, m)
  {
    if a != [] {
      HighAtConcat(a[1..], b, m);
      assert (a + b)[1..] == a[1..] + b;
    } else {
      assert a + b == b;
    }
  }

  /** A single entry is flagged at average v / months exactly when it has value v and that
      average is above the threshold. */
  lemma {:induction false} FlagsAtOne(x: (Category, real), months: real, threshold: real, v: real)
    requires months > 0.0
    ensures HighAt(HighSpendingFlags([x], months, threshold), v / months)
      == if v / months > threshold && x.1 == v then [x.0] else []
  {
    assert [x][..0] == [];
    assert x.1 / months - v / months == (x.1 - v) / months;
    var head := HighSpendingFlags([x], months, threshold);
    if x.1 / months > threshold {
      assert head == [HighSpending(x.0, x.1 / months)];
    } else {
      assert head == [];
    }
  }

  /** Entries of equal value are flagged together or not at all, and keep their order. */
  lemma {:induction false} FlagsAt(s: seq<(Category, real)>, months: real, threshold: real,
                                   v: real)
    requires months > 0.0
    ensures HighAt(HighSpendingFlags(s, months, threshold), v / months)
      == if v / months > threshold then Keys(WithValue(s, v)) else []
  {
    if s == [] {
      assert Keys(WithValue(s, v)) == [];
    } else {
      var x := s[0];
      var r := s[1..];
      FlagsAt(r, months, threshold, v);
      assert s == [x] + r;
      FlagsConcat([x], r, months, threshold);
      HighAtConcat(HighSpendingFlags([x], months, threshold), HighSpendingFlags(r, months, threshold),
                   v / months);
      FlagsAtOne(x, months, threshold, v);
      var w := if x.1 == v then [x] else [];
      assert WithValue(s, v) == w + WithValue(r, v);
      KeysConcat(w, WithValue(r, v));
      assert Keys(w) == if x.1 == v then [x.0] else [];
    }
  }

  /** The categories with a transaction of category c: counted exactly when one exists. */
  lemma {:induction false} CountCategoryPositive(ts: seq<Transaction>, c: Category)
    ensures CountCategory(ts, c) <= |ts|
    ensures CountCategory(ts, c) > 0 <==> exists t :: t in ts && t.category == c
  {
    if ts != [] {
      var p := ts[..|ts| - 1];
      CountCategoryPositive(p, c);
      assert ts == p + [ts[|ts| - 1]];
      assert forall t :: t in ts <==> t in p || t == ts[|ts| - 1];
    }
  }

  /** Some transaction of category c is an expense. */
  predicate HasExpense(ts: seq<Transaction>, c: Category) {
    exists t :: t in ts && t.amount < 0.0 && t.category == c
  }

  /** An entry (c, v) is in the spending by category exactly when c has an expense and v is
      what was spent on c. */
  lemma {:induction false} CategorySpendingMember(ts: seq<Transaction>, c: Category, v: real)
    ensures (c, v) in CategorySpending(ts) <==> HasExpense(ts, c) && v == SpentOn(ts, c)
  {
    CategorySpendingSpec(ts);
    MemberGet(CategorySpending(ts), c, v);
  }

  /** A category is flagged for high spending, with its monthly average, exactly when it has
      an expense and what was spent on it per month exceeds three tenths of the average
      monthly spending. */
  lemma {:induction false} PatternsHighSpending(ts: seq<Transaction>, c: Category, m: real)
    requires ts != []
    ensures HighSpending(c, m) in Patterns(ts) <==>
      HasExpense(ts, c) && m == SpentOn(ts, c) / Months(ts) && m > HighSpendingThreshold(ts)
  {
    var cs, months, thr := CategorySpending(ts), Months(ts), HighSpendingThreshold(ts);
    PatternsOfHigh(ts, cs, months, thr, c, m);
    CategorySpendingMember(ts, c, SpentOn(ts, c));
    if exists v :: (c, v) in cs && v / months > thr && m == v / months {
      var v :| (c, v) in cs && v / months > thr && m == v / months;
      CategorySpendingMember(ts, c, v);
    }
  }

  lemma {:induction false} PatternsOfHigh(ts: seq<Transaction>, cs: seq<(Category, real)>, months: real,
                       thr: real, c: Category, m: real)
    requires months > 0.0
    ensures HighSpending(c, m) in PatternsOf(ts, cs, months, thr) <==>
      exists v :: (c, v) in cs && v / months > thr && m == v / months
  {
    var sorted := SortDesc(cs);
    var h := HighSpendingFlags(sorted, months, thr);
    var f := FrequencyFlag(ts, cs, Fuel, 4.0 * months * 1.5)
      + FrequencyFlag(ts, cs, Dining, 8.0 * months * 1.5);
    assert PatternsOf(ts, cs, months, thr) == h + f;
    assert HighSpending(c, m) !in f;
    FlagsMember(sorted, months, thr);
    SortDescPermutes(cs);
    forall x ensures x in sorted <==> x in cs {
      assert x in sorted <==> x in multiset(sorted);
      assert x in cs <==> x in multiset(cs);
    }
    if HighSpending(c, m) in h {
      var x :| x in sorted && x.1 / months > thr && HighSpending(c, m) == HighSpending(x.0, x.1 / months);
      assert (c, x.1) == x;
    }
  }

  /** The frequency entries: fuel is flagged exactly when fuel has an expense and more than
      six fuel transactions per month occur, dining exactly when dining has an expense and
      more than twelve dining transactions per month occur; no other category is. */
  lemma {:induction false} PatternsFrequent(ts: seq<Transaction>, c: Category, n: nat)
    requires ts != []
    ensures Frequent(c, n) in Patterns(ts) <==>
      (c == Fuel || c == Dining)
      && HasExpense(ts, c)
      && n == CountCategory(ts, c)
      && n as real > (if c == Fuel then 6.0 else 12.0) * Months(ts)
  {
    var cs := CategorySpending(ts);
    var months := Months(ts);
    PatternsOfFrequent(ts, cs, months, HighSpendingThreshold(ts), c, n);
    CategorySpendingSpec(ts);
  }

  lemma {:induction false} PatternsOfFrequent(ts: seq<Transaction>, cs: seq<(Category, real)>, months: real,
                           thr: real, c: Category, n: nat)
    requires months > 0.0
    ensures Frequent(c, n) in PatternsOf(ts, cs, months, thr) <==>
      (c == Fuel || c == Dining) && c in Keys(cs) && n == CountCategory(ts, c)
      && n as real > (if c == Fuel then 6.0 else 12.0) * months
  {
    var h := HighSpendingFlags(SortDesc(cs), months, thr);
    var ff := FrequencyFlag(ts, cs, Fuel, 4.0 * months * 1.5);
    var fd := FrequencyFlag(ts, cs, Dining, 8.0 * months * 1.5);
    assert PatternsOf(ts, cs, months, thr) == h + ff + fd;
    assert Frequent(c, n) !in h;
    assert 4.0 * months * 1.5 == 6.0 * months;
    assert 8.0 * months * 1.5 == 12.0 * months;
  }

  /** High-spending entries first, largest monthly average first; after them at most a
      fuel entry followed by at most a dining entry. */
  predicate PatternsInOrder(ps: seq<Pattern>) {
    && AveragesDescend(ps)
    && (forall i, j :: 0 <= i < j < |ps| && ps[j].HighSpending? ==> ps[i].HighSpending?)
    && (forall i, j :: 0 <= i < j < |ps| && ps[i].Frequent? ==>
          ps[i].category == Fuel && ps[j].category == Dining)
  }

  /** The order of the patterns: the high-spending entries come first, largest monthly
      average first; after them the fuel entry, then the dining entry. */
  lemma {:induction false} PatternsOrder(ts: seq<Transaction>)
    requires ts != []
    ensures PatternsInOrder(Patterns(ts))
  {
    var cs, months, thr := CategorySpending(ts), Months(ts), HighSpendingThreshold(ts);
    PatternsOfOrder(ts, cs, months, thr);
  }

  lemma {:induction false} PatternsOfOrder(ts: seq<Transaction>, cs: seq<(Category, real)>, months: real,
                        thr: real)
    requires months > 0.0
    ensures PatternsInOrder(PatternsOf(ts, cs, months, thr))
  {
    var sorted := SortDesc(cs);
    SortDescSorted(cs);
    FlagsSorted(sorted, months, thr);
    InOrderParts(HighSpendingFlags(sorted, months, thr),
                 FrequencyFlag(ts, cs, Fuel, 4.0 * months * 1.5),
                 FrequencyFlag(ts, cs, Dining, 8.0 * months * 1.5));
  }

  /** Descending high-spending entries, then at most one fuel entry, then at most one dining
      entry, are in report order. */
  lemma {:induction false} InOrderParts(h: seq<Pattern>, ff: seq<Pattern>, fd: seq<Pattern>)
    requires AveragesDescend(h) && forall i :: 0 <= i < |h| ==> h[i].HighSpending?
    requires ff == [] || (|ff| == 1 && ff[0].Frequent? && ff[0].category == Fuel)
    requires fd == [] || (|fd| == 1 && fd[0].Frequent? && fd[0].category == Dining)
    ensures PatternsInOrder(h + ff + fd)
  {
    var ps := h + ff + fd;
    forall i, j | 0 <= i < j < |ps| && ps[i].HighSpending? && ps[j].HighSpending?
      ensures ps[i].monthlyAverage >= ps[j].monthlyAverage
    {
      assert ps[i] == h[i] && ps[j] == h[j];
    }
    forall i, j | 0 <= i < j < |ps| && ps[j].HighSpending? ensures ps[i].HighSpending? {
      assert ps[j] == h[j];
      assert ps[i] == h[i];
    }
    forall i, j | 0 <= i < j < |ps| && ps[i].Frequent?
      ensures ps[i].category == Fuel && ps[j].category == Dining
    {
      assert i >= |h|;
      if i < |h + ff| {
        assert ps[i] == ff[i - |h|];
        assert ps[j] == fd[j - |h + ff|];
      }
    }
  }


  /** Categories with equal totals are flagged together or not at all, in the order they
      first occur in the transactions. */
  lemma {:induction false} PatternsTies(ts: seq<Transaction>, v: real)
    requires ts != []
    ensures var thr := HighSpendingThreshold(ts);
      HighAt(Patterns(ts), v / Months(ts))
      == if v / Months(ts) > thr then Keys(WithValue(CategorySpending(ts), v)) else []
  {
    var cs, months, thr := CategorySpending(ts), Months(ts), HighSpendingThreshold(ts);
    PatternsOfTies(ts, cs, months, thr, v);
  }

  lemma {:induction false} PatternsOfTies(ts: seq<Transaction>, cs: seq<(Category, real)>, months: real,
                       thr: real, v: real)
    requires months > 0.0
    ensures HighAt(PatternsOf(ts, cs, months, thr), v / months)
      == if v / months > thr then Keys(WithValue(cs, v)) else []
  {
    var sorted := SortDesc(cs);
    var h := HighSpendingFlags(sorted, months, thr);
    var f := FrequencyFlag(ts, cs, Fuel, 4.0 * months * 1.5)
      + FrequencyFlag(ts, cs, Dining, 8.0 * months * 1.5);
    assert PatternsOf(ts, cs, months, thr) == h + f;
    HighAtConcat(h, f, v / months);
    FrequentNotHigh(f, v / months);
    FlagsAt(sorted, months, thr, v);
    SortDescStable(cs, v);
  }

  lemma {:induction false} FrequentNotHigh(ps: seq<Pattern>, m: real)
    requires forall i :: 0 <= i < |ps| ==> ps[i].Frequent?
    ensures HighAt(ps, m) == []
  {
    if ps != [] {
      FrequentNotHigh(ps[1..], m);
    }
  }

  /** Spending on c is positive exactly when c has an expense. */
  lemma {:induction false} SpentOnPositive(ts: seq<Transaction>, c: Category)
    ensures SpentOn(ts, c) > 0.0 <==> HasExpense(ts, c)
  {
    CategorySpendingSpec(ts);
    var cs := CategorySpending(ts);
    if c in Keys(cs) {
      var i :| 0 <= i < |cs| && Keys(cs)[i] == c;
    } else {
      GetAbsent(cs, c, 0.0);
    }
  }

  /** The six budget targets, in percent of monthly income, in the order they are checked. */
  const Targets: seq<(Category, real)> :=
    [(Rent, 30.0), (Groceries, 10.0), (Fuel, 5.0), (Utilities, 5.0), (Dining, 5.0), (Shopping, 5.0)]

  /** The position of a category among the targets; 6 for a category without a target. */
  function TargetRank(c: Category): (r: nat)
    ensures r <= |Targets|
    ensures r < |Targets| ==> Targets[r].0 == c
    ensures forall i :: 0 <= i < |Targets| && Targets[i].0 == c ==> r == i
  {
    match c
    case Rent => 0
    case Groceries => 1
    case Fuel => 2
    case Utilities => 3
    case Dining => 4
    case Shopping => 5
    case _ => 6
  }

  /** A budget recommendation. The report shows the category by its display name. */
  datatype Recommendation =
    Recommendation(category: Category, recommendedMonthly: real, actualMonthly: real)

  /** The "category" field: `value.replace("_", " ").title()`. */
  function CategoryName(r: Recommendation): string {
    DisplayName(CategoryValue(r.category))
  }

  /** The "suggestion" field: the monthly reduction that would meet the target. */
  function Suggestion(r: Recommendation): Doc {
    [ Lit("Consider reducing "), Titled(CategoryValue(r.category)), Lit(" by $"),
      Num(r.actualMonthly - r.recommendedMonthly, Grouped2), Lit("/month") ]
  }

  /** The monthly amount a target of pct percent allows: zero without income. */
  function Recommended(avgIncome: real, pct: real): (r: real)
    ensures avgIncome > 0.0 && pct >= 0.0 ==> r >= 0.0
    ensures avgIncome <= 0.0 ==> r == 0.0
  {
    if avgIncome > 0.0 then avgIncome * pct / 100.0 else 0.0
  }

  /** The recommendations the loop over the targets appends: one per target whose actual
      monthly spending exceeds the recommended amount by more than a fifth. */
  function RecommendationsFor(targets: seq<(Category, real)>, avgIncome: real,
                              spending: seq<(Category, real)>, months: real)
    : seq<Recommendation>
    requires months > 0.0
  {
    if targets == [] then []
    else
      var (c, pct) := targets[|targets| - 1];
      var recommended := Recommended(avgIncome, pct);
      var actual := Get(spending, c) / months;
      RecommendationsFor(targets[..|targets| - 1], avgIncome, spending, months)
        + (if actual > recommended * 1.2 then [Recommendation(c, recommended, actual)] else [])
  }

  /** The accumulated `total_recommended`. */
  function RecommendedTotal(targets: seq<(Category, real)>, avgIncome: real): real {
    if targets == [] then 0.0
    else
      RecommendedTotal(targets[..|targets| - 1], avgIncome)
        + Recommended(avgIncome, targets[|targets| - 1].1)
  }

  datatype BudgetReport = BudgetReport(
    recommendations: seq<Recommendation>,
    averageMonthlyIncome: real,
    averageMonthlySpending: real,
    totalRecommendedBudget: real)

  /** The loop of `get_budget_recommendations()` over the targets: it accumulates the
      recommended total and appends a recommendation for each target overspent by more than
      a fifth. */
  method Recommend(avgIncome: real, spending: seq<(Category, real)>, months: real)
    returns (recommendations: seq<Recommendation>, totalRecommended: real)
    requires months > 0.0
    ensures recommendations == RecommendationsFor(Targets, avgIncome, spending, months)
    ensures totalRecommended == if avgIncome > 0.0 then 0.6 * avgIncome else 0.0
  {
    recommendations := [];
    totalRecommended := 0.0;
    var i := 0;
    while i < |Targets|
      invariant 0 <= i <= |Targets|
      invariant recommendations == RecommendationsFor(Targets[..i], avgIncome, spending, months)
      invariant totalRecommended == RecommendedTotal(Targets[..i], avgIncome)
    {
      var (category, pct) := Targets[i];
      var recommended := if avgIncome > 0.0 then avgIncome * pct / 100.0 else 0.0;
      var actual := Get(spending, category) / months;
      totalRecommended := totalRecommended + recommended;
      if actual > recommended * 1.2 {
        recommendations := recommendations + [Recommendation(category, recommended, actual)];
      }
      assert Targets[..i + 1][..i] == Targets[..i];
      i := i + 1;
    }
    assert Targets[..i] == Targets;
    TargetsTotal(avgIncome);
  }

  /** `get_budget_recommendations()`. The income figures come from the income summary, so
      both are zero when there is no income; the actual spending per month divides by
      `_months()`, which spans all transactions. */
  method BudgetRecommendations(a: Analyzer) returns (r: BudgetReport)
    requires a.transactions != []
    ensures var income := IncomeSummaryOf(a.transactions);
      && r.recommendations == Budget(a.transactions)
      && r.averageMonthlyIncome == income.averageMonthly
      && r.averageMonthlySpending == income.averageMonthlySpending
      && r.totalRecommendedBudget
         == if income.averageMonthly > 0.0 then 0.6 * income.averageMonthly else 0.0
  {
    var ts := a.transactions;
    var income := IncomeSummaryOf(ts);
    var spending := SpendingByCategory(a);
    var avgIncome := income.averageMonthly;
    var months := Months(ts);
    var recommendations, totalRecommended := Recommend(avgIncome, spending, months);
    r := BudgetReport(recommendations, avgIncome, income.averageMonthlySpending, totalRecommended);
  }

  /** The six targets add up to sixty percent of the monthly income. */
  lemma {:induction false} TargetsTotal(avgIncome: real)
    ensures RecommendedTotal(Targets, avgIncome)
      == if avgIncome > 0.0 then 0.6 * avgIncome else 0.0
  {
    var t := Targets;
    assert t[..1][..0] == [];
    assert t[..2][..1] == t[..1] && t[..3][..2] == t[..2] && t[..4][..3] == t[..3];
    assert t[..5][..4] == t[..4] && t[..6][..5] == t[..5] && t[..6] == t;
    assert RecommendedTotal(t[..1], avgIncome) == Recommended(avgIncome, 30.0);
    assert RecommendedTotal(t[..2], avgIncome)
      == Recommended(avgIncome, 30.0) + Recommended(avgIncome, 10.0);
    assert RecommendedTotal(t[..4], avgIncome)
      == Recommended(avgIncome, 30.0) + Recommended(avgIncome, 10.0)
         + Recommended(avgIncome, 5.0) + Recommended(avgIncome, 5.0);
    assert RecommendedTotal(t, avgIncome)
      == Recommended(avgIncome, 30.0) + Recommended(avgIncome, 10.0)
         + Recommended(avgIncome, 5.0) + Recommended(avgIncome, 5.0)
         + Recommended(avgIncome, 5.0) + Recommended(avgIncome, 5.0);
  }

  /** A target is listed exactly when its actual monthly spending exceeds 1.2 times its
      recommended amount; the entry carries both amounts. */
  lemma {:induction false} RecommendationsMember(targets: seq<(Category, real)>, avgIncome: real,
                                                 spending: seq<(Category, real)>, months: real,
                                                 rec: Recommendation)
    requires months > 0.0
    ensures rec in RecommendationsFor(targets, avgIncome, spending, months) <==>
      (exists pct :: (rec.category, pct) in targets
         && rec.recommendedMonthly == Recommended(avgIncome, pct))
      && rec.actualMonthly == Get(spending, rec.category) / months
      && rec.actualMonthly > rec.recommendedMonthly * 1.2
  {
    if targets != [] {
      var p := targets[..|targets| - 1];
      var x := targets[|targets| - 1];
      RecommendationsMember(p, avgIncome, spending, months, rec);
      assert targets == p + [x];
      assert forall y :: y in targets <==> y in p || y == x;
    }
  }

  /** Recommendations in the order of their categories among the targets. */
  predicate InTargetOrder(recs: seq<Recommendation>) {
    forall i, j :: 0 <= i < j < |recs| ==>
      TargetRank(recs[i].category) < TargetRank(recs[j].category)
  }

  /** Listed recommendations follow the order of the targets. */
  lemma {:induction false} RecommendationsOrder(targets: seq<(Category, real)>, avgIncome: real,
                                                spending: seq<(Category, real)>, months: real)
    requires months > 0.0
    requires forall i, j :: 0 <= i < j < |targets| ==>
      TargetRank(targets[i].0) < TargetRank(targets[j].0)
    ensures InTargetOrder(RecommendationsFor(targets, avgIncome, spending, months))
  {
    if targets != [] {
      var p := targets[..|targets| - 1];
      var x := targets[|targets| - 1];
      RecommendationsOrder(p, avgIncome, spending, months);
      var q := RecommendationsFor(p, avgIncome, spending, months);
      forall i | 0 <= i < |q| ensures TargetRank(q[i].category) < TargetRank(x.0) {
        RecommendationsMember(p, avgIncome, spending, months, q[i]);
        var pct :| (q[i].category, pct) in p
          && q[i].recommendedMonthly == Recommended(avgIncome, pct);
        var k :| 0 <= k < |p| && p[k] == (q[i].category, pct);
        assert targets[k] == p[k];
      }
    }
  }

  /** What `get_budget_recommendations()` returns, as a function of the transactions. */
  function Budget(ts: seq<Transaction>): seq<Recommendation>
    requires ts != []
  {
    RecommendationsFor(Targets, IncomeSummaryOf(ts).averageMonthly, CategorySpending(ts), Months(ts))
  }

  /** With income at least zero, every listed recommendation suggests a positive
      reduction. */
  lemma {:induction false} ReductionPositive(avgIncome: real, spending: seq<(Category, real)>, months: real,
                          rec: Recommendation)
    requires months > 0.0 && avgIncome >= 0.0
    requires rec in RecommendationsFor(Targets, avgIncome, spending, months)
    ensures rec.actualMonthly - rec.recommendedMonthly > 0.0
  {
    RecommendationsMember(Targets, avgIncome, spending, months, rec);
    var pct :| (rec.category, pct) in Targets
      && rec.recommendedMonthly == Recommended(avgIncome, pct);
    var i :| 0 <= i < |Targets| && Targets[i] == (rec.category, pct);
  }

  /** What the spending by category holds for c is what was spent on c. */
  lemma {:induction false} CategorySpendingGet(ts: seq<Transaction>, c: Category)
    ensures Get(CategorySpending(ts), c) == SpentOn(ts, c)
  {
    CategorySpendingSpec(ts);
  }

  /** A recommendation is listed exactly when its category has a target, the recommended
      amount is that share of the monthly income, the actual amount is what was spent on the
      category per month, and it exceeds the recommended amount by more than a fifth. */
  lemma {:induction false} BudgetListed(ts: seq<Transaction>, rec: Recommendation)
    requires ts != []
    ensures rec in Budget(ts) <==>
      (exists pct :: (rec.category, pct) in Targets
         && rec.recommendedMonthly == Recommended(IncomeSummaryOf(ts).averageMonthly, pct))
      && rec.actualMonthly == SpentOn(ts, rec.category) / Months(ts)
      && rec.actualMonthly > rec.recommendedMonthly * 1.2
  {
    var avg, cs, months := IncomeSummaryOf(ts).averageMonthly, CategorySpending(ts), Months(ts);
    RecommendationsMember(Targets, avg, cs, months, rec);
    CategorySpendingGet(ts, rec.category);
  }

  /** Every listed recommendation suggests a positive monthly reduction. */
  lemma {:induction false} BudgetReduction(ts: seq<Transaction>, rec: Recommendation)
    requires ts != [] && rec in Budget(ts)
    ensures rec.actualMonthly - rec.recommendedMonthly > 0.0
  {
    var avg, cs, months := IncomeSummaryOf(ts).averageMonthly, CategorySpending(ts), Months(ts);
    assert avg >= 0.0;
    ReductionPositive(avg, cs, months, rec);
  }

  /** The listed categories come in the order rent, groceries, fuel, utilities, dining,
      shopping. */
  lemma {:induction false} BudgetOrder(ts: seq<Transaction>)
    requires ts != []
    ensures InTargetOrder(Budget(ts))
  {
    var avg, cs, months := IncomeSummaryOf(ts).averageMonthly, CategorySpending(ts), Months(ts);
    RecommendationsOrder(Targets, avg, cs, months);
  }

  /** Without income every target recommends zero. */
  lemma {:induction false} BudgetWithoutIncomeZero(ts: seq<Transaction>, rec: Recommendation)
    requires ts != [] && Incomes(ts) == [] && rec in Budget(ts)
    ensures rec.recommendedMonthly == 0.0
  {
    assert IncomeSummaryOf(ts).averageMonthly == 0.0;
    BudgetListed(ts, rec);
  }

  /** Without income every target category with an expense is listed, with what was spent
      on it per month, and no other category is. */
  lemma {:induction false} BudgetWithoutIncome(ts: seq<Transaction>, c: Category)
    requires ts != [] && Incomes(ts) == []
    ensures Recommendation(c, 0.0, SpentOn(ts, c) / Months(ts)) in Budget(ts)
      <==> c in Keys(Targets) && HasExpense(ts, c)
  {
    var cs, months := CategorySpending(ts), Months(ts);
    assert IncomeSummaryOf(ts).averageMonthly == 0.0;
    CategorySpendingGet(ts, c);
    SpentOnPositive(ts, c);
    ZeroTargetsListed(cs, months, c);
  }

  /** With zero income, a target category is listed exactly when something was spent on
      it. */
  lemma {:induction false} ZeroTargetsListed(cs: seq<(Category, real)>, months: real, c: Category)
    requires months > 0.0 && Get(cs, c) >= 0.0
    ensures Recommendation(c, 0.0, Get(cs, c) / months) in RecommendationsFor(Targets, 0.0, cs, months)
      <==> c in Keys(Targets) && Get(cs, c) > 0.0
  {
    RecommendationsMember(Targets, 0.0, cs, months, Recommendation(c, 0.0, Get(cs, c) / months));
    if Get(cs, c) > 0.0 {
      assert Get(cs, c) / months > 0.0;
    }
    KeyMember(Targets, c);
  }
}
