/** The five tools the coach's language model may call (`create_financial_tools`). Each
    renders one analyzer report as text; the ones that loop over a report's entries are
    methods proved equal to a function that says what text they build. */
module CoachTools {
  import opened Transactions
  import opened Ledger
  import opened Text
  import opened FinancialAnalyzer

  // ---------------------------------------------------------------- get_spending_summary

  const NoSpendingText := "No spending data available."
  const SpendingHeader := "Spending Summary:\n"

  /** `(amount / total * 100) if total > 0 else 0`. */
  function Percent(amount: real, total: real): real {
    if total > 0.0 then amount / total * 100.0 else 0.0
  }

  /** `f"  {category}: ${amount:,.2f} ({pct:.1f}%)\n"`. */
  function SpendingLine(c: Category, amount: real, total: real): (d: Doc)
    ensures |d| == 7
  {
    [ Lit("  "), Lit(CategoryValue(c)), Lit(": $"), Num(amount, Grouped2), Lit(" ("),
      Num(Percent(amount, total), Fixed1), Lit("%)\n") ]
  }

  /** One line per entry, in the order of s. */
  function SpendingLines(s: seq<(Category, real)>, total: real): (d: Doc)
    ensures |d| == 7 * |s|
  {
    if s == [] then []
    else
      var x := s[|s| - 1];
      SpendingLines(s[..|s| - 1], total) + SpendingLine(x.0, x.1, total)
  }

  /** What `get_spending_summary` returns for a spending dictionary. */
  function SpendingSummaryText(spending: seq<(Category, real)>): Doc {
    if spending == [] then [Lit(NoSpendingText)]
    else
      var total := Sum(Values(spending));
      [Lit(SpendingHeader)] + SpendingLines(SortDesc(spending), total)
        + [Lit("\nTotal Spending: $"), Num(total, Grouped2)]
  }

  /** `get_spending_summary`: the categories from the largest amount down, each with its
      share of the total. */
  method SpendingSummary(a: Analyzer) returns (d: Doc)
    ensures d == SpendingSummaryText(CategorySpending(a.transactions))
  {
    var spending := SpendingByCategory(a);
    if |spending| == 0 {
      return [Lit(NoSpendingText)];
    }
    d := [Lit(SpendingHeader)];
    var total := Sum(Values(spending));
    var sorted := SortDesc(spending);
    var i := 0;
    while i < |sorted|
      invariant 0 <= i <= |sorted|
      invariant d == [Lit(SpendingHeader)] + SpendingLines(sorted[..i], total)
    {
      var (category, amount) := sorted[i];
      var pct := if total > 0.0 then amount / total * 100.0 else 0.0;
      d := d + [ Lit("  "), Lit(CategoryValue(category)), Lit(": $"), Num(amount, Grouped2),
                 Lit(" ("), Num(pct, Fixed1), Lit("%)\n") ];
      assert sorted[..i + 1][..i] == sorted[..i];
      i := i + 1;
    }
    assert sorted[..i] == sorted;
    d := d + [Lit("\nTotal Spending: $"), Num(total, Grouped2)];
  }

  /** The i-th line names the i-th entry, its amount and its percentage. */
  lemma {:induction false} SpendingLinesAt(s: seq<(Category, real)>, total: real, i: nat)
    requires i < |s|
    ensures SpendingLines(s, total)[7 * i + 1] == Lit(CategoryValue(s[i].0))
    ensures SpendingLines(s, total)[7 * i + 3] == Num(s[i].1, Grouped2)
    ensures SpendingLines(s, total)[7 * i + 5] == Num(Percent(s[i].1, total), Fixed1)
  {
    var p := s[..|s| - 1];
    if i < |p| {
      SpendingLinesAt(p, total, i);
      assert p[i] == s[i];
    }
  }

  /** The summary lists every category with an expense once, from the largest amount down
      (ties in the order the categories first occur), each with what was spent on it; the
      total is the sum of all expenses. */
  lemma SpendingSummarySpec(ts: seq<Transaction>)
    requires CategorySpending(ts) != []
    ensures var cs := CategorySpending(ts);
      var s := SortDesc(cs);
      var total := Sum(Values(cs));
      && SpendingSummaryText(cs)
         == [Lit(SpendingHeader)] + SpendingLines(s, total)
            + [Lit("\nTotal Spending: $"), Num(total, Grouped2)]
      && total == TotalAbs(ts, IsExpense)
      && multiset(s) == multiset(cs) && NonIncreasing(s)
      && (forall i :: 0 <= i < |s| ==> s[i].1 == SpentOn(ts, s[i].0))
  {
    var cs := CategorySpending(ts);
    var s := SortDesc(cs);
    CategorySpendingSpec(ts);
    SpendingTotalsAgree(ts);
    SortDescPermutes(cs);
    SortDescSorted(cs);
    forall i | 0 <= i < |s| ensures s[i].1 == SpentOn(ts, s[i].0) {
      assert s[i] in multiset(cs);
      var j :| 0 <= j < |cs| && cs[j] == s[i];
    }
  }

  /** The percentages are shares of the positive total and add up to 100. */
  lemma SpendingPercentages(ts: seq<Transaction>)
    requires CategorySpending(ts) != []
    ensures var cs := CategorySpending(ts);
      var s := SortDesc(cs);
      var total := Sum(Values(cs));
      && total > 0.0
      && (forall i :: 0 <= i < |s| ==> Percent(s[i].1, total) == Shares(s, total)[i])
      && Sum(Shares(s, total)) == 100.0
  {
    var cs := CategorySpending(ts);
    CategorySpendingSpec(ts);
    assert AllPositive(cs);
    SortedShares(cs);
  }

  lemma SortedShares(cs: seq<(Category, real)>)
    requires cs != [] && AllPositive(cs)
    ensures var s := SortDesc(cs);
      var total := Sum(Values(cs));
      && total > 0.0
      && (forall i :: 0 <= i < |s| ==> Percent(s[i].1, total) == Shares(s, total)[i])
      && Sum(Shares(s, total)) == 100.0
  {
    var s := SortDesc(cs);
    var total := Sum(Values(cs));
    assert AllNonNegative(Values(cs)) && Values(cs)[0] > 0.0;
    SumNonNegative(Values(cs));
    SortDescSum(cs);
    SharesSum(s, total);
    WholeShare(total);
    SharesArePercents(s, total);
  }

  /** Dividing a positive total by itself gives the whole, 100 percent. */
  lemma WholeShare(total: real)
    requires total > 0.0
    ensures total / total * 100.0 == 100.0
  {
  }

  lemma SharesArePercents(s: seq<(Category, real)>, total: real)
    requires total > 0.0
    ensures forall i :: 0 <= i < |s| ==> Percent(s[i].1, total) == Shares(s, total)[i]
  {
  }

  // ----------------------------------------------------------------- get_income_analysis

  const NoIncomeText := "No income data available."
  const OverspendingWarning := "\n\nWarning: You're spending more than you earn."
  const SavingsAdvice := "\n\nRecommendation: Aim for at least 10-20% savings rate."

  function IncomeFigures(income: IncomeSummary): Doc {
    [ Lit("Income Analysis:\n  Total Income: $"), Num(income.total, Grouped2),
      Lit("\n  Average Monthly Income: $"), Num(income.averageMonthly, Grouped2),
      Lit("\n  Average Monthly Spending: $"), Num(income.averageMonthlySpending, Grouped2),
      Lit("\n  Monthly Savings: $"), Num(income.monthlySavings, Grouped2),
      Lit("\n  Savings Rate: "), Num(income.savingsRate, Fixed1), Lit("%") ]
  }

  /** `get_income_analysis`: the figures, then a warning when the savings rate is negative,
      or advice when it is under ten percent. */
  function IncomeAnalysisText(income: IncomeSummary): (d: Doc)
    ensures d != []
  {
    if income.total == 0.0 then [Lit(NoIncomeText)]
    else
      IncomeFigures(income)
        + if income.savingsRate < 0.0 then [Lit(OverspendingWarning)]
          else if income.savingsRate < 10.0 then [Lit(SavingsAdvice)]
          else []
  }

  /** For a summary of positive income: the warning closes the text exactly when average
      spending exceeds average income, the advice exactly when spending is at most income
      but more than nine tenths of it; otherwise the text ends with the savings rate. */
  lemma IncomeAnalysisBranches(total: real, months: real, count: nat, avgSpending: real)
    requires total > 0.0 && months > 0.0
    ensures var income := Summarize(total, months, count, avgSpending);
      var d := IncomeAnalysisText(income);
      && (d[|d| - 1] == Lit(OverspendingWarning) <==> avgSpending > income.averageMonthly)
      && (d[|d| - 1] == Lit(SavingsAdvice)
          <==> avgSpending <= income.averageMonthly && avgSpending > 0.9 * income.averageMonthly)
      && (avgSpending <= 0.9 * income.averageMonthly ==> d == IncomeFigures(income))
  {
    SummarizeSpec(total, months, count, avgSpending);
  }

  /** The income tool reports no data exactly when there is no income transaction. */
  lemma IncomeAnalysisNoData(ts: seq<Transaction>)
    ensures IncomeAnalysisText(IncomeSummaryOf(ts)) == [Lit(NoIncomeText)] <==> Incomes(ts) == []
  {
  }

  // ------------------------------------------------------------------- get_debt_analysis

  const NoDebtText := "No debt payments found in transactions."
  const StrategiesHeader := "\n\nRecommended Strategies:"

  function DebtFigures(debt: DebtReport): Doc {
    [ Lit("Debt Analysis:\n  Total Debt Payments: $"), Num(debt.totalDebtPayments, Grouped2),
      Lit("\n  Average Monthly Debt Payment: $"), Num(debt.averageMonthlyDebt, Grouped2),
      Lit("\n  Available for Additional Debt Payment: $"), Num(debt.availableForDebt, Grouped2) ]
  }

  /** The two lines of one strategy, its name shown in title case. */
  function StrategyLines(s: Strategy): Doc {
    [ Lit("\n  "), Titled(s.name), Lit(": "), Lit(s.description),
      Lit("\n    Monthly Allocation: $"), Num(s.monthlyAllocation, Grouped2) ]
  }

  function AllStrategyLines(ss: seq<Strategy>): (d: Doc)
    ensures |d| == 6 * |ss|
  {
    if ss == [] then [] else AllStrategyLines(ss[..|ss| - 1]) + StrategyLines(ss[|ss| - 1])
  }

  function DebtAnalysisText(debt: DebtReport): Doc {
    if debt.totalDebtPayments == 0.0 then [Lit(NoDebtText)]
    else if debt.strategies == [] then DebtFigures(debt)
    else DebtFigures(debt) + [Lit(StrategiesHeader)] + AllStrategyLines(debt.strategies)
  }

  /** `get_debt_analysis`. */
  method DebtAnalysisTool(debt: DebtReport) returns (d: Doc)
    ensures d == DebtAnalysisText(debt)
  {
    if debt.totalDebtPayments == 0.0 {
      return [Lit(NoDebtText)];
    }
    d := DebtFigures(debt);
    if debt.strategies != [] {
      d := d + [Lit(StrategiesHeader)];
      ghost var head := d;
      var i := 0;
      while i < |debt.strategies|
        invariant 0 <= i <= |debt.strategies|
        invariant d == head + AllStrategyLines(debt.strategies[..i])
      {
        var strat := debt.strategies[i];
        d := d + [Lit("\n  "), Titled(strat.name), Lit(": "), Lit(strat.description)];
        d := d + [Lit("\n    Monthly Allocation: $"), Num(strat.monthlyAllocation, Grouped2)];
        assert debt.strategies[..i + 1][..i] == debt.strategies[..i];
        i := i + 1;
      }
      assert debt.strategies[..i] == debt.strategies;
    }
  }


  /** For the report of some transactions: no data exactly when no debt was paid; otherwise
      both strategies follow the figures, each allocating at least the average payment. */
  lemma DebtAnalysisBranches(ts: seq<Transaction>, debt: DebtReport)
    requires debt.totalDebtPayments == TotalAbs(ts, IsDebtPayment)
    requires debt.averageMonthlyDebt > 0.0 <==> debt.totalDebtPayments > 0.0
    requires debt.strategies == Strategies(debt.averageMonthlyDebt, debt.availableForDebt)
    ensures DebtAnalysisText(debt) == [Lit(NoDebtText)] <==> TotalAbs(ts, IsDebtPayment) == 0.0
    ensures TotalAbs(ts, IsDebtPayment) > 0.0 ==>
      |debt.strategies| == 2
      && DebtAnalysisText(debt)
         == DebtFigures(debt) + [Lit(StrategiesHeader)]
            + StrategyLines(debt.strategies[0]) + StrategyLines(debt.strategies[1])
  {
    if TotalAbs(ts, IsDebtPayment) > 0.0 {
      var ss := debt.strategies;
      assert ss[..1][..0] == [];
      assert AllStrategyLines(ss[..1]) == StrategyLines(ss[0]);
      assert ss[..|ss| - 1] == ss[..1];
      assert AllStrategyLines(ss) == AllStrategyLines(ss[..1]) + StrategyLines(ss[1]);
    }
  }

  // ------------------------------------------------------------- identify_spending_issues

  const NoIssuesText := "No significant spending issues identified."
  const IssuesHeader := "Spending Patterns Identified:\n"

  /** `f"  {pattern['insight']}\n"` for each pattern, in order. */
  function IssueLines(ps: seq<Pattern>): (d: Doc)
    ensures ps != [] ==> d != [] && d[|d| - 1] == Lit("\n")
  {
    if ps == [] then []
    else IssueLines(ps[..|ps| - 1]) + [Lit("  ")] + Insight(ps[|ps| - 1]) + [Lit("\n")]
  }

  /** `get_spending_issues`. The final `strip()` removes only the closing newline: every
      insight ends in text that is not whitespace (InsightEndsInText). */
  function IssuesText(ps: seq<Pattern>): Doc {
    if ps == [] then [Lit(NoIssuesText)]
    else
      var lines := IssueLines(ps);
      [Lit(IssuesHeader)] + lines[..|lines| - 1]
  }

  /** Every insight closes with a literal whose last character is not whitespace. */
  lemma InsightEndsInText(p: Pattern)
    ensures var d := Insight(p);
      d != [] && d[|d| - 1].Lit? && d[|d| - 1].s != [] && !IsSpace(d[|d| - 1].s[|d[|d| - 1].s| - 1])
  {
  }

  lemma IssueLinesStep(ps: seq<Pattern>, i: nat)
    requires i < |ps|
    ensures IssueLines(ps[..i + 1]) == IssueLines(ps[..i]) + [Lit("  ")] + Insight(ps[i]) + [Lit("\n")]
  {
    assert ps[..i + 1][..i] == ps[..i];
  }

  /** `identify_spending_issues`. */
  method SpendingIssues(ps: seq<Pattern>) returns (d: Doc)
    ensures d == IssuesText(ps)
  {
    if ps == [] {
      return [Lit(NoIssuesText)];
    }
    var lines: Doc := [];
    var i := 0;
    while i < |ps|
      invariant 0 <= i <= |ps|
      invariant lines == IssueLines(ps[..i])
    {
      lines := lines + [Lit("  ")] + Insight(ps[i]) + [Lit("\n")];
      IssueLinesStep(ps, i);
      i := i + 1;
    }
    assert ps[..i] == ps;
    d := [Lit(IssuesHeader)] + lines[..|lines| - 1];
  }

  /** The issues tool reports none exactly when no pattern is flagged; otherwise each
      pattern's insight follows the header in order. */
  lemma IssuesTextSpec(ps: seq<Pattern>)
    ensures IssuesText(ps) == [Lit(NoIssuesText)] <==> ps == []
    ensures ps != [] ==>
      (IssuesText(ps)[0] == Lit(IssuesHeader) && IssuesText(ps)[1..] + [Lit("\n")] == IssueLines(ps))
  {
    if ps != [] {
      var lines := IssueLines(ps);
      assert lines[..|lines| - 1] + [Lit("\n")] == lines;
    }
  }

  // ---------------------------------------------------------- get_budget_recommendations

  const ImprovementHeader := "\n\nAreas for Improvement:"
  const NoAdjustmentsText := "\n\nNo major budget adjustments needed."

  function BudgetFigures(r: BudgetReport): Doc {
    [ Lit("Budget Recommendations:\n  Average Monthly Income: $"),
      Num(r.averageMonthlyIncome, Grouped2),
      Lit("\n  Average Monthly Spending: $"), Num(r.averageMonthlySpending, Grouped2),
      Lit("\n  Recommended Total Budget: $"), Num(r.totalRecommendedBudget, Grouped2) ]
  }

  /** `f"\n  {rec['category']}: {rec['suggestion']}"` for each recommendation. */
  function RecommendationLine(rec: Recommendation): (d: Doc)
    ensures d != [] && d[|d| - 1] == Lit("/month")
  {
    [Lit("\n  "), Titled(CategoryValue(rec.category)), Lit(": ")] + Suggestion(rec)
  }

  function RecommendationLines(recs: seq<Recommendation>): (d: Doc)
    ensures recs != [] ==> d != [] && d[|d| - 1] == Lit("/month")
  {
    if recs == [] then []
    else RecommendationLines(recs[..|recs| - 1]) + RecommendationLine(recs[|recs| - 1])
  }

  function BudgetText(r: BudgetReport): Doc {
    BudgetFigures(r)
      + if r.recommendations != [] then [Lit(ImprovementHeader)] + RecommendationLines(r.recommendations)
        else [Lit(NoAdjustmentsText)]
  }

  /** `get_budget_recommendations`. */
  method BudgetTool(r: BudgetReport) returns (d: Doc)
    ensures d == BudgetText(r)
  {
    d := BudgetFigures(r);
    if r.recommendations != [] {
      var lines := AppendRecommendations(d + [Lit(ImprovementHeader)], r.recommendations);
      d := lines;
    } else {
      d := d + [Lit(NoAdjustmentsText)];
    }
  }

  /** The loop of the budget tool: one line per recommendation appended to d. */
  method AppendRecommendations(d0: Doc, recs: seq<Recommendation>) returns (d: Doc)
    ensures d == d0 + RecommendationLines(recs)
  {
    d := d0;
    var i := 0;
    while i < |recs|
      invariant 0 <= i <= |recs|
      invariant d == d0 + RecommendationLines(recs[..i])
    {
      assert recs[..i + 1][..i] == recs[..i];
      assert RecommendationLines(recs[..i + 1])
        == RecommendationLines(recs[..i]) + RecommendationLine(recs[i]);
      d := d + RecommendationLine(recs[i]);
      i := i + 1;
    }
    assert recs[..i] == recs;
  }

  /** The budget text closes with "No major budget adjustments needed." exactly when no
      target is overspent, and states the recommended total budget. */
  lemma BudgetTextSpec(r: BudgetReport)
    ensures var d := BudgetText(r);
      && (d[|d| - 1] == Lit(NoAdjustmentsText) <==> r.recommendations == [])
      && d[5] == Num(r.totalRecommendedBudget, Grouped2)
  {
  }
}
