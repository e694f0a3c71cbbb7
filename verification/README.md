# Financial Coach — a verified model of its analytics and turn handling

This project models the deterministic core of the Financial Coach voice agent in Dafny:

- **Transactions** (`transaction.dfy`): the transaction record and its two string-valued enumerations. A date is modelled as a day number.
- **Ledger** (`ledger.dfy`): Python's `defaultdict(float)` and `dict` used as insertion-ordered association lists of sums. It also holds `sorted(..., key=value, reverse=True)` as a stable descending sort.
- **Text** (`text.dfy`): the reports as documents, which are sequences of literal pieces and numbers awaiting their format. It also holds the string helpers the reports use: `title`, `replace`, `lower` (on ASCII letters), `strip` and substring search.
- **FinancialAnalyzer** (`analyzer.dfy`):
  - validation, and the month count;
  - spending by category and by month;
  - the income summary;
  - the debt analysis with its payoff strategies;
  - spending-pattern detection;
  - budget recommendations against fixed income shares.
- **CoachTools** (`coach_tools.dfy`): the five tools the language model may call, as the text they return.
- **CoachAgent** (`coach_agent.dfy`):
  - the model/tools routing rule;
  - how `chat` assembles the messages it sends;
  - how it extracts the spoken reply and the detailed data from the thread the graph returns;
  - the finance snapshot built for the system prompt.
- **VoiceInterface** (`voice_interface.dfy`):
  - extracting the latest user utterance from the live chat context;
  - the choice between answering and delegating;
  - the keyword trigger;
  - the deduplicated data-card publication. This is kept as a class whose one field (the last handled message id) each turn updates.

Loops that update a dictionary or list in place are methods. Each is proved equal to a function that says what the loop builds, and lemmas then state what those functions mean. The model follows the code as written, with one exception: which reply `chat` speaks, written up under Findings. There the code is modelled as written (`CoachAgent.ExtractReply`), and the voice turn uses the corrected reply.

## Model

| member | source | states |
|---|---|---|
| Transactions.ParseCategory | src/models/transaction.py:8-26 | a category parsed from a string carries exactly that string as its value |
| Transactions.CategoryRoundTrip | src/models/transaction.py:8-26 | parsing the value of any category gives back that category |
| Transactions.ParseCategoryExact | src/models/transaction.py:8-26 | a string parses as a category iff it is the value of some category |
| Transactions.CategoriesComplete | src/models/transaction.py:8-26 | the enumeration lists all 18 categories, each at its own position |
| Transactions.CategoriesDistinct | src/models/transaction.py:8-26 | distinct members of the enumeration have distinct value strings |
| Transactions.ParseType | src/models/transaction.py:29-34 | a parsed transaction type carries exactly the given string |
| Transactions.TypeRoundTrip | src/models/transaction.py:29-34 | parsing the value of any transaction type gives it back |
| Transactions.TypesDistinct | src/models/transaction.py:29-34 | there are 5 transaction types, all listed, with distinct values |
| Transactions.SignConvention | src/models/transaction.py:39-42 | income (positive) and expense (negative) exclude each other; neither holds exactly for a zero amount |
| Transactions.AccountTypeDefaultsToNone | src/models/transaction.py:46-48 | a transaction built without an account type has none |
| Transactions.Abs | src/analysis/financial_analyzer.py:30 | the absolute value is non-negative and is the amount or its negation |
| Transactions.MinDate | src/analysis/financial_analyzer.py:17-18 | the earliest date is at or before every date and is attained |
| Transactions.MaxDate | src/analysis/financial_analyzer.py:17-18 | the latest date is at or after every date and is attained |
| Transactions.Span | src/analysis/financial_analyzer.py:18 | the span is non-negative and bounds the distance between any two dates |
| Transactions.SpanAttained | src/analysis/financial_analyzer.py:18 | some pair of transactions is exactly the span apart |
| Transactions.SpanOfSublist | src/analysis/financial_analyzer.py:54-55 | the span of a sub-collection, such as the income transactions, is at most the span of the whole |
| Ledger.KeyMember | src/analysis/financial_analyzer.py:31 | a key is listed iff some entry carries it |
| Ledger.MemberGet | src/analysis/financial_analyzer.py:193 | with distinct keys, an entry is present iff its key is listed and lookup returns its value |
| Ledger.GetAbsent | src/analysis/financial_analyzer.py:193 | lookup of a missing key returns the default (`spending.get(c, 0)`) |
| Ledger.AddKeys | src/analysis/financial_analyzer.py:30 | `result[k] += v` keeps the key order and appends a new key at the end |
| Ledger.AddSum | src/analysis/financial_analyzer.py:30 | `result[k] += v` raises the sum of the values by exactly v |
| Ledger.AddGet | src/analysis/financial_analyzer.py:30 | `result[k] += v` raises the value at k by v and leaves every other key's value alone |
| Ledger.FirstSeenSpec | src/analysis/financial_analyzer.py:31 | the keys in first-seen order are distinct and are exactly the keys met |
| Ledger.GroupedSpec | src/analysis/financial_analyzer.py:27-31 | accumulating entries gives distinct keys in first-seen order, each holding the total of its entries, with the grand total preserved |
| Ledger.GroupedPositive | src/analysis/financial_analyzer.py:27-31 | accumulating positive amounts gives positive totals |
| Ledger.SortDescSpec | src/agent/financial_coach_agent.py:32-34 | the descending sort is a permutation, non-increasing, stable among equal values, and keeps the total |
| Ledger.SortDescPermutes | src/agent/financial_coach_agent.py:32-34 | the descending sort permutes its input |
| Ledger.SortDescSorted | src/agent/financial_coach_agent.py:32-34 | the descending sort is non-increasing by value |
| Ledger.SortDescStable | src/agent/financial_coach_agent.py:32-34 | entries with equal values keep their relative order |
| Ledger.SortDescSum | src/agent/financial_coach_agent.py:31-34 | sorting does not change the total of the values |
| Ledger.Shares | src/agent/financial_coach_agent.py:35 | each share is the entry's value as a percentage of the total |
| Ledger.SharesSum | src/agent/financial_coach_agent.py:35 | the shares add up to the values' sum as a percentage of the total |
| Ledger.MeanValueSpec | src/analysis/financial_analyzer.py:89 | the mean times the count is the sum; the mean is positive (non-negative) iff the sum is |
| Text.Join | src/agent/financial_coach_agent.py:209 | joining nothing gives nothing; joining one line gives that line |
| Text.Lower | src/voice/voice_interface.py:120 | lower-casing keeps the length and lowers each character |
| Text.LowerConcat | src/voice/voice_interface.py:120 | lower-casing distributes over concatenation |
| Text.LowerIdempotent | src/voice/voice_interface.py:120 | lower-casing twice is lower-casing once |
| Text.Replace | src/analysis/financial_analyzer.py:196 | replacing a character keeps the length and swaps exactly its occurrences |
| Text.TitleIdempotent | src/analysis/financial_analyzer.py:196 | title case applied twice is title case applied once |
| Text.DisplayName | src/analysis/financial_analyzer.py:196 | the display name of an enumeration value has its length and no underscore |
| Text.ContainsSpec | src/voice/voice_interface.py:120 | `needle in hay` holds iff the needle occurs at some position of the hay |
| Text.ContainsExtend | src/voice/voice_interface.py:120 | text containing a needle still contains it when more text follows |
| Text.StripStart | src/voice/voice_interface.py:86 | stripping the front leaves a suffix that does not start with whitespace and removes only whitespace |
| Text.StripEnd | src/voice/voice_interface.py:86 | stripping the back leaves a prefix that does not end with whitespace and removes only whitespace |
| Text.StripEmpty | src/voice/voice_interface.py:86-87 | the stripped text is empty iff the text is all whitespace |
| FinancialAnalyzer.Create | src/analysis/financial_analyzer.py:10-20 | construction succeeds iff two transactions lie at least 30 days apart; it fails with "no transactions" iff the list is empty, and otherwise with "not enough data" carrying the span in days |
| FinancialAnalyzer.Months | src/analysis/financial_analyzer.py:22-24 | the month count is the span over 30 days, but never below 1 |
| FinancialAnalyzer.MonthsOfValid | src/analysis/financial_analyzer.py:22-24 | for a valid analyzer the month count is exactly the span over 30 days |
| FinancialAnalyzer.TotalAbs | src/analysis/financial_analyzer.py:83 | a total of absolute amounts is non-negative |
| FinancialAnalyzer.SpentOn | src/analysis/financial_analyzer.py:28-30 | the amount spent on a category is non-negative |
| FinancialAnalyzer.TallySnoc | src/analysis/financial_analyzer.py:28-30 | one more transaction contributes its absolute amount under its key iff it is kept |
| FinancialAnalyzer.TallyConcat | src/analysis/financial_analyzer.py:28-30 | the contributions of two runs of transactions concatenate |
| FinancialAnalyzer.TallyKeys | src/analysis/financial_analyzer.py:28-30 | a key is contributed iff some kept transaction has it |
| FinancialAnalyzer.TallySum | src/analysis/financial_analyzer.py:26-31 | the contributions add up to the total of the kept absolute amounts |
| FinancialAnalyzer.TallyExpensePositive | src/analysis/financial_analyzer.py:29-30 | every contribution of an expense is positive |
| FinancialAnalyzer.TallyCategoryTotal | src/analysis/financial_analyzer.py:26-31 | the contributions under a category total the amount spent on it |
| FinancialAnalyzer.GroupTally | src/analysis/financial_analyzer.py:27-31 | the loop over the transactions builds the grouped contributions |
| FinancialAnalyzer.SpendingByCategory | src/analysis/financial_analyzer.py:26-31 | the method returns the spending-by-category report |
| FinancialAnalyzer.MonthlySpendingOf | src/analysis/financial_analyzer.py:33-38 | the method returns the spending-by-month report |
| FinancialAnalyzer.CategorySpendingSpec | src/analysis/financial_analyzer.py:26-31 | the keys are distinct and are exactly the categories of expenses, in first-seen order; each value is positive and is the amount spent on its category |
| FinancialAnalyzer.CategorySpendingMember | src/analysis/financial_analyzer.py:26-31 | (c, v) is in the report iff c has an expense and v is what was spent on c |
| FinancialAnalyzer.CategorySpendingGet | src/analysis/financial_analyzer.py:193 | looking a category up in the report gives what was spent on it, 0 if nothing |
| FinancialAnalyzer.SpentOnPositive | src/analysis/financial_analyzer.py:28-30 | the amount spent on a category is positive iff it has an expense |
| FinancialAnalyzer.MonthlySpendingSpec | src/analysis/financial_analyzer.py:33-38 | the month keys are distinct and are exactly the months with an expense; all values are positive |
| FinancialAnalyzer.SpendingTotalsAgree | src/analysis/financial_analyzer.py:26-38 | the monthly and the category reports have the same grand total, the sum of all expenses |
| FinancialAnalyzer.ZeroAmountIgnored | src/analysis/financial_analyzer.py:29 | inserting a zero-amount transaction anywhere changes neither report |
| FinancialAnalyzer.ZeroAmountTally | src/analysis/financial_analyzer.py:29-30 | a zero-amount transaction contributes nothing |
| FinancialAnalyzer.Incomes | src/analysis/financial_analyzer.py:41 | the income transactions are exactly the positive ones |
| FinancialAnalyzer.IncomeTotalPositive | src/analysis/financial_analyzer.py:53 | total income is non-negative, and positive when there is any income |
| FinancialAnalyzer.IncomeMonths | src/analysis/financial_analyzer.py:54-55 | the months covered by income are at least 1 |
| FinancialAnalyzer.SummarizeSpec | src/analysis/financial_analyzer.py:53-74 | with income: average × months = total, savings = income − spending, rate = savings / income × 100; the rate is negative iff spending exceeds income, and below 10 iff spending exceeds 90% of income |
| FinancialAnalyzer.IncomeSummaryOf | src/analysis/financial_analyzer.py:40-74 | the summary is the all-zero one iff there is no income; otherwise total and average are positive, months ≥ 1, and the count is the number of incomes |
| FinancialAnalyzer.MeanOfSpending | src/analysis/financial_analyzer.py:58-63 | average monthly spending is all expenses over the number of months with expenses, 0 without any |
| FinancialAnalyzer.IncomeSpendingAndMonths | src/analysis/financial_analyzer.py:54-63 | the summary's spending is the average monthly spending, and its months never exceed the analyzer's months |
| FinancialAnalyzer.RateBelow | src/analysis/financial_analyzer.py:72 | a savings rate below a bound is spending above the matching share of income |
| FinancialAnalyzer.DebtPayments | src/analysis/financial_analyzer.py:82 | the debt transactions are drawn from the transactions and are all of a debt category |
| FinancialAnalyzer.TallyDebtPayments | src/analysis/financial_analyzer.py:82-87 | walking the debt list contributes what filtering the whole list by debt category does |
| FinancialAnalyzer.DebtMonthlySum | src/analysis/financial_analyzer.py:83-89 | the monthly debt breakdown adds up to the total debt payments |
| FinancialAnalyzer.Strategies | src/analysis/financial_analyzer.py:91-106 | there are strategies iff the monthly average is positive: snowball then avalanche with their own descriptions, both allocating the larger of the average and the average plus half the available |
| FinancialAnalyzer.DebtAnalysis | src/analysis/financial_analyzer.py:76-115 | total, count, monthly breakdown, average, available amount and strategies are as specified; the breakdown sums to the total; the average is positive iff the total is |
| FinancialAnalyzer.HighSpendingFlags | src/analysis/financial_analyzer.py:128-140 | every flag is a high-spending pattern above the threshold, at most one per category |
| FinancialAnalyzer.FrequencyFlag | src/analysis/financial_analyzer.py:142-170 | a frequency check yields nothing or one pattern carrying the category's transaction count |
| FinancialAnalyzer.FlagHighSpending | src/analysis/financial_analyzer.py:128-140 | the loop over the sorted categories builds the high-spending flags |
| FinancialAnalyzer.SpendingPatterns | src/analysis/financial_analyzer.py:117-172 | reading the category and monthly reports and thresholding at 30% of the monthly mean yields exactly Patterns of the transactions |
| FinancialAnalyzer.FlagPatterns | src/analysis/financial_analyzer.py:128-170 | the high-spending loop over the sorted categories, then the fuel check at 4 * months * 1.5, then the dining check at 8 * months * 1.5, append exactly the patterns PatternsOf describes |
| FinancialAnalyzer.AppendFrequent | src/analysis/financial_analyzer.py:142-170 | a frequency check appends one pattern exactly when the category was spent on and its count exceeds the limit, and leaves the earlier patterns as they are |
| FinancialAnalyzer.FlagsConcat | src/analysis/financial_analyzer.py:128-140 | flagging two runs of categories concatenates their flags |
| FinancialAnalyzer.FlagsMember | src/analysis/financial_analyzer.py:128-140 | a flag is produced iff some category's monthly average exceeds the threshold, carrying that average |
| FinancialAnalyzer.FlagsBounded | src/analysis/financial_analyzer.py:128-140 | a lower bound on the totals bounds the flagged averages |
| FinancialAnalyzer.FlagsSorted | src/analysis/financial_analyzer.py:128-131 | flags from sorted totals come in descending order of average |
| FinancialAnalyzer.FlagsAt | src/analysis/financial_analyzer.py:128-140 | the categories flagged at a given average are those with that total, in input order |
| FinancialAnalyzer.CountCategoryPositive | src/analysis/financial_analyzer.py:143-146 | the transaction count of a category is at most the total, and positive iff it occurs |
| FinancialAnalyzer.PatternsHighSpending | src/analysis/financial_analyzer.py:117-140 | a high-spending pattern is reported iff the category has expenses and its monthly average exceeds 30% of average monthly spending |
| FinancialAnalyzer.PatternsOfHigh | src/analysis/financial_analyzer.py:128-140 | the same, for given totals, months and threshold |
| FinancialAnalyzer.PatternsFrequent | src/analysis/financial_analyzer.py:142-170 | a frequency pattern is reported iff the category is fuel (more than 6 per month) or dining (more than 12 per month) with expenses, carrying its count |
| FinancialAnalyzer.PatternsOfFrequent | src/analysis/financial_analyzer.py:142-170 | the same, for given totals and months |
| FinancialAnalyzer.PatternsOrder | src/analysis/financial_analyzer.py:117-172 | high-spending flags come first in descending average, then fuel, then dining |
| FinancialAnalyzer.PatternsOfOrder | src/analysis/financial_analyzer.py:117-172 | the same, for given totals and months |
| FinancialAnalyzer.PatternsTies | src/analysis/financial_analyzer.py:128-140 | categories with equal totals are flagged in the order they were first spent on |
| FinancialAnalyzer.PatternsOfTies | src/analysis/financial_analyzer.py:128-140 | the same, for given totals and months |
| FinancialAnalyzer.TargetRank | src/analysis/financial_analyzer.py:180-187 | a category's rank is its position in the target table, or past the end when it has no target |
| FinancialAnalyzer.Recommended | src/analysis/financial_analyzer.py:192 | the recommended amount is 0 without income and non-negative with it |
| FinancialAnalyzer.Recommend | src/analysis/financial_analyzer.py:189-207 | the loop over the targets builds the recommendations, and its running total is 60% of income (0 without income) |
| FinancialAnalyzer.BudgetRecommendations | src/analysis/financial_analyzer.py:174-214 | the report carries the recommendations, income, spending and the 60% total budget |
| FinancialAnalyzer.TargetsTotal | src/analysis/financial_analyzer.py:180-194 | the target shares add up to 60% of income |
| FinancialAnalyzer.RecommendationsMember | src/analysis/financial_analyzer.py:191-207 | a recommendation is listed iff its category has a target and actual spending exceeds 120% of the recommended amount |
| FinancialAnalyzer.RecommendationsOrder | src/analysis/financial_analyzer.py:191 | recommendations follow the order of the target table |
| FinancialAnalyzer.ReductionPositive | src/analysis/financial_analyzer.py:195-204 | every suggested reduction is positive |
| FinancialAnalyzer.BudgetListed | src/analysis/financial_analyzer.py:174-207 | over transactions: listed iff the category has a target and its monthly spending exceeds 120% of its share of average income |
| FinancialAnalyzer.BudgetReduction | src/analysis/financial_analyzer.py:195-204 | every reduction in the report is positive |
| FinancialAnalyzer.BudgetOrder | src/analysis/financial_analyzer.py:180-191 | the report follows the target order: rent, groceries, fuel, utilities, dining, shopping |
| FinancialAnalyzer.BudgetWithoutIncomeZero | src/analysis/financial_analyzer.py:192 | without income every recommended amount is 0 |
| FinancialAnalyzer.BudgetWithoutIncome | src/analysis/financial_analyzer.py:192-195 | without income a category is listed iff it has a target and any expense |
| FinancialAnalyzer.ZeroTargetsListed | src/analysis/financial_analyzer.py:192-195 | with zero income a category is listed iff it has a target and positive spending |
| CoachTools.SpendingSummary | src/agent/financial_coach_agent.py:24-38 | the tool's loop builds the spending-summary text |
| CoachTools.SpendingLinesAt | src/agent/financial_coach_agent.py:32-36 | line i shows the i-th category, its amount and its percentage |
| CoachTools.SpendingSummarySpec | src/agent/financial_coach_agent.py:24-38 | with spending: header, one line per category in descending order of amount (each the amount spent on it), then the total of all expenses |
| CoachTools.SpendingPercentages | src/agent/financial_coach_agent.py:31-35 | over transactions: the total is positive, and the percentages shown are the shares, which add up to 100 |
| CoachTools.SortedShares | src/agent/financial_coach_agent.py:31-36 | the same, for any non-empty list of positive amounts |
| CoachTools.SharesArePercents | src/agent/financial_coach_agent.py:35 | each percentage shown equals the entry's share of the total |
| CoachTools.IncomeAnalysisBranches | src/agent/financial_coach_agent.py:41-59 | the overspending warning iff spending exceeds income; the savings advice iff spending lies within (90%, 100%] of income; otherwise only the figures |
| CoachTools.IncomeAnalysisNoData | src/agent/financial_coach_agent.py:44-45 | the "no income data" text iff there are no income transactions |
| CoachTools.DebtAnalysisTool | src/agent/financial_coach_agent.py:62-81 | the tool's loop over the strategies builds the debt-analysis text |
| CoachTools.DebtAnalysisBranches | src/agent/financial_coach_agent.py:62-81 | the "no debt" text iff total debt payments are 0; otherwise the figures, then both strategies |
| CoachTools.IssueLines | src/agent/financial_coach_agent.py:90-91 | a non-empty list of patterns gives lines ending in a newline |
| CoachTools.InsightEndsInText | src/agent/financial_coach_agent.py:91-92 | each insight ends in a non-whitespace character, so strip removes only the final newline |
| CoachTools.SpendingIssues | src/agent/financial_coach_agent.py:84-92 | the tool's loop builds the issues text |
| CoachTools.IssuesTextSpec | src/agent/financial_coach_agent.py:84-92 | the "no issues" text iff there are no patterns; otherwise the header, then the insight lines without the final newline |
| CoachTools.RecommendationLine | src/agent/financial_coach_agent.py:107 | a recommendation line ends with "/month" |
| CoachTools.RecommendationLines | src/agent/financial_coach_agent.py:106-107 | a non-empty list of recommendations ends with "/month" |
| CoachTools.AppendRecommendations | src/agent/financial_coach_agent.py:106-107 | the loop appends the recommendation lines |
| CoachTools.BudgetTool | src/agent/financial_coach_agent.py:95-110 | the tool builds the budget text |
| CoachTools.BudgetTextSpec | src/agent/financial_coach_agent.py:95-110 | the "no adjustments" ending iff there are no recommendations; the total budget is shown |
| CoachAgent.RouteAfterReply | src/agent/financial_coach_agent.py:151-160 | the loop runs the tools iff the latest message is an AI message with tool calls, and ends on an empty thread |
| CoachAgent.SystemCountZero | src/agent/financial_coach_agent.py:242-244 | no system message is counted iff the history has none |
| CoachAgent.SystemCountConcat | src/agent/financial_coach_agent.py:242-248 | system messages of two runs add up |
| CoachAgent.AssembleMessages | src/agent/financial_coach_agent.py:240-250 | the system prompt is prepended iff the history has no system message; then the history unchanged, then the user's message; the result always holds a system message |
| CoachAgent.LastToolResult | src/agent/financial_coach_agent.py:261-265 | the position of the last tool message with content, or none if there is none |
| CoachAgent.FirstAiReply | src/agent/financial_coach_agent.py:261-263 | the position of the first AI message with content, or none |
| CoachAgent.LastAiReply | src/agent/financial_coach_agent.py:261-263 | the position of the last AI message with content, or none |
| CoachAgent.LastToolUnique | src/agent/financial_coach_agent.py:261-265 | any position meeting the characterisation is the last tool result |
| CoachAgent.FirstAiUnique | src/agent/financial_coach_agent.py:261-263 | any position meeting the characterisation is the first AI reply |
| CoachAgent.LastAiUnique | src/agent/financial_coach_agent.py:261-263 | any position meeting the characterisation is the last AI reply |
| CoachAgent.ToolDetail | src/agent/financial_coach_agent.py:259-265 | the detail is empty iff no tool message has content |
| CoachAgent.ScanReply | src/agent/financial_coach_agent.py:258-268 | as written: the detail is the last tool result, or the spoken text when there is none |
| CoachAgent.ScanStep | src/agent/financial_coach_agent.py:261-265 | how one more message, in front of those already scanned, changes the detail, the as-written voice and the corrected voice |
| CoachAgent.ExtractReply | src/agent/financial_coach_agent.py:258-268 | the backward loop as written computes the as-written reply |
| CoachAgent.TurnReply | src/agent/financial_coach_agent.py:258-268 | corrected: the same detail, and the voice is the latest AI reply after the last tool result |
| CoachAgent.ExtractTurnReply | src/agent/financial_coach_agent.py:258-268 | the corrected backward loop computes the corrected reply |
| CoachAgent.AppendTurn | src/agent/financial_coach_agent.py:121-122 | appending a turn that holds no tool result to a persisted thread keeps the last tool result and extends what follows it by that turn |
| CoachAgent.ScanKeepsEarlierReply | src/agent/financial_coach_agent.py:261-265 | as written, once a thread has an AI reply after its last tool result, every later turn that calls no tool speaks that earlier reply |
| CoachAgent.ScanSecondTurn | src/agent/financial_coach_agent.py:258-265 | as written, a second turn that calls no tool speaks "first" instead of "second", with the system prompt sent before each question |
| CoachAgent.ScanToolTurn | src/agent/financial_coach_agent.py:258-265 | as written, a later turn that calls a tool speaks its own answer "second" |
| CoachAgent.TurnSpeaksLatestReply | src/agent/financial_coach_agent.py:258-268 | corrected, a thread that ends in a non-empty AI answer speaks that answer, whether or not the turn called a tool |
| CoachAgent.TurnAgreesOnSingleReply | src/agent/financial_coach_agent.py:258-268 | with at most one AI reply after the last tool result, the corrected and the as-written reply coincide |
| CoachAgent.TopThreeSpec | src/agent/financial_coach_agent.py:182 | the top three are min(3, n) entries of the spending, non-increasing, and no omitted entry is larger |
| CoachAgent.TopThreeMaximal | src/agent/financial_coach_agent.py:182 | no omitted entry exceeds any kept one |
| CoachAgent.PositiveTotal | src/agent/financial_coach_agent.py:180-181 | non-empty positive spending has a positive total, so the percentage guard holds |
| CoachAgent.ContextLayout | src/agent/financial_coach_agent.py:177-209 | appending the lines builds the snapshot text from the given reports |
| CoachAgent.BuildVoiceContext | src/agent/financial_coach_agent.py:176-209 | the method computes the snapshot of the analyzer's transactions |
| CoachAgent.ContextLinesSpec | src/agent/financial_coach_agent.py:176-209 | the top-categories and total lines appear iff there is spending, the income line iff income is positive, the debt line iff debt payments are positive, always in that order |
| CoachAgent.ContextTextNoData | src/agent/financial_coach_agent.py:209 | the "no transaction data" text iff no line was produced |
| CoachAgent.SpendingPresent | src/agent/financial_coach_agent.py:179-180 | the spending report is non-empty iff there is an expense, and all its values are positive |
| CoachAgent.IncomePresent | src/agent/financial_coach_agent.py:191-192 | total income is positive iff there is an income transaction |
| CoachAgent.DebtPresent | src/agent/financial_coach_agent.py:201-202 | debt payments total more than 0 iff some debt transaction has a nonzero amount |
| CoachAgent.VoiceContextSpec | src/agent/financial_coach_agent.py:176-209 | over transactions: which lines appear (expense, income, nonzero debt), in what order, and the no-data text iff none does |
| VoiceInterface.PartTextsConcat | src/voice/voice_interface.py:76-80 | the texts of two runs of parts concatenate |
| VoiceInterface.JoinWords | src/voice/voice_interface.py:86 | joining no texts gives "", and one text gives itself |
| VoiceInterface.FlattenSingles | src/voice/voice_interface.py:71-86 | a string, a text object and a one-element list holding either all give the stripped text |
| VoiceInterface.FlattenDropsOthers | src/voice/voice_interface.py:76-80 | a list part that is neither a string nor has text is skipped |
| VoiceInterface.CollectTexts | src/voice/voice_interface.py:75-80 | the loop over the parts collects their texts |
| VoiceInterface.LatestSpeaker | src/voice/voice_interface.py:67-88 | the position of the last user item with a non-empty utterance, or none |
| VoiceInterface.LatestSpeakerUnique | src/voice/voice_interface.py:67-88 | any position meeting the characterisation is the latest speaker |
| VoiceInterface.LatestUtterance | src/voice/voice_interface.py:67-88 | the utterance is empty iff no user item says anything |
| VoiceInterface.ExtractUserText | src/voice/voice_interface.py:67-88 | the reverse loop with its break finds the latest user utterance |
| VoiceInterface.TriggersIgnoreCase | src/voice/voice_interface.py:120 | the keyword test ignores letter case |
| VoiceInterface.TriggersExtend | src/voice/voice_interface.py:120 | a triggering utterance still triggers with more words after it |
| VoiceInterface.Decide | src/voice/voice_interface.py:119-126 | publish iff the key differs from the stored one and a keyword occurs; publishing stores the key, otherwise nothing changes |
| VoiceInterface.OnePublishPerKey | src/voice/voice_interface.py:119-126 | over any run of turns with the same key at most one card is published, and none if that key is already stored |
| VoiceInterface.ResponseDefaults | src/voice/voice_interface.py:113-114 | the response defaults never apply to what chat returns; without a voice the text is "I've analyzed your data.", and without a detail it is the voice |
| VoiceInterface.FinancialCoachVoiceAgent.constructor | src/voice/voice_interface.py:38-45 | a new agent has handled no message and keeps its session id |
| VoiceInterface.FinancialCoachVoiceAgent.LlmNode | src/voice/voice_interface.py:60-130 | delegate, with the state unchanged, iff there is no utterance; otherwise speak the reply's voice, store the key exactly when a card is published, and publish the card (question, detail, session) exactly when Decide says so |
| VoiceInterface.TwoTurnsSameKey | src/voice/voice_interface.py:116-126 | two answered turns with the same key publish at most one card |

## Left out

- `src/data/transaction_loader.py` and `main.py` are not part of this model.
- The language model, LangGraph's execution, `ToolNode`, `MemorySaver` and the recursion limit of 10 (`financial_coach_agent.py:252-256`) are not modelled. The thread the graph returns for a turn is an input to the reply extraction and to `LlmNode`. Reaching the recursion limit raises an error in the library and is not modelled.
- The wording of the system prompt, `get_voice_context`, `on_enter`, `stt_node`, the entrypoint and the room are not modelled: they are fixed text or plumbing.
- The `CEREBRAS_API_KEY` check and the client settings are not modelled: they are environment and configuration.
- Concurrency is not modelled: the executor call, `asyncio.create_task`, and the ordering of a card's publication against later turns. A published card is the `DataCard` value handed to the side channel. Its JSON encoding and a failed publication, which is only logged, are left out.
- Floating-point arithmetic and rounding are not modelled: amounts are exact reals. Number formatting (`:,.2f`, `:,.0f`, `.1f`) stays abstract as `Num` pieces. A category in a report shows as its value, and a title-cased name as a `Titled` piece.
- Dates are whole day numbers. Time of day is not modelled, so `(max - min).days` is a difference of day numbers.
- The chat context's shapes are modelled as a tagged content type. Specifically:
  - an item's role is an optional string standing for `str(msg.role)`;
  - an item's id is present or absent; an `id` attribute that holds `None` is not distinguished from a missing one;
  - a `chat_ctx` that is absent or falsy is an empty item list.
- CoachAgent.TurnReply: the detail is still the latest tool result in the whole persisted thread, even when this turn called no tool. An earlier turn's data can then be shown again. The model keeps that as written.
- VoiceInterface.FinancialCoachVoiceAgent.LlmNode: speaks and publishes the corrected reply (`CoachAgent.TurnReply`), not the reply `chat` returns as written (`CoachAgent.ScanReply`). On a later turn that calls no tool, the program speaks the earliest answer given since the last tool result, not the new one (see Findings). The two agree whenever at most one AI reply follows the last tool result (`CoachAgent.TurnAgreesOnSingleReply`).
- Text.Lower: folds only the ASCII letters A-Z. Python's `str.lower` folds every Unicode cased letter, for example the Kelvin sign to `k`. So the keyword test (`Triggers`) and the `"user"` role test can miss text that Python would match.
- A message's `content` is modelled as a string. The message library also allows a list of content blocks, which this model does not represent.
- The voice agent's session id is a constructor argument. The source builds it as `call_` followed by the first eight hex digits of a fresh `uuid4` (`voice_interface.py:43-45`). Randomness is not modelled, and neither is that format.
- CoachAgent.BuildVoiceContext: the three `try`/`except` guards are not modelled, because the modelled reports cannot raise. The percentage guard is proved to hold (`PositiveTotal`).

## Findings

| source | as written | input that shows it | evidently intended | confidence | as-written member | corrected member |
|---|---|---|---|---|---|---|
| src/agent/financial_coach_agent.py:258-265 | the backward scan has no `break` and keeps overwriting the spoken reply until it reaches a tool message. It therefore ends with the EARLIEST AI reply after the last tool result. The thread persists across turns (`add_messages` at line 122, `thread_id` at lines 252-256). So on a later turn that calls no tool, it speaks the earliest answer given since the last tool result instead of the new one. A turn that calls a tool speaks its own answer (`CoachAgent.ScanToolTurn`). | a thread `[System p, Human "hi", AI "first", System p, Human "and now?", AI "second"]` gives the voice "first" | speak the most recent AI reply, the model's answer to this turn | not executed | CoachAgent.ScanSecondTurn | CoachAgent.TurnSpeaksLatestReply |

`CoachAgent.ExtractReply` is the loop as written, and `CoachAgent.ScanKeepsEarlierReply` states the general case. `CoachAgent.ExtractTurnReply` is the corrected loop. `VoiceInterface.FinancialCoachVoiceAgent.LlmNode` uses it, which departs from the code as written and is recorded under "## Left out".
