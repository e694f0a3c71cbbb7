/** The deterministic parts of the coach agent (src/agent/financial_coach_agent.py): the
    routing rule of its model/tools loop, how `chat` assembles the messages it sends, how it
    picks the spoken reply and the detailed data out of the thread the graph returns, and the
    snapshot of the finances it builds once for the system prompt. The language model and the
    graph runtime are not modelled: the thread the graph returns is an input. */
module CoachAgent {
  import opened Wrappers
  import opened Transactions
  import opened Ledger
  import opened Text
  import opened FinancialAnalyzer

  /** A chat message; an AI message carries the names of the tools it asks to call. */
  datatype Message =
    | SystemMessage(content: string)
    | HumanMessage(content: string)
    | AiMessage(content: string, toolCalls: seq<string>)
    | ToolMessage(content: string)

  // ------------------------------------------------------------------ should_continue

  datatype Route = RunTools | Finish

  /** `should_continue`: the edge taken after the model node. */
  function ShouldContinue(messages: seq<Message>): Route {
    if messages == [] then Finish
    else
      var last := messages[|messages| - 1];
      if last.AiMessage? && last.toolCalls != [] then RunTools else Finish
  }

  /** Once the model node has appended its reply, the loop goes on to the tools exactly
      when that reply asks for at least one tool; a thread ending in any other message, and
      the empty thread, finish. */
  lemma RouteAfterReply(messages: seq<Message>, m: Message)
    ensures ShouldContinue(messages + [m]) == RunTools <==> m.AiMessage? && m.toolCalls != []
    ensures ShouldContinue([]) == Finish
  {
  }

  // ----------------------------------------------------------- chat: message assembly

  predicate HasSystemMessage(h: seq<Message>) {
    exists i :: 0 <= i < |h| && h[i].SystemMessage?
  }

  function SystemCount(ms: seq<Message>): nat {
    if ms == [] then 0
    else SystemCount(ms[..|ms| - 1]) + (if ms[|ms| - 1].SystemMessage? then 1 else 0)
  }

  /** A thread holds no system message exactly when it counts none. */
  lemma {:induction false} SystemCountZero(ms: seq<Message>)
    ensures SystemCount(ms) == 0 <==> !HasSystemMessage(ms)
  {
    if ms != [] {
      var p := ms[..|ms| - 1];
      SystemCountZero(p);
      assert forall i :: 0 <= i < |p| ==> p[i] == ms[i];
      if HasSystemMessage(p) {
        var i :| 0 <= i < |p| && p[i].SystemMessage?;
        assert ms[i].SystemMessage?;
      }
    }
  }

  lemma {:induction false} SystemCountConcat(a: seq<Message>, b: seq<Message>)
    ensures SystemCount(a + b) == SystemCount(a) + SystemCount(b)
  {
    if b != [] {
      assert (a + b)[..|a + b| - 1] == a + b[..|b| - 1];
      SystemCountConcat(a, b[..|b| - 1]);
    } else {
      assert a + b == a;
    }
  }

  /** The message list `chat` hands to the graph. A system prompt goes first exactly when the
      history is absent, empty or without a system message of its own; the history follows
      in its order; the user's message comes last. The voice path passes no history, so it
      always sends the system prompt and the user's message alone. */
  method AssembleMessages(history: Option<seq<Message>>, systemPrompt: string,
                          userMessage: string)
    returns (messages: seq<Message>)
    ensures var h := history.GetOr([]);
      var prepended := !HasSystemMessage(h);
      && |messages| == |h| + (if prepended then 2 else 1)
      && messages[|messages| - 1] == HumanMessage(userMessage)
      && messages[(if prepended then 1 else 0)..|messages| - 1] == h
      && (prepended ==> messages[0] == SystemMessage(systemPrompt))
      && SystemCount(messages) == SystemCount(h) + (if prepended then 1 else 0)
      && SystemCount(messages) >= 1
    ensures history.None? ==> messages == [SystemMessage(systemPrompt), HumanMessage(userMessage)]
  {
    var h := history.GetOr([]);
    messages := [];
    if history.None? || history.value == [] || !HasSystemMessage(history.value) {
      messages := messages + [SystemMessage(systemPrompt)];
    }
    if history.Some? && history.value != [] {
      messages := messages + history.value;
    }
    messages := messages + [HumanMessage(userMessage)];

    SystemCountZero(h);
    if HasSystemMessage(h) {
      assert messages == h + [HumanMessage(userMessage)];
      SystemCountConcat(h, [HumanMessage(userMessage)]);
    } else {
      assert messages == [SystemMessage(systemPrompt)] + h + [HumanMessage(userMessage)];
      SystemCountConcat([SystemMessage(systemPrompt)], h);
      SystemCountConcat([SystemMessage(systemPrompt)] + h, [HumanMessage(userMessage)]);
    }
  }

  // ------------------------------------------------------------- chat: reply selection

  /** The reply spoken when the thread yields none. */
  const Fallback := "I've analyzed your data. How can I help?"

  datatype Reply = Reply(voice: string, detail: string)

  /** An AI message with something to say; a tool message with a result. */
  predicate IsAiReply(m: Message) { m.AiMessage? && m.content != "" }
  predicate IsToolResult(m: Message) { m.ToolMessage? && m.content != "" }

  /** The position of the last tool result. */
  function LastToolResult(ms: seq<Message>): (r: Option<nat>)
    ensures r.Some? ==> (r.value < |ms| && IsToolResult(ms[r.value])
      && forall j :: r.value < j < |ms| ==> !IsToolResult(ms[j]))
    ensures r.None? ==> forall j :: 0 <= j < |ms| ==> !IsToolResult(ms[j])
  {
    if ms == [] then None
    else
      match LastToolResult(ms[1..])
      case Some(k) => Some(k + 1)
      case None => if IsToolResult(ms[0]) then Some(0) else None
  }

  /** The position of the earliest AI reply. */
  function FirstAiReply(ms: seq<Message>): (r: Option<nat>)
    ensures r.Some? ==> (r.value < |ms| && IsAiReply(ms[r.value])
      && forall j :: 0 <= j < r.value ==> !IsAiReply(ms[j]))
    ensures r.None? ==> forall j :: 0 <= j < |ms| ==> !IsAiReply(ms[j])
  {
    if ms == [] then None
    else if IsAiReply(ms[0]) then Some(0)
    else
      match FirstAiReply(ms[1..])
      case Some(k) => Some(k + 1)
      case None => None
  }

  /** The position of the latest AI reply. */
  function LastAiReply(ms: seq<Message>): (r: Option<nat>)
    ensures r.Some? ==> (r.value < |ms| && IsAiReply(ms[r.value])
      && forall j :: r.value < j < |ms| ==> !IsAiReply(ms[j]))
    ensures r.None? ==> forall j :: 0 <= j < |ms| ==> !IsAiReply(ms[j])
  {
    if ms == [] then None
    else
      match LastAiReply(ms[1..])
      case Some(k) => Some(k + 1)
      case None => if IsAiReply(ms[0]) then Some(0) else None
  }

  /** Each of the three positions is the only one with its defining property. */
  lemma LastToolUnique(ms: seq<Message>, k: nat)
    requires k < |ms| && IsToolResult(ms[k])
    requires forall j :: k < j < |ms| ==> !IsToolResult(ms[j])
    ensures LastToolResult(ms) == Some(k)
  {
  }

  lemma FirstAiUnique(ms: seq<Message>, k: nat)
    requires k < |ms| && IsAiReply(ms[k])
    requires forall j :: 0 <= j < k ==> !IsAiReply(ms[j])
    ensures FirstAiReply(ms) == Some(k)
  {
  }

  lemma LastAiUnique(ms: seq<Message>, k: nat)
    requires k < |ms| && IsAiReply(ms[k])
    requires forall j :: k < j < |ms| ==> !IsAiReply(ms[j])
    ensures LastAiReply(ms) == Some(k)
  {
  }

  /** The messages after the last tool result; the whole thread when there is none. */
  function AfterLastTool(ms: seq<Message>): seq<Message> {
    match LastToolResult(ms)
    case Some(k) => ms[k + 1..]
    case None => ms
  }

  /** The content of the last tool result, or "" when there is none. */
  function ToolDetail(ms: seq<Message>): (r: string)
    ensures r == "" <==> LastToolResult(ms).None?
  {
    match LastToolResult(ms)
    case Some(k) => ms[k].content
    case None => ""
  }

  /** The content of the AI reply at a position, or the fallback without one. */
  function SpokenAt(ms: seq<Message>, at: Option<nat>): string
    requires at.Some? ==> at.value < |ms|
  {
    match at
    case Some(i) => ms[i].content
    case None => Fallback
  }

  /** What the backward scan in `chat` speaks, as written: since every AI reply it meets
      before the last tool result overwrites the one before, it ends on the EARLIEST AI reply
      after that tool result. */
  function ScanVoice(ms: seq<Message>): string {
    var after := AfterLastTool(ms);
    SpokenAt(after, FirstAiReply(after))
  }

  /** The spoken reply and the detailed data `chat` returns, as written: the detail is the
      last tool result, and the spoken reply when there is none. */
  function ScanReply(ms: seq<Message>): (r: Reply)
    ensures r.detail == if LastToolResult(ms).Some? then ToolDetail(ms) else r.voice
  {
    var detail := ToolDetail(ms);
    Reply(ScanVoice(ms), if detail == "" then ScanVoice(ms) else detail)
  }

  /** The reply the turn evidently means to speak: the LATEST AI reply after the last tool
      result. */
  function TurnVoice(ms: seq<Message>): string {
    var after := AfterLastTool(ms);
    SpokenAt(after, LastAiReply(after))
  }

  function TurnReply(ms: seq<Message>): (r: Reply)
    ensures r.detail == if LastToolResult(ms).Some? then ToolDetail(ms) else r.voice
  {
    var detail := ToolDetail(ms);
    Reply(TurnVoice(ms), if detail == "" then TurnVoice(ms) else detail)
  }

  /** How each reading changes when one more message is met, going backwards. */
  lemma ScanStep(m: Message, s: seq<Message>)
    ensures ToolDetail([m] + s) ==
      if ToolDetail(s) == "" && m.ToolMessage? then m.content else ToolDetail(s)
    ensures ScanVoice([m] + s) ==
      if ToolDetail(s) == "" && IsAiReply(m) then m.content else ScanVoice(s)
    ensures LastAiReply(AfterLastTool([m] + s)).Some? <==>
      LastAiReply(AfterLastTool(s)).Some? || (ToolDetail(s) == "" && IsAiReply(m))
    ensures TurnVoice([m] + s) ==
      if ToolDetail(s) == "" && IsAiReply(m) && LastAiReply(AfterLastTool(s)).None?
      then m.content else TurnVoice(s)
  {
    AfterLastToolStep(m, s);
    if LastToolResult(s).None? && !IsToolResult(m) && IsAiReply(m) {
      assert FirstAiReply([m] + s) == Some(0);
      assert LastAiReply([m] + s).Some?;
    }
  }

  /** Meeting one more message going backwards: the tail after the last tool result only
      grows while no tool result has been met. */
  lemma AfterLastToolStep(m: Message, s: seq<Message>)
    ensures LastToolResult([m] + s) ==
      match LastToolResult(s)
      case Some(k) => Some(k + 1)
      case None => if IsToolResult(m) then Some(0) else None
    ensures AfterLastTool([m] + s) ==
      if LastToolResult(s).Some? then AfterLastTool(s)
      else if IsToolResult(m) then s
      else [m] + s
  {
    var r := [m] + s;
    assert r[1..] == s;
    match LastToolResult(s)
    case Some(k) =>
      assert r[k + 2..] == s[k + 1..];
    case None =>
  }

  /** The backward scan of `chat` (as written): an AI reply overwrites the spoken text as
      long as no tool result has been met, and the first tool result met fills the detail. */
  method ExtractReply(thread: seq<Message>) returns (reply: Reply)
    ensures reply == ScanReply(thread)
  {
    var voice := Fallback;
    var detail := "";
    var i := |thread|;
    while i > 0
      invariant 0 <= i <= |thread|
      invariant voice == ScanVoice(thread[i..])
      invariant detail == ToolDetail(thread[i..])
    {
      i := i - 1;
      var m := thread[i];
      var rest := thread[i + 1..];
      assert thread[i..] == [m] + rest;
      ScanStep(m, rest);
      if m.AiMessage? && m.content != "" && detail == "" {
        voice := m.content;
      }
      if m.ToolMessage? && detail == "" {
        detail := m.content;
      }
    }
    assert thread[0..] == thread;
    if detail == "" {
      detail := voice;
    }
    reply := Reply(voice, detail);
  }

  /** The corrected scan: the same backward loop, but the first AI reply met (the latest
      one) is kept. */
  method ExtractTurnReply(thread: seq<Message>) returns (reply: Reply)
    ensures reply == TurnReply(thread)
  {
    var voice := Fallback;
    var detail := "";
    var found := false;
    var i := |thread|;
    while i > 0
      invariant 0 <= i <= |thread|
      invariant voice == TurnVoice(thread[i..])
      invariant detail == ToolDetail(thread[i..])
      invariant found <==> LastAiReply(AfterLastTool(thread[i..])).Some?
    {
      i := i - 1;
      var m := thread[i];
      var rest := thread[i + 1..];
      assert thread[i..] == [m] + rest;
      ScanStep(m, rest);
      if m.AiMessage? && m.content != "" && detail == "" && !found {
        voice := m.content;
        found := true;
      }
      if m.ToolMessage? && detail == "" {
        detail := m.content;
      }
    }
    assert thread[0..] == thread;
    if detail == "" {
      detail := voice;
    }
    reply := Reply(voice, detail);
  }

  /** A run of messages that holds no tool result: a turn in which no tool was called. */
  predicate NoToolResult(turn: seq<Message>) {
    forall j :: 0 <= j < |turn| ==> !IsToolResult(turn[j])
  }

  /** Appending a turn that asks no tool leaves the last tool result where it was. */
  lemma AppendTurn(thread: seq<Message>, turn: seq<Message>)
    requires NoToolResult(turn)
    ensures LastToolResult(thread + turn) == LastToolResult(thread)
    ensures AfterLastTool(thread + turn) == AfterLastTool(thread) + turn
  {
    var t := thread + turn;
    assert forall j :: |thread| <= j < |t| ==> t[j] == turn[j - |thread|];
    match LastToolResult(thread)
    case Some(k) =>
      LastToolUnique(t, k);
      assert t[k + 1..] == thread[k + 1..] + turn;
    case None =>
      assert forall j :: 0 <= j < |t| ==> !IsToolResult(t[j]);
  }

  /** As written, a thread that already holds an AI reply after its last tool result keeps
      speaking that reply through every later turn that calls no tool: the new answer is
      never spoken. */
  lemma ScanKeepsEarlierReply(thread: seq<Message>, turn: seq<Message>)
    requires NoToolResult(turn)
    requires FirstAiReply(AfterLastTool(thread)).Some?
    ensures ScanReply(thread + turn).voice == ScanVoice(thread)
  {
    AppendTurn(thread, turn);
    var after := AfterLastTool(thread);
    var k := FirstAiReply(after).value;
    FirstAiUnique(after + turn, k);
  }

  /** The same as a concrete thread, with the system prompt `chat` sends before each
      question: on its second turn, which calls no tool, the scan speaks the first answer. */
  lemma ScanSecondTurn(prompt: string)
    ensures ScanReply([SystemMessage(prompt), HumanMessage("hi"), AiMessage("first", []),
                       SystemMessage(prompt), HumanMessage("and now?"), AiMessage("second", [])]
                     ).voice == "first"
  {
    var thread := [SystemMessage(prompt), HumanMessage("hi"), AiMessage("first", [])];
    var turn := [SystemMessage(prompt), HumanMessage("and now?"), AiMessage("second", [])];
    assert thread + turn
      == [SystemMessage(prompt), HumanMessage("hi"), AiMessage("first", []),
          SystemMessage(prompt), HumanMessage("and now?"), AiMessage("second", [])];
    assert NoToolResult(turn);
    assert NoToolResult(thread);
    FirstAiUnique(thread, 2);
    ScanKeepsEarlierReply(thread, turn);
  }

  /** As written, a turn that calls a tool speaks its own answer: its tool result becomes the
      last one, and its answer is the only AI reply after it. */
  lemma ScanToolTurn(prompt: string)
    ensures ScanReply([SystemMessage(prompt), HumanMessage("hi"), AiMessage("first", []),
                       SystemMessage(prompt), HumanMessage("debt?"), AiMessage("", ["t"]),
                       ToolMessage("data"), AiMessage("second", [])]).voice == "second"
  {
    var ms := [SystemMessage(prompt), HumanMessage("hi"), AiMessage("first", []),
               SystemMessage(prompt), HumanMessage("debt?"), AiMessage("", ["t"]),
               ToolMessage("data"), AiMessage("second", [])];
    LastToolUnique(ms, 6);
    assert AfterLastTool(ms) == [AiMessage("second", [])];
    FirstAiUnique(AfterLastTool(ms), 0);
  }

  /** Corrected: a turn that ends in an AI answer with something to say speaks that answer,
      whether or not it called a tool. */
  lemma TurnSpeaksLatestReply(ms: seq<Message>)
    requires ms != [] && IsAiReply(ms[|ms| - 1])
    ensures TurnReply(ms).voice == ms[|ms| - 1].content
  {
    var after := AfterLastTool(ms);
    match LastToolResult(ms)
    case Some(k) =>
      assert k < |ms| - 1;
      assert after[|after| - 1] == ms[|ms| - 1];
    case None =>
    LastAiUnique(after, |after| - 1);
  }

  /** The correction changes nothing for a thread with at most one AI reply after its last
      tool result, the single-turn case the scan was written for. */
  lemma TurnAgreesOnSingleReply(ms: seq<Message>)
    requires var after := AfterLastTool(ms);
      forall i, j :: 0 <= i < j < |after| && IsAiReply(after[i]) ==> !IsAiReply(after[j])
    ensures TurnReply(ms) == ScanReply(ms)
  {
    var after := AfterLastTool(ms);
    if FirstAiReply(after).Some? {
      var i := FirstAiReply(after).value;
      LastAiUnique(after, i);
    }
  }

  // ------------------------------------------------------------- _build_voice_context

  const NoDataText := "No transaction data available."
  const TopHead := "Top spending categories: "
  const TotalHead := "Total 6-month spending: $"
  const IncomeHead := "Avg monthly income: $"
  const DebtHead := "Monthly debt payments: $"

  /** The three largest spending entries, largest first (`sorted(..., reverse=True)[:3]`). */
  function TopThree(spending: seq<(Category, real)>): seq<(Category, real)> {
    var sorted := SortDesc(spending);
    sorted[..if |sorted| < 3 then |sorted| else 3]
  }

  /** At most three entries, in non-increasing order, taken from the spending; no entry left
      out is larger than one kept. */
  lemma TopThreeSpec(spending: seq<(Category, real)>)
    ensures var r := TopThree(spending);
      && |r| == (if |spending| < 3 then |spending| else 3)
      && NonIncreasing(r)
      && multiset(r) <= multiset(spending)
      && forall i, y :: 0 <= i < |r| && y in spending && y !in r ==> y.1 <= r[i].1
  {
    var sorted := SortDesc(spending);
    SortDescSpec(spending);
    var n := if |sorted| < 3 then |sorted| else 3;
    assert sorted == sorted[..n] + sorted[n..];
    assert multiset(sorted) == multiset(sorted[..n]) + multiset(sorted[n..]);
    TopThreeMaximal(spending);
  }

  lemma TopThreeMaximal(spending: seq<(Category, real)>)
    ensures var r := TopThree(spending);
      forall i, y :: 0 <= i < |r| && y in spending && y !in r ==> y.1 <= r[i].1
  {
    var sorted := SortDesc(spending);
    SortDescSorted(spending);
    var n := if |sorted| < 3 then |sorted| else 3;
    var r := sorted[..n];
    forall k | 0 <= k < n
      ensures sorted[k] in r
    {
      assert r[k] == sorted[k];
    }
    forall i, y | 0 <= i < |r| && y in spending && y !in r
      ensures y.1 <= r[i].1
    {
      SortedMember(spending, y);
      var j :| 0 <= j < |sorted| && sorted[j] == y;
      assert j >= n;
      assert r[i] == sorted[i];
    }
  }

  lemma SortedMember<K>(s: seq<(K, real)>, y: (K, real))
    requires y in s
    ensures y in SortDesc(s)
  {
    SortDescPermutes(s);
    assert y in multiset(s);
  }

  /** `f"{cat} ({amt / total * 100:.0f}%)"`. */
  function TopItem(entry: (Category, real), total: real): Doc
    requires total > 0.0
  {
    [Lit(CategoryValue(entry.0)), Lit(" ("), Num(entry.1 / total * 100.0, Fixed0), Lit("%)")]
  }

  function TopItems(top: seq<(Category, real)>, total: real): (r: seq<Doc>)
    requires total > 0.0
    ensures |r| == |top|
  {
    if top == [] then [] else TopItems(top[..|top| - 1], total) + [TopItem(top[|top| - 1], total)]
  }

  function TopLine(spending: seq<(Category, real)>, total: real): Doc
    requires total > 0.0
  {
    [Lit(TopHead)] + Join(TopItems(TopThree(spending), total), ", ") + [Lit(".")]
  }

  function TotalLine(total: real): Doc {
    [Lit(TotalHead), Num(total, Grouped0), Lit(".")]
  }

  function IncomeLine(income: IncomeSummary): Doc {
    [ Lit(IncomeHead), Num(income.averageMonthly, Grouped0),
      Lit(". Avg monthly spending: $"), Num(income.averageMonthlySpending, Grouped0),
      Lit(". Savings rate: "), Num(income.savingsRate, Fixed1), Lit("%.") ]
  }

  function DebtLine(averageMonthlyDebt: real, available: real): Doc {
    [ Lit(DebtHead), Num(averageMonthlyDebt, Grouped0),
      Lit(". Available for extra payoff: $"), Num(available, Grouped0), Lit(".") ]
  }

  /** The lines of the snapshot from the three reports it reads. The spending lines need a
      positive total as well as a non-empty report: with a zero total the percentage division
      raises inside the `try`, which drops both lines. A real report always has a positive
      total (PositiveTotal, SpendingPresent), so there the test is just `if spending:`. */
  function ContextLines(spending: seq<(Category, real)>, income: IncomeSummary,
                        debtTotal: real, averageMonthlyDebt: real, available: real): seq<Doc>
  {
    var total := Sum(Values(spending));
    (if spending != [] && total > 0.0 then [TopLine(spending, total), TotalLine(total)] else [])
    + (if income.total > 0.0 then [IncomeLine(income)] else [])
    + (if debtTotal > 0.0 then [DebtLine(averageMonthlyDebt, available)] else [])
  }

  function ContextText(lines: seq<Doc>): Doc {
    if lines == [] then [Lit(NoDataText)] else Join(lines, "\n")
  }

  /** The snapshot of a list of transactions. */
  function VoiceContext(ts: seq<Transaction>): Doc {
    var income := IncomeSummaryOf(ts);
    ContextText(ContextLines(
      CategorySpending(ts), income, TotalAbs(ts, IsDebtPayment),
      MeanValue(Grouped(Tally(ts, IsDebtPayment, MonthKey))), income.monthlySavings))
  }

  /** `_build_voice_context`: reads the three reports and lays out their lines. */
  method BuildVoiceContext(a: Analyzer) returns (d: Doc)
    ensures d == VoiceContext(a.transactions)
  {
    var spending := SpendingByCategory(a);
    var income := IncomeSummaryOf(a.transactions);
    var debt := DebtAnalysis(a);
    d := ContextLayout(spending, income, debt.totalDebtPayments, debt.averageMonthlyDebt,
                       debt.availableForDebt);
  }

  /** Appends the spending lines, the income line and the debt line, each when its report
      has something to show, and joins them with newlines. */
  method ContextLayout(spending: seq<(Category, real)>, income: IncomeSummary,
                       debtTotal: real, averageMonthlyDebt: real, available: real)
    returns (d: Doc)
    ensures d == ContextText(ContextLines(spending, income, debtTotal, averageMonthlyDebt, available))
  {
    var lines: seq<Doc> := [];
    var total := Sum(Values(spending));
    if spending != [] && total > 0.0 {
      var top := TopThree(spending);
      lines := lines + [[Lit(TopHead)] + Join(TopItems(top, total), ", ") + [Lit(".")]];
      lines := lines + [TotalLine(total)];
    }
    ghost var spendingLines := lines;
    if income.total > 0.0 {
      lines := lines + [IncomeLine(income)];
    }
    ghost var incomeLines := lines[|spendingLines|..];
    if debtTotal > 0.0 {
      lines := lines + [DebtLine(averageMonthlyDebt, available)];
    }
    assert spendingLines == (if spending != [] && total > 0.0 then [TopLine(spending, total), TotalLine(total)] else []);
    assert incomeLines == (if income.total > 0.0 then [IncomeLine(income)] else []);
    assert lines[|spendingLines| + |incomeLines|..] == (if debtTotal > 0.0 then [DebtLine(averageMonthlyDebt, available)] else []);
    assert lines == spendingLines + incomeLines + lines[|spendingLines| + |incomeLines|..];
    assert lines == ContextLines(spending, income, debtTotal, averageMonthlyDebt, available);
    d := if |lines| > 0 then Join(lines, "\n") else [Lit(NoDataText)];
  }

  /** Which line a document is, by its first piece: 0 top categories, 1 total spending,
      2 income, 3 debt, 4 anything else. */
  function LineKind(d: Doc): nat {
    if d == [] then 4
    else if d[0] == Lit(TopHead) then 0
    else if d[0] == Lit(TotalHead) then 1
    else if d[0] == Lit(IncomeHead) then 2
    else if d[0] == Lit(DebtHead) then 3
    else 4
  }

  predicate HasLine(lines: seq<Doc>, kind: nat) {
    exists i :: 0 <= i < |lines| && LineKind(lines[i]) == kind
  }

  /** The two spending lines appear exactly when there is spending, the income line exactly
      when there is income, the debt line exactly when debt payments were made; every line
      is one of these four, and they come in that order, each at most once. */
  lemma ContextLinesSpec(spending: seq<(Category, real)>, income: IncomeSummary,
                         debtTotal: real, averageMonthlyDebt: real, available: real)
    requires forall x :: x in spending ==> x.1 > 0.0
    ensures var lines := ContextLines(spending, income, debtTotal, averageMonthlyDebt, available);
      && (HasLine(lines, 0) <==> spending != [])
      && (HasLine(lines, 1) <==> spending != [])
      && (HasLine(lines, 2) <==> income.total > 0.0)
      && (HasLine(lines, 3) <==> debtTotal > 0.0)
      && (forall i :: 0 <= i < |lines| ==> LineKind(lines[i]) < 4)
      && (forall i, j :: 0 <= i < j < |lines| ==> LineKind(lines[i]) < LineKind(lines[j]))
  {
    var total := Sum(Values(spending));
    if spending != [] {
      PositiveTotal(spending);
    }
    var s: seq<Doc> := if spending != [] && total > 0.0 then [TopLine(spending, total), TotalLine(total)] else [];
    var m: seq<Doc> := if income.total > 0.0 then [IncomeLine(income)] else [];
    var e: seq<Doc> := if debtTotal > 0.0 then [DebtLine(averageMonthlyDebt, available)] else [];
    if spending != [] {
      assert LineKind(s[0]) == 0 && LineKind(s[1]) == 1;
    }
    if income.total > 0.0 {
      assert LineKind(m[0]) == 2;
    }
    if debtTotal > 0.0 {
      assert LineKind(e[0]) == 3;
    }
    KindsInOrder(s, m, e);
  }

  /** Lines made of the two spending lines (or none), then at most one income line, then at
      most one debt line, hold each kind exactly when its part is present, in order. */
  lemma KindsInOrder(s: seq<Doc>, m: seq<Doc>, e: seq<Doc>)
    requires s == [] || (|s| == 2 && LineKind(s[0]) == 0 && LineKind(s[1]) == 1)
    requires |m| <= 1 && forall i :: 0 <= i < |m| ==> LineKind(m[i]) == 2
    requires |e| <= 1 && forall i :: 0 <= i < |e| ==> LineKind(e[i]) == 3
    ensures var lines := s + m + e;
      && (HasLine(lines, 0) <==> s != [])
      && (HasLine(lines, 1) <==> s != [])
      && (HasLine(lines, 2) <==> m != [])
      && (HasLine(lines, 3) <==> e != [])
      && (forall i :: 0 <= i < |lines| ==> LineKind(lines[i]) < 4)
      && (forall i, j :: 0 <= i < j < |lines| ==> LineKind(lines[i]) < LineKind(lines[j]))
  {
    var lines := s + m + e;
    assert forall i :: 0 <= i < |lines| ==>
      LineKind(lines[i]) == if i < |s| then i else if i < |s| + |m| then 2 else 3;
    if s != [] {
      assert LineKind(lines[0]) == 0 && LineKind(lines[1]) == 1;
    }
    if m != [] {
      assert LineKind(lines[|s|]) == 2;
    }
    if e != [] {
      assert LineKind(lines[|s| + |m|]) == 3;
    }
  }

  lemma PositiveTotal(spending: seq<(Category, real)>)
    requires spending != []
    requires forall x :: x in spending ==> x.1 > 0.0
    ensures Sum(Values(spending)) > 0.0
  {
    assert spending[0] in spending;
    assert Values(spending)[0] > 0.0;
    SumNonNegative(Values(spending));
  }

  /** A join of documents starts with the first piece of the first document. */
  lemma {:induction false} JoinHead(docs: seq<Doc>, sep: string)
    requires docs != [] && docs[0] != []
    ensures Join(docs, sep) != [] && Join(docs, sep)[0] == docs[0][0]
  {
    if |docs| > 1 {
      var p := docs[..|docs| - 1];
      assert p[0] == docs[0];
      JoinHead(p, sep);
    }
  }

  /** The snapshot is the no-data text exactly when no line applies. */
  lemma ContextTextNoData(lines: seq<Doc>)
    requires forall i :: 0 <= i < |lines| ==> LineKind(lines[i]) < 4
    ensures ContextText(lines) == [Lit(NoDataText)] <==> lines == []
  {
    if lines != [] {
      assert LineKind(lines[0]) < 4;
      JoinHead(lines, "\n");
    }
  }

  /** The spending report is non-empty exactly when some transaction is an expense. */
  lemma SpendingPresent(ts: seq<Transaction>)
    ensures CategorySpending(ts) != [] <==> exists t :: t in ts && IsExpense(t)
    ensures forall x :: x in CategorySpending(ts) ==> x.1 > 0.0
  {
    var cs := CategorySpending(ts);
    forall x | x in cs
      ensures x.1 > 0.0 && HasExpense(ts, x.0)
    {
      CategorySpendingMember(ts, x.0, x.1);
      SpentOnPositive(ts, x.0);
    }
    if t :| t in ts && IsExpense(t) {
      assert HasExpense(ts, t.category);
      CategorySpendingMember(ts, t.category, SpentOn(ts, t.category));
    }
    if cs != [] {
      assert cs[0] in cs;
    }
  }

  /** The income summary reports a total exactly when some transaction is income. */
  lemma IncomePresent(ts: seq<Transaction>)
    ensures IncomeSummaryOf(ts).total > 0.0 <==> exists t :: t in ts && IsIncome(t)
  {
    var inc := Incomes(ts);
    if inc != [] {
      assert inc[0] in inc;
    }
  }

  /** Debt payments total more than zero exactly when some debt-category transaction has a
      non-zero amount. */
  lemma {:induction false} DebtPresent(ts: seq<Transaction>)
    ensures TotalAbs(ts, IsDebtPayment) > 0.0 <==>
      exists t :: t in ts && IsDebtPayment(t) && t.amount != 0.0
  {
    if ts != [] {
      var p := ts[..|ts| - 1];
      var t := ts[|ts| - 1];
      DebtPresent(p);
      assert forall u :: u in ts <==> u in p || u == t;
    }
  }

  /** The snapshot of a list of transactions: which lines it shows and when it is the
      no-data text. */
  lemma VoiceContextSpec(ts: seq<Transaction>)
    ensures var income := IncomeSummaryOf(ts);
      var lines := ContextLines(
        CategorySpending(ts), income, TotalAbs(ts, IsDebtPayment),
        MeanValue(Grouped(Tally(ts, IsDebtPayment, MonthKey))), income.monthlySavings);
      && VoiceContext(ts) == ContextText(lines)
      && (HasLine(lines, 0) <==> exists t :: t in ts && IsExpense(t))
      && (HasLine(lines, 1) <==> exists t :: t in ts && IsExpense(t))
      && (HasLine(lines, 2) <==> exists t :: t in ts && IsIncome(t))
      && (HasLine(lines, 3) <==> exists t :: t in ts && IsDebtPayment(t) && t.amount != 0.0)
      && (forall i, j :: 0 <= i < j < |lines| ==> LineKind(lines[i]) < LineKind(lines[j]))
      && (VoiceContext(ts) == [Lit(NoDataText)] <==> lines == [])
  {
    var income := IncomeSummaryOf(ts);
    var cs, dt := CategorySpending(ts), TotalAbs(ts, IsDebtPayment);
    var avg := MeanValue(Grouped(Tally(ts, IsDebtPayment, MonthKey)));
    SpendingPresent(ts);
    IncomePresent(ts);
    DebtPresent(ts);
    ContextLinesSpec(cs, income, dt, avg, income.monthlySavings);
    ContextTextNoData(ContextLines(cs, income, dt, avg, income.monthlySavings));
  }
}
