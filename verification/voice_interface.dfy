/** The decisions the voice front end makes on each turn (src/voice/voice_interface.py): which
    utterance it answers, whether it answers itself or hands the turn to the default pipeline,
    and whether it publishes a data card. The speech, room and language-model plumbing is not
    modelled; the thread the coach's graph returns for the turn is an input. */
module VoiceInterface {
  import opened Wrappers
  import opened Text
  import opened CoachAgent

  // ------------------------------------------------------------------ chat items

  /** A part of a list-shaped content: a string, an object with a `text` attribute, or
      anything else. */
  datatype Part = StrPart(s: string) | TextPart(text: string) | OtherPart

  /** The shapes a chat item's content takes: a string, a list of parts, an object with a
      `text` attribute, or anything else, shown by its `str()`. */
  datatype Content =
    | StrContent(s: string)
    | ListContent(parts: seq<Part>)
    | TextContent(text: string)
    | OtherContent(repr: string)

  /** An item of the chat context; items without a role or without an id lack them. */
  datatype ChatItem = ChatItem(role: Option<string>, content: Content, id: Option<string>)

  /** The texts of a list content: its string parts and `text` parts, in order. */
  function PartTexts(parts: seq<Part>): seq<string> {
    if parts == [] then []
    else
      var p := parts[|parts| - 1];
      PartTexts(parts[..|parts| - 1])
        + (match p
           case StrPart(s) => [s]
           case TextPart(t) => [t]
           case OtherPart => [])
  }

  /** Collecting the texts part by part is collecting them of each half. */
  lemma {:induction false} PartTextsConcat(a: seq<Part>, b: seq<Part>)
    ensures PartTexts(a + b) == PartTexts(a) + PartTexts(b)
  {
    if b == [] {
      assert a + b == a;
    } else {
      assert (a + b)[..|a + b| - 1] == a + b[..|b| - 1];
      PartTextsConcat(a, b[..|b| - 1]);
    }
  }

  /** The texts of a content in any of its shapes. */
  function Texts(c: Content): seq<string> {
    match c
    case StrContent(s) => [s]
    case ListContent(parts) => PartTexts(parts)
    case TextContent(t) => [t]
    case OtherContent(repr) => [repr]
  }

  /** `" ".join(texts)`. */
  function JoinWords(texts: seq<string>): (r: string)
    ensures texts == [] ==> r == []
    ensures |texts| == 1 ==> r == texts[0]
  {
    if texts == [] then []
    else if |texts| == 1 then texts[0]
    else JoinWords(texts[..|texts| - 1]) + " " + texts[|texts| - 1]
  }

  /** What an item says: its texts joined by spaces, stripped. */
  function Utterance(c: Content): string {
    Strip(JoinWords(Texts(c)))
  }

  /** A string, a text object, or a list of one string or text part all say that string,
      stripped. */
  lemma FlattenSingles(s: string)
    ensures Utterance(StrContent(s)) == Strip(s)
    ensures Utterance(TextContent(s)) == Strip(s)
    ensures Utterance(ListContent([StrPart(s)])) == Strip(s)
    ensures Utterance(ListContent([TextPart(s)])) == Strip(s)
  {
    assert PartTexts([StrPart(s)]) == [s];
    assert PartTexts([TextPart(s)]) == [s];
  }

  /** A part that is neither a string nor a text object is dropped wherever it stands. */
  lemma FlattenDropsOthers(a: seq<Part>, b: seq<Part>)
    ensures PartTexts(a + [OtherPart] + b) == PartTexts(a + b)
  {
    PartTextsConcat(a, [OtherPart]);
    PartTextsConcat(a + [OtherPart], b);
    PartTextsConcat(a, b);
    assert PartTexts([OtherPart]) == [];
  }

  /** `texts` for a list content, built part by part. */
  method CollectTexts(parts: seq<Part>) returns (texts: seq<string>)
    ensures texts == PartTexts(parts)
  {
    texts := [];
    var k := 0;
    while k < |parts|
      invariant 0 <= k <= |parts|
      invariant texts == PartTexts(parts[..k])
    {
      assert parts[..k + 1][..k] == parts[..k];
      match parts[k] {
        case StrPart(s) => texts := texts + [s];
        case TextPart(t) => texts := texts + [t];
        case OtherPart =>
      }
      k := k + 1;
    }
    assert parts[..k] == parts;
  }

  // ------------------------------------------------------------ the latest utterance

  /** An item whose role, lower-cased, contains "user". */
  predicate IsUserItem(item: ChatItem) {
    item.role.Some? && Contains(Lower(item.role.value), "user")
  }

  /** A user item that says something. */
  predicate Speaks(item: ChatItem) {
    IsUserItem(item) && Utterance(item.content) != ""
  }

  /** The position of the last user item that says something. */
  function LatestSpeaker(items: seq<ChatItem>): (r: Option<nat>)
    ensures r.Some? ==> (r.value < |items| && Speaks(items[r.value])
      && forall j :: r.value < j < |items| ==> !Speaks(items[j]))
    ensures r.None? ==> forall j :: 0 <= j < |items| ==> !Speaks(items[j])
  {
    if items == [] then None
    else
      match LatestSpeaker(items[1..])
      case Some(k) => Some(k + 1)
      case None => if Speaks(items[0]) then Some(0) else None
  }

  lemma LatestSpeakerUnique(items: seq<ChatItem>, k: nat)
    requires k < |items| && Speaks(items[k])
    requires forall j :: k < j < |items| ==> !Speaks(items[j])
    ensures LatestSpeaker(items) == Some(k)
  {
  }

  /** The utterance the turn answers: the latest thing a user said, or "" if nothing. */
  function LatestUtterance(items: seq<ChatItem>): (r: string)
    ensures r == "" <==> LatestSpeaker(items).None?
  {
    match LatestSpeaker(items)
    case Some(k) => Utterance(items[k].content)
    case None => ""
  }

  /** The user-text scan of `llm_node`: from the last item back, the first user item whose
      flattened, stripped text is not empty. */
  method ExtractUserText(items: seq<ChatItem>) returns (text: string)
    ensures text == LatestUtterance(items)
  {
    text := "";
    var i := |items|;
    while i > 0
      invariant 0 <= i <= |items|
      invariant forall j :: i <= j < |items| ==> !Speaks(items[j])
      invariant text == ""
    {
      i := i - 1;
      var item := items[i];
      if item.role.Some? && Contains(Lower(item.role.value), "user") {
        var texts: seq<string>;
        match item.content {
          case StrContent(s) => texts := [s];
          case ListContent(parts) => texts := CollectTexts(parts);
          case TextContent(t) => texts := [t];
          case OtherContent(repr) => texts := [repr];
        }
        assert texts == Texts(item.content);
        text := Strip(JoinWords(texts));
        if text != "" {
          LatestSpeakerUnique(items, i);
          assert text == LatestUtterance(items);
          break;
        }
      }
    }
  }

  // ------------------------------------------------------------------- data cards

  /** `_DATA_TRIGGER_KEYWORDS`. */
  const Keywords: seq<string> :=
    [ "plan", "budget", "breakdown", "payoff", "debt", "schedule", "recommend", "summary",
      "details", "what should" ]

  /** The lower-cased text holds one of the keywords. */
  predicate Triggers(text: string) {
    exists k :: k in Keywords && Contains(Lower(text), k)
  }

  /** The keyword test ignores case. */
  lemma TriggersIgnoreCase(text: string)
    ensures Triggers(Lower(text)) <==> Triggers(text)
  {
    LowerIdempotent(text);
  }

  /** More words after a trigger keep the text a trigger. */
  lemma TriggersExtend(text: string, more: string)
    requires Triggers(text)
    ensures Triggers(text + more)
  {
    var k :| k in Keywords && Contains(Lower(text), k);
    ContainsExtend(Lower(text), Lower(more), k);
    LowerConcat(text, more);
  }

  /** The card published for a turn: the question, the detailed data and the call's
      session. */
  datatype DataCard = DataCard(question: string, content: string, sessionId: string)

  /** `messages[-1].id`, or the user's text when the last item has no id. The key is the
      last item's, whoever said it. */
  function DedupKey(items: seq<ChatItem>, userText: string): string {
    if items != [] && items[|items| - 1].id.Some? then items[|items| - 1].id.value else userText
  }

  /** The outcome of one dedup decision: the key remembered next and whether a card goes
      out. */
  datatype Decision = Decision(stored: Option<string>, publish: bool)

  /** A card goes out when the key is new and the text asks for data; only then is the key
      remembered. */
  function Decide(stored: Option<string>, key: string, text: string): (r: Decision)
    ensures r.publish ==> r.stored == Some(key) && stored != Some(key)
    ensures !r.publish ==> r.stored == stored
    ensures r.publish <==> stored != Some(key) && Triggers(text)
  {
    if Some(key) != stored && Triggers(text) then Decision(Some(key), true)
    else Decision(stored, false)
  }

  /** The cards a run of turns, each a key and a text, publishes from a stored key. */
  function Published(stored: Option<string>, turns: seq<(string, string)>): nat
    decreases |turns|
  {
    if turns == [] then 0
    else
      var d := Decide(stored, turns[0].0, turns[0].1);
      (if d.publish then 1 else 0) + Published(d.stored, turns[1..])
  }

  /** Turns that all carry the same key publish at most one card between them. */
  lemma {:induction false} OnePublishPerKey(stored: Option<string>, turns: seq<(string, string)>,
                                            key: string)
    requires forall i :: 0 <= i < |turns| ==> turns[i].0 == key
    ensures Published(stored, turns) <= 1
    ensures stored == Some(key) ==> Published(stored, turns) == 0
    decreases |turns|
  {
    if turns != [] {
      var d := Decide(stored, key, turns[0].1);
      OnePublishPerKey(d.stored, turns[1..], key);
    }
  }

  /** What `llm_node` does with a turn: hands it to the default pipeline, or speaks one chunk
      and perhaps publishes a card. */
  datatype TurnOutcome =
    | Delegated
    | Spoken(chunk: string, card: Option<DataCard>)

  /** The reply as `llm_node` receives it: the `voice` and `detail` fields, either of which
      may be missing. */
  datatype AgentResponse = AgentResponse(voice: Option<string>, detail: Option<string>)

  /** `agent_response.get("voice", ...)` and `.get("detail", voice_text)`. */
  function SpokenText(r: AgentResponse): string { r.voice.GetOr("I've analyzed your data.") }
  function DetailText(r: AgentResponse): string { r.detail.GetOr(SpokenText(r)) }

  /** The coach's reply always carries both fields, so neither default is taken. */
  lemma ResponseDefaults(thread: seq<Message>)
    ensures var reply := TurnReply(thread);
      var r := AgentResponse(Some(reply.voice), Some(reply.detail));
      && SpokenText(r) == reply.voice && DetailText(r) == reply.detail
      && SpokenText(AgentResponse(None, None)) == "I've analyzed your data."
      && DetailText(AgentResponse(Some(reply.voice), None)) == reply.voice
  {
  }

  /** The voice agent of one call: the key of the last turn a card was published for. */
  class FinancialCoachVoiceAgent {
    var lastHandledUserMsgId: Option<string>
    const sessionId: string

    constructor (sessionId: string)
      ensures lastHandledUserMsgId == None && this.sessionId == sessionId
    {
      this.sessionId := sessionId;
      lastHandledUserMsgId := None;
    }

    /** One turn. With nothing said, the turn goes to the default pipeline and nothing
        changes. Otherwise the coach answers (its graph returning `thread`), exactly one chunk
        carrying the spoken reply is produced, and a card with the detailed data is published,
        and its key remembered, exactly when the key is new and the text asks for data. */
    method LlmNode(items: seq<ChatItem>, thread: seq<Message>) returns (outcome: TurnOutcome)
      modifies this
      ensures var text := LatestUtterance(items);
        var key := DedupKey(items, text);
        var d := Decide(old(lastHandledUserMsgId), key, text);
        && (text == "" ==> outcome == Delegated && lastHandledUserMsgId == old(lastHandledUserMsgId))
        && (text != "" ==>
              && outcome.Spoken?
              && outcome.chunk == TurnReply(thread).voice
              && lastHandledUserMsgId == d.stored
              && (outcome.card.Some? <==> d.publish)
              && (outcome.card.Some? ==>
                    outcome.card.value == DataCard(text, TurnReply(thread).detail, sessionId)))
    {
      var userText := ExtractUserText(items);
      if userText == "" {
        return Delegated;
      }
      var reply := ExtractTurnReply(thread);
      var response := AgentResponse(Some(reply.voice), Some(reply.detail));
      var voiceText := response.voice.GetOr("I've analyzed your data.");
      var detailedContent := response.detail.GetOr(voiceText);
      var userMsgId := if |items| > 0 && items[|items| - 1].id.Some?
        then items[|items| - 1].id.value else userText;
      var card: Option<DataCard> := None;
      if Some(userMsgId) != lastHandledUserMsgId {
        if Triggers(userText) {
          lastHandledUserMsgId := Some(userMsgId);
          card := Some(DataCard(userText, detailedContent, sessionId));
        }
      }
      outcome := Spoken(voiceText, card);
    }
  }

  /** Two turns in a row with the same key publish at most one card, whatever the second
      turn says. */
  method TwoTurnsSameKey(agent: FinancialCoachVoiceAgent, first: seq<ChatItem>,
                         second: seq<ChatItem>, thread1: seq<Message>, thread2: seq<Message>)
    returns (o1: TurnOutcome, o2: TurnOutcome)
    requires LatestUtterance(first) != "" && LatestUtterance(second) != ""
    requires DedupKey(first, LatestUtterance(first)) == DedupKey(second, LatestUtterance(second))
    modifies agent
    ensures o1.Spoken? && o2.Spoken?
    ensures o1.card.None? || o2.card.None?
  {
    o1 := agent.LlmNode(first, thread1);
    o2 := agent.LlmNode(second, thread2);
  }
}
