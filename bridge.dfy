/**
  The state of `ChatBridge` as a value, and every handler of the source as a
  transition on that value.  The class `ChatBridgeImpl.ChatBridge` performs
  the same steps on its fields; the lemmas here state what a sequence of
  steps does.

  Outputs are logs: every request posted to the model API, every tool call
  handed to the analyzer, every signal emitted, in order.  The byte buffer of
  the stream is kept apart, because only the framing loop and a new turn
  touch it.
*/
module BridgeSpec {
  import opened JsonModel
  import opened Strings
  import opened SseFraming
  import opened Conversation

  datatype Signal =
    | MessagesChanged
    | FollowupsChanged
    | PartialUpdated
    | StreamingFinished
    | CitationsUpdated(cites: seq<Citation>)
    | Error(msg: string)
    | AnthropicApiKeyChanged

  /** A streaming request to the model API, by the `messages` it carries; the constant prompt, model and tool manifest are not modelled. */
  datatype ClaudeRequest =
    | NewTurn(history: seq<WireMessage>)
    | ToolContinuation(history: seq<WireMessage>)

  /** `invokeMethod(m_analyzer, "executeMCPTool", name, params, requestId)`. */
  datatype Dispatch = ExecuteMcpTool(name: string, params: JsonObject, requestId: string)

  datatype Bridge = Bridge(
    anthropicApiKey: string,
    hasAnalyzer: bool,
    messages: seq<Message>,
    followups: seq<Followup>,
    citations: seq<Citation>,
    toolName: string,
    toolId: string,
    toolInput: string,
    details: map<string, ToolCallDetails>,
    pending: set<string>,
    requests: seq<ClaudeRequest>,
    dispatched: seq<Dispatch>,
    signals: seq<Signal>)

  /** A freshly constructed bridge: no key, no analyzer, nothing said yet. */
  function Initial(): Bridge
  {
    Bridge("", false, [], [], [], "", "", "", map[], {}, [], [], [])
  }

  const KeyMissing: string := "Anthropic API key not configured"
  const DetailsMissing: string := "Internal error: missing tool details"
  const NoAnalyzerResult: JsonObject := map["error" := JString("No analyzer connected")]

  function Emit(st: Bridge, s: Signal): Bridge
  {
    st.(signals := st.signals + [s])
  }

  // ---- the conversation store ----

  /** `append(role, text)`. */
  function Append(st: Bridge, role: string, text: string): Bridge
  {
    st.(messages := st.messages + [Message(role, text, [])], signals := st.signals + [MessagesChanged])
  }

  /** `updateLastAssistant(delta)`: only a last message with role "assistant" grows. */
  function UpdateLastAssistant(st: Bridge, delta: string): (r: Bridge)
    ensures r == st.(messages := r.messages, signals := r.signals)
    ensures |r.messages| == |st.messages|
    ensures EndsWithAssistant(st.messages) ==> EndsWithAssistant(r.messages)
  {
    if st.messages == [] then st
    else
      var n := |st.messages|;
      var last := st.messages[n - 1];
      if last.role != "assistant" then st
      else
        st.(messages := st.messages[..n - 1] + [last.(content := last.content + delta)],
            signals := st.signals + [PartialUpdated])
  }

  /** `addCitations(cites)`: nothing at all happens while there is no message. */
  function AddCitations(st: Bridge, cites: seq<Citation>): Bridge
  {
    if st.messages == [] then st
    else
      var n := |st.messages|;
      var last := st.messages[n - 1];
      st.(messages := st.messages[..n - 1] + [last.(citations := last.citations + cites)],
          citations := st.citations + cites,
          signals := st.signals + [MessagesChanged, CitationsUpdated(cites)])
  }

  function SetFollowups(st: Bridge, fups: seq<Followup>): Bridge
  {
    st.(followups := fups, signals := st.signals + [FollowupsChanged])
  }

  /** `reset()`: the messages and the follow-ups go; the tool bookkeeping stays. */
  function Reset(st: Bridge): Bridge
  {
    st.(messages := [], followups := [], signals := st.signals + [MessagesChanged, FollowupsChanged])
  }

  function SetAnthropicApiKey(st: Bridge, k: string): Bridge
  {
    if st.anthropicApiKey == k then st
    else st.(anthropicApiKey := k, signals := st.signals + [AnthropicApiKeyChanged])
  }

  function SetAnalyzer(st: Bridge, present: bool): Bridge
  {
    st.(hasAnalyzer := present)
  }

  // ---- turns ----

  /** `sendToClaudeAPI`: the non-empty, non-system messages go out as a new turn. */
  function SendToClaudeApi(st: Bridge): Bridge
  {
    st.(citations := [], requests := st.requests + [NewTurn(TurnHistory(st.messages))])
  }

  /** `sendMessage`: without a key only an error; otherwise the display text is stored and the turn sent. */
  function SendMessage(st: Bridge, userText: string): Bridge
  {
    var cleared := st.(citations := []);
    if cleared.anthropicApiKey == "" then Emit(cleared, Error(KeyMissing))
    else SendToClaudeApi(Append(cleared, "user", DisplayText(userText)))
  }

  function SendThemeQuery(st: Bridge, theme: string): Bridge
  {
    SendMessage(st, ThemeQuery(theme))
  }

  /** `runFollowupQueue`: the head of the queue is removed and sent. */
  function RunFollowupQueue(st: Bridge): Bridge
  {
    if st.followups == [] then st
    else
      SendMessage(st.(followups := st.followups[1..], signals := st.signals + [FollowupsChanged]),
                  st.followups[0].query)
  }

  // ---- tool calls ----

  /** Path-A citations of `sendToolResult`, for the tool `name`. */
  function SearchCitations(c: Codec, name: string, result: JsonObject): seq<Citation>
  {
    var text := FirstContentText(result);
    if text.Some? && IsSearchTool(name) then SearchItemsCitations(c, text.value) else []
  }

  /** The `messages` of a continuation: the history, then the tool call, then its result. */
  function ContinuationMessages(c: Codec, msgs: seq<Message>, toolId: string, d: ToolCallDetails, result: JsonObject): seq<WireMessage>
  {
    ContinuationHistory(msgs)
    + [WireMessage("assistant", ToolUse(toolId, d.name, ObjectOrEmpty(c, d.input))),
       WireMessage("user", ToolResult(toolId, ToolResultText(c, result)))]
  }

  /** `sendToolResult(toolId, result)`. */
  function SendToolResult(c: Codec, st: Bridge, toolId: string, result: JsonObject): Bridge
  {
    if toolId !in st.details then Emit(st, Error(DetailsMissing))
    else
      var d := st.details[toolId];
      st.(citations := st.citations + SearchCitations(c, d.name, result),
          details := st.details - {toolId},
          requests := st.requests + [ToolContinuation(ContinuationMessages(c, st.messages, toolId, d, result))])
  }

  /** `executeToolCall`: without an analyzer the error object is the result at once. */
  function ExecuteToolCall(c: Codec, st: Bridge, name: string, id: string, input: string): Bridge
  {
    if !st.hasAnalyzer then SendToolResult(c, st, id, NoAnalyzerResult)
    else
      st.(pending := st.pending + {id},
          dispatched := st.dispatched + [ExecuteMcpTool(name, ObjectOrEmpty(c, input), id)])
  }

  /** `onToolResult`: path-B citations for every result, the continuation only for a pending id. */
  function OnToolResult(c: Codec, st: Bridge, requestId: string, result: JsonObject): Bridge
  {
    var cited := AddCitationsIfAny(c, st, result);
    if requestId in cited.pending then
      SendToolResult(c, cited.(pending := cited.pending - {requestId}), requestId, result)
    else cited
  }

  // ---- the stream ----

  /** The line shown in the answer when a tool call starts. */
  function ToolStatusLine(name: string): string
  {
    if name == "search-statistics" then "\n\n\U{1F50D} Searching Statista...\n"
    else if name == "statista.llm.chat.stream" then "\n\n\U{1F50D} Searching Statista database for relevant statistics and data...\n"
    else if name == "statista.llm.search" then "\n\n\U{1F50D} Searching for relevant information...\n"
    else if name == "statista.insights.generate" then "\n\n\U{1F4CA} Generating insights from the data...\n"
    else if name == "statista.chart.generate" then "\n\n\U{1F4C8} Creating chart visualization...\n"
    else "\n\n\U{1F527} Using " + name + "...\n"
  }

  /** `content_block_stop`: a started tool call is recorded, executed and forgotten. */
  function FinishToolCall(c: Codec, st: Bridge): Bridge
  {
    if st.toolName == "" then st
    else
      var recorded := st.(details := st.details[st.toolId := ToolCallDetails(st.toolName, st.toolInput)]);
      var executed := ExecuteToolCall(c, recorded, st.toolName, st.toolId, st.toolInput);
      executed.(toolName := "", toolId := "", toolInput := "")
  }

  /** The state machine of `processClaudeStream`, keyed by the event object's `type`. */
  function ApplyEvent(c: Codec, st: Bridge, obj: JsonObject): Bridge
  {
    var kind := AsString(Field(obj, "type"));
    if kind == "message_start" then
      st.(messages := st.messages + [Message("assistant", "", [])], signals := st.signals + [MessagesChanged])
    else if kind == "content_block_delta" then ApplyDelta(st, AsObject(Field(obj, "delta")))
    else if kind == "content_block_start" then StartBlock(st, AsObject(Field(obj, "content_block")))
    else if kind == "content_block_stop" then FinishToolCall(c, st)
    else if kind == "message_delta" then
      if "stop_reason" in AsObject(Field(obj, "delta")) then st.(signals := st.signals + [StreamingFinished, MessagesChanged])
      else st
    else st
  }

  /** `content_block_delta`: answer text goes to the last assistant message, tool-input JSON to the current call. */
  function ApplyDelta(st: Bridge, delta: JsonObject): Bridge
  {
    var deltaKind := AsString(Field(delta, "type"));
    if deltaKind == "text_delta" then UpdateLastAssistant(st, AsString(Field(delta, "text")))
    else if deltaKind == "input_json_delta" then st.(toolInput := st.toolInput + AsString(Field(delta, "partial_json")))
    else st
  }

  /** `content_block_start`: a `tool_use` block becomes the current call, with an empty input. */
  function StartBlock(st: Bridge, block: JsonObject): Bridge
  {
    if AsString(Field(block, "type")) == "tool_use" then
      var name := AsString(Field(block, "name"));
      var started := st.(toolName := name, toolId := AsString(Field(block, "id")), toolInput := "");
      UpdateLastAssistant(started, ToolStatusLine(name))
    else st
  }

  const Done: string := "[DONE]"

  /** One framed block: skipped without payload, `[DONE]` ends the answer, an object is an event. */
  function ApplyBlock(c: Codec, st: Bridge, block: string): Bridge
  {
    var data := BlockPayload(block);
    if data == "" then st
    else if data == Done then st.(signals := st.signals + [StreamingFinished, MessagesChanged])
    else
      match ParseObject(c, data)
      case None => st
      case Some(obj) => ApplyEvent(c, st, obj)
  }

  /** Blocks in order. */
  function ApplyBlocks(c: Codec, st: Bridge, blocks: seq<string>): Bridge
    decreases |blocks|
  {
    if blocks == [] then st else ApplyBlocks(c, ApplyBlock(c, st, blocks[0]), blocks[1..])
  }

  /** The `while` loop of `processClaudeStream` over the buffer `buf`: the new state and what is left of the buffer. */
  function Drain(c: Codec, st: Bridge, buf: string): (Bridge, string)
    decreases |buf|
  {
    match Cut(buf)
    case None => (st, buf)
    case Some((block, rest)) => Drain(c, ApplyBlock(c, st, block), rest)
  }

  /**
    The `finished` handler of a failed new-turn reply: the API's own error
    message, when the body is a JSON object, is appended to the answer, then
    the error is signalled.  Nothing but the messages and the signals changes.
  */
  function TurnFailed(c: Codec, st: Bridge, errorString: string, errorBody: string): (r: Bridge)
    ensures r == st.(messages := r.messages, signals := r.signals)
    ensures |r.signals| >= 1 && r.signals[|r.signals| - 1] == Error("API error: " + errorString)
  {
    var shown :=
      if errorBody == "" then st
      else
        match ParseObject(c, errorBody)
        case None => st
        case Some(o) => UpdateLastAssistant(st, "Error: " + AsString(Field(AsObject(Field(o, "error")), "message")));
    Emit(shown, Error("API error: " + errorString))
  }

  /** A `readyRead`: the chunk is appended and the loop runs. */
  function Feed(c: Codec, st: Bridge, buf: string, chunk: string): (Bridge, string)
  {
    Drain(c, st, buf + chunk)
  }

  // ---- framing properties ----

  /** The loop applies exactly the blocks `Frame` cuts, in order, and leaves the partial block in the buffer. */
  lemma {:induction false} DrainIsFrame(c: Codec, st: Bridge, buf: string)
    ensures Drain(c, st, buf) == (ApplyBlocks(c, st, Frame(buf).0), Frame(buf).1)
    decreases |buf|
  {
    match Cut(buf)
    case None =>
    case Some((block, rest)) =>
      DrainIsFrame(c, ApplyBlock(c, st, block), rest);
      assert Frame(buf).0 == [block] + Frame(rest).0;
      assert ([block] + Frame(rest).0)[1..] == Frame(rest).0;
  }

  lemma {:induction false} ApplyBlocksAppend(c: Codec, st: Bridge, a: seq<string>, b: seq<string>)
    ensures ApplyBlocks(c, st, a + b) == ApplyBlocks(c, ApplyBlocks(c, st, a), b)
    decreases |a|
  {
    if a == [] {
      assert a + b == b;
    } else {
      assert (a + b)[1..] == a[1..] + b;
      ApplyBlocksAppend(c, ApplyBlock(c, st, a[0]), a[1..], b);
    }
  }

  /** Running the loop, then appending bytes and running it again, equals running it once over all the bytes. */
  lemma {:induction false} DrainAppend(c: Codec, st: Bridge, buf: string, t: string)
    ensures Drain(c, Drain(c, st, buf).0, Drain(c, st, buf).1 + t) == Drain(c, st, buf + t)
    decreases |buf|
  {
    if Cut(buf).Some? {
      var block, rest := Cut(buf).value.0, Cut(buf).value.1;
      CutExtends(buf, t);
      DrainAppend(c, ApplyBlock(c, st, block), rest, t);
    }
  }

  /** Where the network splits the stream into chunks does not matter. */
  lemma ChunkBoundaryInvariance(c: Codec, st: Bridge, buf: string, a: string, b: string)
    ensures Feed(c, Feed(c, st, buf, a).0, Feed(c, st, buf, a).1, b) == Feed(c, st, buf, a + b)
  {
    DrainAppend(c, st, buf + a, b);
    assert buf + a + b == buf + (a + b);
  }

  /** After the loop no blank line is left, so a second run (the `finished` handler's) changes nothing. */
  lemma DrainLeavesNoBlock(c: Codec, st: Bridge, buf: string)
    ensures HasNoSeparator(Drain(c, st, buf).1)
    ensures Drain(c, Drain(c, st, buf).0, Drain(c, st, buf).1) == Drain(c, st, buf)
  {
    DrainIsFrame(c, st, buf);
    FrameRoundTrip(buf);
  }

  // ---- per-block properties ----

  /** `[DONE]` ends the answer and leaves the conversation and the tool bookkeeping alone. */
  lemma DoneFinishes(c: Codec, st: Bridge, block: string)
    requires BlockPayload(block) == Done
    ensures ApplyBlock(c, st, block) == st.(signals := st.signals + [StreamingFinished, MessagesChanged])
  {
  }

  /** A block without payload, or whose payload is no JSON object, is skipped. */
  lemma SkippedBlock(c: Codec, st: Bridge, block: string)
    requires BlockPayload(block) == "" || (BlockPayload(block) != Done && ParseObject(c, BlockPayload(block)).None?)
    ensures ApplyBlock(c, st, block) == st
  {
  }

  // ---- events ----

  function TextDelta(text: string): JsonObject
  {
    map["type" := JString("content_block_delta"),
        "delta" := JObject(map["type" := JString("text_delta"), "text" := JString(text)])]
  }

  function InputJsonDelta(partial: string): JsonObject
  {
    map["type" := JString("content_block_delta"),
        "delta" := JObject(map["type" := JString("input_json_delta"), "partial_json" := JString(partial)])]
  }

  function ToolUseStart(name: string, id: string): JsonObject
  {
    map["type" := JString("content_block_start"),
        "content_block" := JObject(map["type" := JString("tool_use"), "name" := JString(name), "id" := JString(id)])]
  }

  const BlockStop: JsonObject := map["type" := JString("content_block_stop")]

  function TextDeltas(texts: seq<string>): seq<JsonObject>
    decreases |texts|
  {
    if texts == [] then [] else [TextDelta(texts[0])] + TextDeltas(texts[1..])
  }

  function InputJsonDeltas(parts: seq<string>): seq<JsonObject>
    decreases |parts|
  {
    if parts == [] then [] else [InputJsonDelta(parts[0])] + InputJsonDeltas(parts[1..])
  }

  /** `step` applied to the events one after the other. */
  function Fold(step: (Bridge, JsonObject) -> Bridge, st: Bridge, events: seq<JsonObject>): Bridge
    decreases |events|
  {
    if events == [] then st else Fold(step, step(st, events[0]), events[1..])
  }

  function EventStep(c: Codec): (Bridge, JsonObject) -> Bridge
  {
    (st: Bridge, event: JsonObject) => ApplyEvent(c, st, event)
  }

  /** The events dispatched one after the other. */
  function ApplyEvents(c: Codec, st: Bridge, events: seq<JsonObject>): Bridge
  {
    Fold(EventStep(c), st, events)
  }

  lemma {:induction false} ApplyEventsAppend(c: Codec, st: Bridge, a: seq<JsonObject>, b: seq<JsonObject>)
    ensures ApplyEvents(c, st, a + b) == ApplyEvents(c, ApplyEvents(c, st, a), b)
  {
    FoldAppend(EventStep(c), st, a, b);
  }

  lemma ApplyEventsOne(c: Codec, st: Bridge, event: JsonObject)
    ensures ApplyEvents(c, st, [event]) == ApplyEvent(c, st, event)
  {
    assert [event][1..] == [];
    assert Fold(EventStep(c), st, [event]) == Fold(EventStep(c), EventStep(c)(st, event), []);
  }

  lemma {:induction false} FoldAppend(step: (Bridge, JsonObject) -> Bridge, st: Bridge, a: seq<JsonObject>, b: seq<JsonObject>)
    ensures Fold(step, st, a + b) == Fold(step, Fold(step, st, a), b)
    decreases |a|
  {
    if a == [] {
      assert a + b == b;
    } else {
      assert (a + b)[1..] == a[1..] + b;
      FoldAppend(step, step(st, a[0]), a[1..], b);
    }
  }

  lemma TextDeltaStep(c: Codec, st: Bridge, text: string)
    ensures ApplyEvent(c, st, TextDelta(text)) == UpdateLastAssistant(st, text)
  {
    var obj := TextDelta(text);
    assert Field(obj, "type") == JString("content_block_delta");
    assert AsObject(Field(obj, "delta")) == map["type" := JString("text_delta"), "text" := JString(text)];
  }

  lemma InputJsonDeltaStep(c: Codec, st: Bridge, partial: string)
    ensures ApplyEvent(c, st, InputJsonDelta(partial)) == st.(toolInput := st.toolInput + partial)
  {
    var obj := InputJsonDelta(partial);
    assert Field(obj, "type") == JString("content_block_delta");
    assert AsObject(Field(obj, "delta")) == map["type" := JString("input_json_delta"), "partial_json" := JString(partial)];
  }

  lemma BlockStopStep(c: Codec, st: Bridge)
    ensures ApplyEvent(c, st, BlockStop) == FinishToolCall(c, st)
  {
    assert Field(BlockStop, "type") == JString("content_block_stop");
  }

  predicate EndsWithAssistant(msgs: seq<Message>)
  {
    msgs != [] && msgs[|msgs| - 1].role == "assistant"
  }

  /** `message_start` appends exactly one empty assistant message. */
  lemma MessageStartAppendsPlaceholder(c: Codec, st: Bridge, obj: JsonObject)
    requires Field(obj, "type") == JString("message_start")
    ensures ApplyEvent(c, st, obj).messages == st.messages + [Message("assistant", "", [])]
    ensures EndsWithAssistant(ApplyEvent(c, st, obj).messages)
    ensures ApplyEvent(c, st, obj).requests == st.requests
  {
  }

  /** Consecutive text deltas grow the last assistant message by their texts, concatenated in arrival order. */
  lemma TextDeltasConcatenate(c: Codec, st: Bridge, texts: seq<string>)
    requires EndsWithAssistant(st.messages)
    ensures var n := |st.messages|;
      ApplyEvents(c, st, TextDeltas(texts)).messages
        == st.messages[..n - 1] + [st.messages[n - 1].(content := st.messages[n - 1].content + Concat(texts))]
  {
    forall s: Bridge, t: string
      ensures EventStep(c)(s, TextDelta(t)) == UpdateLastAssistant(s, t)
    {
      TextDeltaStep(c, s, t);
    }
    FoldTextDeltas(EventStep(c), st, texts);
  }

  /** Any step that treats a text delta as `updateLastAssistant` grows the last message by the texts in order. */
  lemma {:induction false} FoldTextDeltas(step: (Bridge, JsonObject) -> Bridge, st: Bridge, texts: seq<string>)
    requires forall s: Bridge, t: string {:trigger step(s, TextDelta(t))} :: step(s, TextDelta(t)) == UpdateLastAssistant(s, t)
    requires EndsWithAssistant(st.messages)
    ensures var n := |st.messages|;
      Fold(step, st, TextDeltas(texts)).messages
        == st.messages[..n - 1] + [st.messages[n - 1].(content := st.messages[n - 1].content + Concat(texts))]
    decreases |texts|
  {
    var n := |st.messages|;
    var last := st.messages[n - 1];
    if texts == [] {
      assert last.(content := last.content + Concat(texts)) == last;
      assert st.messages[..n - 1] + [last] == st.messages;
    } else {
      var t := texts[0];
      var grown := last.(content := last.content + t);
      var next := step(st, TextDelta(t));
      assert next.messages == st.messages[..n - 1] + [grown];
      assert next.messages[..n - 1] == st.messages[..n - 1];
      assert next.messages[n - 1] == grown;
      assert Fold(step, st, TextDeltas(texts)) == Fold(step, next, TextDeltas(texts[1..]));
      FoldTextDeltas(step, next, texts[1..]);
      assert Concat(texts) == t + Concat(texts[1..]);
      assert grown.content + Concat(texts[1..]) == last.content + Concat(texts);
    }
  }

  /** Without an assistant message at the end, text deltas change nothing at all. */
  lemma {:induction false} TextDeltasNeedAssistant(c: Codec, st: Bridge, texts: seq<string>)
    requires !EndsWithAssistant(st.messages)
    ensures ApplyEvents(c, st, TextDeltas(texts)) == st
    decreases |texts|
  {
    if texts != [] {
      TextDeltaStep(c, st, texts[0]);
      TextDeltasNeedAssistant(c, st, texts[1..]);
    }
  }

  /** Tool-input fragments accumulate in order and touch nothing else. */
  lemma InputFragmentsAccumulate(c: Codec, st: Bridge, parts: seq<string>)
    ensures ApplyEvents(c, st, InputJsonDeltas(parts)) == st.(toolInput := st.toolInput + Concat(parts))
  {
    forall s: Bridge, p: string
      ensures EventStep(c)(s, InputJsonDelta(p)) == s.(toolInput := s.toolInput + p)
    {
      InputJsonDeltaStep(c, s, p);
    }
    FoldInputDeltas(EventStep(c), st, parts);
  }

  lemma {:induction false} FoldInputDeltas(step: (Bridge, JsonObject) -> Bridge, st: Bridge, parts: seq<string>)
    requires forall s: Bridge, p: string {:trigger step(s, InputJsonDelta(p))} ::
      step(s, InputJsonDelta(p)) == s.(toolInput := s.toolInput + p)
    ensures Fold(step, st, InputJsonDeltas(parts)) == st.(toolInput := st.toolInput + Concat(parts))
    decreases |parts|
  {
    if parts == [] {
      assert st.(toolInput := st.toolInput + Concat(parts)) == st;
    } else {
      var next := step(st, InputJsonDelta(parts[0]));
      assert Fold(step, st, InputJsonDeltas(parts)) == Fold(step, next, InputJsonDeltas(parts[1..]));
      FoldInputDeltas(step, next, parts[1..]);
      assert Concat(parts) == parts[0] + Concat(parts[1..]);
      assert st.toolInput + parts[0] + Concat(parts[1..]) == st.toolInput + Concat(parts);
    }
  }

  /** A `tool_use` start records the call and shows its status line. */
  lemma ToolUseStartRecords(c: Codec, st: Bridge, name: string, id: string)
    ensures var next := ApplyEvent(c, st, ToolUseStart(name, id));
      next.toolName == name && next.toolId == id && next.toolInput == ""
      && next == UpdateLastAssistant(st.(toolName := name, toolId := id, toolInput := ""), ToolStatusLine(name))
  {
    var obj := ToolUseStart(name, id);
    assert Field(obj, "type") == JString("content_block_start");
    var block := AsObject(Field(obj, "content_block"));
    assert block == map["type" := JString("tool_use"), "name" := JString(name), "id" := JString(id)];
    assert AsString(Field(block, "name")) == name && AsString(Field(block, "id")) == id;
  }

  /** `content_block_stop` without a started tool call does nothing. */
  lemma StopWithoutToolIgnored(c: Codec, st: Bridge)
    requires st.toolName == ""
    ensures ApplyEvent(c, st, BlockStop) == st
  {
    BlockStopStep(c, st);
  }

  /** The common part of a tool block: after start and fragments, the call holds the name, the id and the whole input. */
  lemma ToolBlockFill(c: Codec, st: Bridge, name: string, id: string, parts: seq<string>)
    ensures ApplyEvents(c, st, [ToolUseStart(name, id)] + InputJsonDeltas(parts) + [BlockStop])
      == FinishToolCall(c, UpdateLastAssistant(st.(toolName := name, toolId := id, toolInput := ""), ToolStatusLine(name)).(toolInput := Concat(parts)))
  {
    var started := ApplyEvent(c, st, ToolUseStart(name, id));
    ToolUseStartRecords(c, st, name, id);
    ApplyEventsOne(c, st, ToolUseStart(name, id));
    ApplyEventsAppend(c, st, [ToolUseStart(name, id)], InputJsonDeltas(parts));
    InputFragmentsAccumulate(c, started, parts);
    var filled := started.(toolInput := Concat(parts));
    assert "" + Concat(parts) == Concat(parts);
    ApplyEventsAppend(c, st, [ToolUseStart(name, id)] + InputJsonDeltas(parts), [BlockStop]);
    BlockStopStep(c, filled);
    ApplyEventsOne(c, filled, BlockStop);
  }

  /**
    A whole tool block: start, fragments, stop.  The call is stored under its
    id and dispatched exactly once with the fragments' concatenation parsed
    (an empty object when it does not parse), and the current call is cleared.
  */
  lemma ToolBlockLifecycle(c: Codec, st: Bridge, name: string, id: string, parts: seq<string>)
    requires name != "" && st.hasAnalyzer
    ensures var after := ApplyEvents(c, st, [ToolUseStart(name, id)] + InputJsonDeltas(parts) + [BlockStop]);
      after.dispatched == st.dispatched + [ExecuteMcpTool(name, ObjectOrEmpty(c, Concat(parts)), id)]
      && after.pending == st.pending + {id}
      && after.details == st.details[id := ToolCallDetails(name, Concat(parts))]
      && after.requests == st.requests
      && after.toolName == "" && after.toolId == "" && after.toolInput == ""
  {
    ToolBlockFill(c, st, name, id, parts);
  }

  /** Without an analyzer the same block is answered at once with the error object, and nothing is pending. */
  lemma ToolBlockWithoutAnalyzer(c: Codec, st: Bridge, name: string, id: string, parts: seq<string>)
    requires name != "" && !st.hasAnalyzer
    ensures var after := ApplyEvents(c, st, [ToolUseStart(name, id)] + InputJsonDeltas(parts) + [BlockStop]);
      after.dispatched == st.dispatched
      && after.pending == st.pending
      && id !in after.details
      && |after.requests| == |st.requests| + 1
      && after.requests[|st.requests|].ToolContinuation?
      && |after.requests[|st.requests|].history| >= 2
      && after.requests[|st.requests|].history[|after.requests[|st.requests|].history| - 1]
           == WireMessage("user", ToolResult(id, c.compact(NoAnalyzerResult)))
  {
    ToolBlockFill(c, st, name, id, parts);
    var filled := UpdateLastAssistant(st.(toolName := name, toolId := id, toolInput := ""), ToolStatusLine(name)).(toolInput := Concat(parts));
    FinishWithoutAnalyzer(c, filled);
  }

  lemma FinishWithoutAnalyzer(c: Codec, st: Bridge)
    requires st.toolName != "" && !st.hasAnalyzer
    ensures var after := FinishToolCall(c, st);
      after.dispatched == st.dispatched
      && after.pending == st.pending
      && st.toolId !in after.details
      && |after.requests| == |st.requests| + 1
      && after.requests[|st.requests|].ToolContinuation?
      && |after.requests[|st.requests|].history| >= 2
      && after.requests[|st.requests|].history[|after.requests[|st.requests|].history| - 1]
           == WireMessage("user", ToolResult(st.toolId, c.compact(NoAnalyzerResult)))
  {
    var recorded := st.(details := st.details[st.toolId := ToolCallDetails(st.toolName, st.toolInput)]);
    assert FirstContentText(NoAnalyzerResult).None?;
    assert ToolResultText(c, NoAnalyzerResult) == c.compact(NoAnalyzerResult);
  }

  // ---- correlation ----

  /** A result whose id is not pending sends nothing, dispatches nothing and keeps the pending set. */
  lemma UnmatchedResultSendsNothing(c: Codec, st: Bridge, requestId: string, result: JsonObject)
    requires requestId !in st.pending
    ensures var after := OnToolResult(c, st, requestId, result);
      after.pending == st.pending && after.requests == st.requests
      && after.details == st.details && after.dispatched == st.dispatched
  {
  }

  /** A pending id is consumed, and the continuation is sent when its details exist. */
  lemma MatchedResultContinues(c: Codec, st: Bridge, requestId: string, result: JsonObject)
    requires requestId in st.pending
    ensures var after := OnToolResult(c, st, requestId, result);
      after.pending == st.pending - {requestId}
      && requestId !in after.details
      && (requestId in st.details ==>
            after.requests == st.requests + [ToolContinuation(ContinuationMessages(c, AddCitationsIfAny(c, st, result).messages, requestId, st.details[requestId], result))])
      && (requestId !in st.details ==>
            after.requests == st.requests && after.signals[|after.signals| - 1] == Error(DetailsMissing))
  {
  }

  /** The state `onToolResult` hands to the id check: path-B citations added when there are any. */
  function AddCitationsIfAny(c: Codec, st: Bridge, result: JsonObject): (cited: Bridge)
    ensures cited.pending == st.pending && cited.details == st.details && cited.requests == st.requests
    ensures st.messages != [] ==>
      (|cited.messages| == |st.messages|
       && cited.messages[|st.messages| - 1].citations
            == st.messages[|st.messages| - 1].citations + ResultCitations(c, result))
  {
    var cites := ResultCitations(c, result);
    if cites != [] then AddCitations(st, cites) else st
  }

  /**
    `sendToolResult`: an id without details yields only the error; otherwise
    the details are consumed, one continuation is sent, the conversation is
    untouched, and path A adds at most five citations, none for a tool whose
    name does not mention the search service.
  */
  lemma SendToolResultOutcome(c: Codec, st: Bridge, toolId: string, result: JsonObject)
    ensures toolId !in st.details ==>
      SendToolResult(c, st, toolId, result) == st.(signals := st.signals + [Error(DetailsMissing)])
    ensures toolId in st.details ==>
      var r := SendToolResult(c, st, toolId, result);
      && toolId !in r.details && r.details == st.details - {toolId}
      && r.requests == st.requests + [ToolContinuation(ContinuationMessages(c, st.messages, toolId, st.details[toolId], result))]
      && r.messages == st.messages && r.pending == st.pending && r.signals == st.signals
      && st.citations <= r.citations && |r.citations| <= |st.citations| + 5
      && (!IsSearchTool(st.details[toolId].name) ==> r.citations == st.citations)
  {
    if toolId in st.details {
      var text := FirstContentText(result);
      if text.Some? {
        match ParseObject(c, text.value)
        case None =>
        case Some(o) =>
          if "items" in o && o["items"].JArray? {
            CappedAtFive(o["items"].elems);
          }
      }
    }
  }

  /** Correlate once: two results under one id produce at most one continuation. */
  lemma CorrelateOnce(c: Codec, st: Bridge, requestId: string, first: JsonObject, second: JsonObject)
    ensures var once := OnToolResult(c, st, requestId, first);
      var twice := OnToolResult(c, once, requestId, second);
      requestId !in once.pending
      && twice.requests == once.requests
      && |once.requests| <= |st.requests| + 1
  {
    var once := OnToolResult(c, st, requestId, first);
    if requestId in st.pending {
      MatchedResultContinues(c, st, requestId, first);
    } else {
      UnmatchedResultSendsNothing(c, st, requestId, first);
    }
    UnmatchedResultSendsNothing(c, once, requestId, second);
  }

  /** The continuation: full history, then exactly one tool_use and one tool_result, none of the history empty. */
  lemma ContinuationShape(c: Codec, msgs: seq<Message>, toolId: string, d: ToolCallDetails, result: JsonObject)
    ensures var ws := ContinuationMessages(c, msgs, toolId, d, result);
      var n := |ws|;
      n >= 2
      && ws[..n - 2] == ContinuationHistory(msgs)
      && ws[n - 2] == WireMessage("assistant", ToolUse(toolId, d.name, ObjectOrEmpty(c, d.input)))
      && ws[n - 1].role == "user" && ws[n - 1].content.ToolResult? && ws[n - 1].content.toolUseId == toolId
      && (forall k :: 0 <= k < n - 2 ==> ws[k].content.TextContent? && ws[k].content.text != "")
      && DropSystem(ws[..n - 2]) == TurnHistory(msgs)
  {
    TurnIsContinuationWithoutSystem(msgs);
    var ws := ContinuationMessages(c, msgs, toolId, d, result);
    assert ws[..|ws| - 2] == ContinuationHistory(msgs);
  }

  /**
    The final `tool_result` when `result.content[0]` is an object with a
    `text`: a non-empty string is sent as it is; an empty or non-string text
    sends the compact JSON of the whole result.
  */
  lemma ContinuationSendsText(c: Codec, msgs: seq<Message>, toolId: string, d: ToolCallDetails,
                              result: JsonObject, r: JsonObject, first: JsonObject, rest: seq<Json>)
    requires "result" in result && result["result"] == JObject(r)
    requires "content" in r && r["content"] == JArray([JObject(first)] + rest)
    requires "text" in first
    ensures var ws := ContinuationMessages(c, msgs, toolId, d, result);
      var v := first["text"];
      && (v.JString? && v.s != "" ==> ws[|ws| - 1] == WireMessage("user", ToolResult(toolId, v.s)))
      && (!(v.JString? && v.s != "") ==> ws[|ws| - 1] == WireMessage("user", ToolResult(toolId, c.compact(result))))
  {
  }

  /** A result without an object `result` that has `content` sends the compact JSON of the whole result. */
  lemma ContinuationSendsWholeResult(c: Codec, msgs: seq<Message>, toolId: string, d: ToolCallDetails,
                                     result: JsonObject)
    requires "result" !in result || !result["result"].JObject? || "content" !in result["result"].fields
    ensures var ws := ContinuationMessages(c, msgs, toolId, d, result);
      ws[|ws| - 1] == WireMessage("user", ToolResult(toolId, c.compact(result)))
  {
  }

  // ---- follow-ups and reset ----

  /** `step` applied `n` times. */
  function Repeat(step: Bridge -> Bridge, st: Bridge, n: nat): Bridge
    decreases n
  {
    if n == 0 then st else Repeat(step, step(st), n - 1)
  }

  /** `runFollowupQueue` run `n` times in a row. */
  function RunFollowups(st: Bridge, n: nat): Bridge
  {
    Repeat(RunFollowupQueue, st, n)
  }

  /** The user message that sending a follow-up stores. */
  function Shown(f: Followup): Message
  {
    Message("user", DisplayText(f.query), [])
  }

  /** `show` of every follow-up, in order. */
  function ShowAll(show: Followup -> Message, fups: seq<Followup>): seq<Message>
    decreases |fups|
  {
    if fups == [] then [] else [show(fups[0])] + ShowAll(show, fups[1..])
  }

  /** The user messages that sending the given follow-ups stores, in order. */
  function QueriesShown(fups: seq<Followup>): seq<Message>
  {
    ShowAll(Shown, fups)
  }

  lemma RunFollowupQueueStep(st: Bridge)
    requires st.anthropicApiKey != "" && st.followups != []
    ensures var next := RunFollowupQueue(st);
      next.anthropicApiKey == st.anthropicApiKey
      && next.followups == st.followups[1..]
      && next.messages == st.messages + [Message("user", DisplayText(st.followups[0].query), [])]
      && next.requests == st.requests + [NewTurn(TurnHistory(st.messages + [Shown(st.followups[0])]))]
  {
  }

  /** What one run of the queue does when a key is set and the queue is not empty. */
  ghost predicate SendsHead(step: Bridge -> Bridge, show: Followup -> Message)
  {
    forall st: Bridge {:trigger step(st)} :: st.anthropicApiKey != "" && st.followups != [] ==>
      step(st).anthropicApiKey == st.anthropicApiKey
      && step(st).followups == st.followups[1..]
      && step(st).messages == st.messages + [show(st.followups[0])]
      && step(st).requests == st.requests + [TurnAfter(st.messages + [show(st.followups[0])])]
  }

  /** The turns sending `fups` one after another sends, starting from the messages `msgs`. */
  function SentTurns(show: Followup -> Message, msgs: seq<Message>, fups: seq<Followup>): seq<ClaudeRequest>
    decreases |fups|
  {
    if fups == [] then []
    else [TurnAfter(msgs + [show(fups[0])])] + SentTurns(show, msgs + [show(fups[0])], fups[1..])
  }

  /** The new turn sent once `msgs` are the stored messages. */
  function TurnAfter(msgs: seq<Message>): ClaudeRequest
  {
    NewTurn(TurnHistory(msgs))
  }

  /** The `k`-th of those turns carries the history that ends with the `k`-th follow-up. */
  lemma {:induction false} SentTurnsAt(show: Followup -> Message, msgs: seq<Message>, fups: seq<Followup>)
    ensures |SentTurns(show, msgs, fups)| == |fups|
    ensures forall k :: 0 <= k < |fups| ==>
      SentTurns(show, msgs, fups)[k] == TurnAfter(msgs + ShowAll(show, fups[..k + 1]))
    decreases |fups|
  {
    if fups != [] {
      var m1 := msgs + [show(fups[0])];
      SentTurnsAt(show, m1, fups[1..]);
      forall k | 0 <= k < |fups|
        ensures SentTurns(show, msgs, fups)[k] == TurnAfter(msgs + ShowAll(show, fups[..k + 1]))
      {
        assert fups[..k + 1] == [fups[0]] + fups[1..][..k];
        assert ShowAll(show, fups[..k + 1]) == [show(fups[0])] + ShowAll(show, fups[1..][..k]);
        if k > 0 {
          assert msgs + ShowAll(show, fups[..k + 1]) == m1 + ShowAll(show, fups[1..][..k]);
        } else {
          assert fups[1..][..0] == [];
        }
      }
    }
  }

  /** Any step that sends the head of the queue consumes the queue in order. */
  lemma {:induction false} RepeatSendsInOrder(step: Bridge -> Bridge, show: Followup -> Message, st: Bridge, n: nat)
    requires SendsHead(step, show)
    requires st.anthropicApiKey != "" && n <= |st.followups|
    ensures Repeat(step, st, n).followups == st.followups[n..]
    ensures Repeat(step, st, n).messages == st.messages + ShowAll(show, st.followups[..n])
    decreases n
  {
    if n == 0 {
      assert st.followups[..0] == [];
      assert st.messages + [] == st.messages;
    } else {
      var next := step(st);
      RepeatSendsInOrder(step, show, next, n - 1);
      assert st.followups[1..][n - 1..] == st.followups[n..];
      assert st.followups[..n] == [st.followups[0]] + st.followups[1..][..n - 1];
      assert ShowAll(show, st.followups[..n]) == [show(st.followups[0])] + ShowAll(show, st.followups[1..][..n - 1]);
    }
  }

  /** Any step that sends the head of the queue sends the turns of the first `n` follow-ups, in order. */
  lemma {:induction false} RepeatSendsTurns(step: Bridge -> Bridge, show: Followup -> Message, st: Bridge, n: nat)
    requires SendsHead(step, show)
    requires st.anthropicApiKey != "" && n <= |st.followups|
    ensures Repeat(step, st, n).requests == st.requests + SentTurns(show, st.messages, st.followups[..n])
    decreases n
  {
    if n == 0 {
      assert st.followups[..0] == [];
      assert st.requests + [] == st.requests;
    } else {
      var next := step(st);
      RepeatSendsTurns(step, show, next, n - 1);
      var fups := st.followups[..n];
      var t := TurnAfter(next.messages);
      var rest := SentTurns(show, next.messages, next.followups[..n - 1]);
      assert fups[1..] == next.followups[..n - 1];
      assert SentTurns(show, st.messages, fups) == [t] + rest;
      assert next.requests == st.requests + [t];
      assert (st.requests + [t]) + rest == st.requests + ([t] + rest);
    }
  }

  /**
    With a key set, the queue is consumed head first: after `n` runs the first
    `n` queries were shown, and each new request is the turn whose history ends
    with the query that run sent.
  */
  lemma FollowupsFifo(st: Bridge, n: nat)
    requires st.anthropicApiKey != "" && n <= |st.followups|
    ensures RunFollowups(st, n).followups == st.followups[n..]
    ensures RunFollowups(st, n).messages == st.messages + QueriesShown(st.followups[..n])
    ensures |RunFollowups(st, n).requests| == |st.requests| + n
    ensures RunFollowups(st, n).requests == st.requests + SentTurns(Shown, st.messages, st.followups[..n])
    ensures RunFollowups(st, n).requests[..|st.requests|] == st.requests
    ensures forall i :: |st.requests| <= i < |st.requests| + n ==>
      RunFollowups(st, n).requests[i]
        == NewTurn(TurnHistory(st.messages + QueriesShown(st.followups[..i - |st.requests| + 1])))
  {
    RunFollowupQueueSendsHead();
    RepeatSendsInOrder(RunFollowupQueue, Shown, st, n);
    RepeatSendsTurns(RunFollowupQueue, Shown, st, n);
    AppendedTurnsAt(st.requests, st.messages, st.followups, n);
  }

  /** `runFollowupQueue` sends the head of the queue, with the turn ending in its query. */
  lemma RunFollowupQueueSendsHead()
    ensures SendsHead(RunFollowupQueue, Shown)
  {
    forall s: Bridge | s.anthropicApiKey != "" && s.followups != []
      ensures RunFollowupQueue(s).anthropicApiKey == s.anthropicApiKey
      ensures RunFollowupQueue(s).followups == s.followups[1..]
      ensures RunFollowupQueue(s).messages == s.messages + [Shown(s.followups[0])]
      ensures RunFollowupQueue(s).requests == s.requests + [TurnAfter(s.messages + [Shown(s.followups[0])])]
    {
      RunFollowupQueueStep(s);
    }
  }

  /** The turns for the first `n` follow-ups, appended to `pre`, one per follow-up in order. */
  lemma AppendedTurnsAt(pre: seq<ClaudeRequest>, msgs: seq<Message>, fups: seq<Followup>, n: nat)
    requires n <= |fups|
    ensures |pre + SentTurns(Shown, msgs, fups[..n])| == |pre| + n
    ensures (pre + SentTurns(Shown, msgs, fups[..n]))[..|pre|] == pre
    ensures forall i :: |pre| <= i < |pre| + n ==>
      (pre + SentTurns(Shown, msgs, fups[..n]))[i] == NewTurn(TurnHistory(msgs + QueriesShown(fups[..i - |pre| + 1])))
  {
    var turns := SentTurns(Shown, msgs, fups[..n]);
    SentTurnsAt(Shown, msgs, fups[..n]);
    forall i | |pre| <= i < |pre| + n
      ensures (pre + turns)[i] == NewTurn(TurnHistory(msgs + QueriesShown(fups[..i - |pre| + 1])))
    {
      var k := i - |pre|;
      assert fups[..n][..k + 1] == fups[..k + 1];
      assert turns[k] == TurnAfter(msgs + ShowAll(Shown, fups[..k + 1]));
      assert (pre + turns)[i] == turns[k];
    }
    assert (pre + turns)[..|pre|] == pre;
  }

  /** Without a key a run still pops the head and announces it; then only the key error follows, and nothing is stored or sent. */
  lemma KeylessFollowupStep(st: Bridge)
    requires st.anthropicApiKey == "" && st.followups != []
    ensures RunFollowupQueue(st)
      == st.(followups := st.followups[1..], citations := [],
             signals := st.signals + [FollowupsChanged, Error(KeyMissing)])
  {
  }

  /** One run, with or without a key, removes exactly the head and keeps the key. */
  lemma RunFollowupQueuePops(st: Bridge)
    requires st.followups != []
    ensures RunFollowupQueue(st).followups == st.followups[1..]
    ensures RunFollowupQueue(st).anthropicApiKey == st.anthropicApiKey
  {
  }

  /** What every run of the queue does to a non-empty queue, key or no key. */
  ghost predicate PopsHead(step: Bridge -> Bridge)
  {
    forall st: Bridge {:trigger step(st)} :: st.followups != [] ==>
      step(st).followups == st.followups[1..] && step(st).anthropicApiKey == st.anthropicApiKey
  }

  /** What a run does without a key: it stores and sends nothing, and the key stays unset. */
  ghost predicate SendsNothingKeyless(step: Bridge -> Bridge)
  {
    forall st: Bridge {:trigger step(st)} :: st.anthropicApiKey == "" ==>
      step(st).anthropicApiKey == "" && step(st).messages == st.messages && step(st).requests == st.requests
  }

  /** Any step that pops the head consumes the queue head first. */
  lemma {:induction false} RepeatPopsInOrder(step: Bridge -> Bridge, st: Bridge, n: nat)
    requires PopsHead(step) && n <= |st.followups|
    ensures Repeat(step, st, n).followups == st.followups[n..]
    decreases n
  {
    if n > 0 {
      RepeatPopsInOrder(step, step(st), n - 1);
      assert st.followups[1..][n - 1..] == st.followups[n..];
    }
  }

  /** Without a key, repeated runs store and send nothing. */
  lemma {:induction false} RepeatKeyless(step: Bridge -> Bridge, st: Bridge, n: nat)
    requires SendsNothingKeyless(step) && st.anthropicApiKey == ""
    ensures Repeat(step, st, n).messages == st.messages && Repeat(step, st, n).requests == st.requests
    decreases n
  {
    if n > 0 {
      RepeatKeyless(step, step(st), n - 1);
    }
  }

  /**
    With or without a key, `n` runs consume exactly the first `n` follow-ups;
    without a key they store no message and send no request.
  */
  lemma FollowupsConsumed(st: Bridge, n: nat)
    requires n <= |st.followups|
    ensures RunFollowups(st, n).followups == st.followups[n..]
    ensures st.anthropicApiKey == "" ==>
      RunFollowups(st, n).messages == st.messages && RunFollowups(st, n).requests == st.requests
  {
    forall s: Bridge | s.followups != []
      ensures RunFollowupQueue(s).followups == s.followups[1..]
      ensures RunFollowupQueue(s).anthropicApiKey == s.anthropicApiKey
    {
      RunFollowupQueuePops(s);
    }
    forall s: Bridge | s.anthropicApiKey == ""
      ensures RunFollowupQueue(s).anthropicApiKey == ""
      ensures RunFollowupQueue(s).messages == s.messages && RunFollowupQueue(s).requests == s.requests
    {
      if s.followups != [] {
        KeylessFollowupStep(s);
      }
    }
    RepeatPopsInOrder(RunFollowupQueue, st, n);
    if st.anthropicApiKey == "" {
      RepeatKeyless(RunFollowupQueue, st, n);
    }
  }

  /** An empty queue: nothing happens, not even a signal. */
  lemma EmptyQueueIgnored(st: Bridge)
    requires st.followups == []
    ensures RunFollowups(st, 1) == st
  {
  }

  /** After `reset` a new turn carries only the new user message, and the tool bookkeeping survives. */
  lemma ResetThenSend(st: Bridge, userText: string)
    requires st.anthropicApiKey != "" && DisplayText(userText) != ""
    ensures var after := SendMessage(Reset(st), userText);
      after.messages == [Message("user", DisplayText(userText), [])]
      && after.followups == []
      && after.requests == st.requests + [NewTurn([WireMessage("user", TextContent(DisplayText(userText)))])]
      && after.pending == st.pending && after.details == st.details
      && after.toolName == st.toolName && after.toolInput == st.toolInput
  {
    var m := Message("user", DisplayText(userText), []);
    assert [m][..0] == [];
    assert TurnHistory([m]) == [ToWire(m)];
  }

  /** `addCitations` with no message stored neither records nor announces the citations. */
  lemma CitationsNeedAMessage(st: Bridge, cites: seq<Citation>)
    requires st.messages == []
    ensures AddCitations(st, cites) == st
  {
  }

  /** A new turn never carries a system message or an empty one, and ends with the user's displayed text when that is non-empty. */
  lemma NewTurnHistory(st: Bridge, userText: string)
    requires st.anthropicApiKey != ""
    ensures var after := SendMessage(st, userText);
      |after.requests| == |st.requests| + 1
      && after.requests[|st.requests|] == NewTurn(TurnHistory(st.messages + [Message("user", DisplayText(userText), [])]))
      && (DisplayText(userText) != "" ==>
            after.requests[|st.requests|].history
              == TurnHistory(st.messages) + [WireMessage("user", TextContent(DisplayText(userText)))])
      && (forall k :: 0 <= k < |after.requests[|st.requests|].history| ==>
            after.requests[|st.requests|].history[k].role != "system"
            && after.requests[|st.requests|].history[k].content.TextContent?
            && after.requests[|st.requests|].history[k].content.text != "")
  {
    var m := Message("user", DisplayText(userText), []);
    TurnHistoryClean(st.messages + [m]);
    TurnHistoryAppend(st.messages, [m]);
    assert [m][..0] == [];
  }
}
