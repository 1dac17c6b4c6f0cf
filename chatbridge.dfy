/**
  `ChatBridge` as an object whose handlers update its fields in place, step
  by step as the source does.  Each handler is proved to perform the
  transition of the same name in `BridgeSpec` on the abstract state
  `State()`; the buffer of the stream is the field `buffer`.

  Network replies are not objects here: a streamed chunk is the argument of
  `OnReadyRead`, the end of a reply a call of `OnTurnFinished` or
  `OnContinuationFinished`, and the analyzer's `toolResult` signal a call of
  `OnToolResult`.
*/
module ChatBridgeImpl {
  import opened JsonModel
  import opened Strings
  import opened SseFraming
  import opened Conversation
  import S = BridgeSpec

  class ChatBridge {
    const codec: Codec
    var anthropicApiKey: string
    var hasAnalyzer: bool
    var messages: seq<Message>
    var followups: seq<Followup>
    var citations: seq<Citation>
    var toolName: string
    var toolId: string
    var toolInput: string
    var details: map<string, ToolCallDetails>
    var pending: set<string>
    var requests: seq<S.ClaudeRequest>
    var dispatched: seq<S.Dispatch>
    var signals: seq<S.Signal>
    var buffer: string

    function State(): S.Bridge
      reads this
    {
      S.Bridge(anthropicApiKey, hasAnalyzer, messages, followups, citations, toolName, toolId, toolInput,
               details, pending, requests, dispatched, signals)
    }

    /** Between two handlers the buffer never holds a complete block. */
    ghost predicate Valid()
      reads this
    {
      HasNoSeparator(buffer)
    }

    constructor (codec: Codec)
      ensures this.codec == codec && State() == S.Initial() && buffer == "" && Valid()
    {
      this.codec := codec;
      anthropicApiKey, hasAnalyzer := "", false;
      messages, followups, citations := [], [], [];
      toolName, toolId, toolInput := "", "", "";
      details, pending := map[], {};
      requests, dispatched, signals := [], [], [];
      buffer := "";
    }

    method SetAnthropicApiKey(k: string)
      modifies this
      ensures State() == S.SetAnthropicApiKey(old(State()), k) && buffer == old(buffer)
    {
      if anthropicApiKey == k {
        return;
      }
      anthropicApiKey := k;
      signals := signals + [S.AnthropicApiKeyChanged];
    }

    /** `setAnalyzer(analyzer)`, by whether an analyzer is given. */
    method SetAnalyzer(present: bool)
      modifies this
      ensures State() == S.SetAnalyzer(old(State()), present) && buffer == old(buffer)
    {
      hasAnalyzer := present;
    }

    method Reset()
      modifies this
      ensures State() == S.Reset(old(State())) && buffer == old(buffer)
    {
      messages := [];
      followups := [];
      signals := signals + [S.MessagesChanged, S.FollowupsChanged];
    }

    method Append(role: string, text: string)
      modifies this
      ensures State() == S.Append(old(State()), role, text) && buffer == old(buffer)
    {
      messages := messages + [Message(role, text, [])];
      signals := signals + [S.MessagesChanged];
    }

    method UpdateLastAssistant(delta: string)
      modifies this
      ensures State() == S.UpdateLastAssistant(old(State()), delta) && buffer == old(buffer)
    {
      if messages == [] {
        return;
      }
      var last := messages[|messages| - 1];
      if last.role != "assistant" {
        return;
      }
      messages := messages[..|messages| - 1] + [last.(content := last.content + delta)];
      signals := signals + [S.PartialUpdated];
    }

    method AddCitations(cites: seq<Citation>)
      modifies this
      ensures State() == S.AddCitations(old(State()), cites) && buffer == old(buffer)
    {
      if messages == [] {
        return;
      }
      var last := messages[|messages| - 1];
      messages := messages[..|messages| - 1] + [last.(citations := last.citations + cites)];
      citations := citations + cites;
      signals := signals + [S.MessagesChanged, S.CitationsUpdated(cites)];
    }

    method SetFollowups(fups: seq<Followup>)
      modifies this
      ensures State() == S.SetFollowups(old(State()), fups) && buffer == old(buffer)
    {
      followups := fups;
      signals := signals + [S.FollowupsChanged];
    }

    /** `sendToClaudeAPI`: post the history and start a fresh buffer for the reply. */
    method SendToClaudeApi()
      modifies this
      ensures State() == S.SendToClaudeApi(old(State())) && buffer == ""
    {
      citations := [];
      var history := BuildTurnHistory(messages);
      requests := requests + [S.NewTurn(history)];
      buffer := "";
    }

    method SendMessage(userText: string)
      modifies this
      ensures State() == S.SendMessage(old(State()), userText)
      ensures buffer == if old(anthropicApiKey) == "" then old(buffer) else ""
    {
      citations := [];
      if anthropicApiKey == "" {
        signals := signals + [S.Error(S.KeyMissing)];
        return;
      }
      var displayText := userText;
      if SearchPrefix <= userText {
        var topic := Trim(userText[|SearchPrefix|..]);
        if topic != "" {
          displayText := Acknowledgement + topic;
        }
      } else if TellPrefix <= userText {
        var topic := Trim(userText[|TellPrefix|..]);
        if topic != "" {
          displayText := Acknowledgement + topic;
        }
      }
      Append("user", displayText);
      SendToClaudeApi();
    }

    method SendThemeQuery(theme: string)
      modifies this
      ensures State() == S.SendThemeQuery(old(State()), theme)
      ensures buffer == if old(anthropicApiKey) == "" then old(buffer) else ""
    {
      SendMessage(TellPrefix + " " + theme);
    }

    method RunFollowupQueue()
      modifies this
      ensures State() == S.RunFollowupQueue(old(State()))
      ensures buffer == if old(followups) == [] || old(anthropicApiKey) == "" then old(buffer) else ""
    {
      if followups == [] {
        return;
      }
      var f := followups[0];
      followups := followups[1..];
      signals := signals + [S.FollowupsChanged];
      SendMessage(f.query);
    }

    method SendToolResult(id: string, result: JsonObject)
      modifies this
      ensures State() == S.SendToolResult(codec, old(State()), id, result) && buffer == old(buffer)
    {
      if id !in details {
        signals := signals + [S.Error(S.DetailsMissing)];
        return;
      }
      var d := details[id];
      ghost var before := citations;
      var history := BuildContinuationHistory(messages);
      history := history + [WireMessage("assistant", ToolUse(id, d.name, ObjectOrEmpty(codec, d.input)))];
      var toolResultText := "";
      var text := FirstContentText(result);
      if text.Some? {
        toolResultText := text.value;
        if IsSearchTool(d.name) {
          var textObj := ParseObject(codec, toolResultText);
          if textObj.Some? && "items" in textObj.value && textObj.value["items"].JArray? {
            var found := CollectItemCitations(textObj.value["items"].elems);
            citations := citations + found;
          }
        }
      }
      assert citations == before + S.SearchCitations(codec, d.name, result);
      if toolResultText == "" {
        toolResultText := codec.compact(result);
      }
      assert toolResultText == ToolResultText(codec, result);
      history := history + [WireMessage("user", ToolResult(id, toolResultText))];
      assert history == S.ContinuationMessages(codec, messages, id, d, result);
      details := details - {id};
      requests := requests + [S.ToolContinuation(history)];
    }

    method ExecuteToolCall(name: string, id: string, input: string)
      modifies this
      ensures State() == S.ExecuteToolCall(codec, old(State()), name, id, input) && buffer == old(buffer)
    {
      if !hasAnalyzer {
        SendToolResult(id, S.NoAnalyzerResult);
        return;
      }
      var inputObj := ObjectOrEmpty(codec, input);
      pending := pending + {id};
      dispatched := dispatched + [S.ExecuteMcpTool(name, inputObj, id)];
    }

    /** The analyzer's `toolResult(requestId, result)`. */
    method OnToolResult(requestId: string, result: JsonObject)
      modifies this
      ensures State() == S.OnToolResult(codec, old(State()), requestId, result) && buffer == old(buffer)
    {
      var cites := CollectResultCitations(codec, result);
      if cites != [] {
        AddCitations(cites);
      }
      if requestId in pending {
        pending := pending - {requestId};
        SendToolResult(requestId, result);
      }
    }

    /** The dispatch on the event object's `type` inside the framing loop. */
    method HandleEvent(obj: JsonObject)
      modifies this
      ensures State() == S.ApplyEvent(codec, old(State()), obj) && buffer == old(buffer)
    {
      var kind := AsString(Field(obj, "type"));
      if kind == "message_start" {
        messages := messages + [Message("assistant", "", [])];
        signals := signals + [S.MessagesChanged];
      }
      if kind == "content_block_delta" {
        HandleDelta(AsObject(Field(obj, "delta")));
      } else if kind == "content_block_start" {
        HandleBlockStart(AsObject(Field(obj, "content_block")));
      } else if kind == "content_block_stop" {
        HandleBlockStop();
      } else if kind == "message_delta" {
        if "stop_reason" in AsObject(Field(obj, "delta")) {
          signals := signals + [S.StreamingFinished, S.MessagesChanged];
        }
      }
    }

    method HandleDelta(delta: JsonObject)
      modifies this
      ensures State() == S.ApplyDelta(old(State()), delta) && buffer == old(buffer)
    {
      if AsString(Field(delta, "type")) == "text_delta" {
        UpdateLastAssistant(AsString(Field(delta, "text")));
      } else if AsString(Field(delta, "type")) == "input_json_delta" {
        toolInput := toolInput + AsString(Field(delta, "partial_json"));
      }
    }

    method HandleBlockStart(block: JsonObject)
      modifies this
      ensures State() == S.StartBlock(old(State()), block) && buffer == old(buffer)
    {
      if AsString(Field(block, "type")) == "tool_use" {
        var name := AsString(Field(block, "name"));
        toolName := name;
        toolId := AsString(Field(block, "id"));
        toolInput := "";
        UpdateLastAssistant(S.ToolStatusLine(name));
      }
    }

    method HandleBlockStop()
      modifies this
      ensures State() == S.FinishToolCall(codec, old(State())) && buffer == old(buffer)
    {
      if toolName != "" {
        details := details[toolId := ToolCallDetails(toolName, toolInput)];
        ExecuteToolCall(toolName, toolId, toolInput);
        toolName := "";
        toolId := "";
        toolInput := "";
      }
    }

    /** `processClaudeStream`: cut and handle complete blocks while the buffer holds a blank line. */
    method ProcessClaudeStream()
      modifies this
      ensures (State(), buffer) == S.Drain(codec, old(State()), old(buffer))
      ensures Valid()
    {
      while FirstSeparator(buffer).Some?
        invariant S.Drain(codec, State(), buffer) == S.Drain(codec, old(State()), old(buffer))
        decreases |buffer|
      {
        var idx := FirstSeparator(buffer).value;
        var eventBlock := buffer[..idx];
        buffer := buffer[idx + 2..];
        var lines := BlockLines(eventBlock);
        var eventType, jsonData := ScanBlockLines(lines);
        if jsonData != "" {
          if jsonData == S.Done {
            signals := signals + [S.StreamingFinished, S.MessagesChanged];
            continue;
          }
          var parsed := ParseObject(codec, jsonData);
          if parsed.Some? {
            HandleEvent(parsed.value);
          }
        }
      }
    }

    /** `readyRead`: the chunk joins the buffer and every complete block is handled. */
    method OnReadyRead(chunk: string)
      modifies this
      ensures (State(), buffer) == S.Feed(codec, old(State()), old(buffer), chunk)
      ensures Valid()
    {
      buffer := buffer + chunk;
      ProcessClaudeStream();
    }

    /**
      `finished` of a new turn's reply.  On success the loop runs once more,
      which, since no complete block is left, changes nothing: a final event
      without its blank line is never handled.
    */
    method OnTurnFinished(networkError: Option<string>, errorBody: string)
      requires Valid()
      modifies this
      ensures networkError.Some? ==> State() == S.TurnFailed(codec, old(State()), networkError.value, errorBody)
      ensures networkError.None? ==> State() == old(State())
      ensures buffer == old(buffer)
    {
      if networkError.Some? {
        if errorBody != "" {
          var doc := ParseObject(codec, errorBody);
          if doc.Some? {
            var error := AsObject(Field(doc.value, "error"));
            UpdateLastAssistant("Error: " + AsString(Field(error, "message")));
          }
        }
        signals := signals + [S.Error("API error: " + networkError.value)];
      } else if buffer != "" {
        ProcessClaudeStream();
      }
    }

    /** `finished` of a continuation's reply: the loop runs once more, to no effect. */
    method OnContinuationFinished()
      requires Valid()
      modifies this
      ensures State() == old(State()) && buffer == old(buffer)
    {
      ProcessClaudeStream();
    }
  }
}
