/**
  The conversation store's values and the pure computations over them that
  `ChatBridge` performs: the two outbound-history filters, the display-text
  rewrite of `sendMessage`, and the two citation extractors.
*/
module Conversation {
  import opened JsonModel
  import opened Strings

  datatype Citation = Citation(title: string, url: string)

  /** An entry of `m_messages`: a map with "role", "content" and, once cited, "citations". */
  datatype Message = Message(role: string, content: string, citations: seq<Citation>)

  /** An entry of `m_followups`: only its "query" is ever read. */
  datatype Followup = Followup(query: string)

  /** `ChatBridge::ToolCallDetails`. */
  datatype ToolCallDetails = ToolCallDetails(name: string, input: string)

  /** The content of one message in the model API's `messages` array. */
  datatype WireContent =
    | TextContent(text: string)
    | ToolUse(id: string, name: string, input: JsonObject)
    | ToolResult(toolUseId: string, content: string)

  datatype WireMessage = WireMessage(role: string, content: WireContent)

  function ToWire(m: Message): WireMessage
  {
    WireMessage(m.role, TextContent(m.content))
  }

  // ---- outbound history ----

  /** `sendToClaudeAPI` sends a stored message when its content is non-empty and it is not a system message. */
  predicate SentOnNewTurn(m: Message)
  {
    m.content != "" && m.role != "system"
  }

  /** `sendToolResult` skips empty assistant placeholders, then every other empty message. */
  predicate SentOnContinuation(m: Message)
  {
    !(m.role == "assistant" && m.content == "") && m.content != ""
  }

  function TurnHistory(msgs: seq<Message>): seq<WireMessage>
    decreases |msgs|
  {
    if msgs == [] then []
    else
      var last := msgs[|msgs| - 1];
      TurnHistory(msgs[..|msgs| - 1]) + (if SentOnNewTurn(last) then [ToWire(last)] else [])
  }

  function ContinuationHistory(msgs: seq<Message>): seq<WireMessage>
    decreases |msgs|
  {
    if msgs == [] then []
    else
      var last := msgs[|msgs| - 1];
      ContinuationHistory(msgs[..|msgs| - 1]) + (if SentOnContinuation(last) then [ToWire(last)] else [])
  }

  /** A new turn carries only text messages that are non-empty and not system messages. */
  lemma {:induction false} TurnHistoryClean(msgs: seq<Message>)
    ensures forall k :: 0 <= k < |TurnHistory(msgs)| ==>
      TurnHistory(msgs)[k].role != "system"
      && TurnHistory(msgs)[k].content.TextContent? && TurnHistory(msgs)[k].content.text != ""
    decreases |msgs|
  {
    if msgs != [] {
      TurnHistoryClean(msgs[..|msgs| - 1]);
    }
  }

  /** The history of a new turn is built message by message, in conversation order. */
  lemma {:induction false} TurnHistoryAppend(a: seq<Message>, b: seq<Message>)
    ensures TurnHistory(a + b) == TurnHistory(a) + TurnHistory(b)
    decreases |b|
  {
    if b == [] {
      assert a + b == a;
    } else {
      var init := b[..|b| - 1];
      assert (a + b)[..|a + b| - 1] == a + init;
      assert (a + b)[|a + b| - 1] == b[|b| - 1];
      TurnHistoryAppend(a, init);
    }
  }

  /** The continuation history is built the same way. */
  lemma {:induction false} ContinuationHistoryAppend(a: seq<Message>, b: seq<Message>)
    ensures ContinuationHistory(a + b) == ContinuationHistory(a) + ContinuationHistory(b)
    decreases |b|
  {
    if b == [] {
      assert a + b == a;
    } else {
      var init := b[..|b| - 1];
      assert (a + b)[..|a + b| - 1] == a + init;
      assert (a + b)[|a + b| - 1] == b[|b| - 1];
      ContinuationHistoryAppend(a, init);
    }
  }

  /** A history without its system messages. */
  function DropSystem(ws: seq<WireMessage>): seq<WireMessage>
    decreases |ws|
  {
    if ws == [] then []
    else
      var last := ws[|ws| - 1];
      DropSystem(ws[..|ws| - 1]) + (if last.role != "system" then [last] else [])
  }

  /**
    The two filters differ only in system messages: a new turn sends the
    continuation's history with its system messages removed.  Neither sends an
    empty message, so the streaming placeholder never reaches the wire.
  */
  lemma {:induction false} TurnIsContinuationWithoutSystem(msgs: seq<Message>)
    ensures TurnHistory(msgs) == DropSystem(ContinuationHistory(msgs))
    ensures forall k :: 0 <= k < |ContinuationHistory(msgs)| ==>
      ContinuationHistory(msgs)[k].content.TextContent? && ContinuationHistory(msgs)[k].content.text != ""
    decreases |msgs|
  {
    if msgs != [] {
      var init, last := msgs[..|msgs| - 1], msgs[|msgs| - 1];
      TurnIsContinuationWithoutSystem(init);
      var ch := ContinuationHistory(init);
      if SentOnContinuation(last) {
        var ws := ch + [ToWire(last)];
        assert ws[..|ws| - 1] == ch;
      } else {
        assert ContinuationHistory(msgs) == ch;
      }
    }
  }

  /** The `for` loop of `sendToClaudeAPI` that builds the outbound messages. */
  method BuildTurnHistory(msgs: seq<Message>) returns (wire: seq<WireMessage>)
    ensures wire == TurnHistory(msgs)
  {
    wire := [];
    for i := 0 to |msgs|
      invariant wire == TurnHistory(msgs[..i])
    {
      assert msgs[..i + 1][..i] == msgs[..i];
      var m := msgs[i];
      if m.content != "" && m.role != "system" {
        wire := wire + [WireMessage(m.role, TextContent(m.content))];
      }
    }
    assert msgs[..|msgs|] == msgs;
  }

  /** The `for` loop of `sendToolResult` that rebuilds the conversation history. */
  method BuildContinuationHistory(msgs: seq<Message>) returns (wire: seq<WireMessage>)
    ensures wire == ContinuationHistory(msgs)
  {
    wire := [];
    for i := 0 to |msgs|
      invariant wire == ContinuationHistory(msgs[..i])
    {
      assert msgs[..i + 1][..i] == msgs[..i];
      var m := msgs[i];
      if m.role == "assistant" && m.content == "" {
        continue;
      }
      if m.content != "" {
        wire := wire + [WireMessage(m.role, TextContent(m.content))];
      }
    }
    assert msgs[..|msgs|] == msgs;
  }

  // ---- the text shown for a user message ----

  const SearchPrefix: string := "Search for statistics about"
  const TellPrefix: string := "Tell me about statistics related to"
  const Acknowledgement: string := "Ok, searching for statistics on "

  /** The rewrite of `sendMessage`: a recognised query with a non-blank topic is acknowledged instead. */
  function DisplayText(userText: string): string
  {
    if SearchPrefix <= userText then
      var topic := Trim(userText[|SearchPrefix|..]);
      if topic != "" then Acknowledgement + topic else userText
    else if TellPrefix <= userText then
      var topic := Trim(userText[|TellPrefix|..]);
      if topic != "" then Acknowledgement + topic else userText
    else userText
  }

  /** The text `sendThemeQuery` sends. */
  function ThemeQuery(theme: string): string
  {
    TellPrefix + " " + theme
  }

  /** A theme query shows as an acknowledgement of the trimmed theme, or verbatim when the theme is blank. */
  lemma ThemeQueryDisplay(theme: string)
    ensures Trim(theme) != "" ==> DisplayText(ThemeQuery(theme)) == Acknowledgement + Trim(theme)
    ensures Trim(theme) == "" ==> DisplayText(ThemeQuery(theme)) == ThemeQuery(theme)
  {
    var q := ThemeQuery(theme);
    assert q[0] == 'T';
    assert !(SearchPrefix <= q) by { assert SearchPrefix[0] == 'S'; }
    assert TellPrefix <= q;
    assert q[|TellPrefix|..] == " " + theme;
    TrimLeadingSpace(theme);
  }

  // ---- citations, path A: items of a search result (sendToolResult) ----

  predicate HasTitleAndLink(o: JsonObject)
  {
    "title" in o && "link" in o
  }

  function CitationOf(o: JsonObject): Citation
    requires HasTitleAndLink(o)
  {
    Citation(AsString(o["title"]), AsString(o["link"]))
  }

  /** What one array entry contributes: `{title, url = link}` when it is an object with both keys. */
  function ItemCitation(item: Json): (one: seq<Citation>)
    ensures |one| <= 1
  {
    var o := AsObject(item);
    if HasTitleAndLink(o) then [CitationOf(o)] else []
  }

  /** Every entry that carries both keys, in array order, without a cap. */
  function ItemCitations(items: seq<Json>): seq<Citation>
    decreases |items|
  {
    if items == [] then []
    else ItemCitations(items[..|items| - 1]) + ItemCitation(items[|items| - 1])
  }

  lemma {:induction false} ItemCitationsAppend(a: seq<Json>, b: seq<Json>)
    ensures ItemCitations(a + b) == ItemCitations(a) + ItemCitations(b)
    decreases |b|
  {
    if b == [] {
      assert a + b == a;
    } else {
      var init := b[..|b| - 1];
      assert (a + b)[..|a + b| - 1] == a + init;
      assert (a + b)[|a + b| - 1] == b[|b| - 1];
      ItemCitationsAppend(a, init);
    }
  }

  /** The counting loop of `sendToolResult`: stop once `cap` citations are collected. */
  function CappedItemCitations(items: seq<Json>, cap: nat): seq<Citation>
    decreases |items|
  {
    if items == [] || cap == 0 then []
    else
      var one := ItemCitation(items[0]);
      one + CappedItemCitations(items[1..], cap - |one|)
  }

  lemma ItemCitationsCons(x: Json, rest: seq<Json>)
    ensures ItemCitations([x] + rest) == ItemCitation(x) + ItemCitations(rest)
  {
    ItemCitationsAppend([x], rest);
    assert [x][..0] == [];
  }

  /** Path A keeps the first `cap` qualifying entries, in order, and nothing else. */
  lemma {:induction false} CappedIsPrefix(items: seq<Json>, cap: nat)
    ensures CappedItemCitations(items, cap) == Take(ItemCitations(items), cap)
    decreases |items|
  {
    if items != [] && cap != 0 {
      var one := ItemCitation(items[0]);
      var rest := ItemCitations(items[1..]);
      ItemCitationsCons(items[0], items[1..]);
      assert [items[0]] + items[1..] == items;
      CappedIsPrefix(items[1..], cap - |one|);
      assert CappedItemCitations(items, cap) == one + Take(rest, cap - |one|);
      assert Take(one + rest, cap) == one + Take(rest, cap - |one|);
    }
  }

  /** With five or more qualifying entries path A yields exactly five. */
  lemma CappedAtFive(items: seq<Json>)
    ensures |CappedItemCitations(items, 5)| <= 5
    ensures |ItemCitations(items)| >= 5 ==> |CappedItemCitations(items, 5)| == 5
    ensures |ItemCitations(items)| < 5 ==> CappedItemCitations(items, 5) == ItemCitations(items)
  {
    CappedIsPrefix(items, 5);
  }

  /** The loop of `sendToolResult` over `items`, with its counter and `break`. */
  method CollectItemCitations(items: seq<Json>) returns (cites: seq<Citation>)
    ensures cites == CappedItemCitations(items, 5)
  {
    cites := [];
    var count := 0;
    var i := 0;
    while i < |items|
      invariant 0 <= i <= |items|
      invariant count == |cites| <= 5
      invariant cites == ItemCitations(items[..i])
    {
      if count >= 5 {
        break;
      }
      assert items[..i + 1][..i] == items[..i];
      var itemObj := AsObject(items[i]);
      if "title" in itemObj && "link" in itemObj {
        cites := cites + [Citation(AsString(itemObj["title"]), AsString(itemObj["link"]))];
        count := count + 1;
      }
      i := i + 1;
    }
    CappedFromPrefix(items, i);
  }

  /** The loop's exit: the citations of a prefix are the capped list once the prefix is all, or yields five. */
  lemma CappedFromPrefix(items: seq<Json>, i: nat)
    requires i <= |items| && |ItemCitations(items[..i])| <= 5
    requires i == |items| || |ItemCitations(items[..i])| == 5
    ensures ItemCitations(items[..i]) == CappedItemCitations(items, 5)
  {
    var pre := ItemCitations(items[..i]);
    assert items[..i] + items[i..] == items;
    ItemCitationsAppend(items[..i], items[i..]);
    CappedIsPrefix(items, 5);
    if i < |items| {
      assert (pre + ItemCitations(items[i..]))[..5] == pre;
    }
  }

  /**
    `result.result.content[0].text`, when the whole path exists (the value read
    as a string); None when some step of it is missing.
  */
  function FirstContentText(result: JsonObject): Option<string>
  {
    if "result" in result && result["result"].JObject? then
      var resultObj := result["result"].fields;
      if "content" in resultObj && resultObj["content"].JArray? then
        var contentArray := resultObj["content"].elems;
        if contentArray != [] && contentArray[0].JObject? then
          var firstContent := contentArray[0].fields;
          if "text" in firstContent then Some(AsString(firstContent["text"])) else None
        else None
      else None
    else None
  }

  /** Only results of tools whose name mentions the search service are mined for path-A citations. */
  predicate IsSearchTool(name: string)
  {
    IsInfix("statista", name) || IsInfix("search-statistics", name)
  }

  /** Path A: the tool-result text parsed as an object with an `items` array. */
  function SearchItemsCitations(c: Codec, text: string): seq<Citation>
  {
    match ParseObject(c, text)
    case None => []
    case Some(o) =>
      if "items" in o && o["items"].JArray? then CappedItemCitations(o["items"].elems, 5) else []
  }

  /** The `tool_result` text: the first content entry's text, or the compact JSON of the whole result. */
  function ToolResultText(c: Codec, result: JsonObject): string
  {
    var t := FirstContentText(result);
    if t.Some? && t.value != "" then t.value else c.compact(result)
  }

  // ---- citations, path B: every content entry of a tool result (onToolResult) ----

  /** A content entry's `text`: an object as is, a string parsed as JSON, anything else empty. */
  function TextObject(c: Codec, text: Json): JsonObject
  {
    if text.JObject? then text.fields
    else if text.JString? then ObjectOrEmpty(c, text.s)
    else map[]
  }

  /** One content entry: its direct `{title, link}` pair, then every qualifying `statistics` entry. */
  function EntryCitations(c: Codec, entry: Json): seq<Citation>
  {
    var itemObj := AsObject(entry);
    if "text" !in itemObj then []
    else
      var textObj := TextObject(c, itemObj["text"]);
      if textObj == map[] then []
      else
        (if HasTitleAndLink(textObj) then [CitationOf(textObj)] else [])
        + (if "statistics" in textObj then ItemCitations(AsArray(textObj["statistics"])) else [])
  }

  function EntryCitationsOf(c: Codec): Json -> seq<Citation>
  {
    (entry: Json) => EntryCitations(c, entry)
  }

  /** Every content entry's citations, entry after entry. */
  function ContentCitations(c: Codec, entries: seq<Json>): seq<Citation>
  {
    FlatMap(EntryCitationsOf(c), entries)
  }

  /** Path B over the whole tool result. */
  function ResultCitations(c: Codec, result: JsonObject): seq<Citation>
  {
    if "result" !in result then []
    else
      var resultObj := AsObject(result["result"]);
      if "content" !in resultObj then []
      else ContentCitations(c, AsArray(resultObj["content"]))
  }

  /** Path B collects entry after entry, in order. */
  lemma ContentCitationsAppend(c: Codec, a: seq<Json>, b: seq<Json>)
    ensures ContentCitations(c, a + b) == ContentCitations(c, a) + ContentCitations(c, b)
  {
    FlatMapAppend(EntryCitationsOf(c), a, b);
  }

  /** The entries of an array that carry both keys, in array order. */
  function QualifyingEntries(items: seq<Json>): (q: seq<JsonObject>)
    ensures forall k :: 0 <= k < |q| ==> HasTitleAndLink(q[k])
    ensures |q| <= |items|
    decreases |items|
  {
    if items == [] then []
    else
      var o := AsObject(items[0]);
      (if HasTitleAndLink(o) then [o] else []) + QualifyingEntries(items[1..])
  }

  /** One citation per entry, in order. */
  function CitationsOf(objs: seq<JsonObject>): seq<Citation>
    requires forall k :: 0 <= k < |objs| ==> HasTitleAndLink(objs[k])
  {
    seq(|objs|, k requires 0 <= k < |objs| => CitationOf(objs[k]))
  }

  /** Without a cap the citations are exactly those of the qualifying entries, one each, in order. */
  lemma {:induction false} ItemCitationsAreQualifying(items: seq<Json>)
    ensures ItemCitations(items) == CitationsOf(QualifyingEntries(items))
    ensures |ItemCitations(items)| == |QualifyingEntries(items)|
    decreases |items|
  {
    if items != [] {
      ItemCitationsCons(items[0], items[1..]);
      assert [items[0]] + items[1..] == items;
      ItemCitationsAreQualifying(items[1..]);
      var o := AsObject(items[0]);
      var rest := QualifyingEntries(items[1..]);
      if HasTitleAndLink(o) {
        assert QualifyingEntries(items) == [o] + rest;
        assert CitationsOf([o] + rest) == [CitationOf(o)] + CitationsOf(rest);
      } else {
        assert QualifyingEntries(items) == rest;
      }
    }
  }

  /**
    Path B has no cap: a content entry whose text object has a `statistics`
    array yields its direct pair, then one citation for every qualifying
    entry of that array, in order, however many there are.
  */
  lemma StatisticsUncapped(c: Codec, entry: Json, textObj: JsonObject)
    requires entry.JObject? && "text" in entry.fields && TextObject(c, entry.fields["text"]) == textObj
    requires "statistics" in textObj
    ensures var stats := AsArray(textObj["statistics"]);
      EntryCitations(c, entry)
        == (if HasTitleAndLink(textObj) then [CitationOf(textObj)] else []) + CitationsOf(QualifyingEntries(stats))
      && |EntryCitations(c, entry)| == (if HasTitleAndLink(textObj) then 1 else 0) + |QualifyingEntries(stats)|
  {
    assert textObj != map[] by { assert "statistics" in textObj; }
    ItemCitationsAreQualifying(AsArray(textObj["statistics"]));
  }

  /** The nested loops of `onToolResult` that collect path-B citations. */
  method CollectResultCitations(c: Codec, result: JsonObject) returns (citations: seq<Citation>)
    ensures citations == ResultCitations(c, result)
  {
    citations := [];
    if "result" in result {
      var resultObj := AsObject(result["result"]);
      if "content" in resultObj {
        var contentArr := AsArray(resultObj["content"]);
        for i := 0 to |contentArr|
          invariant citations == ContentCitations(c, contentArr[..i])
        {
          assert contentArr[..i + 1][..i] == contentArr[..i];
          var found := CollectEntryCitations(c, contentArr[i]);
          citations := citations + found;
        }
        assert contentArr[..|contentArr|] == contentArr;
      }
    }
  }

  /** The body of the outer loop of `onToolResult`: one content entry. */
  method CollectEntryCitations(c: Codec, entry: Json) returns (found: seq<Citation>)
    ensures found == EntryCitations(c, entry)
  {
    found := [];
    var itemObj := AsObject(entry);
    if "text" in itemObj {
      var textObj: JsonObject := map[];
      if itemObj["text"].JObject? {
        textObj := itemObj["text"].fields;
      } else if itemObj["text"].JString? {
        var parsed := ParseObject(c, itemObj["text"].s);
        if parsed.Some? {
          textObj := parsed.value;
        }
      }
      if textObj != map[] {
        if "title" in textObj && "link" in textObj {
          found := found + [Citation(AsString(textObj["title"]), AsString(textObj["link"]))];
        }
        if "statistics" in textObj {
          var statsArr := AsArray(textObj["statistics"]);
          ghost var direct := found;
          for j := 0 to |statsArr|
            invariant found == direct + ItemCitations(statsArr[..j])
          {
            assert statsArr[..j + 1][..j] == statsArr[..j];
            var statObj := AsObject(statsArr[j]);
            if "title" in statObj && "link" in statObj {
              found := found + [Citation(AsString(statObj["title"]), AsString(statObj["link"]))];
            }
          }
          assert statsArr[..|statsArr|] == statsArr;
        }
      }
    }
  }
}
