/**
  What `Analyzer::postJsonRpc` makes of a reply body, and what the callback of
  `Analyzer::searchStatista` makes of the object it is handed.

  A body is read as Server-Sent Events when it starts with "event:" or has a
  line starting so; then the first `data: ` line that parses as a JSON object
  is taken, provided that object is not empty.  Otherwise the whole body must
  parse as one JSON object.
*/
module RpcReply {
  import opened JsonModel
  import opened Strings

  /** `responseData.startsWith("event:") || responseData.contains("\nevent:")`. */
  predicate IsSseBody(body: string)
  {
    "event:" <= body || IsInfix("\nevent:", body)
  }

  /** The object a line carries when it starts with "data: " and the rest parses as an object. */
  function DataObject(c: Codec, line: string): Option<JsonObject>
  {
    if "data: " <= line then ParseObject(c, line[6..]) else None
  }

  /** The object of the first line that carries one; the scan stops there. */
  function FirstDataObject(c: Codec, lines: seq<string>): Option<JsonObject>
    decreases |lines|
  {
    if lines == [] then None
    else if DataObject(c, lines[0]).Some? then DataObject(c, lines[0])
    else FirstDataObject(c, lines[1..])
  }

  /**
    The scan finds an object exactly when some line carries one, and then it
    is the object of the earliest such line.
  */
  lemma {:induction false} FirstDataObjectIsFirst(c: Codec, lines: seq<string>)
    ensures FirstDataObject(c, lines).None? <==> forall k :: 0 <= k < |lines| ==> DataObject(c, lines[k]).None?
    ensures FirstDataObject(c, lines).Some? ==>
      exists k :: 0 <= k < |lines| && FirstDataObject(c, lines) == DataObject(c, lines[k])
        && forall j :: 0 <= j < k ==> DataObject(c, lines[j]).None?
    decreases |lines|
  {
    if lines != [] && DataObject(c, lines[0]).None? {
      FirstDataObjectIsFirst(c, lines[1..]);
      assert forall k :: 1 <= k < |lines| ==> lines[k] == lines[1..][k - 1];
      if FirstDataObject(c, lines[1..]).Some? {
        var k :| 0 <= k < |lines[1..]| && FirstDataObject(c, lines[1..]) == DataObject(c, lines[1..][k])
          && forall j :: 0 <= j < k ==> DataObject(c, lines[1..][j]).None?;
        assert FirstDataObject(c, lines) == DataObject(c, lines[k + 1]);
        forall j | 0 <= j < k + 1
          ensures DataObject(c, lines[j]).None?
        {
          if j > 0 {
            assert lines[j] == lines[1..][j - 1];
          }
        }
      }
    } else if lines != [] {
      assert FirstDataObject(c, lines) == DataObject(c, lines[0]);
    }
  }

  /** The scan of the lines in `postJsonRpc`, which breaks at the first object found. */
  method ScanSseLines(c: Codec, lines: seq<string>) returns (result: JsonObject)
    ensures result == match FirstDataObject(c, lines) case Some(o) => o case None => map[]
  {
    result := map[];
    var i := 0;
    while i < |lines|
      invariant 0 <= i <= |lines|
      invariant FirstDataObject(c, lines) == FirstDataObject(c, lines[i..])
      invariant result == map[]
    {
      var line := lines[i];
      assert lines[i..][1..] == lines[i + 1..];
      if "data: " <= line {
        var doc := c.parse(line[6..]);
        if doc.Some? && doc.value.JObject? {
          result := doc.value.fields;
          break;
        }
      }
      i := i + 1;
    }
  }

  /** The object found in an SSE body, `{}` when none is. */
  function SseObject(c: Codec, body: string): JsonObject
  {
    match FirstDataObject(c, SplitOn(body, '\n'))
    case Some(o) => o
    case None => map[]
  }

  /**
    The object `postJsonRpc` hands to its callback, or None when it reports
    "Bad response".
  */
  function ReplyObject(c: Codec, body: string): Option<JsonObject>
  {
    if IsSseBody(body) && SseObject(c, body) != map[] then Some(SseObject(c, body))
    else ParseObject(c, body)
  }

  /** The body handling of the `finished` handler in `postJsonRpc`. */
  method DecodeReply(c: Codec, body: string) returns (r: Option<JsonObject>)
    ensures r == ReplyObject(c, body)
  {
    if "event:" <= body || IsInfix("\nevent:", body) {
      var result := ScanSseLines(c, SplitOn(body, '\n'));
      if result != map[] {
        return Some(result);
      }
    }
    var doc := c.parse(body);
    if doc.Some? && doc.value.JObject? {
      r := Some(doc.value.fields);
    } else {
      r := None;
    }
  }

  /** A body that is no event stream stands or falls with its parse as an object. */
  lemma PlainReply(c: Codec, body: string)
    requires !IsSseBody(body)
    ensures ReplyObject(c, body).Some? <==> c.parse(body).Some? && c.parse(body).value.JObject?
    ensures ReplyObject(c, body).Some? ==> c.parse(body) == Some(JObject(ReplyObject(c, body).value))
  {
  }

  /**
    In an event stream the first line carrying a non-empty object decides,
    whatever the lines after it hold.
  */
  lemma {:induction false} FirstNonEmptyDataWins(c: Codec, body: string, k: nat)
    requires IsSseBody(body)
    requires k < |SplitOn(body, '\n')|
    requires forall j :: 0 <= j < k ==> DataObject(c, SplitOn(body, '\n')[j]).None?
    requires DataObject(c, SplitOn(body, '\n')[k]).Some?
    requires DataObject(c, SplitOn(body, '\n')[k]).value != map[]
    ensures ReplyObject(c, body) == DataObject(c, SplitOn(body, '\n')[k])
  {
    FirstOfPrefix(c, SplitOn(body, '\n'), k);
  }

  /**
    An empty first object still ends the scan: the later lines are not
    looked at and the whole body is parsed instead.
  */
  lemma {:induction false} EmptyFirstObjectFallsBack(c: Codec, body: string, k: nat)
    requires IsSseBody(body)
    requires k < |SplitOn(body, '\n')|
    requires forall j :: 0 <= j < k ==> DataObject(c, SplitOn(body, '\n')[j]).None?
    requires DataObject(c, SplitOn(body, '\n')[k]) == Some(map[])
    ensures ReplyObject(c, body) == ParseObject(c, body)
  {
    FirstOfPrefix(c, SplitOn(body, '\n'), k);
  }

  lemma {:induction false} FirstOfPrefix(c: Codec, lines: seq<string>, k: nat)
    requires k < |lines|
    requires forall j :: 0 <= j < k ==> DataObject(c, lines[j]).None?
    requires DataObject(c, lines[k]).Some?
    ensures FirstDataObject(c, lines) == DataObject(c, lines[k])
    decreases k
  {
    if k > 0 {
      assert forall j :: 0 <= j < k - 1 ==> lines[1..][j] == lines[j + 1];
      FirstOfPrefix(c, lines[1..], k - 1);
    }
  }

  // ---- search results ----

  /** One entry of `resultsReady`: the four fields the callback copies. */
  datatype SearchItem = SearchItem(title: string, url: string, id: Json, summary: string)

  /**
    The array of entries in the reply of `search-statistics`, in the order
    of preference of the callback: `result.content[0].data`, then
    `result.content[0].results`, then `result` itself when it is an array,
    then `result.items`; none of these gives nothing.
  */
  function ResultArray(obj: JsonObject): seq<Json>
  {
    if "result" !in obj then []
    else
      var result := AsObject(obj["result"]);
      if "content" in result then
        var content := AsArray(result["content"]);
        if content != [] && content[0].JObject? then
          var data := content[0].fields;
          if "data" in data && data["data"].JArray? then data["data"].elems
          else if "results" in data && data["results"].JArray? then data["results"].elems
          else []
        else []
      else if obj["result"].JArray? then obj["result"].elems
      else if "items" in result then AsArray(result["items"])
      else []
  }

  /** The entry built from one object: absent or non-string fields read as "". */
  function ItemOf(o: JsonObject): SearchItem
  {
    SearchItem(AsString(Field(o, "title")), AsString(Field(o, "url")), Field(o, "id"), AsString(Field(o, "summary")))
  }

  /** One element of the array: an entry when it is an object, nothing otherwise. */
  function ElementItems(v: Json): seq<SearchItem>
  {
    if v.JObject? then [ItemOf(v.fields)] else []
  }

  function NormalizeItems(arr: seq<Json>): seq<SearchItem>
  {
    FlatMap(ElementItems, arr)
  }

  /** The list `searchStatista` emits with `resultsReady` for the object it got. */
  function SearchResults(obj: JsonObject): seq<SearchItem>
  {
    NormalizeItems(ResultArray(obj))
  }

  /** The loop `for (auto v : arr) if (v.isObject())` of the search callback. */
  method NormalizeSearchReply(obj: JsonObject) returns (items: seq<SearchItem>)
    ensures items == SearchResults(obj)
  {
    var arr := ResultArray(obj);
    items := [];
    for i := 0 to |arr|
      invariant items == NormalizeItems(arr[..i])
    {
      var v := arr[i];
      assert arr[..i + 1] == arr[..i] + [v];
      FlatMapAppend(ElementItems, arr[..i], [v]);
      assert [v][..0] == [];
      if v.JObject? {
        var o := v.fields;
        items := items + [SearchItem(AsString(Field(o, "title")), AsString(Field(o, "url")), Field(o, "id"), AsString(Field(o, "summary")))];
      }
    }
    assert arr[..|arr|] == arr;
  }

  /** How many elements of the array are objects. */
  function ObjectCount(arr: seq<Json>): nat
    decreases |arr|
  {
    if arr == [] then 0 else ObjectCount(arr[..|arr| - 1]) + (if arr[|arr| - 1].JObject? then 1 else 0)
  }

  /** One entry per object element, in order; every other element is dropped. */
  lemma {:induction false} NormalizeKeepsObjects(arr: seq<Json>)
    ensures |NormalizeItems(arr)| == ObjectCount(arr)
    ensures (forall k :: 0 <= k < |arr| ==> arr[k].JObject?) ==>
      |NormalizeItems(arr)| == |arr| && forall k :: 0 <= k < |arr| ==> NormalizeItems(arr)[k] == ItemOf(arr[k].fields)
    decreases |arr|
  {
    if arr != [] {
      var init := arr[..|arr| - 1];
      NormalizeKeepsObjects(init);
      assert NormalizeItems(arr) == NormalizeItems(init) + ElementItems(arr[|arr| - 1]);
      if forall k :: 0 <= k < |arr| ==> arr[k].JObject? {
        assert forall k :: 0 <= k < |init| ==> init[k] == arr[k];
      }
    }
  }

  /** A non-object element has no entry, wherever it stands. */
  lemma NonObjectSkipped(before: seq<Json>, v: Json, after: seq<Json>)
    requires !v.JObject?
    ensures NormalizeItems(before + [v] + after) == NormalizeItems(before) + NormalizeItems(after)
  {
    FlatMapAppend(ElementItems, before + [v], after);
    FlatMapAppend(ElementItems, before, [v]);
    assert [v][..0] == [];
  }

  /** The `data` array of the first content block is preferred to its `results` array. */
  lemma ContentDataPreferred(obj: JsonObject, data: JsonObject, rest: seq<Json>)
    requires "result" in obj && obj["result"].JObject?
    requires "content" in obj["result"].fields
    requires AsArray(obj["result"].fields["content"]) == [JObject(data)] + rest
    requires "data" in data && data["data"].JArray?
    ensures ResultArray(obj) == data["data"].elems
  {
  }

  /** A reply without `result`, such as a JSON-RPC error, gives an empty list. */
  lemma NoResultNoItems(obj: JsonObject)
    requires "result" !in obj
    ensures SearchResults(obj) == []
  {
  }

  /** A bare `result` array is taken as it is. */
  lemma ResultArrayTaken(obj: JsonObject)
    requires "result" in obj && obj["result"].JArray?
    ensures ResultArray(obj) == obj["result"].elems
  {
  }
}
