/**
  The state of `Analyzer` as a value, and its session handshake, setters,
  search and tool calls as transitions on that value.  A JSON-RPC request is
  recorded with the headers it carries and with the callback its reply will
  run; the reply arrives later as an input to `OnReply`.  The class
  `AnalyzerImpl.Analyzer` performs the same steps on its fields.
*/
module AnalyzerSpec {
  import opened JsonModel
  import opened Strings
  import opened RpcReply

  /** The JSON-RPC call a request carries; the constant parts of the payload are not modelled. */
  datatype Call =
    | Initialize
    | SearchStatistics(question: string, limit: int)
    | ToolsCall(name: string, arguments: JsonObject, id: int)

  /** The callback `postJsonRpc` runs on a reply that frames as an object. */
  datatype Continuation =
    | OnInitialize
    | OnSearch
    | OnTool(requestId: string)

  /** A request posted to the endpoint: the optional `x-api-key` and `mcp-session-id` headers, the call, the callback. */
  datatype RpcRequest = RpcRequest(
    endpoint: string,
    apiKeyHeader: Option<string>,
    sessionHeader: Option<string>,
    call: Call,
    k: Continuation)

  /** A finished reply: the `mcp-session-id` header if present, the network error if any, the body. */
  datatype Reply = Reply(sessionHeader: Option<string>, networkError: Option<string>, body: string)

  datatype Signal =
    | EndpointChanged
    | ApiKeyChanged
    | AnthropicApiKeyChanged
    | Error(msg: string)
    | ToolResult(requestId: string, result: JsonObject)
    | ResultsReady(items: seq<SearchItem>)

  datatype Analyzer = Analyzer(
    endpoint: string,
    apiKey: string,
    anthropicApiKey: string,
    sessionId: string,
    initialized: bool,
    requests: seq<RpcRequest>,
    signals: seq<Signal>)

  function Initial(): Analyzer
  {
    Analyzer("", "", "", "", false, [], [])
  }

  const EndpointMissing: string := "Endpoint not configured"
  const BadResponse: string := "Bad response"
  const NoSessionResult: JsonObject := map["error" := JString("Session not initialized")]
  const SearchLimit: int := 12

  function Emit(st: Analyzer, s: Signal): Analyzer
  {
    st.(signals := st.signals + [s])
  }

  /** An optional header: present exactly when its value is non-empty. */
  function HeaderOf(value: string): Option<string>
  {
    if value == "" then None else Some(value)
  }

  /** `postJsonRpc`, up to the post: the request with the headers the current state calls for. */
  function Post(st: Analyzer, call: Call, k: Continuation): Analyzer
  {
    st.(requests := st.requests + [RpcRequest(st.endpoint, HeaderOf(st.apiKey), HeaderOf(st.sessionId), call, k)])
  }

  function InitializeSession(st: Analyzer): Analyzer
  {
    if st.initialized then st
    else if st.endpoint == "" then Emit(st, Error(EndpointMissing))
    else Post(st, Initialize, OnInitialize)
  }

  /** Both setters try the handshake once endpoint and key are both set. */
  function MaybeInitialize(st: Analyzer): Analyzer
  {
    if st.endpoint != "" && st.apiKey != "" then InitializeSession(st) else st
  }

  function SetEndpoint(st: Analyzer, e: string): Analyzer
  {
    if st.endpoint == e then st
    else MaybeInitialize(Emit(st.(endpoint := e), EndpointChanged))
  }

  function SetApiKey(st: Analyzer, k: string): Analyzer
  {
    if st.apiKey == k then st
    else MaybeInitialize(Emit(st.(apiKey := k), ApiKeyChanged))
  }

  function SetAnthropicApiKey(st: Analyzer, k: string): Analyzer
  {
    if st.anthropicApiKey == k then st
    else Emit(st.(anthropicApiKey := k), AnthropicApiKeyChanged)
  }

  function SearchStatista(st: Analyzer, themes: seq<string>): Analyzer
  {
    if st.endpoint == "" then Emit(st, Error(EndpointMissing))
    else Post(st, SearchStatistics(Join(themes, " "), SearchLimit), OnSearch)
  }

  function SearchTheme(st: Analyzer, theme: string): Analyzer
  {
    SearchStatista(st, [theme])
  }

  /** `executeMCPTool`; `now` is the clock reading the source uses as the JSON-RPC id. */
  function ExecuteMcpTool(st: Analyzer, name: string, params: JsonObject, requestId: string, now: int): Analyzer
  {
    if st.sessionId == "" then Emit(st, ToolResult(requestId, NoSessionResult))
    else Post(st, ToolsCall(name, params, now), OnTool(requestId))
  }

  /** What each callback does with the object it is handed. */
  function Continue(st: Analyzer, k: Continuation, obj: JsonObject): Analyzer
  {
    match k
    case OnInitialize => if "result" in obj then st.(initialized := true) else st
    case OnSearch => Emit(st, ResultsReady(SearchResults(obj)))
    case OnTool(requestId) => Emit(st, ToolResult(requestId, obj))
  }

  /** The session header is taken first, whatever else the reply holds. */
  function CaptureSession(st: Analyzer, reply: Reply): Analyzer
  {
    match reply.sessionHeader
    case Some(id) => st.(sessionId := id)
    case None => st
  }

  /** The `finished` handler of `postJsonRpc` for a request whose callback is `k`. */
  function OnReply(c: Codec, st: Analyzer, k: Continuation, reply: Reply): Analyzer
  {
    var st1 := CaptureSession(st, reply);
    match reply.networkError
    case Some(err) => Emit(st1, Error("Network: " + err))
    case None =>
      match ReplyObject(c, reply.body)
      case None => Emit(st1, Error(BadResponse))
      case Some(obj) => Continue(st1, k, obj)
  }

  // ---- properties ----

  /** The handshake does nothing once the session is initialized. */
  lemma InitializeIdempotent(st: Analyzer)
    requires st.initialized
    ensures InitializeSession(st) == st
  {
  }

  /**
    Before the session is initialized the handshake either reports the missing
    endpoint and sends nothing, or sends one `initialize` request; it never
    marks the session initialized by itself.
  */
  lemma InitializeOutcome(st: Analyzer)
    requires !st.initialized
    ensures var r := InitializeSession(st);
      !r.initialized
      && (st.endpoint == "" ==> r == st.(signals := st.signals + [Error(EndpointMissing)]))
      && (st.endpoint != "" ==>
            (r.signals == st.signals
             && r.requests == st.requests + [RpcRequest(st.endpoint, HeaderOf(st.apiKey), HeaderOf(st.sessionId), Initialize, OnInitialize)]))
  {
  }

  /** Until its reply comes back, every call of the handshake sends another `initialize`. */
  lemma HandshakeRepeatsUntilReply(st: Analyzer)
    requires !st.initialized && st.endpoint != ""
    ensures |InitializeSession(InitializeSession(st)).requests| == |st.requests| + 2
  {
  }

  /**
    The reply to the handshake marks the session initialized exactly when it
    frames as an object holding "result"; no other reply changes the flag.
  */
  lemma InitializedIffResult(c: Codec, st: Analyzer, k: Continuation, reply: Reply)
    ensures OnReply(c, st, k, reply).initialized
      <==> (st.initialized
            || (k == OnInitialize && reply.networkError.None?
                && ReplyObject(c, reply.body).Some? && "result" in ReplyObject(c, reply.body).value))
  {
  }

  /** A reply carrying a session header sets the session id, even a failed one. */
  lemma SessionCapturedOnAnyReply(c: Codec, st: Analyzer, k: Continuation, reply: Reply)
    ensures reply.sessionHeader.Some? ==> OnReply(c, st, k, reply).sessionId == reply.sessionHeader.value
    ensures reply.sessionHeader.None? ==> OnReply(c, st, k, reply).sessionId == st.sessionId
  {
  }

  /** A network error only adds the error signal: no callback runs, no tool result is emitted. */
  lemma NetworkErrorOnlyErrors(c: Codec, st: Analyzer, k: Continuation, reply: Reply)
    requires reply.networkError.Some?
    ensures OnReply(c, st, k, reply)
      == CaptureSession(st, reply).(signals := st.signals + [Error("Network: " + reply.networkError.value)])
  {
  }

  /** A body that frames as no object only adds "Bad response". */
  lemma BadBodyOnlyErrors(c: Codec, st: Analyzer, k: Continuation, reply: Reply)
    requires reply.networkError.None? && ReplyObject(c, reply.body).None?
    ensures OnReply(c, st, k, reply) == CaptureSession(st, reply).(signals := st.signals + [Error(BadResponse)])
  {
  }

  /** A reply never sends a request. */
  lemma ReplySendsNothing(c: Codec, st: Analyzer, k: Continuation, reply: Reply)
    ensures OnReply(c, st, k, reply).requests == st.requests
  {
  }

  /**
    A tool call's reply is emitted under the caller's request id exactly when
    it frames as an object; otherwise no tool result is emitted at all.
  */
  lemma ToolResultKeyed(c: Codec, st: Analyzer, requestId: string, reply: Reply)
    ensures var r := OnReply(c, st, OnTool(requestId), reply);
      |r.signals| == |st.signals| + 1
      && (r.signals[|st.signals|].ToolResult?
        <==> reply.networkError.None? && ReplyObject(c, reply.body).Some?)
      && (r.signals[|st.signals|].ToolResult? ==>
        r.signals[|st.signals|] == ToolResult(requestId, ReplyObject(c, reply.body).value))
  {
  }

  /** Without a session id a tool call answers at once with an error object and sends nothing. */
  lemma NoSessionNoRequest(st: Analyzer, name: string, params: JsonObject, requestId: string, now: int)
    requires st.sessionId == ""
    ensures ExecuteMcpTool(st, name, params, requestId, now).requests == st.requests
    ensures ExecuteMcpTool(st, name, params, requestId, now).signals
      == st.signals + [ToolResult(requestId, map["error" := JString("Session not initialized")])]
  {
  }

  /** With a session id the tool call is sent with it, and its reply will be keyed by the request id. */
  lemma SessionToolCallSent(st: Analyzer, name: string, params: JsonObject, requestId: string, now: int)
    requires st.sessionId != ""
    ensures var r := ExecuteMcpTool(st, name, params, requestId, now);
      r.signals == st.signals
      && r.requests == st.requests
        + [RpcRequest(st.endpoint, HeaderOf(st.apiKey), Some(st.sessionId), ToolsCall(name, params, now), OnTool(requestId))]
  {
  }

  /** Every request carries `x-api-key` exactly when the key is set, and `mcp-session-id` exactly when a session id is. */
  lemma HeadersFollowState(st: Analyzer, call: Call, k: Continuation)
    ensures var req := Post(st, call, k).requests[|st.requests|];
      (req.apiKeyHeader.Some? <==> st.apiKey != "")
      && (req.apiKeyHeader.Some? ==> req.apiKeyHeader.value == st.apiKey)
      && (req.sessionHeader.Some? <==> st.sessionId != "")
      && (req.sessionHeader.Some? ==> req.sessionHeader.value == st.sessionId)
  {
  }

  /** Setting a value that is already set does nothing. */
  lemma SettersIgnoreSameValue(st: Analyzer)
    ensures SetEndpoint(st, st.endpoint) == st
    ensures SetApiKey(st, st.apiKey) == st
    ensures SetAnthropicApiKey(st, st.anthropicApiKey) == st
  {
  }

  /**
    A new endpoint is taken and announced; then the handshake is tried when
    the endpoint and the key are both non-empty, and nothing else happens.
  */
  lemma SetEndpointOutcome(st: Analyzer, e: string)
    requires st.endpoint != e
    ensures var mid := st.(endpoint := e, signals := st.signals + [EndpointChanged]);
      SetEndpoint(st, e) == (if e != "" && st.apiKey != "" then InitializeSession(mid) else mid)
  {
  }

  lemma SetApiKeyOutcome(st: Analyzer, k: string)
    requires st.apiKey != k
    ensures var mid := st.(apiKey := k, signals := st.signals + [ApiKeyChanged]);
      SetApiKey(st, k) == (if st.endpoint != "" && k != "" then InitializeSession(mid) else mid)
  {
  }

  /**
    A search sends one `search-statistics` call asking for the themes joined
    by spaces, limit 12, or reports the missing endpoint and sends nothing.
  */
  lemma SearchRequestShape(st: Analyzer, themes: seq<string>)
    ensures var r := SearchStatista(st, themes);
      (st.endpoint == "" ==> r == Emit(st, Error(EndpointMissing)))
      && (st.endpoint != "" ==>
            (r.signals == st.signals && |r.requests| == |st.requests| + 1
             && r.requests[|st.requests|].call == SearchStatistics(Join(themes, " "), 12)
             && r.requests[|st.requests|].k == OnSearch))
  {
  }

  /** Searching one theme asks exactly that theme. */
  lemma SearchThemeAsksTheme(st: Analyzer, theme: string)
    requires st.endpoint != ""
    ensures SearchTheme(st, theme).requests[|st.requests|].call == SearchStatistics(theme, 12)
  {
  }

  /** A search reply that frames as an object emits the normalised items of that object. */
  lemma SearchReplyEmitsItems(c: Codec, st: Analyzer, reply: Reply)
    requires reply.networkError.None? && ReplyObject(c, reply.body).Some?
    ensures OnReply(c, st, OnSearch, reply).signals
      == st.signals + [ResultsReady(SearchResults(ReplyObject(c, reply.body).value))]
  {
  }
}
