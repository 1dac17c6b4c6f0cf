/**
  `Analyzer` as an object whose handlers update its fields in place.  Each
  handler is proved to perform the transition of the same name in
  `AnalyzerSpec` on the abstract state `State()`.

  A reply is not an object here: the end of a JSON-RPC reply is a call of
  `OnReply` with the callback the request was posted with.
*/
module AnalyzerImpl {
  import opened JsonModel
  import opened Strings
  import opened RpcReply
  import S = AnalyzerSpec

  class Analyzer {
    const codec: Codec
    var endpoint: string
    var apiKey: string
    var anthropicApiKey: string
    var sessionId: string
    var sessionInitialized: bool
    var requests: seq<S.RpcRequest>
    var signals: seq<S.Signal>

    function State(): S.Analyzer
      reads this
    {
      S.Analyzer(endpoint, apiKey, anthropicApiKey, sessionId, sessionInitialized, requests, signals)
    }

    constructor (codec: Codec)
      ensures this.codec == codec && State() == S.Initial()
    {
      this.codec := codec;
      endpoint, apiKey, anthropicApiKey, sessionId := "", "", "", "";
      sessionInitialized := false;
      requests, signals := [], [];
    }

    /** The request part of `postJsonRpc`: the headers are attached only when their values are set. */
    method Post(call: S.Call, k: S.Continuation)
      modifies this
      ensures State() == S.Post(old(State()), call, k)
    {
      var apiKeyHeader: Option<string> := None;
      if apiKey != "" {
        apiKeyHeader := Some(apiKey);
      }
      var sessionHeader: Option<string> := None;
      if sessionId != "" {
        sessionHeader := Some(sessionId);
      }
      requests := requests + [S.RpcRequest(endpoint, apiKeyHeader, sessionHeader, call, k)];
    }

    method InitializeSession()
      modifies this
      ensures State() == S.InitializeSession(old(State()))
    {
      if sessionInitialized {
        return;
      }
      if endpoint == "" {
        signals := signals + [S.Error(S.EndpointMissing)];
        return;
      }
      Post(S.Initialize, S.OnInitialize);
    }

    method SetEndpoint(e: string)
      modifies this
      ensures State() == S.SetEndpoint(old(State()), e)
    {
      if endpoint == e {
        return;
      }
      endpoint := e;
      signals := signals + [S.EndpointChanged];
      if endpoint != "" && apiKey != "" {
        InitializeSession();
      }
    }

    method SetApiKey(k: string)
      modifies this
      ensures State() == S.SetApiKey(old(State()), k)
    {
      if apiKey == k {
        return;
      }
      apiKey := k;
      signals := signals + [S.ApiKeyChanged];
      if endpoint != "" && apiKey != "" {
        InitializeSession();
      }
    }

    method SetAnthropicApiKey(k: string)
      modifies this
      ensures State() == S.SetAnthropicApiKey(old(State()), k)
    {
      if anthropicApiKey == k {
        return;
      }
      anthropicApiKey := k;
      signals := signals + [S.AnthropicApiKeyChanged];
    }

    method SearchStatista(themes: seq<string>)
      modifies this
      ensures State() == S.SearchStatista(old(State()), themes)
    {
      if endpoint == "" {
        signals := signals + [S.Error(S.EndpointMissing)];
        return;
      }
      Post(S.SearchStatistics(Join(themes, " "), 12), S.OnSearch);
    }

    method SearchTheme(theme: string)
      modifies this
      ensures State() == S.SearchTheme(old(State()), theme)
    {
      SearchStatista([theme]);
    }

    /** `executeMCPTool`; `now` stands for `QDateTime::currentMSecsSinceEpoch()`. */
    method ExecuteMcpTool(toolName: string, params: JsonObject, requestId: string, now: int)
      modifies this
      ensures State() == S.ExecuteMcpTool(old(State()), toolName, params, requestId, now)
    {
      if sessionId == "" {
        signals := signals + [S.ToolResult(requestId, map["error" := JString("Session not initialized")])];
        return;
      }
      Post(S.ToolsCall(toolName, params, now), S.OnTool(requestId));
    }

    /** The `finished` handler of `postJsonRpc`, then the callback `k` on the framed object. */
    method OnReply(k: S.Continuation, reply: S.Reply)
      modifies this
      ensures State() == S.OnReply(codec, old(State()), k, reply)
    {
      if reply.sessionHeader.Some? {
        sessionId := reply.sessionHeader.value;
      }
      if reply.networkError.Some? {
        signals := signals + [S.Error("Network: " + reply.networkError.value)];
        return;
      }
      var obj := DecodeReply(codec, reply.body);
      if obj.None? {
        signals := signals + [S.Error(S.BadResponse)];
        return;
      }
      match k {
        case OnInitialize =>
          if "result" in obj.value {
            sessionInitialized := true;
          }
        case OnSearch =>
          var items := NormalizeSearchReply(obj.value);
          signals := signals + [S.ResultsReady(items)];
        case OnTool(requestId) =>
          signals := signals + [S.ToolResult(requestId, obj.value)];
      }
    }
  }
}
