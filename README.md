# A verified model of the ChatBridge / Analyzer core

The application is a Qt desktop assistant. The user chats with a language model. The model answers in a server-sent event stream and may call tools of a statistics search service. The tools are reached over JSON-RPC through a session-based endpoint.

This project models the two stateful components of that program and proves properties of them.

- **`ChatBridge`** (`src/chatbridge.cpp`) is the streaming conversation orchestrator. It owns:
  - the message store;
  - a byte buffer that it cuts into event blocks;
  - a per-event state machine that grows the assistant's answer and collects tool calls;
  - the bookkeeping that correlates a tool call with its result and sends the continuation request;
  - two citation extractors;
  - a follow-up queue.
- **`Analyzer`** (`src/analyzer.cpp`) is the RPC session client. It owns:
  - the session handshake, the session id captured from replies, and the headers it attaches;
  - the framing of a reply body (an event stream or a plain JSON object);
  - result keying of tool calls;
  - normalisation of the search reply;
  - two theme extractors: a keyword ranker, and the parser of the language model's comma-separated reply.

## Modules

| file | module | contents |
|---|---|---|
| json.dfy | `JsonModel` | JSON values as a datatype. The parser and the compact serialiser are a `Codec` pair of function values, left uninterpreted. |
| strings.dfy | `Strings` | The `QString`/`QByteArray` operations used by the core: `contains`, `split`, `join`, `trimmed`, ASCII `toLower`, and the generic `FlatMap`. |
| sse.dfy | `SseFraming` | Cutting a buffer into blocks at blank lines, and a block's `data:` payload. |
| conversation.dfy | `Conversation` | Messages, the two outbound-history filters, the display-text rewrite, and both citation extractors with their loops. |
| bridge.dfy | `BridgeSpec` | The whole `ChatBridge` state as a value. Every handler is a transition; the lemmas relate sequences of transitions. |
| chatbridge.dfy | `ChatBridgeImpl` | `class ChatBridge` with the fields of the header. Each method updates them in place and is proved to perform the `BridgeSpec` transition on `State()`. The framing loop keeps the invariant `Valid()`: the buffer holds no complete block. |
| themes.dfy | `Themes` | `extractThemesNaive` as loop methods proved against the ranking predicate `RankedThemes`, and the reply-text parser proved against `ParsedThemes`. |
| rpc.dfy | `RpcReply` | What `postJsonRpc` makes of a reply body, and the result-shape normalisation of `searchStatista`. |
| analyzer_spec.dfy | `AnalyzerSpec` | The `Analyzer` state as a value, its handlers as transitions, and the handshake, session and result lemmas. |
| analyzer.dfy | `AnalyzerImpl` | `class Analyzer` with the header's fields; each method performs the corresponding `AnalyzerSpec` transition. |

### How the outside world appears

- Everything the program sends or emits goes into append-only logs:
  - posted requests (`requests`);
  - tool calls handed to the analyzer (`dispatched`);
  - emitted signals (`signals`).
- A network chunk, the end of a reply and a tool result are method inputs:
  - `OnReadyRead(chunk)` and `OnTurnFinished(...)` on `ChatBridge`;
  - `OnReply(k, reply)` on `Analyzer`. Here `k` stands for the callback lambda `postJsonRpc` was given.
- The clock read for a JSON-RPC id is the parameter `now`.

## Model

| member | source | states |
|---|---|---|
| ChatBridgeImpl.ChatBridge.ProcessClaudeStream | src/chatbridge.cpp:278-404 | The loop removes complete blocks from the buffer one by one. Its effect is exactly `Drain` of the old state and old buffer. Afterwards the buffer holds no blank line. |
| ChatBridgeImpl.ChatBridge.OnReadyRead | src/chatbridge.cpp:236-241 | Appending a chunk and running the loop is `Feed` of the old state, the buffer and the chunk. The no-complete-block invariant is kept. |
| ChatBridgeImpl.ChatBridge.OnTurnFinished | src/chatbridge.cpp:243-275 | A failed reply appends the API's error message to the answer and signals "API error". A successful reply changes nothing, because the buffer is already drained. |
| ChatBridgeImpl.ChatBridge.OnContinuationFinished | src/chatbridge.cpp:893-900 | The end of a continuation reply changes neither the state nor the buffer. |
| ChatBridgeImpl.ChatBridge.HandleEvent | src/chatbridge.cpp:314-399 | Dispatch on the event `type` performs `ApplyEvent`. |
| ChatBridgeImpl.ChatBridge.HandleDelta | src/chatbridge.cpp:331-341 | A text delta grows the last assistant message. An input_json_delta grows the tool input. |
| ChatBridgeImpl.ChatBridge.HandleBlockStart | src/chatbridge.cpp:342-368 | A `tool_use` block becomes the current call, with an empty input and the status line shown. |
| ChatBridgeImpl.ChatBridge.HandleBlockStop | src/chatbridge.cpp:369-383 | A started call is recorded, executed and cleared. |
| ChatBridgeImpl.ChatBridge.Append | src/chatbridge.cpp:55-59 | One message is appended; the buffer is unchanged. |
| ChatBridgeImpl.ChatBridge.UpdateLastAssistant | src/chatbridge.cpp:61-78 | Only a last message with role "assistant" grows. |
| ChatBridgeImpl.ChatBridge.AddCitations | src/chatbridge.cpp:80-99 | The citations are added to the last message and to the current list. With no message nothing happens. |
| ChatBridgeImpl.ChatBridge.SetFollowups | src/chatbridge.cpp:101-104 | The queue is replaced wholesale. |
| ChatBridgeImpl.ChatBridge.Reset | src/chatbridge.cpp:47-53 | Messages and follow-ups are cleared. Everything else is kept. |
| ChatBridgeImpl.ChatBridge.SetAnthropicApiKey | src/chatbridge.cpp:41-45 | An unchanged key changes nothing. A new key is stored and announced. |
| ChatBridgeImpl.ChatBridge.SetAnalyzer | src/chatbridge.cpp:776-789 | Records whether an analyzer is connected. |
| ChatBridgeImpl.ChatBridge.SendMessage | src/chatbridge.cpp:106-139 | Without a key only an error is signalled. Otherwise the display text is stored, the turn is sent and the buffer is cleared. |
| ChatBridgeImpl.ChatBridge.SendThemeQuery | src/chatbridge.cpp:141-144 | Sends the theme query as a message. |
| ChatBridgeImpl.ChatBridge.SendToClaudeApi | src/chatbridge.cpp:146-232 | A new turn carries the filtered history; the buffer is emptied. |
| ChatBridgeImpl.ChatBridge.RunFollowupQueue | src/chatbridge.cpp:674-681 | The head of the queue is removed and sent. An empty queue changes nothing. |
| ChatBridgeImpl.ChatBridge.ExecuteToolCall | src/chatbridge.cpp:406-426 | Without an analyzer the error object is sent back at once. Otherwise the id becomes pending and the parsed input is dispatched. |
| ChatBridgeImpl.ChatBridge.OnToolResult | src/chatbridge.cpp:791-866 | Path-B citations are collected first. The continuation is sent only for a pending id, which is removed. |
| ChatBridgeImpl.ChatBridge.SendToolResult | src/chatbridge.cpp:499-672 | Performs the `sendToolResult` transition on the fields. |
| BridgeSpec.DrainIsFrame | src/chatbridge.cpp:282-285 | The loop applies exactly the blocks the framing cuts, in order, and leaves the partial block. |
| BridgeSpec.DrainAppend | src/chatbridge.cpp:236-241 | Draining, appending and draining again equals draining all the bytes once. |
| BridgeSpec.ChunkBoundaryInvariance | src/chatbridge.cpp:887-890 | Feeding `a` then `b` equals feeding `a + b`: where the network splits the stream does not matter. |
| BridgeSpec.DrainLeavesNoBlock | src/chatbridge.cpp:282-285 | No blank line is left after the loop, so a second run changes nothing. |
| BridgeSpec.ApplyBlocksAppend | src/chatbridge.cpp:282-285 | Blocks are applied in sequence: two runs compose. |
| BridgeSpec.DoneFinishes | src/chatbridge.cpp:302-312 | `[DONE]` signals the end and changes nothing else. |
| BridgeSpec.SkippedBlock | src/chatbridge.cpp:302-317 | A block without payload, or one that is no JSON object, leaves the state unchanged. |
| BridgeSpec.MessageStartAppendsPlaceholder | src/chatbridge.cpp:321-329 | `message_start` appends exactly one empty assistant message. |
| BridgeSpec.UpdateLastAssistant | src/chatbridge.cpp:61-78 | Only messages and signals change, the number of messages is kept, and an assistant-final conversation stays so. |
| BridgeSpec.TextDeltasConcatenate | src/chatbridge.cpp:331-335 | Consecutive text deltas grow the last assistant message by their texts, concatenated in arrival order. |
| BridgeSpec.TextDeltasNeedAssistant | src/chatbridge.cpp:61-77 | Without a final assistant message, text deltas change nothing at all. |
| BridgeSpec.InputFragmentsAccumulate | src/chatbridge.cpp:336-340 | Input fragments are concatenated in order, and nothing else changes. |
| BridgeSpec.ToolUseStartRecords | src/chatbridge.cpp:342-368 | A tool_use start sets the name and id, empties the input and shows the per-name status line. |
| BridgeSpec.StopWithoutToolIgnored | src/chatbridge.cpp:369-383 | `content_block_stop` with no started call does nothing. |
| BridgeSpec.ToolBlockFill | src/chatbridge.cpp:342-383 | Start, fragments and stop reach the stop handler with the name, the id and the whole input. |
| BridgeSpec.ToolBlockLifecycle | src/chatbridge.cpp:369-383 | With an analyzer the call is stored under its id and dispatched exactly once with the parsed input. The id becomes pending, no request is sent, and name, id and input are cleared. |
| BridgeSpec.ToolBlockWithoutAnalyzer | src/chatbridge.cpp:409-413 | With no analyzer nothing is dispatched or pending. The continuation ends with the error object as the tool_result. |
| BridgeSpec.FinishWithoutAnalyzer | src/chatbridge.cpp:406-426 | The same, for a stop with a started call. |
| BridgeSpec.UnmatchedResultSendsNothing | src/chatbridge.cpp:860-865 | A result under an id that is not pending does not change the pending set, details, requests or dispatches. |
| BridgeSpec.MatchedResultContinues | src/chatbridge.cpp:860-865 | A pending id is removed. The continuation is sent when the details exist; otherwise "Internal error: missing tool details" is signalled and nothing is sent. |
| BridgeSpec.AddCitationsIfAny | src/chatbridge.cpp:798-857 | The citations of path B go to the last message before the id check. Pending ids, details and requests are untouched. |
| BridgeSpec.CorrelateOnce | src/chatbridge.cpp:860-865 | A second result under the same id sends nothing more. At most one continuation results. |
| BridgeSpec.SendToolResultOutcome | src/chatbridge.cpp:499-612 | Missing details give only the error. Otherwise the details are consumed and one continuation is sent. Path A adds at most five citations, and none for a tool whose name does not mention the search service. |
| BridgeSpec.ContinuationShape | src/chatbridge.cpp:514-609 | The continuation is the non-empty history, then exactly one assistant tool_use, then one user tool_result. Its history without system messages is the new-turn history. |
| BridgeSpec.ContinuationSendsText | src/chatbridge.cpp:548-603 | When `result.content[0]` has a `text`, the final tool_result carries that text if it is a non-empty string. Otherwise it carries the compact JSON of the whole result. |
| BridgeSpec.ContinuationSendsWholeResult | src/chatbridge.cpp:548-603 | A result without an object `result` holding `content` sends the compact JSON of the whole result as the tool_result. |
| BridgeSpec.FollowupsFifo | src/chatbridge.cpp:674-681 | After `n` runs the first `n` queries were shown in order and the queue is the rest. The `k`-th new request, counting from one, is the new turn built from the old messages plus the first `k` shown queries. |
| BridgeSpec.RunFollowupQueueStep | src/chatbridge.cpp:674-681 | One run removes exactly the head, shows its query, and sends exactly one request: the new turn whose history ends with that query. |
| BridgeSpec.FollowupsConsumed | src/chatbridge.cpp:674-681 | With or without a key, `n` runs leave exactly the queue minus its first `n` entries. Without a key no message is stored and no request is sent. |
| BridgeSpec.KeylessFollowupStep | src/chatbridge.cpp:676-680 | Without a key one run pops the head and emits `followupsChanged`. Then `sendMessage` clears the citations and emits "Anthropic API key not configured"; nothing else changes. |
| BridgeSpec.RunFollowupQueuePops | src/chatbridge.cpp:676-678 | Any run on a non-empty queue removes exactly its head and keeps the key. |
| BridgeSpec.EmptyQueueIgnored | src/chatbridge.cpp:676 | On an empty queue nothing happens. |
| BridgeSpec.ResetThenSend | src/chatbridge.cpp:47-53 | After `reset` a new turn carries only the new message; the tool bookkeeping survives. |
| BridgeSpec.CitationsNeedAMessage | src/chatbridge.cpp:80-99 | `addCitations` with no message changes nothing. |
| BridgeSpec.NewTurnHistory | src/chatbridge.cpp:152-159 | The one new request is the turn built from the stored messages plus the user's displayed text. It ends with that text when it is non-empty, and no message in it is a system message or empty. |
| BridgeSpec.TurnFailed | src/chatbridge.cpp:243-275 | A failed reply changes only messages and signals, and its last signal is "API error: ...". |
| SseFraming.FrameRoundTrip | src/chatbridge.cpp:282-285 | The blocks, each rejoined with its blank line, followed by the rest, give back the buffer. No block and no rest holds a blank line. |
| SseFraming.FrameExtends | src/chatbridge.cpp:282-285 | Framing `a + t` is framing `a`, then framing the rest of `a` followed by `t`. |
| SseFraming.Cut | src/chatbridge.cpp:282-285 | The cut is absent exactly when there is no blank line. Otherwise the block is what precedes the first blank line of the buffer (no blank line starts inside it), and the rest is what follows that blank line. |
| SseFraming.ScanBlockLines | src/chatbridge.cpp:293-300 | The block loop yields the last `data:` payload and the last `event:` type. |
| SseFraming.LastDataOverwrites | src/chatbridge.cpp:293-300 | A later data line overwrites an earlier one. |
| SseFraming.EventLineIgnored | src/chatbridge.cpp:293-300 | `event:` lines do not affect the payload. |
| SseFraming.NoDataLineNoPayload | src/chatbridge.cpp:293-300 | Without a data line the payload is empty. |
| Conversation.BuildTurnHistory | src/chatbridge.cpp:152-159 | The loop builds the new-turn history filter. |
| Conversation.BuildContinuationHistory | src/chatbridge.cpp:514-530 | The loop builds the continuation history filter. |
| Conversation.TurnHistoryClean | src/chatbridge.cpp:152-159 | Every message of a new turn is a non-empty text message whose role is not "system". |
| Conversation.TurnIsContinuationWithoutSystem | src/chatbridge.cpp:152-159 | The new-turn history is the continuation history without system messages, and neither sends an empty message. |
| Conversation.TurnHistoryAppend | src/chatbridge.cpp:152-159 | The filter keeps conversation order. |
| Conversation.ContinuationHistoryAppend | src/chatbridge.cpp:514-530 | The same for the continuation. |
| Conversation.ThemeQueryDisplay | src/chatbridge.cpp:119-132 | A theme query is shown as an acknowledgement of the trimmed theme, or verbatim when the theme is blank. |
| Conversation.CollectItemCitations | src/chatbridge.cpp:559-584 | The counting loop with `break` yields the capped citation list. |
| Conversation.CappedIsPrefix | src/chatbridge.cpp:559-584 | Path A keeps the first five items with title and link, in order, and nothing else. |
| Conversation.CappedAtFive | src/chatbridge.cpp:559-584 | At most five; exactly five when at least five qualify; all of them otherwise. |
| Conversation.ItemCitation | src/chatbridge.cpp:573-581 | An item contributes at most one citation. |
| Conversation.CollectResultCitations | src/chatbridge.cpp:798-857 | The nested loops yield the path-B citations. |
| Conversation.CollectEntryCitations | src/chatbridge.cpp:805-851 | One content entry yields its direct pair and its statistics entries. |
| Conversation.ContentCitationsAppend | src/chatbridge.cpp:798-857 | Path B collects entry after entry, in order. |
| Conversation.StatisticsUncapped | src/chatbridge.cpp:826-849 | For a content entry whose text object has a `statistics` array, path B yields the direct pair, then one citation per qualifying statistics entry, in order. There is no cap. |
| Conversation.ItemCitationsAreQualifying | src/chatbridge.cpp:839-848 | For any array, the uncapped citations are `{title, url = link}` of exactly the entries holding both keys, one each, in array order. |
| Themes.Tokens | src/analyzer.cpp:82 | Tokenising keeps no empty token. |
| Themes.CountQualifying | src/analyzer.cpp:81-86 | The table holds exactly the qualifying tokens, each with its number of occurrences. |
| Themes.TopFive | src/analyzer.cpp:87-91 | Up to five distinct keys, in non-increasing order of count. No omitted key counts more than the last one taken. |
| Themes.ExtractThemesNaive | src/analyzer.cpp:77-95 | Returns 1 to 5 themes satisfying `RankedThemes`: `["trends"]` when nothing qualifies, otherwise distinct qualifying lower-case tokens, ranked by count. |
| Themes.CleanPieces | src/analyzer.cpp:172-180 | The inner loop yields the kept, cleaned pieces of one line. |
| Themes.DropBeyondFive | src/analyzer.cpp:184 | The `removeLast` loop keeps the first five. |
| Themes.ParseThemeReply | src/analyzer.cpp:165-184 | The parser computes `ParsedThemes`. |
| Themes.ThemesFromReply | src/analyzer.cpp:162-188 | Returns 1 to 5 themes. They are the parsed themes when there are any; otherwise the naive ranking of the text. |
| Themes.ParsedThemesShape | src/analyzer.cpp:165-184 | At most five themes, each at least three characters, lower case, comma-free and not starting with filler. |
| Themes.ExplanationLineSkipped | src/analyzer.cpp:170 | A line with ':' but no ',' contributes nothing, wherever it stands. |
| Themes.LinesThemesClean | src/analyzer.cpp:168-181 | Every theme of the lines is clean. |
| Themes.PieceThemesClean | src/analyzer.cpp:172-180 | Every kept piece is clean. |
| Themes.CleanThemeShape | src/analyzer.cpp:174 | Trimming and lowercasing introduces no comma or newline and is idempotent on case. |
| RpcReply.DecodeReply | src/analyzer.cpp:338-370 | The body handling computes `ReplyObject`. |
| RpcReply.ScanSseLines | src/analyzer.cpp:346-356 | The scan breaks at the first line that carries an object. |
| RpcReply.FirstDataObjectIsFirst | src/analyzer.cpp:346-356 | An object is found exactly when some line carries one, and then it is the earliest such line's. |
| RpcReply.PlainReply | src/analyzer.cpp:364-370 | A body that is no event stream is accepted exactly when it parses as an object. |
| RpcReply.FirstNonEmptyDataWins | src/analyzer.cpp:342-360 | In an event stream the first line with a non-empty object decides. |
| RpcReply.EmptyFirstObjectFallsBack | src/analyzer.cpp:342-370 | An empty first object ends the scan, and the whole body is parsed instead. |
| RpcReply.NormalizeSearchReply | src/analyzer.cpp:280-289 | The loop builds `SearchResults`. |
| RpcReply.NormalizeKeepsObjects | src/analyzer.cpp:281-289 | One item per object element, in order, each with title, url, id and summary. |
| RpcReply.NonObjectSkipped | src/analyzer.cpp:281 | A non-object element has no item. |
| RpcReply.ContentDataPreferred | src/analyzer.cpp:258-268 | `result.content[0].data` is preferred. |
| RpcReply.ResultArrayTaken | src/analyzer.cpp:273-274 | A bare result array is taken as it is. |
| RpcReply.NoResultNoItems | src/analyzer.cpp:255-256 | A reply without `result` gives an empty list. |
| AnalyzerImpl.Analyzer.Post | src/analyzer.cpp:300-315 | The request carries `x-api-key` and `mcp-session-id` only when set. |
| AnalyzerImpl.Analyzer.InitializeSession | src/analyzer.cpp:18-49 | Performs the handshake transition. |
| AnalyzerImpl.Analyzer.SetEndpoint | src/analyzer.cpp:51-59 | Performs the setter transition. |
| AnalyzerImpl.Analyzer.SetApiKey | src/analyzer.cpp:61-69 | Performs the setter transition. |
| AnalyzerImpl.Analyzer.SetAnthropicApiKey | src/analyzer.cpp:71-75 | Performs the setter transition. |
| AnalyzerImpl.Analyzer.SearchStatista | src/analyzer.cpp:239-254 | Performs the search request transition. |
| AnalyzerImpl.Analyzer.SearchTheme | src/analyzer.cpp:199-203 | Searches for the single theme. |
| AnalyzerImpl.Analyzer.ExecuteMcpTool | src/analyzer.cpp:374-391 | Performs the tool-call transition. |
| AnalyzerImpl.Analyzer.OnReply | src/analyzer.cpp:316-371 | Captures the session, frames the body and runs the callback, as `OnReply` in the specification module. |
| AnalyzerSpec.InitializeIdempotent | src/analyzer.cpp:19-20 | Once initialized the handshake changes nothing. |
| AnalyzerSpec.InitializeOutcome | src/analyzer.cpp:18-49 | With no endpoint only "Endpoint not configured" is signalled. Otherwise exactly one `initialize` request is sent, and only a reply can set the flag. |
| AnalyzerSpec.HandshakeRepeatsUntilReply | src/analyzer.cpp:18-49 | Two calls before the reply send two handshakes. |
| AnalyzerSpec.InitializedIffResult | src/analyzer.cpp:41-48 | The flag is set by a reply exactly when it is an initialize reply that frames to an object containing "result". |
| AnalyzerSpec.SessionCapturedOnAnyReply | src/analyzer.cpp:320-323 | A reply with an `mcp-session-id` overwrites the session id, even a failed reply. |
| AnalyzerSpec.NetworkErrorOnlyErrors | src/analyzer.cpp:325-337 | A network error emits only the error and never runs the callback. |
| AnalyzerSpec.BadBodyOnlyErrors | src/analyzer.cpp:363-369 | A body that frames to no object emits only "Bad response". |
| AnalyzerSpec.ReplySendsNothing | src/analyzer.cpp:316-371 | No reply sends a request. |
| AnalyzerSpec.ToolResultKeyed | src/analyzer.cpp:388-390 | A tool reply emits one signal. It is a `toolResult` under the same request id with the framed object exactly when the reply framed to an object. |
| AnalyzerSpec.NoSessionNoRequest | src/analyzer.cpp:375-378 | With no session id the error result is emitted and nothing is sent. |
| AnalyzerSpec.SessionToolCallSent | src/analyzer.cpp:380-390 | With a session id one `tools/call` carrying the session header is sent. |
| AnalyzerSpec.HeadersFollowState | src/analyzer.cpp:303-307 | Each header is present exactly when its value is non-empty, and then carries it. |
| AnalyzerSpec.SettersIgnoreSameValue | src/analyzer.cpp:51-75 | Setting an unchanged value changes nothing. |
| AnalyzerSpec.SetEndpointOutcome | src/analyzer.cpp:51-59 | A new endpoint is stored and announced, and the handshake is attempted only with both endpoint and key set. |
| AnalyzerSpec.SetApiKeyOutcome | src/analyzer.cpp:61-69 | The same for the key. |
| AnalyzerSpec.SearchRequestShape | src/analyzer.cpp:239-254 | An empty endpoint gives only an error. Otherwise one request is sent, with the themes joined by " " and limit 12. |
| AnalyzerSpec.SearchThemeAsksTheme | src/analyzer.cpp:199-203 | A theme search asks for exactly the theme. |
| AnalyzerSpec.SearchReplyEmitsItems | src/analyzer.cpp:280-290 | A framed search reply emits `resultsReady` with the normalised items. |
| BridgeSpec.SendMessage | src/chatbridge.cpp:106-139 | Definition: clear the citations, then either the key error, or store the display text and send the new turn. Its properties are in `NewTurnHistory` and `ResetThenSend`. |
| BridgeSpec.ContinuationMessages | src/chatbridge.cpp:514-609 | Definition: the continuation history, one tool_use, one tool_result. Its properties are in `ContinuationShape`, `ContinuationSendsText` and `ContinuationSendsWholeResult`. |
| BridgeSpec.SendToolResult | src/chatbridge.cpp:499-612 | Definition of `sendToolResult`. Its properties are in `SendToolResultOutcome`. |
| BridgeSpec.ExecuteToolCall | src/chatbridge.cpp:406-426 | Definition of `executeToolCall`. Its properties are in `ToolBlockLifecycle` and `FinishWithoutAnalyzer`. |
| BridgeSpec.OnToolResult | src/chatbridge.cpp:791-866 | Definition of `onToolResult`. Its properties are in `UnmatchedResultSendsNothing`, `MatchedResultContinues` and `CorrelateOnce`. |
| BridgeSpec.FinishToolCall | src/chatbridge.cpp:369-383 | Definition of the `content_block_stop` branch. Its properties are in `ToolBlockLifecycle` and `StopWithoutToolIgnored`. |
| BridgeSpec.ApplyEvent | src/chatbridge.cpp:314-399 | Definition of the event state machine. Its properties are in `MessageStartAppendsPlaceholder`, `TextDeltasConcatenate`, `InputFragmentsAccumulate` and `ToolUseStartRecords`. |
| BridgeSpec.ApplyBlock | src/chatbridge.cpp:289-317 | Definition of one block's handling. Its properties are in `DoneFinishes` and `SkippedBlock`. |
| BridgeSpec.Drain | src/chatbridge.cpp:282-402 | Definition of the framing loop. Its properties are in `DrainIsFrame`, `DrainAppend` and `DrainLeavesNoBlock`. |
| BridgeSpec.Feed | src/chatbridge.cpp:886-891 | Definition of a chunk's arrival. Its properties are in `ChunkBoundaryInvariance`. |
| AnalyzerSpec.InitializeSession | src/analyzer.cpp:18-49 | Definition of the handshake. Its properties are in `InitializeIdempotent`, `InitializeOutcome` and `HandshakeRepeatsUntilReply`. |
| AnalyzerSpec.SearchStatista | src/analyzer.cpp:239-254 | Definition of the search request. Its properties are in `SearchRequestShape`. |
| AnalyzerSpec.ExecuteMcpTool | src/analyzer.cpp:374-391 | Definition of `executeMCPTool`. Its properties are in `NoSessionNoRequest` and `SessionToolCallSent`. |
| AnalyzerSpec.OnReply | src/analyzer.cpp:316-371 | Definition of the reply handler and its callbacks. Its properties are in `SessionCapturedOnAnyReply`, `NetworkErrorOnlyErrors`, `BadBodyOnlyErrors`, `InitializedIffResult`, `ToolResultKeyed` and `SearchReplyEmitsItems`. |
| Conversation.TurnHistory | src/chatbridge.cpp:152-159 | Definition of the new-turn filter: non-empty, non-system messages in order. Its properties are in `TurnHistoryClean`, `TurnIsContinuationWithoutSystem` and `TurnHistoryAppend`. |
| Conversation.ContinuationHistory | src/chatbridge.cpp:517-530 | Definition of the continuation filter: non-empty messages of every role, in order. Its properties are in `TurnIsContinuationWithoutSystem` and `ContinuationHistoryAppend`. |
| Conversation.DisplayText | src/chatbridge.cpp:119-132 | Definition of the display-text rewrite. Its properties are in `ThemeQueryDisplay`. |
| Conversation.EntryCitations | src/chatbridge.cpp:805-851 | Definition of one content entry's path-B citations. Its properties are in `StatisticsUncapped`. |
| RpcReply.ReplyObject | src/analyzer.cpp:338-370 | Definition of the reply framing. Its properties are in `PlainReply`, `FirstNonEmptyDataWins` and `EmptyFirstObjectFallsBack`. |
| RpcReply.ResultArray | src/analyzer.cpp:255-278 | Definition of the search reply's shape preference. Its properties are in `ContentDataPreferred`, `ResultArrayTaken` and `NoResultNoItems`. |
| RpcReply.SearchResults | src/analyzer.cpp:255-290 | Definition of the emitted item list. Its properties are in `NormalizeKeepsObjects` and `NonObjectSkipped`. |
| SseFraming.Frame | src/chatbridge.cpp:282-285 | Definition of the blocks the loop cuts and the rest it leaves. Its properties are in `FrameRoundTrip` and `FrameExtends`. |
| SseFraming.BlockPayload | src/chatbridge.cpp:293-300 | Definition of a block's payload: the text after the last `data: ` line. Its properties are in `LastDataOverwrites`, `EventLineIgnored` and `NoDataLineNoPayload`. |
| Themes.RankedThemes | src/analyzer.cpp:78-93 | The ranking `extractThemesNaive` promises, met by `ExtractThemesNaive`: `["trends"]` when nothing qualifies; otherwise up to five distinct qualifying tokens, ranked by count. |
| Themes.ParsedThemes | src/analyzer.cpp:165-184 | Definition of the reply parser's result. It is met by `ParseThemeReply`, and its shape is in `ParsedThemesShape` and `ExplanationLineSkipped`. |

## Left out

- Networking is not modelled:
  - `QNetworkAccessManager` posts, HTTP header setting, `abort`, `deleteLater`, redirects and status codes;
  - signal/slot connections and `QMetaObject::invokeMethod`.
  Requests and signals are log entries. Replies, chunks and tool results are method inputs.
- BridgeSpec.ExecuteToolCall: the synchronous round trip when the analyzer has no session id is not modelled. `invokeMethod` at src/chatbridge.cpp:422-425 and the `toolResult` connection at src/chatbridge.cpp:784-785 use the default connection type. With both objects in one thread they are direct calls. `executeMCPTool` then emits its "Session not initialized" result at once (src/analyzer.cpp:375-378), and `onToolResult` sends the continuation inside the `content_block_stop` branch, before the rest of the buffer is processed. The model delivers every tool result as a later input, after `Drain` has applied the whole chunk. So when one chunk holds two `tool_use` blocks, the model's first continuation also carries the second block's status line, which the source's does not. The model also does not capture that this continuation aborts the reply still being read.
- The identity of reply objects is not modelled. Nothing represents `reset` or `postToClaudeAPI` aborting the reply in flight, so a chunk of an aborted reply is not told apart from a current one. `sendToClaudeAPI` aborts nothing, and the model follows it.
- JSON parsing and serialisation are uninterpreted functions of the `Codec`. The grammar, number formats and `toVariantMap` conversions are not modelled, and numbers are integers.
- Text is a sequence of characters:
  - UTF-8 conversion between bytes and text is the identity;
  - `toLower` and `trimmed` are ASCII-only;
  - `\W` is any character outside ASCII `[A-Za-z0-9_]`.
- The constant payload contents are not modelled: system prompts, model names, the tool manifest, `max_tokens` and `temperature`. A request is modelled by its `messages` only.
- `Analyzer::analyzeTextFast` and the HTTP request and network-error fallback of `analyzeTextLLM` are not modelled. Only the naive ranker and the reply-text parser are, with the fallback to the ranker.
- `Analyzer::getStatisticById`, `ChatBridge::postStream` and `ChatBridge::callStatistaMCP` are not modelled: nothing in the core calls them.
- `ChatBridge::initializeSession`, `setEndpoint` and `setApiKey` are not modelled: they store a value or a flag that the core never reads. `setEndpoint` and `setApiKey` also emit `endpointChanged` and `apiKeyChanged`, and neither emission is in the model.
- The local `isStatistaQuery` in `ChatBridge::sendToClaudeAPI` is not modelled: it is computed and never read.
- Themes.TopFive: the `std::sort` tie order is unspecified. The model chooses a most frequent key five times and states only the ranking, not which of equally frequent keys comes first.
- The JSON-RPC id from `QDateTime::currentMSecsSinceEpoch()` is the parameter `now`.
- `qDebug` logging and the debug-only copies of values are not modelled.
- `main.cpp`, `config.h` and `session.h` are not modelled: they hold start-up wiring, environment lookups and settings persistence.
- SseFraming.Frame: a last block not followed by a blank line is never processed, as in the source. Neither the loop nor the `finished` handler handles it.
- AnalyzerImpl.Analyzer.ExecuteMcpTool: as in the source, it checks only the session id, not the endpoint. A request may be posted to an empty endpoint.
- AnalyzerSpec.HandshakeRepeatsUntilReply: as in the source, nothing marks a handshake in flight. Calls before the reply each send one.
