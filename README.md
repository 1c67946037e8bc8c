# gemini-live relay core in Dafny

A model of the core of the gemini-live WebSocket relay, which is a Python server. The relay sits between a browser client and a Gemini live session with these behaviours:

- It forwards the browser's audio, image and text messages upstream.
- It forwards the model's audio, text, interruption and turn-completion events back.
- It answers the model's tool calls with a fixed result.
- It classifies the errors that end a connection.
- It always cleans the session up afterwards.

Every `send` to the browser or to the upstream session is modelled as an append to a trace (`ClientSocket.sent`, `UpstreamSession.sent`). Each socket also carries a `budget`: the number of sends it still accepts before its peer goes away. A send within the budget is appended and uses up one unit. A send with no budget left raises, and the trace stays unchanged. So a peer that disconnects part-way through a loop leaves exactly the prefix of the loop's messages sent before it (`Runtime.Take`), and the caller takes the exception path the Python code takes. A budget of 0 is a socket that is already closed.

| file | module | models |
|---|---|---|
| `protocol.dfy` | `Protocol` | Messages as datatypes: decoded client frames (JSON values), the messages sent to the browser, upstream inputs, upstream responses (server content, tool calls), Python exceptions as class plus `str()` text |
| `pystrings.dfy` | `PyStrings` | The Python string operations the classification uses: `sub in s`, ASCII `lower()`, `str()` of a natural number |
| `runtime.dfy` | `Runtime` | The objects the handler drives: the browser socket, the upstream session (send, close), the tool-processor task, the `asyncio.Queue` of tool-call batches |
| `session.dfy` | `Session` | `SessionState` and the `active_sessions` registry with `create_session`, `get_session`, `remove_session` |
| `websocket_handler.dfy` | `WebSocketHandler` | `send_error_message`, `process_server_content`, routing of responses in `handle_gemini_responses` and its queue drain, one batch of `process_tool_queue`, the inbound dispatch of `handle_client_messages`, the exception scan of `handle_messages`, the classification of `handle_client`, and `cleanup_session` |
| `tool_queue.dfy` | `ToolQueueLoop` | The `while True` loop of `process_tool_queue` over the waiting batches |

Most contracts follow one pattern. A method ties its trace and its new state to a specification function of its inputs: `ServerContentEffect`, `ResponsesEffect`, `ToolBatchEffect`, `QueueEffect`, `InboundSends`, `ScanExceptions` or `ClientTrace`. Lemmas then prove what the relay promises about those functions.

Inputs that come from I/O are parameters:
- the frames the browser sends;
- the responses the upstream session yields;
- the exceptions the TaskGroup raises;
- whether the upstream connect succeeded;
- whether the socket is open;
- whether closing the upstream session fails.

## Model

| member | source | states |
|---|---|---|
| PyStrings.ContainsIffOccurs | server/core/websocket_handler.py:91 | Python's `sub in s` holds exactly when `sub` occurs in `s` at some position, both directions |
| PyStrings.ContainedCharOccurs | server/core/websocket_handler.py:91 | When `sub in s` holds, every character of `sub` is a character of `s` |
| PyStrings.ContainedPairOccurs | server/core/websocket_handler.py:91 | When `sub in s` holds, every two adjacent characters of `sub` stand adjacent somewhere in `s` |
| PyStrings.Lower | server/core/websocket_handler.py:116 | `lower()` keeps the length and maps each ASCII capital to its small letter, leaving every other character alone |
| PyStrings.LowerAppend | server/core/websocket_handler.py:397 | `lower()` of a concatenation is the concatenation of the lowered parts |
| PyStrings.LowerKeepsCharOut | server/core/websocket_handler.py:429 | A small letter absent from a text in both cases is absent from its `lower()` |
| PyStrings.LowerKeepsPairOut | server/core/websocket_handler.py:397 | A non-letter followed by a letter, absent from a text in both cases of the letter, is absent from its `lower()` |
| PyStrings.NatToDecimal | server/core/websocket_handler.py:396 | `str()` of a natural number is a non-empty run of decimal digits |
| PyStrings.DecimalRoundTrip | server/core/websocket_handler.py:396 | Reading back the digits of `str(n)` gives `n` |
| Session.SessionState.constructor | server/core/session.py:28-33 | A new session starts with both flags and `interrupted` false and no tool execution, audio stream or upstream handle |
| Session.SessionRegistry.CreateSession | server/core/session.py:40-52 | Returns a fresh cleared session stored under the id; a duplicate id is overwritten; every other key is unchanged |
| Session.SessionRegistry.GetSession | server/core/session.py:55-65 | Returns the session stored under the id, or None exactly when the id is absent; the map is not modified |
| Session.SessionRegistry.RemoveSession | server/core/session.py:68-76 | Deletes the id if present; with an absent id the map is unchanged and nothing fails |
| Session.CreateThenGet | server/core/session.py:50-52 | After `create_session(id)`, `get_session(id)` returns exactly that session; other keys keep their sessions |
| Session.RemoveThenGet | server/core/session.py:75-76 | After removing an id, twice, `get_session(id)` is None and every other key maps to the session it had |
| Runtime.TakeAppend | server/core/websocket_handler.py:357-367 | Sending two runs of messages one after the other delivers the prefix of the first, then what the remaining budget lets through of the second |
| Runtime.ClientSocket.Send | server/core/websocket_handler.py:360-364 | A send succeeds exactly when the socket still accepts one; it then appends the message, otherwise the trace is unchanged |
| Runtime.UpstreamSession.Close | server/core/websocket_handler.py:57-63 | Closing counts one close call, ends further sends, and fails exactly when the session's close fails |
| Runtime.ToolQueue.GetNowait | server/core/websocket_handler.py:260-266 | `get_nowait()` takes the front batch off a non-empty queue, and reports empty otherwise |
| WebSocketHandler.SendErrorMessage | server/core/websocket_handler.py:25-36 | Sends exactly one `error` message carrying the error data when the socket is open; a failed send is swallowed |
| WebSocketHandler.PlanPartsAt | server/core/websocket_handler.py:357-364 | The parts are handled in order: a part with a `None` blob raises and stops the loop, a part with neither data nor text is skipped, any other sends its message before the rest |
| WebSocketHandler.PlanMatchesForwardedParts | server/core/websocket_handler.py:357-364 | The messages correspond one to one, in part order, to the parts that have inline data (audio, which wins) or non-empty text; other parts emit nothing |
| WebSocketHandler.PlanFailsOnEmptyBlob | server/core/websocket_handler.py:358-359 | The parts loop raises exactly when some part carries an inline blob whose `data` is `None` |
| WebSocketHandler.PlanIsMedia | server/core/websocket_handler.py:357-364 | Model-turn parts emit only `audio` and `text` messages |
| WebSocketHandler.ForwardParts | server/core/websocket_handler.py:357-364 | The parts loop sends the prefix of the part messages the socket accepts, and raises exactly when a blob is empty or the socket goes away before the last message |
| WebSocketHandler.ProcessServerContent | server/core/websocket_handler.py:329-369 | The client trace and both session flags end as the server-content state machine says, including the exception paths |
| WebSocketHandler.InterruptionPreempts | server/core/websocket_handler.py:341-352 | An interrupted event sends exactly one `interrupted` message, clears `is_receiving_response`, keeps `received_model_response`, and ignores parts and turn completion; on a closed socket it raises and changes nothing |
| WebSocketHandler.ModelTurnSetsFlags | server/core/websocket_handler.py:354-356 | A non-interrupted model turn sets both flags; they stay set unless the same event completes the turn |
| WebSocketHandler.ModelTurnForwardsParts | server/core/websocket_handler.py:354-367 | A model turn sends the prefix the socket accepts of its part messages followed by `turn_complete` if set, and raises exactly when a part fails or the socket goes away first |
| WebSocketHandler.TurnCompleteComesLast | server/core/websocket_handler.py:366-369 | A completed turn ends with the only `turn_complete` message and leaves both flags false, even after parts in the same event |
| WebSocketHandler.ClosedSocketReceivesNothing | server/core/websocket_handler.py:343-367 | On a closed socket no server-content event delivers anything |
| WebSocketHandler.RouteResponses | server/core/websocket_handler.py:222-250 | Tool calls are appended to the queue in arrival order; all other responses go through the state machine; failures are skipped |
| WebSocketHandler.DrainToolQueue | server/core/websocket_handler.py:260-266 | The drain ends with the queue empty, having taken off every waiting batch in queue order |
| WebSocketHandler.HandleGeminiResponses | server/core/websocket_handler.py:221-266 | Content is delivered as the state machine says, tool calls are queued, and the queue ends empty |
| WebSocketHandler.ResponsesEffectAppend | server/core/websocket_handler.py:222-250 | Responses are processed one after another: two runs compose, with the flags and the socket state carried from the first to the second |
| WebSocketHandler.ToolCallsDoNotDelayContent | server/core/websocket_handler.py:239-246 | Content delivery and flags are exactly what they would be if the tool-call responses had never arrived |
| WebSocketHandler.DeliveryIsContentOnly | server/core/websocket_handler.py:239-246 | The outbound loop itself sends only `audio`, `text`, `interrupted` and `turn_complete` messages; tool calls never reach the state machine |
| WebSocketHandler.QueuedBatchesAppend | server/core/websocket_handler.py:239-241 | The queue receives batches in arrival order (FIFO) |
| WebSocketHandler.TextTurnExample | server/core/websocket_handler.py:354-369 | A text part "hi" followed by a turn-complete event delivers `text "hi"` then `turn_complete` and leaves both flags false; with room for one message only the text arrives and the flags stay set |
| WebSocketHandler.CallMessages | server/core/websocket_handler.py:284-306 | k calls give 2k client messages |
| WebSocketHandler.CallMessagesAlternate | server/core/websocket_handler.py:284-306 | The client messages alternate `function_call` (with the call's name and args) and `function_response` (with the fixed result), in call order |
| WebSocketHandler.CallMessagesPrefix | server/core/websocket_handler.py:284-306 | The messages of the first i calls are the first 2i messages of the batch |
| WebSocketHandler.CallMessagesThrough | server/core/websocket_handler.py:284-306 | The first 2i+2 messages are those of the first i calls followed by the i-th call's pair |
| WebSocketHandler.CallMessagesCut | server/core/websocket_handler.py:284-306 | A socket that goes away during the i-th call has received the first i calls' messages and the part of the i-th pair it accepted |
| WebSocketHandler.ResponseRecordsFollowCalls | server/core/websocket_handler.py:308-314 | One response record per call, with that call's name and id and the fixed result, in call order |
| WebSocketHandler.SendCallPair | server/core/websocket_handler.py:288-306 | One call sends its `function_call` and then its `function_response`, as far as the socket accepts, and succeeds exactly when both go out |
| WebSocketHandler.ForwardCalls | server/core/websocket_handler.py:284-316 | The calls loop sends the prefix of the call messages the socket accepts; it completes exactly when all 2k go out, then with one record per call; `current_tool_execution` is cleared after a completed loop and left set when a send raises |
| WebSocketHandler.ProcessToolBatch | server/core/websocket_handler.py:281-326 | One batch: the client trace, the one aggregated upstream tool response, and `current_tool_execution` come out as the batch effect says; the upstream session is never closed here |
| WebSocketHandler.BatchForwardsCalls | server/core/websocket_handler.py:283-324 | A batch of calls sends the prefix of its call messages the socket accepts, and raises exactly when it has calls and either the socket goes away or the upstream send fails |
| WebSocketHandler.BatchAggregatesResponses | server/core/websocket_handler.py:283-322 | A completed batch of k > 0 calls sends exactly one upstream tool response listing the calls' names and ids in order, if the upstream accepts it; an empty or cut-short batch sends nothing upstream |
| WebSocketHandler.QueueEffectStep | server/core/websocket_handler.py:280-326 | The traffic of the first n+1 batches is that of the first n followed by that of batch n, run from the state the first n left |
| WebSocketHandler.RunBatchesAppend | server/core/websocket_handler.py:280-326 | Running batches one after another composes: two runs give the traffic of the first followed by that of the second |
| WebSocketHandler.QueueEffectAppend | server/core/websocket_handler.py:280-326 | The traffic of two runs of batches is that of the first followed by that of the second |
| ToolQueueLoop.ProcessNextBatch | server/core/websocket_handler.py:280-326 | One turn of the loop takes the front batch off the queue and extends both traces by that batch's effect |
| ToolQueueLoop.ProcessToolQueue | server/core/websocket_handler.py:280-326 | Waiting batches are processed in queue order, each fully before the next; the queue ends empty; a batch that raises does not stop the loop |
| WebSocketHandler.HandleClientMessages | server/core/websocket_handler.py:151-203 | The upstream trace gets the prefix the session accepts of the dispatched sends of the frames, in arrival order; frames whose handling fails are skipped; the session is never closed here |
| WebSocketHandler.DispatchByType | server/core/websocket_handler.py:172-195 | `audio` becomes one `audio/pcm` send with end of turn; `image` one `image/jpeg` send without; `text` the raw data with end of turn; anything else no send |
| WebSocketHandler.InboundSendsAppend | server/core/websocket_handler.py:152-198 | The sends of two runs of frames are those of the first followed by those of the second |
| WebSocketHandler.SkippedFrameChangesNothing | server/core/websocket_handler.py:192-198 | A frame that sends nothing (unparsable, `end`, unknown) leaves the other frames' sends unchanged |
| WebSocketHandler.InboundSendsInArrivalOrder | server/core/websocket_handler.py:152-191 | When every frame is forwarded, the i-th upstream send is the i-th frame's |
| WebSocketHandler.ScanSkipsUnmatched | server/core/websocket_handler.py:90-119 | Exceptions that neither test matches are passed over: the scan result is that of the rest of the group |
| WebSocketHandler.ScanStopsAtFirstMatch | server/core/websocket_handler.py:88-122 | The first exception that counts as handled decides the scan: a quota match sends the `quota_exceeded` error and the text warning; a closed-connection match sends nothing |
| WebSocketHandler.ScanFindsNoMatch | server/core/websocket_handler.py:88-125 | When no exception counts as handled, the scan sends nothing and reports unhandled |
| WebSocketHandler.ScanWithoutPeer | server/core/websocket_handler.py:90-119 | On a closed socket the scan sends nothing, and it handles the group exactly when some exception is a closed connection that is not a quota error |
| WebSocketHandler.QuotaNoticesCutShort | server/core/websocket_handler.py:91-116 | When the quota notices cannot both be sent, the loop logs and moves on: the group is handled exactly when a later exception is a closed connection |
| WebSocketHandler.SendQuotaNotices | server/core/websocket_handler.py:93-112 | The quota error and the text warning go out in that order as far as the socket accepts, and succeed exactly when both do |
| WebSocketHandler.HandleMessages | server/core/websocket_handler.py:71-125 | The loop with its `handled` flag and `break` delivers what the scan says and completes, handles, or re-raises the group accordingly |
| WebSocketHandler.TaskGroupMessageLetters | server/core/websocket_handler.py:396-397 | The text of a TaskGroup's exception group contains no '=', no 'y' and no 'w' in either case |
| WebSocketHandler.TaskGroupMessagePairs | server/core/websocket_handler.py:429 | The text of a TaskGroup's exception group never has a space followed by 'c' in either case |
| WebSocketHandler.NoAbnormalWithoutEqualsOrY | server/core/websocket_handler.py:396-397 | A text without '=' and without 'y' in either case passes neither abnormal-close test |
| WebSocketHandler.NoWebsocketWithoutW | server/core/websocket_handler.py:429 | A text without 'w' in either case does not contain "websocket" once lowered |
| WebSocketHandler.NoClosedWithoutSpaceC | server/core/websocket_handler.py:429 | A text never showing a space followed by 'c' in either case does not contain "connection closed" once lowered |
| WebSocketHandler.TaskGroupMessageNotAbnormal | server/core/websocket_handler.py:394-397 | The abnormal-close test never matches the text of a TaskGroup's exception group |
| WebSocketHandler.TaskGroupMessageNotClosedSocket | server/core/websocket_handler.py:425-429 | The closed-socket test of the last handler never matches the text of a TaskGroup's exception group |
| WebSocketHandler.AbnormalCodeMatches | server/core/websocket_handler.py:396 | A message beginning with "code = 1006" passes the abnormal-close test |
| WebSocketHandler.UnmatchedByScan | server/core/websocket_handler.py:90-119 | An exception whose text has no 'Q' and no 'n' in either case is handled by neither test of the scan |
| WebSocketHandler.PumpFailureReportedAsGeneral | server/core/websocket_handler.py:394-440 | As written, every group re-raised by the scan is reported as a `general` error |
| WebSocketHandler.AbnormalCloseMissedAsWritten | server/core/websocket_handler.py:394-440 | A group holding only a "code = 1006" error is re-raised by the scan; it is reported as `general` as written and as `connection_closed` as intended |
| WebSocketHandler.AbnormalCloseExample | server/core/websocket_handler.py:396-397 | For the concrete error "code = 1006" the as-written and intended traces differ |
| WebSocketHandler.ClientErrorClassifies | server/core/websocket_handler.py:394-440 | Intended classification: `connection_closed` exactly when a group error shows an abnormal close; `timeout` exactly for a `TimeoutError`; setup failures are classified as written |
| WebSocketHandler.CleanupSession | server/core/websocket_handler.py:39-68 | With a session: cancel a set tool execution, close a set upstream (a failed close is logged), then remove the id, in that order, never raising. Without one: nothing, including no removal |
| WebSocketHandler.CleanupTwice | server/core/websocket_handler.py:39-68 | Cleanup run twice leaves the registry as one run does |
| WebSocketHandler.RunSession | server/core/websocket_handler.py:388-393 | The ready signal, then the pump scan; a failed ready send or a re-raised group is passed on to the handlers |
| WebSocketHandler.ReportFailure | server/core/websocket_handler.py:394-440 | The handlers send the one error the code classifies, if any, as far as the socket accepts |
| WebSocketHandler.HandleClient | server/core/websocket_handler.py:372-443 | The browser receives exactly the client trace for the connect result and pump errors; the id is always removed; an opened upstream is closed once and receives nothing here |
| WebSocketHandler.QuotaEndsConnectionQuietly | server/core/websocket_handler.py:88-111 | A quota error first in the group gives ready, one `quota_exceeded` error, one text warning, and no error afterwards |
| WebSocketHandler.ClosedConnectionIsSilent | server/core/websocket_handler.py:116-119 | A closed-connection error first in the group ends the connection after the ready signal, with no message |
| WebSocketHandler.UnhandledTrace | server/core/websocket_handler.py:119-125 | A group that nothing handles is re-raised and followed, after the ready signal, by the messages of its classified error |
| WebSocketHandler.UnhandledPumpFailureIsReported | server/core/websocket_handler.py:119-125 | A group that nothing handles gets ready then one `general` error as written, and ready then its intended classified error as intended |
| WebSocketHandler.ConnectTimeoutIsReported | server/core/websocket_handler.py:413-423 | A `TimeoutError` while opening the upstream session sends exactly the `timeout` error |
| WebSocketHandler.TracesDifferOnlyOnPumpFailure | server/core/websocket_handler.py:394-440 | The as-written and intended traces agree on every run except a re-raised pump failure |

## Left out

- Concurrency. The asyncio `TaskGroup` running the inbound and outbound loops side by side is not modelled, and neither are the tool processor running beside the outbound loop, task cancellation or awaiting. Each loop is modelled on its own with its input as a parameter: frames, responses, or queued batches. `HandleClient` takes the exceptions the TaskGroup raised as a parameter.
- The outbound `while True` around the upstream `receive()` loop is modelled over the finite run of responses received before the loop ends.
- `process_tool_queue` blocks on `queue.get()` forever. `ToolQueueLoop.ProcessToolQueue` models it while batches are waiting and ends when the queue is empty.
- `task_done()` bookkeeping on the queue is not modelled, since nothing joins the queue.
- The close performed by the upstream session's own context manager when `handle_client`'s `async with` exits belongs to the Gemini library, which is not part of this model. Only the close in `cleanup_session` is counted.
- `server/core/gemini_client.py`, `server/config/config.py` and `server/server.py` are not part of this model. A failed connect is the `ConnectFailed` parameter.
- Logging and the debug-log rewriting of responses and client data are left out. They have no effect on the protocol.
- JSON serialisation of outgoing messages and JSON parsing of incoming ones are left out: messages are datatypes, and an unparsable frame is `Unparsable`. JSON numbers are integers.
- Base64 encoding of audio is left out: the `audio` message carries the raw bytes.
- `str.lower()` is modelled for ASCII letters only, without Unicode case mapping.
- `session_id = str(id(websocket))` is left out: the id is a parameter.
- The library's validation of `types.FunctionResponse` with a string `response` is left out; it is assumed to accept the record.
- `SessionState.interrupted` and `current_audio_stream` are never written by the code. They are fields that start cleared and stay so.
- A session is created on a duplicate id by overwriting the old entry, as the code does; no error is raised.
- A peer that goes away is modelled by a socket's budget of sends. A socket never comes back once its budget is used up, and a send never fails for another reason.
- `str()` of the `ExceptionGroup` an `asyncio.TaskGroup` raises is modelled as the message "unhandled errors in a TaskGroup (N sub-exception(s))".
- WebSocketHandler.ClientError: the intended classification of a pump failure looks only at the texts of the group's errors. It does not treat a `TimeoutError` inside the group as a timeout.

## Findings

| source | as written | input that shows it | evidently intended | confidence | as-written member | corrected member |
|---|---|---|---|---|---|---|
| server/core/websocket_handler.py:396-397 | The abnormal-close test reads `str(e)` of the exception group that `handle_messages` re-raises. That text is always "unhandled errors in a TaskGroup (N sub-exception(s))". So the test never matches, nor does the closed-socket test at line 429, and every re-raised group is reported as a `general` error | A TaskGroup whose only error has the text "code = 1006" | Test the texts of the group's errors, so a browser's abnormal close is reported as `connection_closed` | not executed | WebSocketHandler.PumpFailureReportedAsGeneral | WebSocketHandler.ClientErrorClassifies |
