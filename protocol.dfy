/** The values that cross the relay's boundaries: frames decoded from the
    browser, messages sent back to it, inputs sent to the upstream Gemini live
    session, the events that session yields, and Python exceptions as the
    handler sees them. JSON text and its encoding are not modelled: a message
    is the value `json.dumps` would serialise. */
module Protocol {

  datatype Option<+T> = None | Some(value: T)

  type Byte = bv8

  /** A value as `json.loads` returns it (numbers kept as integers). */
  datatype Json =
    | JNull
    | JBool(b: bool)
    | JNumber(n: int)
    | JString(s: string)
    | JArray(items: seq<Json>)
    | JObject(fields: map<string, Json>)

  /** One websocket frame from the browser: text that `json.loads` rejects, or the value it decodes to. */
  datatype ClientFrame = Unparsable | Parsed(value: Json)

  /** The `error_type` of an error message. */
  datatype ErrorType = QuotaExceeded | ConnectionClosed | Timeout | General

  /** The `data` object of an error message: `{"message", "action", "error_type"}`. */
  datatype ErrorData = ErrorData(message: string, action: string, errorType: ErrorType)

  /** Messages the relay sends to the browser. `Audio` carries the raw bytes whose
      base64 text (RFC 4648, section 4) is the JSON `data` field. */
  datatype ServerMessage =
    | Ready                                            // {"ready": true}
    | Error(error: ErrorData)                          // {"type": "error", "data": {...}}
    | Text(text: string)                               // {"type": "text", "data": ...}
    | Audio(audio: seq<Byte>)                          // {"type": "audio", "data": <base64>}
    | FunctionCall(name: Option<string>, args: Option<Json>)  // {"type": "function_call", ...}
    | FunctionResponse(result: string)                 // {"type": "function_response", ...}
    | Interrupted(message: string)                     // {"type": "interrupted", ...}
    | TurnComplete                                     // {"type": "turn_complete"}

  /** One function's result, as returned upstream in a tool response. */
  datatype FunctionResponseRecord = FunctionResponseRecord(name: Option<string>, id: Option<string>, response: string)

  /** The `input` of one `send` on the upstream session. */
  datatype UpstreamInput =
    | MediaChunk(data: Option<Json>, mimeType: string)   // {"data": ..., "mime_type": ...}
    | ClientContent(content: Option<Json>)               // the client's raw `data`
    | ToolResponse(functionResponses: seq<FunctionResponseRecord>)

  /** One call `send(input=..., end_of_turn=...)` on the upstream session. */
  datatype UpstreamSend = UpstreamSend(input: UpstreamInput, endOfTurn: bool)

  /** Inline binary data of a part; its `data` is optional in the upstream schema. */
  datatype Blob = Blob(data: Option<seq<Byte>>)

  /** A part of a model turn: an optional inline blob and optional text. */
  datatype Part = Part(inlineData: Option<Blob>, text: Option<string>)

  /** A model turn; its parts list is optional in the upstream schema. */
  datatype ModelTurn = ModelTurn(parts: Option<seq<Part>>)

  /** The server content of an upstream event. */
  datatype ServerContent = ServerContent(interrupted: bool, modelTurn: Option<ModelTurn>, turnComplete: bool)

  /** A function the upstream model asks the relay to call. */
  datatype FunctionCallRequest = FunctionCallRequest(id: Option<string>, name: Option<string>, args: Option<Json>)

  /** A tool-call event's payload; its list of calls is optional in the upstream schema. */
  datatype ToolCallBatch = ToolCallBatch(functionCalls: Option<seq<FunctionCallRequest>>)

  /** One event yielded by the upstream session's `receive()`. */
  datatype Response = Response(toolCall: Option<ToolCallBatch>, serverContent: Option<ServerContent>)

  /** The exception classes the handler tells apart: `asyncio.TimeoutError` and everything else. */
  datatype ExceptionClass = TimeoutError | OtherException

  /** A raised exception: its class and `str(exc)`. */
  datatype PyException = PyException(cls: ExceptionClass, text: string)
}
