/** The relay's message handling (`server/core/websocket_handler.py`): the
    server-content state machine, the inbound and outbound loops, the tool-call
    queue processor, exception classification and session cleanup. Every
    socket or upstream `send` is an append to a trace on a connection that
    takes a budget of further sends (see `Runtime`); the asyncio TaskGroup and
    the interleaving of the concurrent loops are not modelled. */
module WebSocketHandler {
  import opened Protocol
  import opened Runtime
  import opened Session
  import opened PyStrings

  // ------------------------------------------------------------------ send_error_message

  /** `send_error_message`: one `error` message if the socket takes it; a failed send is swallowed. */
  method SendErrorMessage(ws: ClientSocket, data: ErrorData)
    modifies ws`sent, ws`budget
    ensures ws.sent == old(ws.sent) + Take([Error(data)], old(ws.budget))
    ensures ws.budget == Left([Error(data)], old(ws.budget))
  {
    var ok := ws.Send(Error(data));
  }

  // ------------------------------------------------------------------ process_server_content

  const InterruptionNotice := "Response interrupted by user input"

  /** The two session flags the outbound loop writes. */
  datatype ContentFlags = ContentFlags(receiving: bool, received: bool)

  function FlagsOf(s: SessionState): ContentFlags
    reads s
  {
    ContentFlags(s.isReceivingResponse, s.receivedModelResponse)
  }

  /** What the parts loop does with one part. */
  datatype PartOutcome = Forward(message: ServerMessage) | Skip | Fail

  /** One part: a blob is sent as `audio` (it wins over text), and a blob without
      data makes the base64 encoding raise; otherwise non-empty text is sent as
      `text` (empty text is falsy); otherwise the part is skipped. */
  function PartStep(p: Part): PartOutcome
  {
    if p.inlineData.Some? then
      if p.inlineData.value.data.Some? then Forward(Audio(p.inlineData.value.data.value)) else Fail
    else if p.text.Some? && p.text.value != "" then Forward(Text(p.text.value))
    else Skip
  }

  /** The messages the parts loop would send, in part order, up to the first
      part that raises; and whether one does. */
  datatype PartsPlan = PartsPlan(messages: seq<ServerMessage>, fails: bool)

  function PlanParts(parts: seq<Part>): PartsPlan
  {
    if parts == [] then PartsPlan([], false)
    else
      match PartStep(parts[0])
      case Fail => PartsPlan([], true)
      case Skip => PlanParts(parts[1..])
      case Forward(m) =>
        var rest := PlanParts(parts[1..]);
        PartsPlan([m] + rest.messages, rest.fails)
  }

  /** The parts the loop reaches that forward something, in order: the reference for `PlanParts`. */
  function ForwardedParts(parts: seq<Part>): seq<Part>
  {
    if parts == [] || PartStep(parts[0]).Fail? then []
    else (if PartStep(parts[0]).Forward? then [parts[0]] else []) + ForwardedParts(parts[1..])
  }

  /** The plan from part i on, by what part i does. */
  lemma PlanPartsAt(parts: seq<Part>, i: nat)
    requires i < |parts|
    ensures PlanParts(parts[i..]) ==
      match PartStep(parts[i])
      case Fail => PartsPlan([], true)
      case Skip => PlanParts(parts[i + 1..])
      case Forward(m) => PartsPlan([m] + PlanParts(parts[i + 1..]).messages, PlanParts(parts[i + 1..]).fails)
  {
    assert parts[i..][0] == parts[i] && parts[i..][1..] == parts[i + 1..];
  }

  /** Messages and forwarding parts correspond one to one, in part order. */
  lemma {:induction false} PlanMatchesForwardedParts(parts: seq<Part>)
    ensures |PlanParts(parts).messages| == |ForwardedParts(parts)|
    ensures forall i :: 0 <= i < |ForwardedParts(parts)| ==>
      PartStep(ForwardedParts(parts)[i]) == Forward(PlanParts(parts).messages[i])
  {
    if parts != [] && !PartStep(parts[0]).Fail? {
      PlanMatchesForwardedParts(parts[1..]);
    }
  }

  /** The loop raises exactly when some part holds a blob without data. */
  lemma {:induction false} PlanFailsOnEmptyBlob(parts: seq<Part>)
    ensures PlanParts(parts).fails <==> exists i :: 0 <= i < |parts| && PartStep(parts[i]).Fail?
  {
    if parts != [] {
      var rest := parts[1..];
      PlanFailsOnEmptyBlob(rest);
      if !PartStep(parts[0]).Fail? {
        forall i | 1 <= i < |parts|
          ensures parts[i] == rest[i - 1]
        {
        }
        forall j | 0 <= j < |rest|
          ensures rest[j] == parts[j + 1]
        {
        }
      }
    }
  }

  /** Parts forward only `audio` and `text` messages. */
  lemma {:induction false} PlanIsMedia(parts: seq<Part>)
    ensures forall m :: m in PlanParts(parts).messages ==> m.Audio? || m.Text?
  {
    if parts != [] && !PartStep(parts[0]).Fail? {
      PlanIsMedia(parts[1..]);
    }
  }

  /** What one server-content event does: the new flags, the messages delivered,
      whether the handler raised part-way (the caller logs it), and the sends
      the socket still takes. */
  datatype ContentEffect = ContentEffect(flags: ContentFlags, sent: seq<ServerMessage>, raised: bool, left: nat)

  /** The model-turn step: both flags set, then each part forwarded until the
      socket stops taking sends or a part raises. A parts list of `None` raises
      when iterated. */
  function ModelTurnEffect(f: ContentFlags, turn: Option<ModelTurn>, budget: nat): ContentEffect
  {
    match turn
    case None => ContentEffect(f, [], false, budget)
    case Some(t) =>
      match t.parts
      case None => ContentEffect(ContentFlags(true, true), [], true, budget)
      case Some(ps) =>
        var plan := PlanParts(ps);
        ContentEffect(ContentFlags(true, true), Take(plan.messages, budget),
                      plan.fails || budget < |plan.messages|, Left(plan.messages, budget))
  }

  /** `process_server_content`: interruption first and alone; then the model turn;
      then turn completion, which clears both flags. */
  function ServerContentEffect(f: ContentFlags, c: ServerContent, budget: nat): ContentEffect
  {
    if c.interrupted then
      if budget > 0 then ContentEffect(f.(receiving := false), [Interrupted(InterruptionNotice)], false, budget - 1)
      else ContentEffect(f, [], true, 0)
    else
      var turn := ModelTurnEffect(f, c.modelTurn, budget);
      if turn.raised || !c.turnComplete then turn
      else if turn.left > 0 then ContentEffect(ContentFlags(false, false), turn.sent + [TurnComplete], false, turn.left - 1)
      else ContentEffect(turn.flags, turn.sent, true, 0)
  }

  /** The loop over a model turn's parts: each forwarding part is sent in order;
      a blob without data or a send that fails raises and ends the loop. */
  method ForwardParts(ws: ClientSocket, parts: seq<Part>) returns (raised: bool)
    modifies ws`sent, ws`budget
    ensures var plan := PlanParts(parts);
      && raised == (plan.fails || old(ws.budget) < |plan.messages|)
      && ws.sent == old(ws.sent) + Take(plan.messages, old(ws.budget))
      && ws.budget == Left(plan.messages, old(ws.budget))
  {
    ghost var b0 := ws.budget;
    ghost var pre: seq<ServerMessage> := [];
    var i := 0;
    while i < |parts|
      invariant 0 <= i <= |parts|
      invariant |pre| <= b0 && ws.budget == b0 - |pre|
      invariant ws.sent == old(ws.sent) + pre
      invariant PlanParts(parts) == PartsPlan(pre + PlanParts(parts[i..]).messages, PlanParts(parts[i..]).fails)
    {
      var part := parts[i];
      PlanPartsAt(parts, i);
      if part.inlineData.Some? {
        if part.inlineData.value.data.None? {
          return true;
        }
        var m := Audio(part.inlineData.value.data.value);
        var ok := ws.Send(m);
        if !ok {
          TakeFront(pre, PlanParts(parts[i..]).messages);
          return true;
        }
        assert pre + ([m] + PlanParts(parts[i + 1..]).messages) == (pre + [m]) + PlanParts(parts[i + 1..]).messages;
        pre := pre + [m];
      } else if part.text.Some? && part.text.value != "" {
        var m := Text(part.text.value);
        var ok := ws.Send(m);
        if !ok {
          TakeFront(pre, PlanParts(parts[i..]).messages);
          return true;
        }
        assert pre + ([m] + PlanParts(parts[i + 1..]).messages) == (pre + [m]) + PlanParts(parts[i + 1..]).messages;
        pre := pre + [m];
      }
      i := i + 1;
    }
    assert parts[|parts|..] == [];
    assert pre + [] == pre;
    return false;
  }

  /** `process_server_content` on the session's flags and the client socket: the
      trace, the new flags and the socket's remaining budget are those of
      `ServerContentEffect`; a send that raises ends the handler where it stands. */
  method ProcessServerContent(ws: ClientSocket, session: SessionState, content: ServerContent) returns (raised: bool)
    modifies ws`sent, ws`budget, session`isReceivingResponse, session`receivedModelResponse
    ensures var e := ServerContentEffect(old(FlagsOf(session)), content, old(ws.budget));
      && ws.sent == old(ws.sent) + e.sent && ws.budget == e.left
      && FlagsOf(session) == e.flags && raised == e.raised
  {
    if content.interrupted {
      var ok := ws.Send(Interrupted(InterruptionNotice));
      if !ok {
        return true;
      }
      session.isReceivingResponse := false;
      return false;
    }
    if content.modelTurn.Some? {
      session.receivedModelResponse := true;
      session.isReceivingResponse := true;
      if content.modelTurn.value.parts.None? {
        return true;
      }
      var failed := ForwardParts(ws, content.modelTurn.value.parts.value);
      if failed {
        return true;
      }
    }
    if content.turnComplete {
      var ok := ws.Send(TurnComplete);
      if !ok {
        return true;
      }
      session.receivedModelResponse := false;
      session.isReceivingResponse := false;
    }
    return false;
  }

  /** An interrupted event sends exactly the interruption notice, clears
      `is_receiving_response`, keeps `received_model_response`, and ignores its
      parts and turn completion; when the socket is gone it raises and changes nothing. */
  lemma InterruptionPreempts(f: ContentFlags, c: ServerContent, budget: nat)
    requires c.interrupted
    ensures budget > 0 ==>
      (ServerContentEffect(f, c, budget) ==
       ContentEffect(ContentFlags(false, f.received), [Interrupted(InterruptionNotice)], false, budget - 1))
    ensures budget == 0 ==> ServerContentEffect(f, c, budget) == ContentEffect(f, [], true, 0)
  {
  }

  /** A model turn that is not interrupted sets both flags; unless the same
      event completes the turn, they stay set. */
  lemma ModelTurnSetsFlags(f: ContentFlags, c: ServerContent, budget: nat)
    requires !c.interrupted && c.modelTurn.Some?
    ensures !c.turnComplete || ServerContentEffect(f, c, budget).raised ==>
      ServerContentEffect(f, c, budget).flags == ContentFlags(true, true)
  {
  }

  /** A model turn forwards its parts one to one, in order, up to the first blob
      without data, followed by `turn_complete` when the event completes the
      turn and no part raised; the socket receives the prefix of that run it
      takes, and the handler raises when a part raises or the run is cut short. */
  lemma ModelTurnForwardsParts(f: ContentFlags, c: ServerContent, ps: seq<Part>, budget: nat)
    requires !c.interrupted && c.modelTurn == Some(ModelTurn(Some(ps)))
    ensures var plan := PlanParts(ps);
      var full := plan.messages + (if c.turnComplete && !plan.fails then [TurnComplete] else []);
      var e := ServerContentEffect(f, c, budget);
      && e.sent == Take(full, budget)
      && (e.raised <==> plan.fails || budget < |full|)
      && |plan.messages| == |ForwardedParts(ps)|
      && forall i :: 0 <= i < |ForwardedParts(ps)| ==> PartStep(ForwardedParts(ps)[i]) == Forward(plan.messages[i])
  {
    PlanMatchesForwardedParts(ps);
    var plan := PlanParts(ps);
    if c.turnComplete && !plan.fails && budget < |plan.messages| {
      assert (plan.messages + [TurnComplete])[..budget] == plan.messages[..budget];
    }
  }

  /** A completed turn that does not raise ends with the only `turn_complete`
      message and leaves both flags false, even after parts in the same event;
      one that raises sends no `turn_complete` at all. */
  lemma TurnCompleteComesLast(f: ContentFlags, c: ServerContent, budget: nat)
    requires !c.interrupted && c.turnComplete
    ensures var e := ServerContentEffect(f, c, budget);
      !e.raised ==>
        && e.flags == ContentFlags(false, false)
        && |e.sent| > 0 && e.sent[|e.sent| - 1] == TurnComplete
        && TurnComplete !in e.sent[..|e.sent| - 1]
    ensures TurnComplete in ServerContentEffect(f, c, budget).sent ==> !ServerContentEffect(f, c, budget).raised
  {
    var e := ServerContentEffect(f, c, budget);
    var turn := ModelTurnEffect(f, c.modelTurn, budget);
    if c.modelTurn.Some? && c.modelTurn.value.parts.Some? {
      var plan := PlanParts(c.modelTurn.value.parts.value);
      PlanIsMedia(c.modelTurn.value.parts.value);
      TakeElements(plan.messages, budget);
      assert TurnComplete !in turn.sent;
    }
    if !e.raised {
      assert e.sent[..|e.sent| - 1] == turn.sent;
    }
  }

  /** When the socket is gone nothing is delivered. */
  lemma ClosedSocketReceivesNothing(f: ContentFlags, c: ServerContent)
    ensures ServerContentEffect(f, c, 0).sent == []
  {
  }

  // ------------------------------------------------------------------ handle_gemini_responses

  /** What the outbound loop does with one response besides queueing it: a tool
      call is only queued; a response without server content raises inside
      `process_server_content` (the caller logs it); anything else is server content. */
  function ResponseEffect(f: ContentFlags, r: Response, budget: nat): ContentEffect
  {
    if r.toolCall.Some? then ContentEffect(f, [], false, budget)
    else if r.serverContent.None? then ContentEffect(f, [], true, budget)
    else ServerContentEffect(f, r.serverContent.value, budget)
  }

  /** The session flags, the client messages and the socket's remaining budget after a run of responses. */
  datatype Delivery = Delivery(flags: ContentFlags, sent: seq<ServerMessage>, left: nat)

  function ResponsesEffect(f: ContentFlags, rs: seq<Response>, budget: nat): Delivery
  {
    if rs == [] then Delivery(f, [], budget)
    else
      var d := ResponsesEffect(f, rs[..|rs| - 1], budget);
      var e := ResponseEffect(d.flags, rs[|rs| - 1], d.left);
      Delivery(e.flags, d.sent + e.sent, e.left)
  }

  /** The tool-call batches of a run of responses, in arrival order. */
  function QueuedBatches(rs: seq<Response>): seq<ToolCallBatch>
  {
    if rs == [] then []
    else QueuedBatches(rs[..|rs| - 1]) + (if rs[|rs| - 1].toolCall.Some? then [rs[|rs| - 1].toolCall.value] else [])
  }

  /** The responses that are not tool calls, in arrival order. */
  function ContentResponses(rs: seq<Response>): seq<Response>
  {
    if rs == [] then []
    else ContentResponses(rs[..|rs| - 1]) + (if rs[|rs| - 1].toolCall.None? then [rs[|rs| - 1]] else [])
  }

  /** The loop body of `handle_gemini_responses` over the responses received
      before the loop ends: tool calls go to the queue, the rest through
      `process_server_content`, whose failures are logged and skipped. */
  method RouteResponses(ws: ClientSocket, session: SessionState, queue: ToolQueue, rs: seq<Response>)
    modifies ws`sent, ws`budget, session`isReceivingResponse, session`receivedModelResponse, queue
    ensures var d := ResponsesEffect(old(FlagsOf(session)), rs, old(ws.budget));
      ws.sent == old(ws.sent) + d.sent && ws.budget == d.left && FlagsOf(session) == d.flags
    ensures queue.items == old(queue.items) + QueuedBatches(rs)
  {
    var i := 0;
    while i < |rs|
      invariant 0 <= i <= |rs|
      invariant var d := ResponsesEffect(old(FlagsOf(session)), rs[..i], old(ws.budget));
        ws.sent == old(ws.sent) + d.sent && ws.budget == d.left && FlagsOf(session) == d.flags
      invariant queue.items == old(queue.items) + QueuedBatches(rs[..i])
    {
      var response := rs[i];
      assert rs[..i + 1][..i] == rs[..i];
      if response.toolCall.Some? {
        queue.Put(response.toolCall.value);
      } else if response.serverContent.Some? {
        var raised := ProcessServerContent(ws, session, response.serverContent.value);
      }
      i := i + 1;
    }
    assert rs[..|rs|] == rs;
  }

  /** The `finally` of `handle_gemini_responses`: every batch still queued is
      taken off and discarded, oldest first, until the queue is empty. */
  method DrainToolQueue(queue: ToolQueue) returns (discarded: seq<ToolCallBatch>)
    modifies queue
    ensures queue.items == [] && discarded == old(queue.items)
  {
    discarded := [];
    var empty := queue.IsEmpty();
    while !empty
      invariant old(queue.items) == discarded + queue.items
      invariant empty <==> queue.items == []
      decreases |queue.items|
    {
      var r := queue.GetNowait();
      discarded := discarded + [r.value];
      empty := queue.IsEmpty();
    }
  }

  /** `handle_gemini_responses` over the responses received before it ends, on
      the queue it shares with the tool processor: content is delivered in
      arrival order, tool calls are queued, and the queue ends empty. */
  method HandleGeminiResponses(ws: ClientSocket, session: SessionState, queue: ToolQueue, rs: seq<Response>)
    returns (discarded: seq<ToolCallBatch>)
    modifies ws`sent, ws`budget, session`isReceivingResponse, session`receivedModelResponse, queue
    ensures var d := ResponsesEffect(old(FlagsOf(session)), rs, old(ws.budget));
      ws.sent == old(ws.sent) + d.sent && ws.budget == d.left && FlagsOf(session) == d.flags
    ensures queue.items == [] && discarded == old(queue.items) + QueuedBatches(rs)
  {
    RouteResponses(ws, session, queue, rs);
    discarded := DrainToolQueue(queue);
  }

  /** Responses are handled one after another: two runs deliver what the first
      delivers and then what the second delivers from the state the first left. */
  lemma {:induction false} ResponsesEffectAppend(f: ContentFlags, a: seq<Response>, b: seq<Response>, budget: nat)
    ensures var da := ResponsesEffect(f, a, budget);
      var db := ResponsesEffect(da.flags, b, da.left);
      ResponsesEffect(f, a + b, budget) == Delivery(db.flags, da.sent + db.sent, db.left)
    decreases |b|
  {
    if b == [] {
      assert a + b == a;
    } else {
      assert (a + b)[..|a + b| - 1] == a + b[..|b| - 1];
      assert (a + b)[|a + b| - 1] == b[|b| - 1];
      ResponsesEffectAppend(f, a, b[..|b| - 1], budget);
    }
  }

  /** Diverting tool calls to the queue leaves content delivery exactly as if
      the tool calls had never arrived: a tool call delays no later content. */
  lemma {:induction false} ToolCallsDoNotDelayContent(f: ContentFlags, rs: seq<Response>, budget: nat)
    ensures ResponsesEffect(f, rs, budget) == ResponsesEffect(f, ContentResponses(rs), budget)
  {
    if rs != [] {
      var init, last := rs[..|rs| - 1], rs[|rs| - 1];
      ToolCallsDoNotDelayContent(f, init, budget);
      if last.toolCall.None? {
        ResponsesEffectAppend(f, ContentResponses(init), [last], budget);
        assert [last][..0] == [];
      } else {
        assert ContentResponses(rs) == ContentResponses(init);
      }
    }
  }

  /** The outbound client trace holds only content messages: no tool-call
      traffic ever goes through the content path. */
  lemma {:induction false} DeliveryIsContentOnly(f: ContentFlags, rs: seq<Response>, budget: nat)
    ensures forall m :: m in ResponsesEffect(f, rs, budget).sent ==>
      m.Audio? || m.Text? || m.Interrupted? || m.TurnComplete?
  {
    if rs != [] {
      DeliveryIsContentOnly(f, rs[..|rs| - 1], budget);
      var d := ResponsesEffect(f, rs[..|rs| - 1], budget);
      var r := rs[|rs| - 1];
      if r.toolCall.None? && r.serverContent.Some? && !r.serverContent.value.interrupted {
        var turn := r.serverContent.value.modelTurn;
        if turn.Some? && turn.value.parts.Some? {
          PlanIsMedia(turn.value.parts.value);
          TakeElements(PlanParts(turn.value.parts.value).messages, d.left);
        }
      }
    }
  }

  /** Batches are queued in arrival order. */
  lemma {:induction false} QueuedBatchesAppend(a: seq<Response>, b: seq<Response>)
    ensures QueuedBatches(a + b) == QueuedBatches(a) + QueuedBatches(b)
    decreases |b|
  {
    if b == [] {
      assert a + b == a;
    } else {
      assert (a + b)[..|a + b| - 1] == a + b[..|b| - 1];
      assert (a + b)[|a + b| - 1] == b[|b| - 1];
      QueuedBatchesAppend(a, b[..|b| - 1]);
    }
  }

  /** A model turn with text "hi" followed by a turn-complete event delivers
      `text "hi"` then `turn_complete` and clears both flags; when the peer
      goes after the first message, the turn-complete send raises and both
      flags stay set. */
  lemma TextTurnExample()
    ensures var hi := Response(None, Some(ServerContent(false, Some(ModelTurn(Some([Part(None, Some("hi"))]))), false)));
      var done := Response(None, Some(ServerContent(false, None, true)));
      && ResponsesEffect(ContentFlags(false, false), [hi, done], 2) == Delivery(ContentFlags(false, false), [Text("hi"), TurnComplete], 0)
      && ResponsesEffect(ContentFlags(false, false), [hi, done], 1) == Delivery(ContentFlags(true, true), [Text("hi")], 0)
  {
    var hi := Response(None, Some(ServerContent(false, Some(ModelTurn(Some([Part(None, Some("hi"))]))), false)));
    var done := Response(None, Some(ServerContent(false, None, true)));
    assert [hi, done][..1] == [hi];
    assert [hi][..0] == [];
    assert [Part(None, Some("hi"))][1..] == [];
    assert PlanParts([Part(None, Some("hi"))]) == PartsPlan([Text("hi")], false);
    assert ResponsesEffect(ContentFlags(false, false), [hi], 2) == Delivery(ContentFlags(true, true), [Text("hi")], 1);
    assert ResponsesEffect(ContentFlags(false, false), [hi], 1) == Delivery(ContentFlags(true, true), [Text("hi")], 0);
  }

  // ------------------------------------------------------------------ process_tool_queue

  /** The fixed result the relay reports for every tool call. */
  const ToolResult := "This is a test tool result."

  /** The two client messages for one call: `function_call`, then `function_response`. */
  function CallPair(call: FunctionCallRequest): seq<ServerMessage>
  {
    [FunctionCall(call.name, call.args), FunctionResponse(ToolResult)]
  }

  /** The client messages for a list of calls, one pair per call. */
  function CallMessages(calls: seq<FunctionCallRequest>): (r: seq<ServerMessage>)
    ensures |r| == 2 * |calls|
  {
    if calls == [] then [] else CallMessages(calls[..|calls| - 1]) + CallPair(calls[|calls| - 1])
  }

  /** The response records accumulated for a list of calls. */
  function ResponseRecords(calls: seq<FunctionCallRequest>): seq<FunctionResponseRecord>
  {
    if calls == [] then []
    else
      var c := calls[|calls| - 1];
      ResponseRecords(calls[..|calls| - 1]) + [FunctionResponseRecord(c.name, c.id, ToolResult)]
  }

  /** The messages alternate `function_call` / `function_response`, in call order. */
  lemma {:induction false} CallMessagesAlternate(calls: seq<FunctionCallRequest>)
    ensures forall i :: 0 <= i < |calls| ==>
      && CallMessages(calls)[2 * i] == FunctionCall(calls[i].name, calls[i].args)
      && CallMessages(calls)[2 * i + 1] == FunctionResponse(ToolResult)
  {
    if calls != [] {
      var init := calls[..|calls| - 1];
      CallMessagesAlternate(init);
      forall i | 0 <= i < |init|
        ensures init[i] == calls[i]
      {
      }
    }
  }

  /** The messages for the first i calls are the first 2i messages for all of them. */
  lemma {:induction false} CallMessagesPrefix(calls: seq<FunctionCallRequest>, i: nat)
    requires i <= |calls|
    ensures CallMessages(calls[..i]) == CallMessages(calls)[..2 * i]
    decreases |calls|
  {
    if i == |calls| {
      assert calls[..i] == calls;
    } else {
      var init := calls[..|calls| - 1];
      assert init[..i] == calls[..i];
      CallMessagesPrefix(init, i);
      assert CallMessages(calls)[..2 * i] == CallMessages(init)[..2 * i];
    }
  }

  /** The first 2i + 2 messages are those of the calls before call i, then call i's pair. */
  lemma {:induction false} CallMessagesThrough(calls: seq<FunctionCallRequest>, i: nat)
    requires i < |calls|
    ensures CallMessages(calls)[..2 * i + 2] == CallMessages(calls[..i]) + CallPair(calls[i])
    decreases |calls|
  {
    var init := calls[..|calls| - 1];
    if i == |calls| - 1 {
      assert init == calls[..i];
    } else {
      assert init[..i] == calls[..i];
      CallMessagesThrough(init, i);
      assert CallMessages(calls)[..2 * i + 2] == CallMessages(init)[..2 * i + 2];
    }
  }

  /** A client that stops taking sends within call i, after `taken` of its two
      messages, has received the messages of the calls before it and those
      `taken` messages. */
  lemma CallMessagesCut(calls: seq<FunctionCallRequest>, i: nat, taken: nat)
    requires i < |calls| && taken <= 2
    ensures Take(CallMessages(calls), 2 * i + taken) ==
      CallMessages(calls[..i]) + Take(CallPair(calls[i]), taken)
  {
    CallMessagesThrough(calls, i);
    TakeWithin(CallMessages(calls), CallMessages(calls[..i]), CallPair(calls[i]), taken);
  }

  /** One response record per call, carrying the call's name and id, in call order. */
  lemma {:induction false} ResponseRecordsFollowCalls(calls: seq<FunctionCallRequest>)
    ensures |ResponseRecords(calls)| == |calls|
    ensures forall i :: 0 <= i < |calls| ==>
      ResponseRecords(calls)[i] == FunctionResponseRecord(calls[i].name, calls[i].id, ToolResult)
  {
    if calls != [] {
      var init := calls[..|calls| - 1];
      ResponseRecordsFollowCalls(init);
      forall i | 0 <= i < |init|
        ensures init[i] == calls[i]
      {
      }
    }
  }

  /** Whether the session has an upstream handle, and the sends it still takes. */
  datatype UpstreamState = NoUpstream | Upstream(budget: nat)

  /** The traffic one or more dequeued batches cause, whether the last handler
      raised, and what the two connections take afterwards. */
  datatype BatchEffect = BatchEffect(sent: seq<ServerMessage>, upstream: seq<UpstreamSend>, raised: bool,
                                     clientLeft: nat, upAfter: UpstreamState)

  /** One iteration of `process_tool_queue`. A `None` list of calls raises when
      iterated; the client receives each call's two messages until it stops
      taking sends, which raises; when every call completed, one aggregated tool
      response goes upstream, which raises without an upstream handle or when
      the upstream no longer takes sends. */
  function ToolBatchEffect(b: ToolCallBatch, clientBudget: nat, up: UpstreamState): BatchEffect
  {
    match b.functionCalls
    case None => BatchEffect([], [], true, clientBudget, up)
    case Some(calls) => CallsBatchEffect(calls, clientBudget, up)
  }

  /** One iteration of `process_tool_queue` for a batch that carries a list of calls. */
  function CallsBatchEffect(calls: seq<FunctionCallRequest>, clientBudget: nat, up: UpstreamState): BatchEffect
  {
    var msgs := CallMessages(calls);
    if calls == [] then BatchEffect([], [], false, clientBudget, up)
    else if clientBudget < |msgs| then BatchEffect(Take(msgs, clientBudget), [], true, 0, up)
    else
      var send := UpstreamSend(ToolResponse(ResponseRecords(calls)), false);
      match up
      case NoUpstream => BatchEffect(msgs, [], true, clientBudget - |msgs|, up)
      case Upstream(ub) => BatchEffect(msgs, Take([send], ub), ub == 0, clientBudget - |msgs|, Upstream(Left([send], ub)))
  }

  /** `current_tool_execution` after one batch: untouched when there are no calls,
      cleared when every call completed, left pointing at the processor's task when
      a send raised part-way. */
  function ToolExecutionAfter(b: ToolCallBatch, clientBudget: nat, before: ToolTask?, task: ToolTask): ToolTask?
  {
    if b.functionCalls.None? || b.functionCalls.value == [] then before
    else if 2 * |b.functionCalls.value| <= clientBudget then null
    else task
  }

  /** One call's two sends to the client, `function_call` then `function_response`;
      a send that raises ends the pair. */
  method SendCallPair(ws: ClientSocket, call: FunctionCallRequest) returns (ok: bool)
    modifies ws`sent, ws`budget
    ensures ws.sent == old(ws.sent) + Take(CallPair(call), old(ws.budget))
    ensures ws.budget == Left(CallPair(call), old(ws.budget))
    ensures ok == (2 <= old(ws.budget))
  {
    ok := ws.Send(FunctionCall(call.name, call.args));
    if ok {
      ok := ws.Send(FunctionResponse(ToolResult));
    }
  }

  /** The loop over a batch's calls: for each call, point `current_tool_execution`
      at the processor's task, send `function_call` and `function_response`, record
      the response and clear the field. The client receives the prefix of the
      calls' messages it takes; the loop completes exactly when it takes them all,
      and then holds one record per call. */
  method ForwardCalls(ws: ClientSocket, session: SessionState, calls: seq<FunctionCallRequest>, task: ToolTask)
    returns (completed: bool, responses: seq<FunctionResponseRecord>)
    modifies ws`sent, ws`budget, session`currentToolExecution
    ensures ws.sent == old(ws.sent) + Take(CallMessages(calls), old(ws.budget))
    ensures ws.budget == Left(CallMessages(calls), old(ws.budget))
    ensures completed == (2 * |calls| <= old(ws.budget))
    ensures completed ==> responses == ResponseRecords(calls)
    ensures session.currentToolExecution ==
      if calls == [] then old(session.currentToolExecution) else if completed then null else task
  {
    ghost var b0 := ws.budget;
    responses := [];
    var i := 0;
    while i < |calls|
      invariant 0 <= i <= |calls|
      invariant 2 * i <= b0 && ws.budget == b0 - 2 * i
      invariant responses == ResponseRecords(calls[..i])
      invariant ws.sent == old(ws.sent) + CallMessages(calls[..i])
      invariant session.currentToolExecution == if i == 0 then old(session.currentToolExecution) else null
    {
      var call := calls[i];
      assert calls[..i + 1][..i] == calls[..i];
      session.currentToolExecution := task;
      ghost var before := ws.budget;
      var ok := SendCallPair(ws, call);
      if !ok {
        CallMessagesCut(calls, i, before);
        return false, responses;
      }
      responses := responses + [FunctionResponseRecord(call.name, call.id, ToolResult)];
      session.currentToolExecution := null;
      i := i + 1;
    }
    assert calls[..|calls|] == calls;
    return true, responses;
  }

  /** The body of one `process_tool_queue` iteration, for the batch just dequeued,
      run by the processor task `task`. */
  method ProcessToolBatch(ws: ClientSocket, session: SessionState, batch: ToolCallBatch, task: ToolTask)
    returns (raised: bool)
    modifies ws`sent, ws`budget, session`currentToolExecution, session.genaiSession
    ensures var e := ToolBatchEffect(batch, old(ws.budget),
                                    old(if session.genaiSession == null then NoUpstream else Upstream(session.genaiSession.budget)));
      && ws.sent == old(ws.sent) + e.sent
      && ws.budget == e.clientLeft
      && raised == e.raised
      && (if session.genaiSession == null then NoUpstream else Upstream(session.genaiSession.budget))
         == e.upAfter
      && (session.genaiSession != null ==> session.genaiSession.sent == old(session.genaiSession.sent) + e.upstream)
    ensures session.currentToolExecution == ToolExecutionAfter(batch, old(ws.budget), old(session.currentToolExecution), task)
    ensures session.genaiSession != null ==> session.genaiSession.closeCalls == old(session.genaiSession.closeCalls)
  {
    if batch.functionCalls.None? {
      return true;
    }
    var calls := batch.functionCalls.value;
    ResponseRecordsFollowCalls(calls);
    var completed, responses := ForwardCalls(ws, session, calls, task);
    if !completed {
      return true;
    }
    if responses != [] {
      if session.genaiSession == null {
        return true;
      }
      var sent := session.genaiSession.Send(UpstreamSend(ToolResponse(responses), false));
      if !sent {
        return true;
      }
    }
    return false;
  }

  /** A run of batches processed one after another by `step`, each starting
      from the connections as the previous one left them. */
  function RunBatches(step: (ToolCallBatch, nat, UpstreamState) -> BatchEffect, batches: seq<ToolCallBatch>,
                      clientBudget: nat, up: UpstreamState): BatchEffect
  {
    if batches == [] then BatchEffect([], [], false, clientBudget, up)
    else
      var q := RunBatches(step, batches[..|batches| - 1], clientBudget, up);
      var e := step(batches[|batches| - 1], q.clientLeft, q.upAfter);
      BatchEffect(q.sent + e.sent, q.upstream + e.upstream, e.raised, e.clientLeft, e.upAfter)
  }

  /** The traffic of the batches `process_tool_queue` takes off the queue, in order. */
  function QueueEffect(batches: seq<ToolCallBatch>, clientBudget: nat, up: UpstreamState): BatchEffect
  {
    RunBatches(ToolBatchEffect, batches, clientBudget, up)
  }

  /** One more batch extends the traffic by that batch's, on the connections as the run so far left them. */
  lemma QueueEffectStep(batches: seq<ToolCallBatch>, n: nat, clientBudget: nat, up: UpstreamState)
    requires n < |batches|
    ensures var q := QueueEffect(batches[..n], clientBudget, up);
      var e := ToolBatchEffect(batches[n], q.clientLeft, q.upAfter);
      QueueEffect(batches[..n + 1], clientBudget, up) ==
        BatchEffect(q.sent + e.sent, q.upstream + e.upstream, e.raised, e.clientLeft, e.upAfter)
  {
    assert batches[..n + 1][..n] == batches[..n];
  }

  /** A batch of calls sends the prefix of its calls' messages the client takes,
      and its handler raises exactly when one of its sends fails: the client
      stops taking sends part-way, or the upstream takes no more. */
  lemma BatchForwardsCalls(calls: seq<FunctionCallRequest>, clientBudget: nat, upBudget: nat)
    ensures var e := ToolBatchEffect(ToolCallBatch(Some(calls)), clientBudget, Upstream(upBudget));
      && e.sent == Take(CallMessages(calls), clientBudget)
      && (e.raised <==> calls != [] && (clientBudget < 2 * |calls| || upBudget == 0))
  {
  }

  /** When a batch has calls and every call completed, the one tool response
      carrying the records of all calls (see `ResponseRecordsFollowCalls`) is
      offered upstream, and goes through if the upstream still takes a send;
      otherwise nothing goes upstream. */
  lemma BatchAggregatesResponses(calls: seq<FunctionCallRequest>, clientBudget: nat, upBudget: nat)
    ensures var e := ToolBatchEffect(ToolCallBatch(Some(calls)), clientBudget, Upstream(upBudget));
      e.upstream == if calls != [] && 2 * |calls| <= clientBudget
                    then Take([UpstreamSend(ToolResponse(ResponseRecords(calls)), false)], upBudget)
                    else []
  {
  }

  /** Two runs of batches processed by any step cause the traffic of the first
      followed by that of the second, the second starting from the connections
      as the first left them. */
  lemma {:induction false} RunBatchesAppend(step: (ToolCallBatch, nat, UpstreamState) -> BatchEffect,
                                            a: seq<ToolCallBatch>, b: seq<ToolCallBatch>, clientBudget: nat, up: UpstreamState)
    ensures var qa := RunBatches(step, a, clientBudget, up);
      var qb := RunBatches(step, b, qa.clientLeft, qa.upAfter);
      var q := RunBatches(step, a + b, clientBudget, up);
      && q.sent == qa.sent + qb.sent && q.upstream == qa.upstream + qb.upstream
      && q.clientLeft == qb.clientLeft && q.upAfter == qb.upAfter
    decreases |b|
  {
    if b == [] {
      assert a + b == a;
    } else {
      assert (a + b)[..|a + b| - 1] == a + b[..|b| - 1];
      assert (a + b)[|a + b| - 1] == b[|b| - 1];
      RunBatchesAppend(step, a, b[..|b| - 1], clientBudget, up);
    }
  }

  /** Batches are processed in queue order: two runs of batches cause the
      traffic of the first followed by that of the second, the second starting
      from the connections as the first left them. */
  lemma QueueEffectAppend(a: seq<ToolCallBatch>, b: seq<ToolCallBatch>, clientBudget: nat, up: UpstreamState)
    ensures var qa := QueueEffect(a, clientBudget, up);
      var qb := QueueEffect(b, qa.clientLeft, qa.upAfter);
      var q := QueueEffect(a + b, clientBudget, up);
      && q.sent == qa.sent + qb.sent && q.upstream == qa.upstream + qb.upstream
      && q.clientLeft == qb.clientLeft && q.upAfter == qb.upAfter
  {
    RunBatchesAppend(ToolBatchEffect, a, b, clientBudget, up);
  }

  // ------------------------------------------------------------------ handle_client_messages

  /** The `data` field of a decoded client message, as `data.get("data")` gives it. */
  function DataField(fields: map<string, Json>): Option<Json>
  {
    if "data" in fields then Some(fields["data"]) else None
  }

  /** The upstream send one client frame causes, if any. Only a JSON object with a
      `type` of "audio", "image" or "text" is forwarded; anything else (an
      unparsable frame, a non-object, a missing `type`, "end", an unknown type)
      causes no send. */
  function Dispatch(frame: ClientFrame): Option<UpstreamSend>
  {
    match frame
    case Unparsable => None
    case Parsed(v) =>
      if !v.JObject? || "type" !in v.fields then None
      else
        var t := v.fields["type"];
        if t == JString("audio") then Some(UpstreamSend(MediaChunk(DataField(v.fields), "audio/pcm"), true))
        else if t == JString("image") then Some(UpstreamSend(MediaChunk(DataField(v.fields), "image/jpeg"), false))
        else if t == JString("text") then Some(UpstreamSend(ClientContent(DataField(v.fields)), true))
        else None
  }

  /** The upstream sends a run of client frames causes, in arrival order. */
  function InboundSends(frames: seq<ClientFrame>): seq<UpstreamSend>
  {
    if frames == [] then []
    else
      var d := Dispatch(frames[|frames| - 1]);
      InboundSends(frames[..|frames| - 1]) + (if d.Some? then [d.value] else [])
  }

  /** The loop of `handle_client_messages` over the frames read before the socket
      ends: each frame is dispatched in arrival order; a frame whose handling
      raises (an upstream that no longer takes sends, a missing upstream handle)
      is logged and skipped. */
  method HandleClientMessages(session: SessionState, frames: seq<ClientFrame>)
    modifies session.genaiSession
    ensures session.genaiSession != null ==>
      && session.genaiSession.closeCalls == old(session.genaiSession.closeCalls)
      && session.genaiSession.sent == old(session.genaiSession.sent) + Take(InboundSends(frames), old(session.genaiSession.budget))
      && session.genaiSession.budget == Left(InboundSends(frames), old(session.genaiSession.budget))
  {
    var i := 0;
    while i < |frames|
      invariant 0 <= i <= |frames|
      invariant session.genaiSession != null ==>
        && session.genaiSession.closeCalls == old(session.genaiSession.closeCalls)
        && session.genaiSession.sent == old(session.genaiSession.sent) + Take(InboundSends(frames[..i]), old(session.genaiSession.budget))
        && session.genaiSession.budget == Left(InboundSends(frames[..i]), old(session.genaiSession.budget))
    {
      assert frames[..i + 1][..i] == frames[..i];
      var d := Dispatch(frames[i]);
      if d.Some? && session.genaiSession != null {
        TakeAppend(InboundSends(frames[..i]), [d.value], old(session.genaiSession.budget));
        var ok := session.genaiSession.Send(d.value);
      }
      i := i + 1;
    }
    assert frames[..|frames|] == frames;
  }

  /** The client-to-upstream translation, type by type. */
  lemma DispatchByType(fields: map<string, Json>)
    ensures "type" in fields && fields["type"] == JString("audio") ==>
      Dispatch(Parsed(JObject(fields))) == Some(UpstreamSend(MediaChunk(DataField(fields), "audio/pcm"), true))
    ensures "type" in fields && fields["type"] == JString("image") ==>
      Dispatch(Parsed(JObject(fields))) == Some(UpstreamSend(MediaChunk(DataField(fields), "image/jpeg"), false))
    ensures "type" in fields && fields["type"] == JString("text") ==>
      Dispatch(Parsed(JObject(fields))) == Some(UpstreamSend(ClientContent(DataField(fields)), true))
    ensures "type" !in fields || fields["type"] !in {JString("audio"), JString("image"), JString("text")} ==>
      Dispatch(Parsed(JObject(fields))) == None
  {
  }

  /** Sends follow arrival order: the sends for two runs of frames are those of
      the first run followed by those of the second. */
  lemma {:induction false} InboundSendsAppend(a: seq<ClientFrame>, b: seq<ClientFrame>)
    ensures InboundSends(a + b) == InboundSends(a) + InboundSends(b)
    decreases |b|
  {
    if b == [] {
      assert a + b == a;
    } else {
      assert (a + b)[..|a + b| - 1] == a + b[..|b| - 1];
      assert (a + b)[|a + b| - 1] == b[|b| - 1];
      InboundSendsAppend(a, b[..|b| - 1]);
    }
  }

  /** A frame that causes no send is skipped without affecting the others. */
  lemma SkippedFrameChangesNothing(a: seq<ClientFrame>, skipped: ClientFrame, b: seq<ClientFrame>)
    requires Dispatch(skipped).None?
    ensures InboundSends(a + [skipped] + b) == InboundSends(a + b)
  {
    InboundSendsAppend(a + [skipped], b);
    InboundSendsAppend(a, [skipped]);
    InboundSendsAppend(a, b);
    assert [skipped][..0] == [];
  }

  /** When every frame is forwarded, the i-th upstream send is the i-th frame's. */
  lemma {:induction false} InboundSendsInArrivalOrder(frames: seq<ClientFrame>)
    requires forall i :: 0 <= i < |frames| ==> Dispatch(frames[i]).Some?
    ensures |InboundSends(frames)| == |frames|
    ensures forall i :: 0 <= i < |frames| ==> InboundSends(frames)[i] == Dispatch(frames[i]).value
  {
    if frames != [] {
      var init := frames[..|frames| - 1];
      assert forall i :: 0 <= i < |init| ==> init[i] == frames[i];
      InboundSendsInArrivalOrder(init);
    }
  }

  // ------------------------------------------------------------------ handle_messages: exception-group scan

  const QuotaErrorData := ErrorData("Quota exceeded.", "Please wait a moment and try again in a few minutes.", QuotaExceeded)
  const QuotaWarning := "\U{26A0}\U{FE0F} Quota exceeded. Please wait a moment and try again in a few minutes."

  /** The two notices a quota error sends: the `error` message, then the chat warning. */
  const QuotaNotices: seq<ServerMessage> := [Error(QuotaErrorData), Text(QuotaWarning)]

  /** `"Quota exceeded" in str(exc)`: case-sensitive. */
  predicate IsQuotaExceeded(e: PyException)
  {
    Contains(e.text, "Quota exceeded")
  }

  /** `"connection closed" in str(exc).lower()`: case-insensitive. */
  predicate IsConnectionClosed(e: PyException)
  {
    Contains(Lower(e.text), "connection closed")
  }

  /** Whether either test of the scan matches `e`. */
  predicate MatchesScan(e: PyException)
  {
    IsQuotaExceeded(e) || IsConnectionClosed(e)
  }

  /** The notices the scan delivers when it stops at `e`. */
  function NoticesFor(e: PyException): seq<ServerMessage>
  {
    if IsQuotaExceeded(e) then QuotaNotices else []
  }

  /** The scan's outcome: the `handled` flag, the messages delivered, and the
      sends the socket still takes. */
  datatype Scan = Scan(handled: bool, sent: seq<ServerMessage>, left: nat)

  /** The scan of `eg.exceptions`, in order, as the loop runs it. A quota error
      stops the scan once both notices are sent; when the warning's send raises
      (after the error message went through or was swallowed) the failure is
      logged and the scan moves on with the socket gone. A quota error is never
      tested for a closed connection. */
  function ScanExceptions(errors: seq<PyException>, budget: nat): Scan
  {
    if errors == [] then Scan(false, [], budget)
    else if IsQuotaExceeded(errors[0]) then
      if budget >= 2 then Scan(true, QuotaNotices, budget - 2)
      else
        var rest := ScanExceptions(errors[1..], 0);
        Scan(rest.handled, Take(QuotaNotices, budget) + rest.sent, rest.left)
    else if IsConnectionClosed(errors[0]) then Scan(true, [], budget)
    else ScanExceptions(errors[1..], budget)
  }

  /** `i` is the first exception either test matches. */
  ghost predicate FirstMatch(errors: seq<PyException>, i: int)
  {
    0 <= i < |errors| && MatchesScan(errors[i]) && forall j :: 0 <= j < i ==> !MatchesScan(errors[j])
  }

  /** Exceptions neither test matches are passed over without effect. */
  lemma {:induction false} ScanSkipsUnmatched(errors: seq<PyException>, budget: nat, i: nat)
    requires i <= |errors|
    requires forall j :: 0 <= j < i ==> !MatchesScan(errors[j])
    ensures ScanExceptions(errors, budget) == ScanExceptions(errors[i..], budget)
  {
    if i > 0 {
      var rest := errors[1..];
      assert !MatchesScan(errors[0]);
      forall j | 0 <= j < i - 1
        ensures !MatchesScan(rest[j])
      {
        assert rest[j] == errors[j + 1];
      }
      ScanSkipsUnmatched(rest, budget, i - 1);
      assert rest[i - 1..] == errors[i..];
    }
  }

  /** When the first matching exception is a closed connection, or a quota error
      whose two notices the socket takes, the scan is handled there and delivers
      exactly that exception's notices. */
  lemma ScanStopsAtFirstMatch(errors: seq<PyException>, budget: nat, i: int)
    requires FirstMatch(errors, i)
    requires IsQuotaExceeded(errors[i]) ==> budget >= 2
    ensures ScanExceptions(errors, budget) == Scan(true, NoticesFor(errors[i]), Left(NoticesFor(errors[i]), budget))
  {
    ScanSkipsUnmatched(errors, budget, i);
    assert errors[i..][0] == errors[i];
  }

  /** When no exception matches, the scan is not handled and delivers nothing. */
  lemma ScanFindsNoMatch(errors: seq<PyException>, budget: nat)
    requires forall i :: 0 <= i < |errors| ==> !MatchesScan(errors[i])
    ensures ScanExceptions(errors, budget) == Scan(false, [], budget)
  {
    ScanSkipsUnmatched(errors, budget, |errors|);
    assert errors[|errors|..] == [];
  }

  /** With the socket gone the scan delivers nothing, and it is handled exactly
      when some exception that is not a quota error mentions a closed connection. */
  lemma {:induction false} ScanWithoutPeer(errors: seq<PyException>)
    ensures ScanExceptions(errors, 0).sent == [] && ScanExceptions(errors, 0).left == 0
    ensures ScanExceptions(errors, 0).handled <==>
      exists i :: 0 <= i < |errors| && !IsQuotaExceeded(errors[i]) && IsConnectionClosed(errors[i])
  {
    if errors != [] {
      var rest := errors[1..];
      ScanWithoutPeer(rest);
      if IsQuotaExceeded(errors[0]) || !IsConnectionClosed(errors[0]) {
        forall i | 1 <= i < |errors|
          ensures errors[i] == rest[i - 1]
        {
        }
        forall j | 0 <= j < |rest|
          ensures rest[j] == errors[j + 1]
        {
        }
      }
    }
  }

  /** A quota error whose notices the socket cannot take delivers the part it
      takes; the scan then goes on with the socket gone, and is handled exactly
      when a later non-quota exception mentions a closed connection. */
  lemma QuotaNoticesCutShort(errors: seq<PyException>, budget: nat, i: int)
    requires FirstMatch(errors, i) && IsQuotaExceeded(errors[i]) && budget < 2
    ensures var s := ScanExceptions(errors, budget);
      && s.sent == Take(QuotaNotices, budget) && s.left == 0
      && (s.handled <==> exists j :: i < j < |errors| && !IsQuotaExceeded(errors[j]) && IsConnectionClosed(errors[j]))
  {
    ScanSkipsUnmatched(errors, budget, i);
    var rest := errors[i + 1..];
    assert errors[i..][0] == errors[i] && errors[i..][1..] == rest;
    ScanWithoutPeer(rest);
    forall j | i < j < |errors|
      ensures errors[j] == rest[j - i - 1]
    {
    }
    forall k | 0 <= k < |rest|
      ensures rest[k] == errors[i + 1 + k]
    {
    }
    assert Take(QuotaNotices, budget) + [] == Take(QuotaNotices, budget);
  }

  /** The `try` block of the quota branch: the `error` message through
      `send_error_message`, which swallows its own failure, then the chat
      warning; `ok` is false when the warning's send raised. */
  method SendQuotaNotices(ws: ClientSocket) returns (ok: bool)
    modifies ws`sent, ws`budget
    ensures ws.sent == old(ws.sent) + Take(QuotaNotices, old(ws.budget))
    ensures ws.budget == Left(QuotaNotices, old(ws.budget))
    ensures ok == (old(ws.budget) >= 2)
  {
    SendErrorMessage(ws, QuotaErrorData);
    ok := ws.Send(Text(QuotaWarning));
    TakeAppend([Error(QuotaErrorData)], [Text(QuotaWarning)], old(ws.budget));
  }

  /** How `handle_messages` ends: the TaskGroup finished without errors; its
      errors were handled; or the group is re-raised. */
  datatype PumpOutcome = PumpCompleted | PumpHandled | PumpReraised(errors: seq<PyException>)

  /** `handle_messages`, given the exceptions its TaskGroup raised (none when
      both loops finished normally): the scan of `eg.exceptions`. */
  method HandleMessages(ws: ClientSocket, errors: seq<PyException>) returns (outcome: PumpOutcome)
    modifies ws`sent, ws`budget
    ensures var s := ScanExceptions(errors, old(ws.budget));
      && ws.sent == old(ws.sent) + s.sent
      && ws.budget == s.left
      && outcome == if errors == [] then PumpCompleted else if s.handled then PumpHandled else PumpReraised(errors)
  {
    if errors == [] {
      return PumpCompleted;
    }
    ghost var b0 := ws.budget;
    ghost var pre: seq<ServerMessage> := [];
    var handled := false;
    var i := 0;
    assert [] + ScanExceptions(errors, b0).sent == ScanExceptions(errors, b0).sent;
    while i < |errors|
      invariant 0 <= i <= |errors|
      invariant ws.sent == old(ws.sent) + pre
      invariant var r := ScanExceptions(errors[i..], ws.budget);
        ScanExceptions(errors, b0) == Scan(r.handled, pre + r.sent, r.left)
      invariant !handled
    {
      var exc := errors[i];
      assert errors[i..][0] == exc && errors[i..][1..] == errors[i + 1..];
      if Contains(exc.text, "Quota exceeded") {
        ghost var bi := ws.budget;
        var ok := SendQuotaNotices(ws);
        if ok {
          handled := true;
          break;
        }
        // the failed send is logged and the scan moves on
        assert pre + Take(QuotaNotices, bi) + ScanExceptions(errors[i + 1..], 0).sent
            == pre + (Take(QuotaNotices, bi) + ScanExceptions(errors[i + 1..], 0).sent);
        pre := pre + Take(QuotaNotices, bi);
      } else if Contains(Lower(exc.text), "connection closed") {
        handled := true;
        break;
      }
      i := i + 1;
    }
    if !handled {
      assert errors[i..] == [];
      assert pre + [] == pre;
    }
    outcome := if handled then PumpHandled else PumpReraised(errors);
  }

  // ------------------------------------------------------------------ handle_client: classification

  const ConnectionClosedErrorData := ErrorData("Connection closed unexpectedly", "Reconnecting...", ConnectionClosed)
  const TimeoutErrorData := ErrorData("Session timed out due to inactivity.", "You can start a new conversation.", Timeout)
  const GeneralErrorData := ErrorData("An unexpected error occurred.", "Please try again.", General)

  /** What reaches `handle_client`'s handlers: an exception from opening the
      upstream session or sending the ready signal, or the exception group
      `handle_messages` re-raises. */
  datatype ClientFailure = SetupFailure(error: PyException) | PumpFailure(errors: seq<PyException>)

  /** The first words of the TaskGroup's message. */
  const TaskGroupOpening: string := "unhandled errors "
  const TaskGroupName: string := "in a TaskGroup ("
  const TaskGroupCount: string := " sub-exception"

  /** `str()` of the `ExceptionGroup` an `asyncio.TaskGroup` raises with `n` errors. */
  function TaskGroupMessage(n: nat): string
  {
    TaskGroupOpening + TaskGroupName + NatToDecimal(n) + TaskGroupCount + (if n > 1 then "s" else "") + ")"
  }

  /** `str(e)` of a failure. */
  function FailureText(f: ClientFailure): string
  {
    match f
    case SetupFailure(e) => e.text
    case PumpFailure(errors) => TaskGroupMessage(|errors|)
  }

  /** The abnormal-close test in the pump's handler. */
  predicate IsAbnormalClose(text: string)
  {
    Contains(text, "code = 1006") || Contains(Lower(text), "connection closed abnormally")
  }

  /** The closed-connection test in the generic handler. */
  predicate IsClosedSocket(text: string)
  {
    Contains(Lower(text), "connection closed") || Contains(Lower(text), "websocket")
  }

  /** `handle_client`'s classification AS WRITTEN: the string tests look at
      `str(e)`, which for a pump failure is the TaskGroup's own message. */
  function ClientErrorAsWritten(f: ClientFailure): Option<ErrorData>
  {
    if f.PumpFailure? && IsAbnormalClose(FailureText(f)) then Some(ConnectionClosedErrorData)
    else if f.SetupFailure? && f.error.cls == TimeoutError then Some(TimeoutErrorData)
    else if IsClosedSocket(FailureText(f)) then None
    else Some(GeneralErrorData)
  }

  /** A string of decimal digits contains no character that is not a digit. */
  lemma DigitsAvoid(digits: string, c: char)
    requires forall i :: 0 <= i < |digits| ==> IsDigit(digits[i])
    requires !IsDigit(c)
    ensures c !in digits
  {
  }

  /** The pieces of the TaskGroup's message hold none of '=', 'w' or 'y' in
      either case, and no space before a 'c' in either case. */
  lemma OpeningLetters()
    ensures '=' !in TaskGroupOpening && 'y' !in TaskGroupOpening && 'Y' !in TaskGroupOpening
    ensures 'w' !in TaskGroupOpening && 'W' !in TaskGroupOpening
    ensures PairFree(TaskGroupOpening, ' ', 'c') && PairFree(TaskGroupOpening, ' ', 'C')
  {
  }

  lemma NameLetters()
    ensures '=' !in TaskGroupName && 'y' !in TaskGroupName && 'Y' !in TaskGroupName
    ensures 'w' !in TaskGroupName && 'W' !in TaskGroupName
    ensures PairFree(TaskGroupName, ' ', 'c') && PairFree(TaskGroupName, ' ', 'C')
  {
  }

  lemma CountLetters()
    ensures '=' !in TaskGroupCount && 'y' !in TaskGroupCount && 'Y' !in TaskGroupCount
    ensures 'w' !in TaskGroupCount && 'W' !in TaskGroupCount
    ensures PairFree(TaskGroupCount, ' ', 'c') && PairFree(TaskGroupCount, ' ', 'C')
  {
  }

  /** The TaskGroup's message contains none of '=', 'w' or 'y' in either case. */
  lemma TaskGroupMessageLetters(n: nat)
    ensures var m := TaskGroupMessage(n);
      '=' !in m && 'y' !in m && 'Y' !in m && 'w' !in m && 'W' !in m
  {
    var digits := NatToDecimal(n);
    DigitsAvoid(digits, '=');
    DigitsAvoid(digits, 'y');
    DigitsAvoid(digits, 'Y');
    DigitsAvoid(digits, 'w');
    DigitsAvoid(digits, 'W');
    OpeningLetters();
    NameLetters();
    CountLetters();
  }

  /** No space in the TaskGroup's message is followed by a 'c' in either case. */
  lemma TaskGroupMessagePairs(n: nat, c: char)
    requires c == 'c' || c == 'C'
    ensures PairFree(TaskGroupMessage(n), ' ', c)
  {
    var digits := NatToDecimal(n);
    var tail: string := if n > 1 then "s" else "";
    OpeningLetters();
    NameLetters();
    CountLetters();
    assert PairFree(digits, ' ', c);
    PairFreeAppend(TaskGroupOpening, TaskGroupName, ' ', c);
    var a := TaskGroupOpening + TaskGroupName;
    assert a[|a| - 1] == '(';
    PairFreeAppend(a, digits, ' ', c);
    var b := a + digits;
    assert b[|b| - 1] == digits[|digits| - 1];
    PairFreeAppend(b, TaskGroupCount, ' ', c);
    var d := b + TaskGroupCount;
    assert d[|d| - 1] == 'n';
    PairFreeAppend(d, tail, ' ', c);
    var e := d + tail;
    assert e[|e| - 1] == 'n' || e[|e| - 1] == 's';
    PairFreeAppend(e, ")", ' ', c);
  }

  /** The TaskGroup's message fails the abnormal-close test. */
  lemma TaskGroupMessageNotAbnormal(n: nat)
    ensures !IsAbnormalClose(TaskGroupMessage(n))
  {
    TaskGroupMessageLetters(n);
    NoAbnormalWithoutEqualsOrY(TaskGroupMessage(n));
  }

  /** The TaskGroup's message fails the closed-socket test. */
  lemma TaskGroupMessageNotClosedSocket(n: nat)
    ensures !IsClosedSocket(TaskGroupMessage(n))
  {
    TaskGroupMessageLetters(n);
    TaskGroupMessagePairs(n, 'c');
    TaskGroupMessagePairs(n, 'C');
    NoWebsocketWithoutW(TaskGroupMessage(n));
    NoClosedWithoutSpaceC(TaskGroupMessage(n));
  }

  /** A text without '=' and without 'y' in either case mentions neither
      "code = 1006" nor, in any case, "connection closed abnormally". */
  lemma NoAbnormalWithoutEqualsOrY(text: string)
    requires '=' !in text && 'y' !in text && 'Y' !in text
    ensures !IsAbnormalClose(text)
  {
    if Contains(text, "code = 1006") {
      ContainedCharOccurs(text, "code = 1006", '=');
    }
    LowerKeepsCharOut(text, 'y');
    if Contains(Lower(text), "connection closed abnormally") {
      ContainedCharOccurs(Lower(text), "connection closed abnormally", 'y');
    }
  }

  /** A text without 'w' in either case does not mention "websocket", in any case. */
  lemma NoWebsocketWithoutW(text: string)
    requires 'w' !in text && 'W' !in text
    ensures !Contains(Lower(text), "websocket")
  {
    LowerKeepsCharOut(text, 'w');
    if Contains(Lower(text), "websocket") {
      ContainedCharOccurs(Lower(text), "websocket", 'w');
    }
  }

  /** A text with no space before a 'c' in either case does not mention
      "connection closed", in any case. */
  lemma NoClosedWithoutSpaceC(text: string)
    requires PairFree(text, ' ', 'c') && PairFree(text, ' ', 'C')
    ensures !Contains(Lower(text), "connection closed")
  {
    LowerKeepsPairOut(text, ' ', 'c');
    if Contains(Lower(text), "connection closed") {
      assert "connection closed"[10] == ' ' && "connection closed"[11] == 'c';
      ContainedPairOccurs(Lower(text), "connection closed", 10);
    }
  }

  /** As written, every pump failure is reported as `general`: the TaskGroup's
      message never contains "code = 1006", "connection closed abnormally",
      "connection closed" or "websocket", in any case. */
  lemma PumpFailureReportedAsGeneral(errors: seq<PyException>)
    ensures ClientErrorAsWritten(PumpFailure(errors)) == Some(GeneralErrorData)
  {
    TaskGroupMessageNotAbnormal(|errors|);
    TaskGroupMessageNotClosedSocket(|errors|);
  }

  /** `handle_client`'s classification as evidently intended: the abnormal-close
      and closed-socket tests look at the messages of the TaskGroup's errors. */
  function ClientError(f: ClientFailure): Option<ErrorData>
  {
    match f
    case SetupFailure(e) =>
      if e.cls == TimeoutError then Some(TimeoutErrorData)
      else if IsClosedSocket(e.text) then None
      else Some(GeneralErrorData)
    case PumpFailure(errors) =>
      if exists i :: 0 <= i < |errors| && IsAbnormalClose(errors[i].text) then Some(ConnectionClosedErrorData)
      else if exists i :: 0 <= i < |errors| && IsClosedSocket(errors[i].text) then None
      else Some(GeneralErrorData)
  }

  /** The intended classification reports `connection_closed` exactly for the
      pump failures with an abnormal-close error, `timeout` exactly for setup
      timeouts, and agrees with the code as written on every setup failure. */
  lemma ClientErrorClassifies(f: ClientFailure)
    ensures ClientError(f) == Some(ConnectionClosedErrorData) <==>
      f.PumpFailure? && exists i :: 0 <= i < |f.errors| && IsAbnormalClose(f.errors[i].text)
    ensures ClientError(f) == Some(TimeoutErrorData) <==> f.SetupFailure? && f.error.cls == TimeoutError
    ensures f.SetupFailure? ==> ClientError(f) == ClientErrorAsWritten(f)
  {
  }

  // ------------------------------------------------------------------ cleanup_session

  /** The steps of `cleanup_session`, in the order it takes them. */
  datatype CleanupStep = CancelledToolExecution | ClosedUpstream(failed: bool) | RemovedSession

  /** `cleanup_session`: with a session, cancel and await its tool execution if
      set, close its upstream session if set (a failed close is logged), then
      remove the id; with no session, nothing. It never raises. */
  method CleanupSession(registry: SessionRegistry, session: SessionState?, id: string)
    returns (steps: seq<CleanupStep>)
    modifies registry`activeSessions
    modifies if session != null && session.currentToolExecution != null then {session.currentToolExecution} else {}
    modifies if session != null && session.genaiSession != null then {session.genaiSession} else {}
    ensures session == null ==> registry.activeSessions == old(registry.activeSessions) && steps == []
    ensures session != null ==> registry.activeSessions == old(registry.activeSessions) - {id}
    ensures session != null ==>
      steps == (if session.currentToolExecution != null then [CancelledToolExecution] else [])
               + (if session.genaiSession != null then [ClosedUpstream(session.genaiSession.closeFails)] else [])
               + [RemovedSession]
    ensures session != null && session.currentToolExecution != null ==> session.currentToolExecution.cancelled
    ensures session != null && session.genaiSession != null ==>
      && session.genaiSession.budget == 0
      && session.genaiSession.closeCalls == old(session.genaiSession.closeCalls) + 1
      && session.genaiSession.sent == old(session.genaiSession.sent)
  {
    steps := [];
    if session != null {
      if session.currentToolExecution != null {
        session.currentToolExecution.CancelAndAwait();
        steps := steps + [CancelledToolExecution];
      }
      if session.genaiSession != null {
        var ok := session.genaiSession.Close();
        steps := steps + [ClosedUpstream(!ok)];
      }
      registry.RemoveSession(id);
      steps := steps + [RemovedSession];
    }
  }

  /** Cleanup twice in a row never raises; after the first the id is gone, and
      the second leaves the registry as the first left it. */
  method CleanupTwice(registry: SessionRegistry, session: SessionState, id: string)
    modifies registry`activeSessions, session.currentToolExecution, session.genaiSession
    ensures registry.activeSessions == old(registry.activeSessions) - {id}
  {
    var first := CleanupSession(registry, session, id);
    assert id !in registry.activeSessions;
    var afterFirst := registry.activeSessions;
    var second := CleanupSession(registry, session, id);
    assert registry.activeSessions == afterFirst;
  }

  // ------------------------------------------------------------------ handle_client

  /** How opening the upstream session went. */
  datatype ConnectResult = Connected | ConnectFailed(error: PyException)

  function ErrorMessages(e: Option<ErrorData>): seq<ServerMessage>
  {
    if e.Some? then [Error(e.value)] else []
  }

  /** Everything `handle_client` sends to the browser under a classification of
      the failures that reach its handlers, given how the upstream connect went,
      the sends the socket takes, and what the pump's TaskGroup raised. */
  function ClientTraceUnder(classify: ClientFailure -> Option<ErrorData>, connect: ConnectResult, budget: nat,
                            pumpErrors: seq<PyException>): seq<ServerMessage>
  {
    match connect
    case ConnectFailed(e) => Take(ErrorMessages(classify(SetupFailure(e))), budget)
    case Connected =>
      if budget == 0 then []
      else
        var scan := ScanExceptions(pumpErrors, budget - 1);
        [Ready] + scan.sent +
        (if pumpErrors != [] && !scan.handled then Take(ErrorMessages(classify(PumpFailure(pumpErrors))), scan.left) else [])
  }

  /** The trace of `handle_client` as written. */
  function ClientTrace(connect: ConnectResult, budget: nat, pumpErrors: seq<PyException>): seq<ServerMessage>
  {
    ClientTraceUnder(ClientErrorAsWritten, connect, budget, pumpErrors)
  }

  /** The trace of `handle_client` with the evidently intended classification. */
  function IntendedClientTrace(connect: ConnectResult, budget: nat, pumpErrors: seq<PyException>): seq<ServerMessage>
  {
    ClientTraceUnder(ClientError, connect, budget, pumpErrors)
  }

  /** The failure, if any, that reaches `handle_client`'s handlers once the
      upstream session is open: the ready send fails when the socket is gone,
      or the pump re-raises its TaskGroup's errors. */
  method RunSession(ws: ClientSocket, pumpErrors: seq<PyException>) returns (failure: Option<ClientFailure>)
    modifies ws`sent, ws`budget
    ensures old(ws.budget) == 0 ==>
      ws.sent == old(ws.sent) && ws.budget == 0 && failure == Some(SetupFailure(ws.closedError))
    ensures old(ws.budget) > 0 ==>
      var scan := ScanExceptions(pumpErrors, old(ws.budget) - 1);
      && ws.sent == old(ws.sent) + [Ready] + scan.sent
      && ws.budget == scan.left
      && failure == if pumpErrors != [] && !scan.handled then Some(PumpFailure(pumpErrors)) else None
  {
    failure := None;
    var ok := ws.Send(Ready);
    if !ok {
      failure := Some(SetupFailure(ws.closedError));
    } else {
      var outcome := HandleMessages(ws, pumpErrors);
      if outcome.PumpReraised? {
        failure := Some(PumpFailure(pumpErrors));
      }
    }
  }

  /** `handle_client`'s handlers: the error the code as written classifies, if any, is sent. */
  method ReportFailure(ws: ClientSocket, failure: Option<ClientFailure>)
    modifies ws`sent, ws`budget
    ensures var msgs := if failure.Some? then ErrorMessages(ClientErrorAsWritten(failure.value)) else [];
      ws.sent == old(ws.sent) + Take(msgs, old(ws.budget)) && ws.budget == Left(msgs, old(ws.budget))
  {
    if failure.Some? {
      var error := ClientErrorAsWritten(failure.value);
      if error.Some? {
        SendErrorMessage(ws, error.value);
      }
    }
  }

  /** `handle_client` for one connection with id `id`: create the session, open
      the upstream session (or fail to), send the ready signal, run the pump
      (whose errors are given), classify whatever escaped, and always clean up. */
  method HandleClient(registry: SessionRegistry, ws: ClientSocket, id: string, connect: ConnectResult,
                      upstream: UpstreamSession, pumpErrors: seq<PyException>)
    modifies registry`activeSessions, ws`sent, ws`budget, upstream
    ensures registry.activeSessions == old(registry.activeSessions) - {id}
    ensures ws.sent == old(ws.sent) + ClientTrace(connect, old(ws.budget), pumpErrors)
    ensures connect.Connected? ==> upstream.budget == 0 && upstream.closeCalls == old(upstream.closeCalls) + 1
    ensures connect.ConnectFailed? ==> upstream.budget == old(upstream.budget) && upstream.closeCalls == old(upstream.closeCalls)
    ensures upstream.sent == old(upstream.sent)
  {
    var session := registry.CreateSession(id);
    var failure: Option<ClientFailure>;
    if connect.ConnectFailed? {
      failure := Some(SetupFailure(connect.error));
    } else {
      session.genaiSession := upstream;
      failure := RunSession(ws, pumpErrors);
    }
    ReportFailure(ws, failure);
    var steps := CleanupSession(registry, session, id);
  }

  /** A quota error in the pump ends the connection quietly when the socket takes
      the notices: ready, the two quota notices, and no further error. */
  lemma QuotaEndsConnectionQuietly(pumpErrors: seq<PyException>, i: nat, budget: nat)
    requires FirstMatch(pumpErrors, i) && IsQuotaExceeded(pumpErrors[i]) && budget >= 3
    ensures ClientTrace(Connected, budget, pumpErrors) == [Ready, Error(QuotaErrorData), Text(QuotaWarning)]
  {
    ScanStopsAtFirstMatch(pumpErrors, budget - 1, i);
  }

  /** A pump error whose message mentions a closed connection (and that no
      earlier error matches) ends the connection silently after the ready signal. */
  lemma ClosedConnectionIsSilent(pumpErrors: seq<PyException>, i: nat, budget: nat)
    requires FirstMatch(pumpErrors, i) && !IsQuotaExceeded(pumpErrors[i])
    ensures ClientTrace(Connected, budget, pumpErrors) == Take([Ready], budget)
  {
    if budget > 0 {
      ScanStopsAtFirstMatch(pumpErrors, budget - 1, i);
    }
  }

  /** Under either classification, a pump whose errors nothing matches gets the
      ready signal and then the classified error, as far as the socket takes them. */
  lemma UnhandledTrace(classify: ClientFailure -> Option<ErrorData>, pumpErrors: seq<PyException>, budget: nat)
    requires forall i :: 0 <= i < |pumpErrors| ==> !MatchesScan(pumpErrors[i])
    ensures ClientTraceUnder(classify, Connected, budget, pumpErrors) ==
      Take([Ready] + (if pumpErrors == [] then [] else ErrorMessages(classify(PumpFailure(pumpErrors)))), budget)
  {
    if budget > 0 {
      ScanFindsNoMatch(pumpErrors, budget - 1);
      var tail := if pumpErrors == [] then [] else ErrorMessages(classify(PumpFailure(pumpErrors)));
      TakeAppend([Ready], tail, budget);
    }
  }

  /** A pump whose errors nothing handles gets, after the ready signal, a
      `general` error as written, and the intended classification of its errors
      as intended; a pump that completes gets only the ready signal. */
  lemma UnhandledPumpFailureIsReported(pumpErrors: seq<PyException>, budget: nat)
    requires forall i :: 0 <= i < |pumpErrors| ==> !MatchesScan(pumpErrors[i])
    ensures ClientTrace(Connected, budget, pumpErrors) ==
      Take([Ready] + (if pumpErrors == [] then [] else [Error(GeneralErrorData)]), budget)
    ensures IntendedClientTrace(Connected, budget, pumpErrors) ==
      Take([Ready] + (if pumpErrors == [] then [] else ErrorMessages(ClientError(PumpFailure(pumpErrors)))), budget)
  {
    PumpFailureReportedAsGeneral(pumpErrors);
    UnhandledTrace(ClientErrorAsWritten, pumpErrors, budget);
    UnhandledTrace(ClientError, pumpErrors, budget);
  }

  /** A timeout while opening the upstream session is reported as `timeout`. */
  lemma ConnectTimeoutIsReported(text: string, pumpErrors: seq<PyException>, budget: nat)
    ensures ClientTrace(ConnectFailed(PyException(TimeoutError, text)), budget, pumpErrors) == Take([Error(TimeoutErrorData)], budget)
  {
  }

  /** The two classifications give the same trace except when the pump's errors
      reach `handle_client`. */
  lemma TracesDifferOnlyOnPumpFailure(connect: ConnectResult, budget: nat, pumpErrors: seq<PyException>)
    ensures connect.ConnectFailed? || budget == 0 || pumpErrors == [] || ScanExceptions(pumpErrors, budget - 1).handled ==>
      ClientTrace(connect, budget, pumpErrors) == IntendedClientTrace(connect, budget, pumpErrors)
  {
    if connect.ConnectFailed? {
      ClientErrorClassifies(SetupFailure(connect.error));
    }
  }

  // ------------------------------------------------------------------ finding: the abnormal close is never recognised

  /** The browser's abnormal-close message. */
  const AbnormalCloseText: string := "code = 1006"

  /** A message that begins with the abnormal-close code matches the abnormal-close test. */
  lemma AbnormalCodeMatches(text: string)
    requires StartsWith(text, "code = 1006")
    ensures IsAbnormalClose(text)
  {
  }

  /** A message without 'Q' and without 'n' in either case matches neither test of the scan. */
  lemma UnmatchedByScan(e: PyException)
    requires 'Q' !in e.text && 'n' !in e.text && 'N' !in e.text
    ensures !MatchesScan(e)
  {
    if Contains(e.text, "Quota exceeded") {
      ContainedCharOccurs(e.text, "Quota exceeded", 'Q');
    }
    LowerKeepsCharOut(e.text, 'n');
    if Contains(Lower(e.text), "connection closed") {
      ContainedCharOccurs(Lower(e.text), "connection closed", 'n');
    }
  }

  /** The input that shows it: a TaskGroup whose only error is the browser's
      abnormal close, such as "code = 1006". The scan of `handle_messages` does
      not handle it, so it is re-raised; as written the browser then receives a
      `general` error, as intended a `connection_closed` one. */
  lemma AbnormalCloseMissedAsWritten(e: PyException, budget: nat)
    requires StartsWith(e.text, "code = 1006")
    requires 'Q' !in e.text && 'n' !in e.text && 'N' !in e.text
    ensures ClientTrace(Connected, budget, [e]) == Take([Ready, Error(GeneralErrorData)], budget)
    ensures IntendedClientTrace(Connected, budget, [e]) == Take([Ready, Error(ConnectionClosedErrorData)], budget)
  {
    AbnormalCodeMatches(e.text);
    UnmatchedByScan(e);
    assert [e][0] == e;
    UnhandledPumpFailureIsReported([e], budget);
  }

  /** The concrete message "code = 1006" satisfies the lemma's requirements. */
  lemma AbnormalCloseExample()
    ensures var e := PyException(OtherException, AbnormalCloseText);
      && ClientTrace(Connected, 2, [e]) == [Ready, Error(GeneralErrorData)]
      && IntendedClientTrace(Connected, 2, [e]) == [Ready, Error(ConnectionClosedErrorData)]
  {
    var e := PyException(OtherException, AbnormalCloseText);
    assert StartsWith(e.text, "code = 1006");
    assert 'Q' !in e.text && 'n' !in e.text && 'N' !in e.text;
    AbnormalCloseMissedAsWritten(e, 2);
  }
}
