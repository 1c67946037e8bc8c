/** The loop of `process_tool_queue` (server/core/websocket_handler.py): batches
    are taken off the queue in order and each one is handled by
    `WebSocketHandler.ProcessToolBatch`. The traffic of the whole run is
    `WebSocketHandler.QueueEffect`. */
module ToolQueueLoop {
  import opened Protocol
  import opened Runtime
  import opened Session
  import opened WebSocketHandler

  /** One turn of `process_tool_queue`'s loop: the next batch is taken off the
      queue and processed, and the traffic so far, that of the first n batches
      on top of `sent0` and `upSent0`, grows to that of the first n + 1. */
  method ProcessNextBatch(queue: ToolQueue, ws: ClientSocket, session: SessionState, task: ToolTask,
             ghost batches: seq<ToolCallBatch>, ghost n: nat, ghost b0: nat, ghost up: UpstreamState,
             ghost sent0: seq<ServerMessage>, ghost upSent0: seq<UpstreamSend>)
    requires n < |batches| && queue.items == batches[n..]
    requires ws.sent == sent0 + QueueEffect(batches[..n], b0, up).sent
    requires ws.budget == QueueEffect(batches[..n], b0, up).clientLeft
    requires (if session.genaiSession == null then NoUpstream else Upstream(session.genaiSession.budget))
             == QueueEffect(batches[..n], b0, up).upAfter
    requires session.genaiSession != null ==> session.genaiSession.sent == upSent0 + QueueEffect(batches[..n], b0, up).upstream
    modifies queue, ws`sent, ws`budget, session`currentToolExecution, session.genaiSession
    ensures queue.items == batches[n + 1..]
    ensures session.genaiSession == old(session.genaiSession)
    ensures ws.sent == sent0 + QueueEffect(batches[..n + 1], b0, up).sent
    ensures ws.budget == QueueEffect(batches[..n + 1], b0, up).clientLeft
    ensures (if session.genaiSession == null then NoUpstream else Upstream(session.genaiSession.budget))
            == QueueEffect(batches[..n + 1], b0, up).upAfter
    ensures session.genaiSession != null ==> session.genaiSession.sent == upSent0 + QueueEffect(batches[..n + 1], b0, up).upstream
    ensures session.genaiSession != null ==> session.genaiSession.closeCalls == old(session.genaiSession.closeCalls)
  {
    ghost var q := QueueEffect(batches[..n], b0, up);
    QueueEffectStep(batches, n, b0, up);
    var batch := queue.Get();
    assert batch == batches[n];
    ghost var e := ToolBatchEffect(batch, ws.budget,
                                  (if session.genaiSession == null then NoUpstream else Upstream(session.genaiSession.budget)));
    var raised := ProcessToolBatch(ws, session, batch, task);
    assert ws.sent == sent0 + (q.sent + e.sent);
  }

  /** `process_tool_queue` while batches are waiting: each batch is taken in
      queue order and processed fully before the next one; a batch that raises
      is logged and the loop goes on. */
  method ProcessToolQueue(queue: ToolQueue, ws: ClientSocket, session: SessionState, task: ToolTask)
    modifies queue, ws`sent, ws`budget, session`currentToolExecution, session.genaiSession
    ensures queue.items == []
    ensures var e := QueueEffect(old(queue.items), old(ws.budget),
                            old(if session.genaiSession == null then NoUpstream else Upstream(session.genaiSession.budget)));
      && ws.sent == old(ws.sent) + e.sent
      && ws.budget == e.clientLeft
      && (if session.genaiSession == null then NoUpstream else Upstream(session.genaiSession.budget))
         == e.upAfter
      && (session.genaiSession != null ==> session.genaiSession.sent == old(session.genaiSession.sent) + e.upstream)
    ensures session.genaiSession != null ==> session.genaiSession.closeCalls == old(session.genaiSession.closeCalls)
  {
    ghost var batches := queue.items;
    ghost var b0 := ws.budget;
    ghost var up := if session.genaiSession == null then NoUpstream else Upstream(session.genaiSession.budget);
    ghost var g := session.genaiSession;
    ghost var upSent0 := if g != null then g.sent else [];
    var n := 0;
    while queue.items != []
      invariant 0 <= n <= |batches| && queue.items == batches[n..]
      invariant session.genaiSession == g
      invariant ws.sent == old(ws.sent) + QueueEffect(batches[..n], b0, up).sent
      invariant ws.budget == QueueEffect(batches[..n], b0, up).clientLeft
      invariant (if session.genaiSession == null then NoUpstream else Upstream(session.genaiSession.budget))
                == QueueEffect(batches[..n], b0, up).upAfter
      invariant g != null ==> g.sent == upSent0 + QueueEffect(batches[..n], b0, up).upstream
      invariant g != null ==> g.closeCalls == old(g.closeCalls)
      decreases |queue.items|
    {
      ProcessNextBatch(queue, ws, session, task, batches, n, b0, up, old(ws.sent), upSent0);
      n := n + 1;
    }
    assert batches[..n] == batches;
  }
}
