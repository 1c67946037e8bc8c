/** Stand-ins for the objects the handler talks to but does not implement: the
    browser's websocket, the upstream Gemini live session, the asyncio task that
    executes tool calls, and the asyncio queue of pending tool-call batches.
    Every send is an append to a trace. A connection takes a budget of further
    sends and then drops: a send that raises leaves the trace unchanged and
    reports failure to its caller, so a disconnect part-way through a run of
    sends leaves the prefix delivered before it. */
module Runtime {
  import opened Protocol

  /** What a connection that takes `budget` more sends delivers of `msgs` sent
      one after another: all of them, or the ones before the send that raises. */
  function Take<T>(msgs: seq<T>, budget: nat): (r: seq<T>)
    ensures |r| <= budget && |r| <= |msgs|
    ensures |msgs| <= budget ==> r == msgs
    ensures budget < |msgs| ==> r == msgs[..budget]
  {
    if |msgs| <= budget then msgs else msgs[..budget]
  }

  /** How many more sends the connection takes after `msgs`: none once a send has raised. */
  function Left<T>(msgs: seq<T>, budget: nat): (r: nat)
    ensures r <= budget
    ensures |msgs| <= budget ==> r == budget - |msgs|
    ensures budget < |msgs| ==> r == 0
  {
    if |msgs| <= budget then budget - |msgs| else 0
  }

  /** Sending two runs one after the other delivers the first run's part and
      then the second's, on what the first left of the budget. */
  lemma TakeAppend<T>(a: seq<T>, b: seq<T>, budget: nat)
    ensures Take(a + b, budget) == Take(a, budget) + Take(b, Left(a, budget))
    ensures Left(a + b, budget) == Left(b, Left(a, budget))
  {
    if |a| <= budget {
      if |a + b| > budget {
        assert (a + b)[..budget] == a + b[..budget - |a|];
      }
    } else {
      assert (a + b)[..budget] == a[..budget];
    }
  }

  /** Everything delivered was among the messages sent. */
  lemma TakeElements<T>(msgs: seq<T>, budget: nat)
    ensures forall m :: m in Take(msgs, budget) ==> m in msgs
  {
    forall m | m in Take(msgs, budget)
      ensures m in msgs
    {
      var i :| 0 <= i < |Take(msgs, budget)| && Take(msgs, budget)[i] == m;
      assert msgs[i] == m;
    }
  }

  /** A connection that takes exactly the first messages of a longer run
      delivers those and has nothing left. */
  lemma TakeFront<T>(front: seq<T>, rest: seq<T>)
    requires rest != []
    ensures Take(front + rest, |front|) == front
    ensures Left(front + rest, |front|) == 0
  {
    assert (front + rest)[..|front|] == front;
  }

  /** A connection that drops part-way through a group of messages delivers
      what came before the group and the part of the group it took. */
  lemma TakeWithin<T>(msgs: seq<T>, front: seq<T>, group: seq<T>, taken: nat)
    requires |front| + |group| <= |msgs| && msgs[..|front| + |group|] == front + group
    requires taken <= |group|
    ensures Take(msgs, |front| + taken) == front + Take(group, taken)
  {
    assert msgs[..|front| + taken] == (front + group)[..|front| + taken];
    assert (front + group)[..|front| + taken] == front + group[..taken];
  }

  /** The browser's websocket. The peer takes `budget` more messages and then
      goes away; from then on every send raises `closedError`. A budget of 0 is
      a socket whose peer has already gone. */
  class ClientSocket {
    var sent: seq<ServerMessage>
    var budget: nat
    const closedError: PyException

    constructor (budget: nat, closedError: PyException)
      ensures this.budget == budget && this.closedError == closedError && sent == []
    {
      this.budget := budget;
      this.closedError := closedError;
      sent := [];
    }

    /** `await websocket.send(json.dumps(m))`; `ok` is false when it raised. */
    method Send(m: ServerMessage) returns (ok: bool)
      modifies this`sent, this`budget
      ensures ok == (old(budget) > 0)
      ensures sent == old(sent) + Take([m], old(budget))
      ensures budget == Left([m], old(budget))
    {
      ok := budget > 0;
      if ok {
        sent := sent + [m];
        budget := budget - 1;
      }
    }
  }

  /** The upstream live session. It takes `budget` more sends before its
      connection drops; `close()` ends it (budget 0) and may itself fail, after
      which the session counts as closed all the same. */
  class UpstreamSession {
    var sent: seq<UpstreamSend>
    var budget: nat
    var closeCalls: nat
    const closeFails: bool

    constructor (budget: nat, closeFails: bool)
      ensures this.budget == budget && sent == [] && closeCalls == 0 && this.closeFails == closeFails
    {
      this.closeFails := closeFails;
      this.budget := budget;
      sent := [];
      closeCalls := 0;
    }

    /** `await session.send(input=..., end_of_turn=...)`; `ok` is false when it raised. */
    method Send(s: UpstreamSend) returns (ok: bool)
      modifies this`sent, this`budget
      ensures ok == (old(budget) > 0)
      ensures sent == old(sent) + Take([s], old(budget))
      ensures budget == Left([s], old(budget))
    {
      ok := budget > 0;
      if ok {
        sent := sent + [s];
        budget := budget - 1;
      }
    }

    /** `await session.close()`; `ok` is false when it raised. */
    method Close() returns (ok: bool)
      modifies this`budget, this`closeCalls
      ensures budget == 0 && closeCalls == old(closeCalls) + 1
      ensures ok == !closeFails
    {
      budget := 0;
      closeCalls := closeCalls + 1;
      ok := !closeFails;
    }
  }

  /** The asyncio task that runs the tool-call processor. */
  class ToolTask {
    var cancelled: bool

    constructor ()
      ensures !cancelled
    {
      cancelled := false;
    }

    /** `task.cancel()` followed by awaiting it and swallowing its `CancelledError`. */
    method CancelAndAwait()
      modifies this
      ensures cancelled
    {
      cancelled := true;
    }
  }

  /** The `asyncio.Queue` of tool-call batches, first in first out. */
  class ToolQueue {
    var items: seq<ToolCallBatch>

    constructor ()
      ensures items == []
    {
      items := [];
    }

    /** `await queue.put(b)` (the queue is unbounded, so it never waits). */
    method Put(b: ToolCallBatch)
      modifies this
      ensures items == old(items) + [b]
    {
      items := items + [b];
    }

    /** `await queue.get()`. On an empty queue the source waits for a `put`;
        the model takes an item only once one is there. */
    method Get() returns (b: ToolCallBatch)
      requires items != []
      modifies this
      ensures b == old(items)[0] && items == old(items)[1..]
    {
      b := items[0];
      items := items[1..];
    }

    /** `queue.empty()` */
    method IsEmpty() returns (empty: bool)
      ensures empty <==> items == []
    {
      empty := items == [];
    }

    /** `queue.get_nowait()`: the oldest batch, or `None` where it raises `QueueEmpty`. */
    method GetNowait() returns (r: Option<ToolCallBatch>)
      modifies this
      ensures old(items) == [] ==> r == None && items == []
      ensures old(items) != [] ==> r == Some(old(items)[0]) && items == old(items)[1..]
    {
      if items == [] {
        r := None;
      } else {
        r := Some(items[0]);
        items := items[1..];
      }
    }
  }
}
