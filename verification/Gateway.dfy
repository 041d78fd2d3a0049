/** The shared memory of the Gateway client and its critical sections
    (gateway_client.go). Every function below is what one lock-protected
    section does to the connection pointer and the table of pending calls; the
    class at the end is the same code in its own, in-place form. */
module Gateway {
  import opened Wrappers

  type ConnId = nat
  type CallId = nat

  const DEFAULT_MAX_PENDING_CALLS: nat := 128

  datatype Error = TransportUnavailable | ContextDone | CapacityUnavailable | ServerError

  datatype Outcome = Payload(body: string) | Failure(error: Error)

  /** gatewayCallResult: what travels through the one-slot result channel. */
  datatype CallResult = CallResult(outcome: Outcome, conn: ConnId)

  datatype Request = Request(rpc: string, idempotencyKey: string, runId: string)

  /** gatewayPendingCall: `slot` is the result channel of capacity one. */
  datatype Call = Call(request: Request, slot: Option<CallResult>, conn: Option<ConnId>, written: bool)

  /** One response frame as the read loop sees it. */
  datatype Frame = Frame(id: CallId, ok: bool, accepted: bool, body: string)

  datatype Client = Client(conn: Option<ConnId>, pending: set<CallId>, calls: map<CallId, Call>, limit: nat)

  predicate ExpectFinal(request: Request) {
    request.rpc == "enterprise.runtime.run"
  }

  /** gatewaySubmitReplayable: only a submit whose idempotency key is its run id. */
  predicate Replayable(request: Request) {
    && request.rpc == "enterprise.runtime.submit"
    && request.idempotencyKey != "" && request.runId != ""
    && request.idempotencyKey == request.runId
  }

  function EffectiveLimit(limit: nat): (r: nat)
    ensures r > 0
  {
    if limit == 0 then DEFAULT_MAX_PENDING_CALLS else limit
  }

  function AddPending(c: Client, id: CallId, request: Request): Client {
    var entry := Call(request, None, None, false);
    if |c.pending| >= EffectiveLimit(c.limit) then c.(calls := c.calls[id := entry])
    else c.(calls := c.calls[id := entry], pending := c.pending + {id})
  }

  /** The second half of attachPendingToConnection: drain the channel, attach. */
  function Attach(c: Client, id: CallId, conn: ConnId): Client
    requires id in c.calls
  {
    if id !in c.pending then c
    else c.(calls := c.calls[id := c.calls[id].(slot := None, conn := Some(conn))])
  }

  function MarkWritten(c: Client, id: CallId, conn: ConnId): Client
    requires id in c.calls
  {
    if id !in c.pending || c.calls[id].conn != Some(conn) then c
    else c.(calls := c.calls[id := c.calls[id].(written := true)])
  }

  predicate WasWritten(c: Client, id: CallId)
    requires id in c.calls
  {
    id in c.pending && c.calls[id].written
  }

  /** Does the read loop of `conn` take the pending call off the table for this frame? */
  predicate Claims(c: Client, conn: ConnId, frame: Frame) {
    && frame.id in c.pending && frame.id in c.calls
    && c.calls[frame.id].conn == Some(conn)
    && !(ExpectFinal(c.calls[frame.id].request) && frame.ok && frame.accepted)
  }

  function FrameResult(conn: ConnId, frame: Frame): CallResult {
    CallResult(if frame.ok then Payload(frame.body) else Failure(ServerError), conn)
  }

  function Claim(c: Client, conn: ConnId, frame: Frame): Client {
    if Claims(c, conn, frame) then c.(pending := c.pending - {frame.id}) else c
  }

  /** What one call looks like after the invalidation of `conn` passed over it. */
  function Detached(call: Call, conn: ConnId): Call {
    if call.conn != Some(conn) then call
    else call.(conn := None,
               slot := if call.slot == None then Some(CallResult(Failure(TransportUnavailable), conn)) else call.slot)
  }

  /** The sweep of invalidate under pendingMu. */
  function Sweep(c: Client, conn: ConnId): Client {
    c.(calls := map id | id in c.calls :: if id in c.pending then Detached(c.calls[id], conn) else c.calls[id])
  }

  /** The first half of invalidate, under connMu. */
  function Disconnect(c: Client, conn: ConnId): Client {
    if c.conn == Some(conn) then c.(conn := None) else c
  }

  function RemovePending(c: Client, id: CallId): Client {
    c.(pending := c.pending - {id})
  }

  /** persistentGatewayClient, updated in place. */
  class PersistentGatewayClient {
    var conn: Option<ConnId>
    var pending: set<CallId>
    var calls: map<CallId, Call>
    const limit: nat

    ghost predicate Valid()
      reads this
    {
      pending <= calls.Keys
    }

    ghost function View(): Client
      reads this
    {
      Client(conn, pending, calls, limit)
    }

    constructor (limit: nat)
      ensures Valid() && View() == Client(None, {}, map[], limit)
    {
      this.limit := limit;
      conn, pending, calls := None, {}, map[];
    }

    method Add(id: CallId, request: Request) returns (ok: bool)
      requires Valid() && id !in calls
      modifies this
      ensures Valid() && View() == AddPending(old(View()), id, request)
      ensures ok <==> id in pending
    {
      calls := calls[id := Call(request, None, None, false)];
      var max := limit;
      if max <= 0 {
        max := DEFAULT_MAX_PENDING_CALLS;
      }
      ok := |pending| < max;
      if ok {
        pending := pending + {id};
      }
    }

    method AttachPending(id: CallId, target: ConnId) returns (ok: bool)
      requires Valid() && id in calls
      modifies this
      ensures Valid() && View() == Attach(old(View()), id, target)
      ensures ok <==> id in pending
    {
      if id !in pending {
        return false;
      }
      while calls[id].slot.Some?
        invariant pending == old(pending) && conn == old(conn) && calls.Keys == old(calls.Keys)
        invariant id in calls && calls == old(calls)[id := old(calls)[id].(slot := calls[id].slot)]
        decreases if calls[id].slot.Some? then 1 else 0
      {
        calls := calls[id := calls[id].(slot := None)];
      }
      calls := calls[id := calls[id].(conn := Some(target))];
      return true;
    }

    method Mark(id: CallId, target: ConnId) returns (ok: bool)
      requires Valid() && id in calls
      modifies this
      ensures Valid() && View() == MarkWritten(old(View()), id, target)
      ensures ok <==> id in pending && old(calls)[id].conn == Some(target)
    {
      ok := id in pending && calls[id].conn == Some(target);
      if ok {
        calls := calls[id := calls[id].(written := true)];
      }
    }

    /** The table section of readLoop; `taken` says the loop now owns the reply. */
    method Take(source: ConnId, frame: Frame) returns (taken: bool)
      requires Valid()
      modifies this
      ensures Valid() && View() == Claim(old(View()), source, frame)
      ensures taken <==> Claims(old(View()), source, frame)
    {
      taken := false;
      if frame.id !in pending || calls[frame.id].conn != Some(source) {
        return;
      }
      if ExpectFinal(calls[frame.id].request) && frame.ok && frame.accepted {
        return;
      }
      pending := pending - {frame.id};
      taken := true;
    }

    /** invalidate run without interruption: both halves, the sweep as the source's loop. */
    method Invalidate(target: ConnId)
      requires Valid()
      modifies this
      ensures Valid() && View() == Sweep(Disconnect(old(View()), target), target)
    {
      if conn == Some(target) {
        conn := None;
      }
      ghost var before := calls;
      var todo := pending;
      while todo != {}
        invariant todo <= pending && pending == old(pending) && pending <= calls.Keys
        invariant conn == Disconnect(old(View()), target).conn
        invariant calls == map id | id in before :: if id in pending - todo then Detached(before[id], target) else before[id]
        decreases |todo|
      {
        var id :| id in todo;
        var call := calls[id];
        if call.conn == Some(target) {
          call := call.(conn := None);
          if call.slot == None {
            call := call.(slot := Some(CallResult(Failure(TransportUnavailable), target)));
          }
          calls := calls[id := call];
        }
        todo := todo - {id};
      }
    }

    method Remove(id: CallId)
      requires Valid()
      modifies this
      ensures Valid() && View() == RemovePending(old(View()), id)
    {
      if id in pending {
        pending := pending - {id};
      }
    }
  }
}
