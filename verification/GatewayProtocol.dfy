/** Every interleaving of callers, read loops and invalidations of the Gateway
    client, as a step system whose atomic steps are the lock-protected sections
    of module Gateway. connMu is visible as `sweeper`: an invalidation holds it
    from the moment it clears the connection until its sweep is over. */
module GatewayProtocol {
  import opened Wrappers
  import opened Gateway

  /** Where one Invoke stands. */
  datatype Pc =
    | Connecting                    // head of connectionForPending
    | Dialing                       // holds connectMu
    | Attaching(conn: ConnId)       // ensureConnected returned conn
    | AttachChecked(conn: ConnId)   // saw it as the current connection
    | ToWrite(conn: ConnId)         // attached, waits for writeMu
    | Writing(conn: ConnId)         // holds writeMu
    | WriteChecked(conn: ConnId)    // saw conn as current again
    | Marked(conn: ConnId)          // written is set, WriteJSON is next
    | Breaking(conn: ConnId)        // about to invalidate conn
    | Sweeping(conn: ConnId)        // halfway through its own invalidate
    | Waiting(conn: ConnId)
    | Retrying(conn: ConnId)        // transport error in hand: replay or give up
    | Returning(outcome: Outcome)   // removePending is next
    | Finished(outcome: Outcome)

  datatype ReaderPc = Reading | Holding(id: CallId, result: CallResult) | Failing | Stopped

  datatype Actor = Caller(id: CallId) | Reader(conn: ConnId)

  datatype State = State(
    client: Client,
    connectMu: Option<CallId>,
    writeMu: Option<CallId>,
    sweeper: Option<Actor>,
    pcs: map<CallId, Pc>,
    replayed: set<CallId>,            // the local variable of each Invoke
    readers: map<ConnId, ReaderPc>,
    // history, never read by a step
    lost: set<ConnId>,                // connections some invalidation has begun on
    swept: set<ConnId>,               // connections some invalidation has finished on
    writes: map<CallId, seq<ConnId>>) // connections each request frame was written to

  /** Steps of one caller that leave the shared table and the connection alone. */
  datatype Move =
    | Expire                // ctx.Done where Invoke looks at it
    | UseCurrent            // ensureConnected finds a connection
    | BeginDial             // takes connectMu
    | DialFail
    | AttachCheck           // the connMu half of attachPendingToConnection
    | LockWrite
    | CheckCurrent          // currentConnection inside writeRequest
    | WriteJson(ok: bool)
    | Decide                // pendingWasWritten and the replay test

  /** Steps of one caller on its entry of the pending table. */
  datatype TableOp = Start(request: Request) | DoAttach | Mark | Receive | Leave

  datatype Step =
    | Move(id: CallId, move: Move)
    | Table(id: CallId, op: TableOp)
    | DialOk(id: CallId, conn: ConnId)
    | BeginBreak(actor: Actor)        // first half of invalidate
    | EndBreak(actor: Actor)          // second half
    | ReadFrame(conn: ConnId, frame: Frame)
    | Send(conn: ConnId)

  function Initial(limit: nat): State {
    State(Client(None, {}, map[], limit), None, None, None, map[], {}, map[], {}, {}, map[])
  }

  predicate At(s: State, id: CallId) {
    id in s.pcs && id in s.client.calls && id in s.writes
  }

  predicate HoldsWriteMu(pc: Pc) {
    pc.Writing? || pc.WriteChecked? || pc.Marked? || pc.Breaking? || pc.Sweeping?
  }

  // ---------- guards ----------

  predicate CanMove(s: State, id: CallId, move: Move) {
    && At(s, id)
    && var pc := s.pcs[id];
       match move
       case Expire => pc.Connecting? || pc.Writing? || pc.Waiting?
       case UseCurrent => pc.Connecting? && s.sweeper == None && s.client.conn.Some?
       case BeginDial => pc.Connecting? && s.sweeper == None && s.client.conn == None && s.connectMu == None
       case DialFail => pc.Dialing?
       case AttachCheck => pc.Attaching? && s.sweeper == None
       case LockWrite => pc.ToWrite? && s.writeMu == None
       case CheckCurrent => pc.Writing? && s.sweeper == None
       case WriteJson(_) => pc.Marked?
       case Decide => pc.Retrying?
  }

  predicate CanTable(s: State, id: CallId, op: TableOp) {
    match op
    case Start(_) => id !in s.pcs && id !in s.client.calls
    case DoAttach => At(s, id) && s.pcs[id].AttachChecked?
    case Mark => At(s, id) && s.pcs[id].WriteChecked?
    case Receive => At(s, id) && s.pcs[id].Waiting? && s.client.calls[id].slot.Some?
    case Leave => At(s, id) && s.pcs[id].Returning?
  }

  predicate Holds(s: State, c: ConnId, id: CallId) {
    c in s.readers && s.readers[c].Holding? && s.readers[c].id == id
  }

  /** A channel of capacity one accepts a send only while it is empty. */
  predicate CanSend(s: State, c: ConnId) {
    && c in s.readers && s.readers[c].Holding?
    && s.readers[c].id in s.client.calls
    && s.client.calls[s.readers[c].id].slot == None
  }

  predicate CanBreak(s: State, actor: Actor) {
    && s.sweeper == None
    && match actor
       case Caller(id) => At(s, id) && s.pcs[id].Breaking?
       case Reader(c) => c in s.readers && s.readers[c].Reading?
  }

  predicate CanEndBreak(s: State, actor: Actor) {
    match actor
    case Caller(id) => At(s, id) && s.pcs[id].Sweeping?
    case Reader(c) => c in s.readers && s.readers[c].Failing?
  }

  predicate Enabled(s: State, step: Step) {
    match step
    case Move(id, move) => CanMove(s, id, move)
    case Table(id, op) => CanTable(s, id, op)
    case DialOk(id, c) => At(s, id) && s.pcs[id].Dialing? && s.sweeper == None && c !in s.readers
    case BeginBreak(actor) => CanBreak(s, actor)
    case EndBreak(actor) => CanEndBreak(s, actor)
    case ReadFrame(c, _) => c in s.readers && s.readers[c].Reading?
    case Send(c) => CanSend(s, c)
  }

  // ---------- effects ----------

  function MovePc(s: State, id: CallId, move: Move): Pc
    requires CanMove(s, id, move)
  {
    match move
    case Expire => Returning(Failure(ContextDone))
    case UseCurrent => Attaching(s.client.conn.value)
    case BeginDial => Dialing
    case DialFail => Returning(Failure(TransportUnavailable))
    case AttachCheck =>
      if s.client.conn == Some(s.pcs[id].conn) then AttachChecked(s.pcs[id].conn) else Connecting
    case LockWrite => Writing(s.pcs[id].conn)
    case CheckCurrent =>
      if s.client.conn == Some(s.pcs[id].conn) then WriteChecked(s.pcs[id].conn) else Breaking(s.pcs[id].conn)
    case WriteJson(ok) => if ok then Waiting(s.pcs[id].conn) else Breaking(s.pcs[id].conn)
    case Decide => if Replays(s, id) then Connecting else Returning(Failure(TransportUnavailable))
  }

  predicate Replays(s: State, id: CallId)
    requires At(s, id)
  {
    id !in s.replayed && Replayable(s.client.calls[id].request) && WasWritten(s.client, id)
  }

  /** A mutex after caller id went from pc to pc': released when no longer held, taken when newly held. */
  function Handover(mu: Option<CallId>, id: CallId, held: bool, holds: bool): Option<CallId> {
    if holds then Some(id) else if held then None else mu
  }

  function DoMove(s: State, id: CallId, move: Move): State
    requires CanMove(s, id, move)
  {
    var pc, pc' := s.pcs[id], MovePc(s, id, move);
    s.(pcs := s.pcs[id := pc'],
       connectMu := Handover(s.connectMu, id, pc.Dialing?, pc'.Dialing?),
       writeMu := Handover(s.writeMu, id, HoldsWriteMu(pc), HoldsWriteMu(pc')),
       replayed := if move.Decide? && Replays(s, id) then s.replayed + {id} else s.replayed,
       writes := if move.WriteJson? then s.writes[id := s.writes[id] + [pc.conn]] else s.writes)
  }

  /** The table after one caller's step on its own entry. */
  function TableClient(s: State, id: CallId, op: TableOp): Client
    requires CanTable(s, id, op)
  {
    match op
    case Start(request) => AddPending(s.client, id, request)
    case DoAttach => Attach(s.client, id, s.pcs[id].conn)
    case Mark => MarkWritten(s.client, id, s.pcs[id].conn)
    case Receive => SetSlot(s.client, id, None)
    case Leave => RemovePending(s.client, id)
  }

  function TablePc(s: State, id: CallId, op: TableOp): Pc
    requires CanTable(s, id, op)
  {
    match op
    case Start(request) =>
      if id in AddPending(s.client, id, request).pending then Connecting else Finished(Failure(CapacityUnavailable))
    case DoAttach => if id in s.client.pending then ToWrite(s.pcs[id].conn) else Connecting
    case Mark =>
      if id in s.client.pending && s.client.calls[id].conn == Some(s.pcs[id].conn)
      then Marked(s.pcs[id].conn)
      else Retrying(s.pcs[id].conn)
    case Receive =>
      var result := s.client.calls[id].slot.value;
      if result.conn != s.pcs[id].conn then s.pcs[id]
      else if result.outcome == Failure(TransportUnavailable) then Retrying(s.pcs[id].conn)
      else Returning(result.outcome)
    case Leave => Finished(s.pcs[id].outcome)
  }

  function DoTable(s: State, id: CallId, op: TableOp): State
    requires CanTable(s, id, op)
  {
    Install(s, id, TableClient(s, id, op), TablePc(s, id, op), if op.Start? then [] else s.writes[id])
  }

  /** The state with a new table and a new standing of caller id. */
  function Install(s: State, id: CallId, client: Client, pc': Pc, written: seq<ConnId>): State {
    s.(client := client,
       pcs := s.pcs[id := pc'],
       writeMu := Handover(s.writeMu, id, id in s.pcs && HoldsWriteMu(s.pcs[id]), HoldsWriteMu(pc')),
       writes := s.writes[id := written])
  }

  function SetSlot(c: Client, id: CallId, slot: Option<CallResult>): Client
    requires id in c.calls
  {
    c.(calls := c.calls[id := c.calls[id].(slot := slot)])
  }

  function DoDialOk(s: State, id: CallId, c: ConnId): State {
    s.(client := s.client.(conn := Some(c)), connectMu := None,
       readers := s.readers[c := Reading], pcs := s.pcs[id := Attaching(c)])
  }

  function Target(s: State, actor: Actor): ConnId
    requires CanBreak(s, actor) || CanEndBreak(s, actor)
  {
    match actor
    case Caller(id) => s.pcs[id].conn
    case Reader(c) => c
  }

  function DoBreak(s: State, actor: Actor): State
    requires CanBreak(s, actor)
  {
    var c := Target(s, actor);
    var s1 := s.(client := Disconnect(s.client, c), sweeper := Some(actor), lost := s.lost + {c});
    match actor
    case Caller(id) => s1.(pcs := s.pcs[id := Sweeping(c)])
    case Reader(_) => s1.(readers := s.readers[c := Failing])
  }

  function DoEndBreak(s: State, actor: Actor): State
    requires CanEndBreak(s, actor)
  {
    var c := Target(s, actor);
    var s1 := s.(client := Sweep(s.client, c), sweeper := None, swept := s.swept + {c});
    match actor
    case Caller(id) => s1.(writeMu := None, pcs := s.pcs[id := Retrying(c)])
    case Reader(_) => s1.(readers := s.readers[c := Stopped])
  }

  function DoReadFrame(s: State, c: ConnId, frame: Frame): State {
    if Claims(s.client, c, frame)
    then s.(client := Claim(s.client, c, frame), readers := s.readers[c := Holding(frame.id, FrameResult(c, frame))])
    else s
  }

  function DoSend(s: State, c: ConnId): State
    requires CanSend(s, c)
  {
    var r := s.readers[c];
    s.(client := SetSlot(s.client, r.id, Some(r.result)), readers := s.readers[c := Reading])
  }

  function Do(s: State, step: Step): State
    requires Enabled(s, step)
  {
    match step
    case Move(id, move) => DoMove(s, id, move)
    case Table(id, op) => DoTable(s, id, op)
    case DialOk(id, c) => DoDialOk(s, id, c)
    case BeginBreak(actor) => DoBreak(s, actor)
    case EndBreak(actor) => DoEndBreak(s, actor)
    case ReadFrame(c, frame) => DoReadFrame(s, c, frame)
    case Send(c) => DoSend(s, c)
  }

  // ---------- the invariant ----------

  /** The caller has chosen connection c for its current attempt. */
  predicate OnConn(pc: Pc) {
    pc.ToWrite? || pc.Writing? || pc.WriteChecked? || pc.Marked? || pc.Breaking? || pc.Sweeping? || pc.Waiting?
  }

  /** Between seeing the connection as current and taking the result. */
  predicate Committed(pc: Pc) {
    pc.WriteChecked? || pc.Marked? || pc.Waiting?
  }

  predicate Unattached(pc: Pc) {
    pc.Connecting? || pc.Dialing? || pc.Attaching? || pc.AttachChecked?
  }

  ghost predicate OnConnOk(s: State, id: CallId, c: ConnId)
    requires At(s, id)
  {
    var call := s.client.calls[id];
    && c in s.readers
    && (call.conn == Some(c) || call.conn == None)
    && (call.slot.Some? ==> call.slot.value.conn == c)
    && (call.conn == None ==> c in s.swept)
    && (id in s.client.pending && call.conn == None ==> call.slot.Some?)
    && (id !in s.client.pending ==> call.slot.Some? || Holds(s, c, id))
    && (Committed(s.pcs[id]) && id in s.client.pending && call.conn == Some(c) ==> c !in s.swept)
  }

  /** How often, and where, the frame of this request has been written. */
  ghost predicate WritesOk(s: State, id: CallId)
    requires At(s, id)
  {
    var pc := s.pcs[id];
    var w := s.writes[id];
    var earlier := if id in s.replayed then 1 else 0;
    && (id in s.replayed ==> Replayable(s.client.calls[id].request) && |w| >= 1 && w[0] in s.swept)
    && earlier <= |w| <= earlier + 1
    && (Unattached(pc) || pc.ToWrite? || pc.Writing? || pc.WriteChecked? || pc.Marked? ==> |w| == earlier)
    && (pc.Waiting? ==> |w| == earlier + 1)
    && (|w| == earlier + 1 && (OnConn(pc) || pc.Retrying?) ==> w[earlier] == pc.conn)
    && (s.client.calls[id].written <==> |w| >= 1 || pc.Marked?)
    && (pc.Returning? && pc.outcome.Payload? ==> |w| == earlier + 1)
  }

  ghost predicate SlotOk(s: State, id: CallId)
    requires At(s, id)
  {
    var pc := s.pcs[id];
    var call := s.client.calls[id];
    && (id in s.client.pending && call.conn.Some? ==> call.slot == None)
    && (call.conn.Some? ==> call.conn.value in s.readers)
    && (call.slot.Some? && call.slot.value.outcome == Failure(TransportUnavailable) ==> call.slot.value.conn in s.swept)
    && (Unattached(pc) ==> id in s.client.pending && call.conn == None)
    && ((pc.Attaching? || pc.AttachChecked?) ==> pc.conn in s.readers)
    && (OnConn(pc) ==> OnConnOk(s, id, pc.conn))
    && (pc.Retrying? ==> pc.conn in s.readers && (id in s.client.pending ==> call.conn == None && pc.conn in s.swept))
    && (pc.Finished? ==> id !in s.client.pending)
  }

  ghost predicate CallOk(s: State, id: CallId)
    requires At(s, id)
  {
    SlotOk(s, id) && WritesOk(s, id)
  }

  ghost predicate ReaderOk(s: State, c: ConnId)
    requires c in s.readers
  {
    var r := s.readers[c];
    && (r.Holding? ==>
        && r.id in s.client.calls && r.id !in s.client.pending
        && s.client.calls[r.id].conn == Some(c)
        && s.client.calls[r.id].slot == None
        && r.result.conn == c && r.result.outcome != Failure(TransportUnavailable))
    && (r.Failing? <==> s.sweeper == Some(Reader(c)))
    && (r.Failing? ==> c in s.lost)
    && (r.Stopped? ==> c in s.swept)
  }

  ghost predicate TableOk(s: State) {
    && |s.client.pending| <= EffectiveLimit(s.client.limit)
    && s.pcs.Keys == s.client.calls.Keys == s.writes.Keys
    && s.client.pending <= s.pcs.Keys
    && s.replayed <= s.pcs.Keys
    && (s.connectMu.Some? ==> s.connectMu.value in s.pcs && s.client.conn == None)
    && (s.writeMu.Some? ==> s.writeMu.value in s.pcs)
    && (s.sweeper.Some? && s.sweeper.value.Caller? ==> s.sweeper.value.id in s.pcs)
    && (s.sweeper.Some? && s.sweeper.value.Reader? ==> s.sweeper.value.conn in s.readers)
  }

  ghost predicate HistoryOk(s: State) {
    && s.swept <= s.lost <= s.readers.Keys
    && (forall c :: c in s.readers ==> (c in s.lost <==> s.client.conn != Some(c)))
    && (s.client.conn.Some? ==> s.client.conn.value in s.readers)
    && (forall c :: c in s.lost && c !in s.swept ==> BeingSwept(s, c))
  }

  ghost predicate MutexOk(s: State, id: CallId)
    requires id in s.pcs
  {
    var pc := s.pcs[id];
    && (pc.Dialing? <==> s.connectMu == Some(id))
    && (pc.Sweeping? <==> s.sweeper == Some(Caller(id)))
    && (HoldsWriteMu(pc) <==> s.writeMu == Some(id))
    && (pc.Sweeping? ==> pc.conn in s.lost)
  }

  /** The holder of connMu is halfway through the invalidation of c. */
  ghost predicate BeingSwept(s: State, c: ConnId) {
    match s.sweeper
    case Some(Reader(r)) => r == c
    case Some(Caller(id)) => id in s.pcs && s.pcs[id] == Sweeping(c)
    case None => false
  }

  ghost predicate Inv(s: State) {
    && TableOk(s) && HistoryOk(s)
    && (forall id :: id in s.pcs ==> MutexOk(s, id) && CallOk(s, id))
    && (forall c :: c in s.readers ==> ReaderOk(s, c))
  }

  lemma InitInv(limit: nat)
    ensures Inv(Initial(limit))
  {
  }

  // ---------- one caller's own steps ----------

  /** Only caller id's own entry, and the two mutexes, differ between s and s'. */
  ghost predicate Touches(s: State, s': State, id: CallId) {
    && s'.client.conn == s.client.conn && s'.client.limit == s.client.limit
    && s'.client.calls.Keys == s.client.calls.Keys + {id}
    && s'.pcs.Keys == s.pcs.Keys + {id} && s'.writes.Keys == s.writes.Keys + {id}
    && s.client.pending - {id} <= s'.client.pending <= s.client.pending + {id}
    && |s'.client.pending| <= EffectiveLimit(s.client.limit)
    && s.replayed <= s'.replayed <= s.replayed + {id}
    && (forall k :: k in s.client.calls && k != id ==> s'.client.calls[k] == s.client.calls[k])
    && (forall k :: k in s.pcs && k != id ==> s'.pcs[k] == s.pcs[k])
    && (forall k :: k in s.writes && k != id ==> s'.writes[k] == s.writes[k])
    && s'.readers == s.readers && s'.lost == s.lost && s'.swept == s.swept && s'.sweeper == s.sweeper
    && (s'.connectMu == s.connectMu || s'.connectMu == None || (s'.connectMu == Some(id) && s.client.conn == None))
    && (s'.writeMu == s.writeMu || s'.writeMu == None || s'.writeMu == Some(id))
  }

  lemma MoveTouches(s: State, id: CallId, move: Move)
    requires TableOk(s) && CanMove(s, id, move) && MutexOk(s, id)
    ensures Touches(s, DoMove(s, id, move), id)
  {
  }

  lemma TableClientFrame(s: State, id: CallId, op: TableOp)
    requires TableOk(s) && CanTable(s, id, op)
    ensures var c := TableClient(s, id, op);
            && c.conn == s.client.conn && c.limit == s.client.limit
            && c.calls.Keys == s.client.calls.Keys + {id}
            && s.client.pending - {id} <= c.pending <= s.client.pending + {id}
            && |c.pending| <= EffectiveLimit(s.client.limit)
            && forall k :: k in s.client.calls && k != id ==> c.calls[k] == s.client.calls[k]
  {
    match op
    case Start(request) => assert |s.client.pending + {id}| <= |s.client.pending| + 1;
    case Leave => assert |s.client.pending - {id}| <= |s.client.pending|;
    case _ =>
  }

  lemma InstallTouches(s: State, id: CallId, client: Client, pc': Pc, written: seq<ConnId>)
    requires client.conn == s.client.conn && client.limit == s.client.limit
    requires client.calls.Keys == s.client.calls.Keys + {id}
    requires s.client.pending - {id} <= client.pending <= s.client.pending + {id}
    requires |client.pending| <= EffectiveLimit(s.client.limit)
    requires forall k :: k in s.client.calls && k != id ==> client.calls[k] == s.client.calls[k]
    ensures Touches(s, Install(s, id, client, pc', written), id)
  {
  }

  lemma TableTouches(s: State, id: CallId, op: TableOp)
    requires TableOk(s) && CanTable(s, id, op)
    ensures Touches(s, DoTable(s, id, op), id)
  {
    TableClientFrame(s, id, op);
    InstallTouches(s, id, TableClient(s, id, op), TablePc(s, id, op), if op.Start? then [] else s.writes[id]);
  }

  lemma MoveMutex(s: State, id: CallId, move: Move, k: CallId)
    requires TableOk(s) && CanMove(s, id, move) && MutexOk(s, id)
    requires k in s.pcs && MutexOk(s, k)
    ensures MutexOk(DoMove(s, id, move), k)
  {
  }

  lemma TableMutex(s: State, id: CallId, op: TableOp, k: CallId)
    requires TableOk(s) && CanTable(s, id, op) && (id in s.pcs ==> MutexOk(s, id))
    requires k in s.pcs + map[id := Connecting]
    requires k in s.pcs ==> MutexOk(s, k)
    ensures MutexOk(DoTable(s, id, op), k)
  {
  }

  lemma MoveSlot(s: State, id: CallId, move: Move)
    requires HistoryOk(s) && CanMove(s, id, move) && CallOk(s, id)
    ensures SlotOk(DoMove(s, id, move), id)
  {
  }

  lemma MoveWrites(s: State, id: CallId, move: Move)
    requires CanMove(s, id, move) && CallOk(s, id)
    ensures WritesOk(DoMove(s, id, move), id)
  {
  }

  lemma TableSlot(s: State, id: CallId, op: TableOp)
    requires HistoryOk(s) && CanTable(s, id, op) && s.client.pending <= s.pcs.Keys
    requires id in s.pcs ==> At(s, id) && CallOk(s, id)
    ensures At(DoTable(s, id, op), id) && SlotOk(DoTable(s, id, op), id)
  {
    match op
    case Start(_) =>
    case DoAttach =>
    case Mark =>
    case Receive =>
    case Leave =>
  }

  lemma TableWrites(s: State, id: CallId, op: TableOp)
    requires CanTable(s, id, op) && s.replayed <= s.pcs.Keys
    requires id in s.pcs ==> At(s, id) && CallOk(s, id)
    ensures At(DoTable(s, id, op), id) && WritesOk(DoTable(s, id, op), id)
  {
  }

  lemma TableHeld(s: State, id: CallId, op: TableOp, c: ConnId)
    requires CanTable(s, id, op) && c in s.readers && ReaderOk(s, c) && Holds(s, c, id)
    ensures var client := TableClient(s, id, op);
            && id in client.calls && id !in client.pending
            && client.calls[id].conn == Some(c) && client.calls[id].slot == None
  {
  }

  lemma TouchRest(s: State, s': State, id: CallId)
    requires TableOk(s) && HistoryOk(s) && Touches(s, s', id)
    requires s.sweeper == Some(Caller(id)) ==> id in s.pcs && s'.pcs[id] == s.pcs[id]
    ensures TableOk(s') && HistoryOk(s')
  {
  }

  lemma TouchReader(s: State, s': State, id: CallId, c: ConnId)
    requires TableOk(s) && TableOk(s') && Touches(s, s', id) && c in s.readers && ReaderOk(s, c)
    requires Holds(s, c, id) ==> id !in s'.client.pending && s'.client.calls[id].conn == Some(c) && s'.client.calls[id].slot == None
    ensures ReaderOk(s', c)
  {
  }

  /** A step that leaves caller k's own entry alone, and sweeps nothing k relies on, keeps CallOk(k). */
  lemma CallFrame(s: State, s': State, k: CallId)
    requires At(s, k) && At(s', k) && CallOk(s, k)
    requires s'.pcs[k] == s.pcs[k] && s'.client.calls[k] == s.client.calls[k] && s'.writes[k] == s.writes[k]
    requires k in s'.client.pending <==> k in s.client.pending
    requires k in s'.replayed <==> k in s.replayed
    requires s.readers.Keys <= s'.readers.Keys && s.swept <= s'.swept
    requires OnConn(s.pcs[k]) && Holds(s, s.pcs[k].conn, k) ==> Holds(s', s.pcs[k].conn, k)
    requires forall c :: s.client.calls[k].conn == Some(c) && k in s.client.pending && c in s'.swept ==> c in s.swept
    ensures CallOk(s', k)
  {
  }

  lemma MoveInv(s: State, id: CallId, move: Move)
    requires Inv(s) && CanMove(s, id, move)
    ensures Inv(DoMove(s, id, move))
  {
    var s' := DoMove(s, id, move);
    MoveTouches(s, id, move);
    TouchRest(s, s', id);
    forall k | k in s'.pcs
      ensures MutexOk(s', k) && CallOk(s', k)
    {
      MoveMutex(s, id, move, k);
      if k == id {
        MoveSlot(s, id, move);
        MoveWrites(s, id, move);
      } else {
        CallFrame(s, s', k);
      }
    }
    forall c | c in s'.readers
      ensures ReaderOk(s', c)
    {
      TouchReader(s, s', id, c);
    }
  }

  lemma TableInv(s: State, id: CallId, op: TableOp)
    requires Inv(s) && CanTable(s, id, op)
    ensures Inv(DoTable(s, id, op))
  {
    var s' := DoTable(s, id, op);
    TableTouches(s, id, op);
    TouchRest(s, s', id);
    forall k | k in s'.pcs
      ensures MutexOk(s', k) && CallOk(s', k)
    {
      TableMutex(s, id, op, k);
      if k == id {
        TableSlot(s, id, op);
        TableWrites(s, id, op);
      } else {
        CallFrame(s, s', k);
      }
    }
    forall c | c in s'.readers
      ensures ReaderOk(s', c)
    {
      if Holds(s, c, id) {
        TableHeld(s, id, op, c);
      }
      TouchReader(s, s', id, c);
    }
  }

  // ---------- the connection and its read loop ----------

  ghost predicate BreakerOk(s: State, actor: Actor)
    requires TableOk(s)
  {
    match actor
    case Caller(id) => id in s.pcs ==> MutexOk(s, id) && CallOk(s, id)
    case Reader(c) => c in s.readers ==> ReaderOk(s, c)
  }

  lemma DialOkRest(s: State, id: CallId, c: ConnId)
    requires TableOk(s) && HistoryOk(s) && Enabled(s, DialOk(id, c)) && MutexOk(s, id) && CallOk(s, id)
    ensures TableOk(DoDialOk(s, id, c)) && HistoryOk(DoDialOk(s, id, c))
  {
  }

  lemma DialOkCall(s: State, id: CallId, c: ConnId, k: CallId)
    requires TableOk(s) && HistoryOk(s) && Enabled(s, DialOk(id, c)) && MutexOk(s, id) && CallOk(s, id)
    requires k in DoDialOk(s, id, c).pcs && TableOk(DoDialOk(s, id, c))
    requires k in s.pcs ==> MutexOk(s, k) && CallOk(s, k)
    ensures MutexOk(DoDialOk(s, id, c), k) && CallOk(DoDialOk(s, id, c), k)
  {
  }

  lemma DialOkReader(s: State, id: CallId, c: ConnId, r: ConnId)
    requires TableOk(s) && HistoryOk(s) && Enabled(s, DialOk(id, c)) && MutexOk(s, id) && CallOk(s, id)
    requires r in DoDialOk(s, id, c).readers && TableOk(DoDialOk(s, id, c))
    requires r in s.readers ==> ReaderOk(s, r)
    ensures ReaderOk(DoDialOk(s, id, c), r)
  {
  }

  lemma DialOkInv(s: State, id: CallId, c: ConnId)
    requires Inv(s) && Enabled(s, DialOk(id, c))
    ensures Inv(DoDialOk(s, id, c))
  {
    var s' := DoDialOk(s, id, c);
    DialOkRest(s, id, c);
    forall k | k in s'.pcs
      ensures MutexOk(s', k) && CallOk(s', k)
    {
      DialOkCall(s, id, c, k);
    }
    forall r | r in s'.readers
      ensures ReaderOk(s', r)
    {
      DialOkReader(s, id, c, r);
    }
  }

  lemma BreakRest(s: State, actor: Actor)
    requires TableOk(s) && HistoryOk(s) && CanBreak(s, actor) && BreakerOk(s, actor)
    ensures TableOk(DoBreak(s, actor)) && HistoryOk(DoBreak(s, actor))
  {
  }

  lemma BreakCall(s: State, actor: Actor, k: CallId)
    requires TableOk(s) && HistoryOk(s) && CanBreak(s, actor) && BreakerOk(s, actor)
    requires k in DoBreak(s, actor).pcs && TableOk(DoBreak(s, actor))
    requires k in s.pcs ==> MutexOk(s, k) && CallOk(s, k)
    ensures MutexOk(DoBreak(s, actor), k) && CallOk(DoBreak(s, actor), k)
  {
    if actor != Caller(k) {
      CallFrame(s, DoBreak(s, actor), k);
    }
  }

  lemma BreakReader(s: State, actor: Actor, r: ConnId)
    requires TableOk(s) && HistoryOk(s) && CanBreak(s, actor) && BreakerOk(s, actor)
    requires r in DoBreak(s, actor).readers && TableOk(DoBreak(s, actor))
    requires r in s.readers ==> ReaderOk(s, r)
    ensures ReaderOk(DoBreak(s, actor), r)
  {
  }

  lemma BreakInv(s: State, actor: Actor)
    requires Inv(s) && CanBreak(s, actor)
    ensures Inv(DoBreak(s, actor))
  {
    var s' := DoBreak(s, actor);
    BreakRest(s, actor);
    forall k | k in s'.pcs
      ensures MutexOk(s', k) && CallOk(s', k)
    {
      BreakCall(s, actor, k);
    }
    forall r | r in s'.readers
      ensures ReaderOk(s', r)
    {
      BreakReader(s, actor, r);
    }
  }

  lemma EndBreakRest(s: State, actor: Actor)
    requires TableOk(s) && HistoryOk(s) && CanEndBreak(s, actor) && BreakerOk(s, actor)
    ensures TableOk(DoEndBreak(s, actor)) && HistoryOk(DoEndBreak(s, actor))
  {
  }

  lemma EndBreakCall(s: State, actor: Actor, k: CallId)
    requires TableOk(s) && HistoryOk(s) && CanEndBreak(s, actor) && BreakerOk(s, actor)
    requires k in DoEndBreak(s, actor).pcs && TableOk(DoEndBreak(s, actor))
    requires k in s.pcs ==> MutexOk(s, k) && CallOk(s, k)
    ensures MutexOk(DoEndBreak(s, actor), k) && CallOk(DoEndBreak(s, actor), k)
  {
    if actor != Caller(k) && s.client.calls[k].conn != Some(Target(s, actor)) {
      CallFrame(s, DoEndBreak(s, actor), k);
    }
  }

  lemma EndBreakReader(s: State, actor: Actor, r: ConnId)
    requires TableOk(s) && HistoryOk(s) && CanEndBreak(s, actor) && BreakerOk(s, actor)
    requires r in DoEndBreak(s, actor).readers && TableOk(DoEndBreak(s, actor))
    requires r in s.readers ==> ReaderOk(s, r)
    ensures ReaderOk(DoEndBreak(s, actor), r)
  {
  }

  lemma EndBreakInv(s: State, actor: Actor)
    requires Inv(s) && CanEndBreak(s, actor)
    ensures Inv(DoEndBreak(s, actor))
  {
    var s' := DoEndBreak(s, actor);
    EndBreakRest(s, actor);
    forall k | k in s'.pcs
      ensures MutexOk(s', k) && CallOk(s', k)
    {
      EndBreakCall(s, actor, k);
    }
    forall r | r in s'.readers
      ensures ReaderOk(s', r)
    {
      EndBreakReader(s, actor, r);
    }
  }

  lemma ReadFrameRest(s: State, c: ConnId, frame: Frame)
    requires TableOk(s) && HistoryOk(s) && Enabled(s, ReadFrame(c, frame)) && ReaderOk(s, c)
    ensures TableOk(DoReadFrame(s, c, frame)) && HistoryOk(DoReadFrame(s, c, frame))
  {
  }

  lemma ReadFrameCall(s: State, c: ConnId, frame: Frame, k: CallId)
    requires TableOk(s) && HistoryOk(s) && Enabled(s, ReadFrame(c, frame)) && ReaderOk(s, c)
    requires k in DoReadFrame(s, c, frame).pcs && TableOk(DoReadFrame(s, c, frame))
    requires k in s.pcs ==> MutexOk(s, k) && CallOk(s, k)
    ensures MutexOk(DoReadFrame(s, c, frame), k) && CallOk(DoReadFrame(s, c, frame), k)
  {
    if k != frame.id {
      CallFrame(s, DoReadFrame(s, c, frame), k);
    }
  }

  lemma ReadFrameReader(s: State, c: ConnId, frame: Frame, r: ConnId)
    requires TableOk(s) && HistoryOk(s) && Enabled(s, ReadFrame(c, frame)) && ReaderOk(s, c)
    requires frame.id in s.pcs ==> CallOk(s, frame.id)
    requires r in DoReadFrame(s, c, frame).readers && TableOk(DoReadFrame(s, c, frame))
    requires r in s.readers ==> ReaderOk(s, r)
    ensures ReaderOk(DoReadFrame(s, c, frame), r)
  {
  }

  lemma ReadFrameInv(s: State, c: ConnId, frame: Frame)
    requires Inv(s) && Enabled(s, ReadFrame(c, frame))
    ensures Inv(DoReadFrame(s, c, frame))
  {
    var s' := DoReadFrame(s, c, frame);
    ReadFrameRest(s, c, frame);
    forall k | k in s'.pcs
      ensures MutexOk(s', k) && CallOk(s', k)
    {
      ReadFrameCall(s, c, frame, k);
    }
    forall r | r in s'.readers
      ensures ReaderOk(s', r)
    {
      ReadFrameReader(s, c, frame, r);
    }
  }

  lemma SendRest(s: State, c: ConnId)
    requires TableOk(s) && HistoryOk(s) && CanSend(s, c) && ReaderOk(s, c)
    ensures TableOk(DoSend(s, c)) && HistoryOk(DoSend(s, c))
  {
  }

  lemma SendCall(s: State, c: ConnId, k: CallId)
    requires TableOk(s) && HistoryOk(s) && CanSend(s, c) && ReaderOk(s, c)
    requires k in DoSend(s, c).pcs && TableOk(DoSend(s, c))
    requires k in s.pcs ==> MutexOk(s, k) && CallOk(s, k)
    ensures MutexOk(DoSend(s, c), k) && CallOk(DoSend(s, c), k)
  {
  }

  lemma SendReader(s: State, c: ConnId, r: ConnId)
    requires TableOk(s) && HistoryOk(s) && CanSend(s, c) && ReaderOk(s, c)
    requires r in DoSend(s, c).readers && TableOk(DoSend(s, c))
    requires r in s.readers ==> ReaderOk(s, r)
    ensures ReaderOk(DoSend(s, c), r)
  {
  }

  lemma SendInv(s: State, c: ConnId)
    requires Inv(s) && CanSend(s, c)
    ensures Inv(DoSend(s, c))
  {
    var s' := DoSend(s, c);
    SendRest(s, c);
    forall k | k in s'.pcs
      ensures MutexOk(s', k) && CallOk(s', k)
    {
      SendCall(s, c, k);
    }
    forall r | r in s'.readers
      ensures ReaderOk(s', r)
    {
      SendReader(s, c, r);
    }
  }

  lemma StepInv(s: State, step: Step)
    requires Inv(s) && Enabled(s, step)
    ensures Inv(Do(s, step))
  {
    match step
    case Move(id, move) => MoveInv(s, id, move);
    case Table(id, op) => TableInv(s, id, op);
    case DialOk(id, c) => DialOkInv(s, id, c);
    case BeginBreak(actor) => BreakInv(s, actor);
    case EndBreak(actor) => EndBreakInv(s, actor);
    case ReadFrame(c, frame) => ReadFrameInv(s, c, frame);
    case Send(c) => SendInv(s, c);
  }

  // ---------- what every interleaving guarantees ----------

  /** The read loop that took a reply off the table can always hand it over. */
  ghost predicate NoBlockedSender(s: State) {
    forall c :: c in s.readers && s.readers[c].Holding? ==> CanSend(s, c)
  }

  /** While a call is in the table and attached its slot is empty, so neither the
      drain of an attach nor the default branch of a sweep can lose a result. */
  ghost predicate NoResultOverwritten(s: State) {
    forall id :: id in s.client.pending ==> At(s, id) && (s.client.calls[id].conn.Some? ==> s.client.calls[id].slot == None)
  }

  /** A caller that waits on c has its result for c, or a read loop holds it for
      the caller, or it is attached to c and c is still served: current with a
      live read loop, or in the middle of the invalidation that will tell it. */
  ghost predicate NoLostResult(s: State) {
    forall id :: id in s.pcs && s.pcs[id].Waiting? ==> At(s, id) && Served(s, id, s.pcs[id].conn)
  }

  ghost predicate Served(s: State, id: CallId, c: ConnId)
    requires At(s, id)
  {
    var call := s.client.calls[id];
    || (call.slot.Some? && call.slot.value.conn == c)
    || Holds(s, c, id)
    || (id in s.client.pending && call.conn == Some(c) && c in s.readers
        && (BeingSwept(s, c) || (s.client.conn == Some(c) && (s.readers[c].Reading? || s.readers[c].Holding?))))
  }

  /** waitGatewayResult never meets a result of another connection, and what it
      returns was produced on the connection of the last write. */
  ghost predicate ResultsMatchTheLastWrite(s: State) {
    forall id :: CanTable(s, id, Receive) ==>
      && |s.writes[id]| > 0
      && s.client.calls[id].slot.value.conn == s.pcs[id].conn == s.writes[id][|s.writes[id]| - 1]
  }

  /** One write, except the idempotent submit: two, the second after the first connection was invalidated. */
  ghost predicate WritesBounded(s: State) {
    forall id :: id in s.writes ==>
      || |s.writes[id]| <= 1
      || (At(s, id) && |s.writes[id]| == 2 && Replayable(s.client.calls[id].request) && s.writes[id][0] in s.swept)
  }

  /** Once attachPendingToConnection saw the connection as current its table check succeeds. */
  ghost predicate AttachSucceeds(s: State) {
    forall id :: id in s.pcs && s.pcs[id].AttachChecked? ==> id in s.client.pending
  }

  ghost predicate WithinLimit(s: State) {
    |s.client.pending| <= EffectiveLimit(s.client.limit)
  }

  ghost predicate Safe(s: State) {
    && NoBlockedSender(s) && NoResultOverwritten(s) && NoLostResult(s)
    && ResultsMatchTheLastWrite(s) && WritesBounded(s) && AttachSucceeds(s) && WithinLimit(s)
  }

  lemma InvSafe(s: State)
    requires Inv(s)
    ensures Safe(s)
  {
    forall id | id in s.pcs && s.pcs[id].Waiting?
      ensures At(s, id) && Served(s, id, s.pcs[id].conn)
    {
      assert CallOk(s, id);
    }
    forall id | CanTable(s, id, Receive)
      ensures |s.writes[id]| > 0
      ensures s.client.calls[id].slot.value.conn == s.pcs[id].conn == s.writes[id][|s.writes[id]| - 1]
    {
      assert CallOk(s, id);
    }
    forall id | id in s.pcs
      ensures CallOk(s, id)
    {
    }
  }

  /** A run from the empty client: every state follows from the one before by the step taken. */
  ghost predicate IsRun(limit: nat, states: seq<State>, steps: seq<Step>) {
    && |states| == |steps| + 1
    && states[0] == Initial(limit)
    && forall i :: 0 <= i < |steps| ==> Enabled(states[i], steps[i]) && states[i + 1] == Do(states[i], steps[i])
  }

  lemma {:induction false} RunInv(limit: nat, states: seq<State>, steps: seq<Step>, i: nat)
    requires IsRun(limit, states, steps) && i < |states|
    ensures Inv(states[i])
  {
    if i == 0 {
      InitInv(limit);
    } else {
      RunInv(limit, states, steps, i - 1);
      StepInv(states[i - 1], steps[i - 1]);
    }
  }

  /** Every reachable state, under every schedule and every behaviour of the network, is safe. */
  lemma EveryRunIsSafe(limit: nat, states: seq<State>, steps: seq<Step>)
    requires IsRun(limit, states, steps)
    ensures forall i :: 0 <= i < |states| ==> Safe(states[i])
  {
    forall i | 0 <= i < |states|
      ensures Safe(states[i])
    {
      RunInv(limit, states, steps, i);
      InvSafe(states[i]);
    }
  }

  /** Caller id can take its next step now, without its deadline expiring. */
  ghost predicate CanStep(s: State, id: CallId) {
    || (exists move: Move :: !move.Expire? && CanMove(s, id, move))
    || (exists op :: CanTable(s, id, op))
    || CanBreak(s, Caller(id)) || CanEndBreak(s, Caller(id))
  }

  /** No deadlock: a call that has not finished can step, or waits for a reply
      that is not lost, or waits for a mutex whose holder can step; and connMu,
      on which a holder may itself be waiting, is given back by an enabled step. */
  lemma NobodyIsStuck(s: State, id: CallId)
    requires Inv(s) && id in s.pcs && !s.pcs[id].Finished?
    ensures || CanStep(s, id)
            || (s.pcs[id].Waiting? && At(s, id) && Served(s, id, s.pcs[id].conn))
            || (s.sweeper.Some? && CanEndBreak(s, s.sweeper.value))
            || (s.writeMu.Some? && s.writeMu.value != id && CanStep(s, s.writeMu.value))
            || (s.connectMu.Some? && s.connectMu.value != id && CanStep(s, s.connectMu.value))
  {
    assert MutexOk(s, id) && CallOk(s, id);
    if s.sweeper.Some? {
      match s.sweeper.value
      case Caller(k) => assert MutexOk(s, k);
      case Reader(c) => assert ReaderOk(s, c);
    } else if s.pcs[id].Waiting? {
      InvSafe(s);
    } else if s.pcs[id].Connecting? && s.client.conn == None && s.connectMu.Some? {
      assert MutexOk(s, s.connectMu.value);
      assert CanMove(s, s.connectMu.value, DialFail);
    } else if s.pcs[id].ToWrite? && s.writeMu.Some? {
      OwnStep(s, s.writeMu.value);
    } else {
      OwnStep(s, id);
    }
  }

  lemma OwnStep(s: State, id: CallId)
    requires Inv(s) && id in s.pcs && !s.pcs[id].Finished? && !s.pcs[id].Waiting? && s.sweeper == None
    requires !(s.pcs[id].Connecting? && s.client.conn == None && s.connectMu.Some?)
    requires !(s.pcs[id].ToWrite? && s.writeMu.Some?)
    ensures CanStep(s, id)
  {
    assert MutexOk(s, id);
    match s.pcs[id]
    case Connecting => assert CanMove(s, id, UseCurrent) || CanMove(s, id, BeginDial);
    case Dialing => assert CanMove(s, id, DialFail);
    case Attaching(_) => assert CanMove(s, id, AttachCheck);
    case AttachChecked(_) => assert CanTable(s, id, DoAttach);
    case ToWrite(_) => assert CanMove(s, id, LockWrite);
    case Writing(_) => assert CanMove(s, id, CheckCurrent);
    case WriteChecked(_) => assert CanTable(s, id, Mark);
    case Marked(_) => assert CanMove(s, id, WriteJson(true));
    case Breaking(_) => assert CanBreak(s, Caller(id));
    case Sweeping(_) =>
    case Retrying(_) => assert CanMove(s, id, Decide);
    case Returning(_) => assert CanTable(s, id, Leave);
  }
}
