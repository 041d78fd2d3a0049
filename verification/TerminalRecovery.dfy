/** The generation chain of terminal-recovery queues
    (enqueueRuntimeTerminalRecoveryInTx). Hashes are injective, so a recovery
    queue id or dedupe key is the pair it is computed from. */
module TerminalRecovery {
  import opened Wrappers
  import opened Queue

  datatype QueueKey = Source(name: string) | Recovery(convergence: string, generation: int)

  datatype Payload = Payload(runId: string, dispatchId: string, hostId: string,
                             convergence: string, sourceQueue: Option<QueueKey>, generation: int)

  /** The columns of task_queue_records the chain looks at; `ingest` says queue
      and task type are those of a runtime event ingestion. */
  datatype QueueRow = QueueRow(ingest: bool, taskId: string, dedupe: Option<QueueKey>, status: Status, payload: Payload)

  datatype Lineage = Lineage(generation: int, source: QueueKey, recovery: QueueKey, dedupe: QueueKey)

  datatype Code = NoError | LegacyContract | InvalidSource | InvalidLineage | OtherError(text: string)

  datatype Convergence = Convergence(dispatchId: string, runId: string, queueId: Option<QueueKey>, completed: bool, lastError: Code)

  datatype Command = Command(convergence: string, dispatchId: string, runId: string, hostId: string)

  datatype Outcome =
    | Skipped
    | Blocked(code: Code)
    | Deferred
    | Reused(queue: QueueKey, generation: int)
    | Appended(queue: QueueKey, generation: int)

  datatype RecoveryError = NotFound

  datatype Db = Db(convergences: map<string, Convergence>, queues: map<QueueKey, QueueRow>, lineages: map<string, seq<Lineage>>)

  predicate Runnable(s: Status) {
    s.Pending? || s.RetryWait? || s.Leased? || s.Running?
  }

  predicate Terminal(s: Status) {
    s.Failed? || s.Timeout? || s.DeadLetter? || s.Succeeded? || s.Ignored?
  }

  /** runtimeTerminalRecoveryBlockerCode */
  predicate Blocking(c: Code) {
    c.LegacyContract? || c.InvalidSource? || c.InvalidLineage?
  }

  /** runtimeTerminalRecoverySourceRecordMatches */
  predicate SourceMatches(q: QueueRow, c: Command) {
    && q.ingest && q.taskId == c.runId
    && q.payload.runId == c.runId && q.payload.dispatchId == c.dispatchId && q.payload.hostId == c.hostId
  }

  /** runtimeTerminalRecoveryQueueRecordMatches; the row is the one stored under the key. */
  predicate RecoveryMatches(q: QueueRow, c: Command, source: QueueKey, generation: int) {
    && SourceMatches(q, c)
    && q.dedupe == Some(Recovery(c.convergence, generation))
    && q.payload.convergence == c.convergence
    && q.payload.sourceQueue == Some(source)
    && q.payload.generation == generation
  }

  function RowsOf(db: Db, convergence: string): seq<Lineage> {
    if convergence in db.lineages then db.lineages[convergence] else []
  }

  /** The join of the lineage query: rows whose queue record exists, in order. */
  function Joined(rows: seq<Lineage>, queues: map<QueueKey, QueueRow>): seq<Lineage> {
    if rows == [] then []
    else (if rows[0].recovery in queues then [rows[0]] else []) + Joined(rows[1..], queues)
  }

  lemma JoinedOneMore(rows: seq<Lineage>, all: seq<Lineage>, i: nat, queues: map<QueueKey, QueueRow>)
    requires i < |all|
    ensures var rows' := if all[i].recovery in queues then rows + [all[i]] else rows;
            rows' + Joined(all[i + 1..], queues) == rows + Joined(all[i..], queues)
  {
    assert all[i..][0] == all[i] && all[i..][1..] == all[i + 1..];
  }

  predicate RowValid(row: Lineage, queues: map<QueueKey, QueueRow>, c: Command, source: QueueKey, generation: int) {
    && row.generation == generation && row.source == source
    && row.recovery == Recovery(c.convergence, generation) && row.dedupe == Recovery(c.convergence, generation)
    && row.recovery in queues && RecoveryMatches(queues[row.recovery], c, source, generation)
  }

  datatype Verdict = Corrupt | Last(queue: QueueKey, generation: int) | Open(source: QueueKey, generation: int)

  /** Where the loop over the lineage ends up, started at row i. */
  function Walk(rows: seq<Lineage>, queues: map<QueueKey, QueueRow>, c: Command, i: nat, source: QueueKey, generation: int): Verdict
    requires i <= |rows|
    decreases |rows| - i
  {
    if i == |rows| then Open(source, generation)
    else if !RowValid(rows[i], queues, c, source, generation) then Corrupt
    else if Runnable(queues[rows[i].recovery].status) then
      if i != |rows| - 1 then Corrupt else Last(rows[i].recovery, generation)
    else Walk(rows, queues, c, i + 1, rows[i].recovery, generation + 1)
  }

  function Block(db: Db, convergence: string, code: Code): (Db, Outcome) {
    (if convergence in db.convergences && !db.convergences[convergence].completed
     then db.(convergences := db.convergences[convergence := db.convergences[convergence].(lastError := code)])
     else db, Blocked(code))
  }

  function NewQueue(c: Command, source: QueueKey, generation: int): QueueRow {
    QueueRow(true, c.runId, Some(Recovery(c.convergence, generation)), Pending,
             Payload(c.runId, c.dispatchId, c.hostId, c.convergence, Some(source), generation))
  }

  /** The two inserts, each doing nothing on conflict. */
  function Insert(db: Db, c: Command, source: QueueKey, generation: int): Db {
    var key := Recovery(c.convergence, generation);
    var rows := RowsOf(db, c.convergence);
    db.(queues := if key in db.queues then db.queues else db.queues[key := NewQueue(c, source, generation)],
        lineages := if exists row :: row in rows && row.generation == generation then db.lineages
                    else db.lineages[c.convergence := rows + [Lineage(generation, source, key, key)]])
  }

  function Grow(db: Db, c: Command, source: QueueKey, generation: int): (Db, Outcome) {
    var db' := Insert(db, c, source, generation);
    var key := Recovery(c.convergence, generation);
    if RecoveryMatches(db'.queues[key], c, source, generation) then (db', Appended(key, generation))
    else Block(db', c.convergence, InvalidLineage)
  }

  function Resume(db: Db, c: Command, original: QueueKey): (Db, Outcome) {
    match Walk(Joined(RowsOf(db, c.convergence), db.queues), db.queues, c, 0, original, 1)
    case Corrupt => Block(db, c.convergence, InvalidLineage)
    case Last(queue, generation) => (db, Reused(queue, generation))
    case Open(source, generation) => Grow(db, c, source, generation)
  }

  predicate Found(db: Db, c: Command) {
    && c.convergence in db.convergences
    && db.convergences[c.convergence].dispatchId == c.dispatchId && db.convergences[c.convergence].runId == c.runId
  }

  predicate SourceUsable(db: Db, c: Command)
    requires Found(db, c)
  {
    var q := db.convergences[c.convergence].queueId;
    q.Some? && q.value in db.queues && SourceMatches(db.queues[q.value], c)
  }

  /** One serializable transaction. */
  function Called(db: Db, c: Command): (Db, Outcome)
    requires Found(db, c)
  {
    var row := db.convergences[c.convergence];
    if row.completed then (db, Skipped)
    else if Blocking(row.lastError) then (db, Blocked(row.lastError))
    else if !SourceUsable(db, c) then Block(db, c.convergence, InvalidSource)
    else if !Terminal(db.queues[row.queueId.value].status) then (db, Deferred)
    else Resume(db, c, row.queueId.value)
  }

  /** The tables and the call in their own form. */
  class RecoveryQueues {
    var convergences: map<string, Convergence>
    var queues: map<QueueKey, QueueRow>
    var lineages: map<string, seq<Lineage>>

    ghost function View(): Db
      reads this
    {
      Db(convergences, queues, lineages)
    }

    method BlockRecovery(convergence: string, code: Code) returns (r: Outcome)
      modifies this
      ensures (View(), r) == Block(old(View()), convergence, code)
    {
      if convergence in convergences && !convergences[convergence].completed {
        convergences := convergences[convergence := convergences[convergence].(lastError := code)];
      }
      return Blocked(code);
    }

    method JoinedRows(convergence: string) returns (rows: seq<Lineage>)
      ensures rows == Joined(RowsOf(View(), convergence), queues)
    {
      rows := [];
      var all := if convergence in lineages then lineages[convergence] else [];
      for i := 0 to |all|
        invariant rows + Joined(all[i..], queues) == Joined(all, queues)
      {
        JoinedOneMore(rows, all, i, queues);
        if all[i].recovery in queues {
          rows := rows + [all[i]];
        }
      }
    }

    method EnqueueTerminalRecovery(c: Command) returns (r: Result<Outcome, RecoveryError>)
      modifies this
      ensures r.Ok? <==> Found(old(View()), c)
      ensures r.Err? ==> View() == old(View())
      ensures r.Ok? ==> (View(), r.value) == Called(old(View()), c)
    {
      if c.convergence !in convergences || convergences[c.convergence].dispatchId != c.dispatchId || convergences[c.convergence].runId != c.runId {
        return Err(NotFound);
      }
      var row := convergences[c.convergence];
      if row.completed {
        return Ok(Skipped);
      }
      if Blocking(row.lastError) {
        return Ok(Blocked(row.lastError));
      }
      if row.queueId.None? || row.queueId.value !in queues || !SourceMatches(queues[row.queueId.value], c) {
        var blocked := BlockRecovery(c.convergence, InvalidSource);
        return Ok(blocked);
      }
      if !Terminal(queues[row.queueId.value].status) {
        return Ok(Deferred);
      }
      var rows := JoinedRows(c.convergence);
      var source, generation := row.queueId.value, 1;
      var index := 0;
      while index < |rows|
        invariant 0 <= index <= |rows| && View() == old(View())
        invariant Walk(rows, queues, c, index, source, generation) == Walk(rows, queues, c, 0, row.queueId.value, 1)
      {
        var lineage := rows[index];
        if lineage.generation != generation || lineage.source != source
           || lineage.recovery != Recovery(c.convergence, generation) || lineage.dedupe != Recovery(c.convergence, generation)
           || lineage.recovery !in queues || !RecoveryMatches(queues[lineage.recovery], c, source, generation) {
          var blocked := BlockRecovery(c.convergence, InvalidLineage);
          return Ok(blocked);
        }
        var status := queues[lineage.recovery].status;
        if Runnable(status) {
          if index != |rows| - 1 {
            var blocked := BlockRecovery(c.convergence, InvalidLineage);
            return Ok(blocked);
          }
          return Ok(Reused(lineage.recovery, generation));
        }
        source, generation := lineage.recovery, generation + 1;
        index := index + 1;
      }
      var key := Recovery(c.convergence, generation);
      if key !in queues {
        queues := queues[key := NewQueue(c, source, generation)];
      }
      var all := if c.convergence in lineages then lineages[c.convergence] else [];
      if !exists l :: l in all && l.generation == generation {
        lineages := lineages[c.convergence := all + [Lineage(generation, source, key, key)]];
      }
      if !RecoveryMatches(queues[key], c, source, generation) {
        var blocked := BlockRecovery(c.convergence, InvalidLineage);
        return Ok(blocked);
      }
      return Ok(Appended(key, generation));
    }
  }

  // ---------- the chain ----------

  /** Queue of the i-th link: link 0 is the queue the convergence came from. */
  function Link(original: QueueKey, convergence: string, i: nat): QueueKey {
    if i == 0 then original else Recovery(convergence, i)
  }

  /** Generations 1..n, each source the queue of the generation before, each
      record the one that generation created. */
  ghost predicate ChainOk(db: Db, c: Command, original: QueueKey) {
    forall i :: 0 <= i < |RowsOf(db, c.convergence)| ==>
      RowValid(RowsOf(db, c.convergence)[i], db.queues, c, Link(original, c.convergence, i), i + 1)
  }

  /** The next generation's id has not been used. */
  ghost predicate NoStrays(db: Db, c: Command) {
    forall key :: key in db.queues && key.Recovery? && key.convergence == c.convergence ==>
      1 <= key.generation <= |RowsOf(db, c.convergence)|
  }

  predicate LinkRunnable(db: Db, original: QueueKey, convergence: string, i: nat) {
    Link(original, convergence, i) in db.queues && Runnable(db.queues[Link(original, convergence, i)].status)
  }

  lemma {:induction false} JoinedAll(rows: seq<Lineage>, queues: map<QueueKey, QueueRow>)
    requires forall i :: 0 <= i < |rows| ==> rows[i].recovery in queues
    ensures Joined(rows, queues) == rows
  {
    if rows != [] {
      assert rows == [rows[0]] + rows[1..];
      JoinedAll(rows[1..], queues);
    }
  }

  /** On a well-formed chain the walk stops at the first runnable link, which must be the last one. */
  lemma {:induction false} WalkChain(db: Db, c: Command, original: QueueKey, i: nat)
    requires ChainOk(db, c, original) && i <= |RowsOf(db, c.convergence)|
    ensures var rows := RowsOf(db, c.convergence);
            var n := |rows|;
            var v := Walk(rows, db.queues, c, i, Link(original, c.convergence, i), i + 1);
            && (v.Corrupt? <==> exists k :: i < k < n && LinkRunnable(db, original, c.convergence, k))
            && (v.Open? <==> forall k :: i < k <= n ==> !LinkRunnable(db, original, c.convergence, k))
            && (v.Open? ==> v == Open(Link(original, c.convergence, n), n + 1))
            && (v.Last? ==> v == Last(Recovery(c.convergence, n), n) && n > 0)
    decreases |RowsOf(db, c.convergence)| - i
  {
    var rows := RowsOf(db, c.convergence);
    if i < |rows| {
      assert RowValid(rows[i], db.queues, c, Link(original, c.convergence, i), i + 1);
      assert rows[i].recovery == Link(original, c.convergence, i + 1);
      if LinkRunnable(db, original, c.convergence, i + 1) {
      } else {
        WalkChain(db, c, original, i + 1);
      }
    }
  }

  /** What one call does on a well-formed chain whose convergence is open and unblocked. */
  lemma CallOnChain(db: Db, c: Command)
    requires Found(db, c) && !db.convergences[c.convergence].completed && !Blocking(db.convergences[c.convergence].lastError)
    requires SourceUsable(db, c) && ChainOk(db, c, db.convergences[c.convergence].queueId.value) && NoStrays(db, c)
    ensures var original := db.convergences[c.convergence].queueId.value;
            var n := |RowsOf(db, c.convergence)|;
            var (db', outcome) := Called(db, c);
            var sourceDone := Terminal(db.queues[original].status);
            && (outcome.Deferred? <==> !sourceDone)
            && (outcome.Blocked? <==> sourceDone && exists k :: 0 < k < n && LinkRunnable(db, original, c.convergence, k))
            && (outcome.Appended? <==> sourceDone && forall k :: 0 < k <= n ==> !LinkRunnable(db, original, c.convergence, k))
            && (outcome.Reused? ==> outcome == Reused(Recovery(c.convergence, n), n) && LinkRunnable(db, original, c.convergence, n))
            && (outcome.Appended? ==>
                  && outcome == Appended(Recovery(c.convergence, n + 1), n + 1)
                  && RowsOf(db', c.convergence) == RowsOf(db, c.convergence)
                     + [Lineage(n + 1, Link(original, c.convergence, n), Recovery(c.convergence, n + 1), Recovery(c.convergence, n + 1))]
                  && LinkRunnable(db', original, c.convergence, n + 1))
            && (!outcome.Appended? ==> db'.queues == db.queues && db'.lineages == db.lineages)
            && !outcome.Skipped?
  {
    var original := db.convergences[c.convergence].queueId.value;
    var rows := RowsOf(db, c.convergence);
    JoinedAll(rows, db.queues);
    WalkChain(db, c, original, 0);
  }

  // ---------- all runs ----------

  datatype Step =
    | Call(command: Command)
    | Traffic(key: QueueKey, status: Status)          // workers, sweeps and operators move a queue record
    | EnqueueSource(name: string, queue: QueueRow)
    | OpenConvergence(convergence: string, row: Convergence)
    | Checkpoint(convergence: string, code: Code)     // a converging worker writes its progress or its error
    | Complete(convergence: string)

  predicate Enabled(db: Db, step: Step) {
    match step
    case Call(c) => Found(db, c)
    case Traffic(key, _) => key in db.queues
    case EnqueueSource(name, _) => Source(name) !in db.queues
    case OpenConvergence(id, row) =>
      && id !in db.convergences && id !in db.lineages && !row.completed && row.lastError == NoError
      && (forall key :: key in db.queues && key.Recovery? ==> key.convergence != id)
      && (row.queueId.Some? && row.queueId.value.Recovery? ==> row.queueId.value.convergence != id)
    case Checkpoint(id, _) => id in db.convergences && !db.convergences[id].completed
    case Complete(id) => id in db.convergences
  }

  function Do(db: Db, step: Step): Db
    requires Enabled(db, step)
  {
    match step
    case Call(c) => Called(db, c).0
    case Traffic(key, status) => db.(queues := db.queues[key := db.queues[key].(status := status)])
    case EnqueueSource(name, row) => db.(queues := db.queues[Source(name) := row])
    case OpenConvergence(id, row) => db.(convergences := db.convergences[id := row])
    case Checkpoint(id, code) => db.(convergences := db.convergences[id := db.convergences[id].(lastError := code)])
    case Complete(id) =>
      db.(convergences := db.convergences[id := db.convergences[id].(completed := true, lastError := NoError)])
  }

  predicate SourcePresent(db: Db, id: string)
    requires id in db.convergences
  {
    db.convergences[id].queueId.Some? && db.convergences[id].queueId.value in db.queues
  }

  /** The command that names the convergence and the host its source queue carries. */
  function CommandOf(db: Db, id: string): Command
    requires id in db.convergences && SourcePresent(db, id)
  {
    var row := db.convergences[id];
    Command(id, row.dispatchId, row.runId, db.queues[row.queueId.value].payload.hostId)
  }

  ghost predicate ConvergenceOk(db: Db, id: string)
    requires id in db.convergences
  {
    if SourcePresent(db, id) then
      ChainOk(db, CommandOf(db, id), db.convergences[id].queueId.value) && NoStrays(db, CommandOf(db, id))
    else
      RowsOf(db, id) == [] && NoStrays(db, Command(id, "", "", ""))
  }

  /** Every chain in the database is well formed, and nothing else uses its ids. */
  ghost predicate Inv(db: Db) {
    && (forall id :: id in db.convergences ==> ConvergenceOk(db, id))
    && (forall id :: id in db.lineages ==> id in db.convergences)
    && (forall id :: id in db.convergences && db.convergences[id].queueId.Some? && db.convergences[id].queueId.value.Recovery? ==>
          db.convergences[id].queueId.value.convergence != id)
    && (forall key :: key in db.queues && key.Recovery? ==> key.convergence in db.convergences)
  }

  /** A call touches only its own convergence, and there appends at most one link. */
  lemma CallFrame(db: Db, c: Command)
    requires Found(db, c) && ConvergenceOk(db, c.convergence)
    ensures var (db', outcome) := Called(db, c);
            && db'.convergences.Keys == db.convergences.Keys
            && (forall id :: id in db.convergences ==> db'.convergences[id] == db.convergences[id].(lastError := db'.convergences[id].lastError))
            && (forall id :: id in db.convergences && id != c.convergence ==> db'.convergences[id] == db.convergences[id])
            && (if outcome.Appended? then
                  var n := |RowsOf(db, c.convergence)|;
                  var source := Link(db.convergences[c.convergence].queueId.value, c.convergence, n);
                  && SourcePresent(db, c.convergence) && c == CommandOf(db, c.convergence)
                  && outcome == Appended(Recovery(c.convergence, n + 1), n + 1)
                  && db'.queues == db.queues[Recovery(c.convergence, n + 1) := NewQueue(c, source, n + 1)]
                  && db'.lineages == db.lineages[c.convergence := RowsOf(db, c.convergence)
                       + [Lineage(n + 1, source, Recovery(c.convergence, n + 1), Recovery(c.convergence, n + 1))]]
                  && Recovery(c.convergence, n + 1) !in db.queues
                else db'.queues == db.queues && db'.lineages == db.lineages)
  {
    var row := db.convergences[c.convergence];
    if !row.completed && !Blocking(row.lastError) && SourceUsable(db, c) {
      assert c == CommandOf(db, c.convergence);
      CallOnChain(db, c);
      JoinedAll(RowsOf(db, c.convergence), db.queues);
      WalkChain(db, c, row.queueId.value, 0);
    }
  }

  /** Queue records may be added, and change their status, but keep their identity. */
  ghost predicate QueuesKept(db: Db, db': Db) {
    forall key :: key in db.queues ==>
      key in db'.queues && db'.queues[key] == db.queues[key].(status := db'.queues[key].status)
  }

  /** A chain nobody writes to stays well formed. */
  lemma ConvergenceFrame(db: Db, db': Db, id: string)
    requires id in db.convergences && id in db'.convergences && ConvergenceOk(db, id)
    requires RowsOf(db', id) == RowsOf(db, id) && QueuesKept(db, db')
    requires db'.convergences[id].queueId == db.convergences[id].queueId
    requires db'.convergences[id].dispatchId == db.convergences[id].dispatchId && db'.convergences[id].runId == db.convergences[id].runId
    requires forall key :: key in db'.queues && key.Recovery? && key.convergence == id ==> key in db.queues
    ensures ConvergenceOk(db', id)
  {
    if SourcePresent(db, id) {
      var rows := RowsOf(db, id);
      forall i | 0 <= i < |rows|
        ensures RowValid(rows[i], db'.queues, CommandOf(db', id), Link(db.convergences[id].queueId.value, id, i), i + 1)
      {
        assert RowValid(rows[i], db.queues, CommandOf(db, id), Link(db.convergences[id].queueId.value, id, i), i + 1);
      }
    }
  }

  lemma ConvergenceStep(db: Db, step: Step, id: string)
    requires Inv(db) && Enabled(db, step) && id in Do(db, step).convergences
    ensures ConvergenceOk(Do(db, step), id)
  {
    if step.Call? {
      CallFrame(db, step.command);
      if id == step.command.convergence && Called(db, step.command).1.Appended? {
        ChainGrows(db, step.command);
        return;
      }
    }
    if id in db.convergences {
      ConvergenceFrame(db, Do(db, step), id);
    }
  }

  lemma ChainGrows(db: Db, c: Command)
    requires Inv(db) && Found(db, c) && Called(db, c).1.Appended?
    ensures ConvergenceOk(Called(db, c).0, c.convergence)
  {
    var db' := Called(db, c).0;
    CallFrame(db, c);
    assert ConvergenceOk(db, c.convergence);
    var rows, rows' := RowsOf(db, c.convergence), RowsOf(db', c.convergence);
    forall i | 0 <= i < |rows'|
      ensures RowValid(rows'[i], db'.queues, c, Link(db.convergences[c.convergence].queueId.value, c.convergence, i), i + 1)
    {
      if i < |rows| {
        assert RowValid(rows[i], db.queues, c, Link(db.convergences[c.convergence].queueId.value, c.convergence, i), i + 1);
      }
    }
  }

  lemma StepInv(db: Db, step: Step)
    requires Inv(db) && Enabled(db, step)
    ensures Inv(Do(db, step))
  {
    if step.Call? {
      CallFrame(db, step.command);
    }
    forall id | id in Do(db, step).convergences
      ensures ConvergenceOk(Do(db, step), id)
    {
      ConvergenceStep(db, step, id);
    }
  }

  ghost predicate IsRun(states: seq<Db>, steps: seq<Step>) {
    && |states| == |steps| + 1
    && states[0] == Db(map[], map[], map[])
    && forall i :: 0 <= i < |steps| ==> Enabled(states[i], steps[i]) && states[i + 1] == Do(states[i], steps[i])
  }

  /** In every run the generations of every convergence are 1..n, linked, and backed by their own records. */
  lemma {:induction false} ChainsAlwaysWellFormed(states: seq<Db>, steps: seq<Step>, i: nat)
    requires IsRun(states, steps) && i < |states|
    ensures Inv(states[i])
  {
    if i > 0 {
      ChainsAlwaysWellFormed(states, steps, i - 1);
      StepInv(states[i - 1], steps[i - 1]);
    }
  }

  // ---------- blocks ----------

  predicate IsBlocked(db: Db, id: string) {
    id in db.convergences && !db.convergences[id].completed && Blocking(db.convergences[id].lastError)
  }

  /** A converging worker completes the convergence, or its checkpoint replaces the code by one that does not block. */
  predicate Lifts(step: Step, id: string) {
    step == Complete(id) || (step.Checkpoint? && step.convergence == id && !Blocking(step.code))
  }

  /** Only these lift a block; meanwhile no step appends to the chain. */
  lemma BlockStepIff(db: Db, step: Step, id: string)
    requires Inv(db) && Enabled(db, step) && IsBlocked(db, id)
    ensures IsBlocked(Do(db, step), id) <==> !Lifts(step, id)
    ensures RowsOf(Do(db, step), id) == RowsOf(db, id)
    ensures !(step.Checkpoint? && step.convergence == id) && step != Complete(id) ==>
              Do(db, step).convergences[id] == db.convergences[id]
  {
    if step.Call? {
      CallFrame(db, step.command);
    }
  }

  predicate NoLift(steps: seq<Step>, id: string, i: nat, j: nat)
    requires j <= |steps|
  {
    forall k :: i <= k < j ==> !Lifts(steps[k], id)
  }

  predicate BlockedThroughout(states: seq<Db>, id: string, i: nat, j: nat)
    requires j < |states|
  {
    forall k :: i <= k <= j ==> IsBlocked(states[k], id)
  }

  lemma {:induction false} BlockLasts(states: seq<Db>, steps: seq<Step>, id: string, i: nat, j: nat)
    requires IsRun(states, steps) && i <= j < |states| && IsBlocked(states[i], id) && NoLift(steps, id, i, j)
    ensures IsBlocked(states[j], id) && RowsOf(states[j], id) == RowsOf(states[i], id)
    decreases j
  {
    if i < j {
      BlockLasts(states, steps, id, i, j - 1);
      ChainsAlwaysWellFormed(states, steps, j - 1);
      BlockStepIff(states[j - 1], steps[j - 1], id);
    }
  }

  /** Over runs: a block is in force in every state up to j exactly if no step in
      between lifts it, and as long as it is in force the chain does not grow and
      every call answers with a block. */
  lemma BlockStaysIff(states: seq<Db>, steps: seq<Step>, id: string, i: nat, j: nat)
    requires IsRun(states, steps) && i <= j < |states| && IsBlocked(states[i], id)
    ensures BlockedThroughout(states, id, i, j) <==> NoLift(steps, id, i, j)
    ensures NoLift(steps, id, i, j) ==>
              && RowsOf(states[j], id) == RowsOf(states[i], id)
              && forall c: Command :: c.convergence == id && Found(states[j], c) ==> Called(states[j], c).1.Blocked?
  {
    if NoLift(steps, id, i, j) {
      forall k | i <= k <= j
        ensures IsBlocked(states[k], id)
      {
        BlockLasts(states, steps, id, i, k);
      }
      BlockLasts(states, steps, id, i, j);
    } else {
      var k :| i <= k < j && Lifts(steps[k], id);
      ChainsAlwaysWellFormed(states, steps, k);
      if IsBlocked(states[k], id) {
        BlockStepIff(states[k], steps[k], id);
        assert !IsBlocked(states[k + 1], id);
      }
    }
  }

  /** A run in which a block is lifted: a call that names another host blocks the
      convergence; a converging worker that still holds an earlier queue then
      writes its checkpoint, and the next call appends again. */
  lemma BlockCanBeLifted()
    ensures exists states, steps, c: Command ::
              && IsRun(states, steps) && |steps| == 4 && steps[3] == Checkpoint(c.convergence, NoError)
              && Found(states[3], c) && Called(states[3], c).1.Blocked?
              && Found(states[4], c) && Called(states[4], c).1.Appended?
  {
    var c := Command("conv", "dispatch", "run", "host");
    var q := QueueRow(true, "run", None, Failed, Payload("run", "dispatch", "host", "", None, 0));
    BlockRun(c, q, Convergence("dispatch", "run", Some(Source("q")), false, NoError), c.(hostId := "other"));
  }

  lemma BlockRun(c: Command, q: QueueRow, row: Convergence, stranger: Command)
    requires row.queueId == Some(Source("q")) && !row.completed && row.lastError == NoError
    requires row.dispatchId == c.dispatchId && row.runId == c.runId
    requires SourceMatches(q, c) && q.status.Failed? && stranger == c.(hostId := stranger.hostId) && stranger.hostId != c.hostId
    ensures exists states, steps ::
              && IsRun(states, steps) && |steps| == 4 && steps[3] == Checkpoint(c.convergence, NoError)
              && Found(states[3], c) && Called(states[3], c).1.Blocked?
              && Found(states[4], c) && Called(states[4], c).1.Appended?
  {
    var steps := [EnqueueSource("q", q), OpenConvergence(c.convergence, row), Call(stranger), Checkpoint(c.convergence, NoError)];
    var s0 := Db(map[], map[], map[]);
    var s1 := Do(s0, steps[0]);
    var s2 := Do(s1, steps[1]);
    var s3 := Do(s2, steps[2]);
    assert s3 == s2.(convergences := map[c.convergence := row.(lastError := InvalidSource)]);
    var s4 := Do(s3, steps[3]);
    assert SourceUsable(s4, c) && RowsOf(s4, c.convergence) == [];
    CallOnChain(s4, c);
    var states := [s0, s1, s2, s3, s4];
    assert IsRun(states, steps);
  }

  /** All links before the last are finished for good. */
  ghost predicate EarlierDone(db: Db) {
    forall id, k :: id in db.convergences && SourcePresent(db, id) && 0 <= k < |RowsOf(db, id)| ==>
      !LinkRunnable(db, db.convergences[id].queueId.value, id, k)
  }

  ghost predicate Unblocked(db: Db) {
    forall id :: id in db.convergences ==>
      !Blocking(db.convergences[id].lastError) && SourcePresent(db, id) && SourceUsable(db, CommandOf(db, id))
  }

  /** A step of a queue whose terminal statuses are final, and of callers that name the right host. */
  predicate Disciplined(db: Db, step: Step)
    requires Enabled(db, step)
  {
    match step
    case Call(c) => SourcePresent(db, c.convergence) && c == CommandOf(db, c.convergence)
    case Traffic(key, status) => Terminal(db.queues[key].status) ==> Terminal(status)
    case OpenConvergence(id, row) =>
      row.queueId.Some? && row.queueId.value in db.queues
      && SourceMatches(db.queues[row.queueId.value], Command(id, row.dispatchId, row.runId, db.queues[row.queueId.value].payload.hostId))
    case Checkpoint(_, code) => !Blocking(code)
    case _ => true
  }

  lemma DisciplinedOutcome(db: Db, c: Command)
    requires Inv(db) && EarlierDone(db) && Unblocked(db) && Found(db, c)
    requires SourcePresent(db, c.convergence) && c == CommandOf(db, c.convergence)
    ensures !Called(db, c).1.Blocked?
    ensures Called(db, c).0.convergences == db.convergences
    ensures Called(db, c).1.Appended? ==>
      forall k :: 0 <= k <= |RowsOf(db, c.convergence)| ==> !LinkRunnable(db, db.convergences[c.convergence].queueId.value, c.convergence, k)
  {
    assert ConvergenceOk(db, c.convergence);
    var original := db.convergences[c.convergence].queueId.value;
    forall k | 0 <= k < |RowsOf(db, c.convergence)|
      ensures !LinkRunnable(db, original, c.convergence, k)
    {
      assert SourcePresent(db, c.convergence);
    }
    QuietOutcome(db, c, original);
  }

  lemma QuietOutcome(db: Db, c: Command, original: QueueKey)
    requires Found(db, c) && SourceUsable(db, c) && db.convergences[c.convergence].queueId == Some(original)
    requires !Blocking(db.convergences[c.convergence].lastError)
    requires ChainOk(db, c, original) && NoStrays(db, c)
    requires forall k :: 0 <= k < |RowsOf(db, c.convergence)| ==> !LinkRunnable(db, original, c.convergence, k)
    ensures !Called(db, c).1.Blocked? && Called(db, c).0.convergences == db.convergences
    ensures Called(db, c).1.Appended? ==>
      forall k :: 0 <= k <= |RowsOf(db, c.convergence)| ==> !LinkRunnable(db, original, c.convergence, k)
  {
    if !db.convergences[c.convergence].completed {
      CallOnChain(db, c);
    }
  }

  lemma LinkPresent(db: Db, id: string, k: nat)
    requires id in db.convergences && SourcePresent(db, id) && ConvergenceOk(db, id) && k <= |RowsOf(db, id)|
    ensures Link(db.convergences[id].queueId.value, id, k) in db.queues
  {
    if k > 0 {
      assert RowValid(RowsOf(db, id)[k - 1], db.queues, CommandOf(db, id), Link(db.convergences[id].queueId.value, id, k - 1), k);
    }
  }

  lemma EarlierDoneCall(db: Db, c: Command, id: string, k: nat)
    requires Inv(db) && EarlierDone(db) && Unblocked(db) && Found(db, c) && Disciplined(db, Call(c))
    requires var db' := Called(db, c).0; id in db'.convergences && k < |RowsOf(db', id)|
    ensures var db' := Called(db, c).0; !LinkRunnable(db', db'.convergences[id].queueId.value, id, k)
  {
    CallFrame(db, c);
    DisciplinedOutcome(db, c);
    LinkPresent(db, id, k);
    assert !LinkRunnable(db, db.convergences[id].queueId.value, id, k);
  }

  lemma EarlierDoneTraffic(db: Db, step: Step, id: string, k: nat)
    requires Inv(db) && EarlierDone(db) && Unblocked(db) && Enabled(db, step) && Disciplined(db, step) && !step.Call?
    requires id in db.convergences && k < |RowsOf(db, id)|
    ensures var db' := Do(db, step); !LinkRunnable(db', db'.convergences[id].queueId.value, id, k)
  {
    LinkPresent(db, id, k);
    assert !LinkRunnable(db, db.convergences[id].queueId.value, id, k);
  }

  lemma EarlierDoneStep(db: Db, step: Step, id: string, k: nat)
    requires Inv(db) && EarlierDone(db) && Unblocked(db) && Enabled(db, step) && Disciplined(db, step)
    requires id in Do(db, step).convergences && SourcePresent(Do(db, step), id) && k < |RowsOf(Do(db, step), id)|
    ensures !LinkRunnable(Do(db, step), Do(db, step).convergences[id].queueId.value, id, k)
  {
    if step.Call? {
      CallFrame(db, step.command);
      EarlierDoneCall(db, step.command, id, k);
    } else if id in db.convergences {
      EarlierDoneTraffic(db, step, id, k);
    }
  }

  lemma UnblockedCall(db: Db, c: Command)
    requires Inv(db) && EarlierDone(db) && Unblocked(db) && Found(db, c) && Disciplined(db, Call(c))
    ensures Unblocked(Called(db, c).0) && !Called(db, c).1.Blocked?
  {
    assert ConvergenceOk(db, c.convergence);
    CallFrame(db, c);
    DisciplinedOutcome(db, c);
  }

  lemma UnblockedStep(db: Db, step: Step)
    requires Unblocked(db) && Enabled(db, step) && Disciplined(db, step) && !step.Call?
    ensures Unblocked(Do(db, step))
  {
  }

  lemma DisciplinedStep(db: Db, step: Step)
    requires Inv(db) && EarlierDone(db) && Unblocked(db) && Enabled(db, step) && Disciplined(db, step)
    ensures EarlierDone(Do(db, step)) && Unblocked(Do(db, step))
    ensures step.Call? ==> !Called(db, step.command).1.Blocked?
  {
    if step.Call? {
      UnblockedCall(db, step.command);
    } else {
      UnblockedStep(db, step);
    }
    forall id, k | id in Do(db, step).convergences && SourcePresent(Do(db, step), id) && 0 <= k < |RowsOf(Do(db, step), id)|
      ensures !LinkRunnable(Do(db, step), Do(db, step).convergences[id].queueId.value, id, k)
    {
      EarlierDoneStep(db, step, id, k);
    }
  }

  /** As long as finished queue records are not put back to work, no call ever
      blocks a convergence: the invalid-lineage blocker is reachable only by
      requeuing an earlier generation. */
  lemma {:induction false} NoBlockWithoutRequeue(states: seq<Db>, steps: seq<Step>, i: nat)
    requires IsRun(states, steps) && i < |states|
    requires forall k :: 0 <= k < i ==> Disciplined(states[k], steps[k])
    ensures EarlierDone(states[i]) && Unblocked(states[i])
    ensures i < |steps| && Disciplined(states[i], steps[i]) && steps[i].Call? ==> !Called(states[i], steps[i].command).1.Blocked?
  {
    if i > 0 {
      NoBlockWithoutRequeue(states, steps, i - 1);
      ChainsAlwaysWellFormed(states, steps, i - 1);
      DisciplinedStep(states[i - 1], steps[i - 1]);
    }
    ChainsAlwaysWellFormed(states, steps, i);
    if i < |steps| && Disciplined(states[i], steps[i]) {
      DisciplinedStep(states[i], steps[i]);
    }
  }

  /** Two generations: the first failed, the second still to be worked on. */
  function TwoGenerations(): Db {
    var c := Command("conv", "dispatch", "run", "host");
    var source, one, two := Source("q"), Recovery("conv", 1), Recovery("conv", 2);
    Db(map["conv" := Convergence("dispatch", "run", Some(source), false, NoError)],
       map[source := QueueRow(true, "run", None, Failed, Payload("run", "dispatch", "host", "", None, 0)),
           one := NewQueue(c, source, 1).(status := Failed),
           two := NewQueue(c, one, 2)],
       map["conv" := [Lineage(1, source, one, one), Lineage(2, one, two, two)]])
  }

  lemma TwoGenerationsOk()
    ensures Inv(TwoGenerations())
    ensures CommandOf(TwoGenerations(), "conv") == Command("conv", "dispatch", "run", "host")
    ensures SourceUsable(TwoGenerations(), Command("conv", "dispatch", "run", "host"))
  {
    var db := TwoGenerations();
    var rows := RowsOf(db, "conv");
    forall i | 0 <= i < |rows|
      ensures RowValid(rows[i], db.queues, CommandOf(db, "conv"), Link(Source("q"), "conv", i), i + 1)
    {
    }
    assert ConvergenceOk(db, "conv");
  }

  /** Requeuing a failed first generation, as the recovery sweep of module Queue
      does, turns the next call from reuse into a block. */
  lemma RequeueBlocksTheChain(r: Record)
    requires !Material(r) && r.status.Failed? && r.attempt < r.maxAttempts
    ensures var db, c, key := TwoGenerations(), Command("conv", "dispatch", "run", "host"), Recovery("conv", 1);
            var requeue := Traffic(key, Requeued(r, r.queueName, "").status);
            && Inv(db) && Found(db, c) && Called(db, c).1.Reused?
            && key in db.queues && db.queues[key].status == r.status
            && Found(Do(db, requeue), c) && Called(Do(db, requeue), c).1 == Blocked(InvalidLineage)
  {
    var db, c, source := TwoGenerations(), Command("conv", "dispatch", "run", "host"), Source("q");
    TwoGenerationsOk();
    assert ConvergenceOk(db, "conv");
    CallOnChain(db, c);
    assert !LinkRunnable(db, source, "conv", 1) && LinkRunnable(db, source, "conv", 2);
    var db' := Do(db, Traffic(Recovery("conv", 1), RetryWait));
    ConvergenceFrame(db, db', "conv");
    assert CommandOf(db', "conv") == c && LinkRunnable(db', source, "conv", 1);
    CallOnChain(db', c);
  }
}
