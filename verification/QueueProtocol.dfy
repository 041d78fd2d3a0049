/** All runs of the queue: workers, recovery sweeps, operators and an advancing
    clock act on the records in any order. */
module QueueProtocol {
  import opened Wrappers
  import opened Queue

  /** `issued` (every proof ever handed out) and `granted` (leases given per
      record) are history; no operation reads them. */
  datatype State = State(records: Records, clock: int, issued: set<Proof>, granted: map<QueueId, nat>)

  datatype Step =
    | Enqueue(id: QueueId, command: EnqueueCommand)
    | LeaseNext(filter: Filter, worker: string, token: string, ttl: int, pick: Option<QueueId>)
    | LeaseById(id: QueueId, worker: string, token: string, ttl: int)
    | Heartbeat(proof: Proof, ttl: int)
    | Update(proof: Proof, target: Status, code: string, delay: int)
    | Annotate(proof: Proof, code: string)
    | Ignore(id: QueueId)
    | ExpireLeases
    | ExpireRunning
    | RequeueFailed(queueName: QueueName, code: string)
    | DeadLetterFailed
    | Replay(command_: ReplayCommand)

  predicate Fresh(s: State, worker: string, token: string) {
    worker != "" && token != "" && forall p :: p in s.issued ==> p.token != token
  }

  /** The statuses mutateWithProof is called with. */
  predicate ProofTarget(target: Status) {
    target in {Running, Succeeded, Failed, Timeout, RetryWait, DeadLetter}
  }

  ghost predicate Enabled(s: State, step: Step, now: int) {
    && s.clock <= now && 0 < now
    && match step
       case Enqueue(id, c) => id != "" && c.maxAttempts >= 0
       case LeaseNext(f, worker, token, _, pick) =>
         && Fresh(s, worker, token)
         && (match pick
             case None => forall k :: k in s.records ==> !Eligible(s.records[k], f, now)
             case Some(id) => id in s.records && Eligible(s.records[id], f, now) && NothingPrecedes(s.records, f, now, id))
       case LeaseById(_, worker, token, _) => Fresh(s, worker, token)
       case Update(_, target, _, delay) => ProofTarget(target) && delay >= 0
       case Replay(c) => c.queueId != ""
       case _ => true
  }

  /** The record this step leases, if any. */
  function Leases(s: State, step: Step, now: int): Option<QueueId> {
    match step
    case LeaseNext(_, _, _, _, pick) => pick
    case LeaseById(id, _, _, _) => if LeasableById(s.records, id, now) then Some(id) else None
    case _ => None
  }

  /** The table before the leased record, if any, is granted. */
  function Swept(s: State, step: Step, now: int): Records {
    match step
    case Enqueue(id, c) => Enqueued(s.records, id, c, now)
    case LeaseNext(f, _, _, _, _) => SweepForLease(s.records, f, now)
    case LeaseById(_, _, _, _) => s.records
    case Heartbeat(p, ttl) => Heartbeaten(s.records, p, now, ttl)
    case Update(p, target, code, delay) => ProofUpdated(s.records, p, target, code, delay, now)
    case Annotate(p, code) => Annotated(s.records, p, code, now)
    case Ignore(id) => IgnoredById(s.records, id)
    case ExpireLeases => RecoverExpired(s.records, now)
    case ExpireRunning => RecoverRunning(s.records, now)
    case RequeueFailed(name, code) => Requeue(s.records, name, code)
    case DeadLetterFailed => MarkDead(s.records)
    case Replay(c) => ReplayedById(s.records, c, now)
  }

  function GrantedRecord(s: State, step: Step, now: int): Record
    requires Leases(s, step, now).Some? && Leases(s, step, now).value in s.records
  {
    var r := s.records[Leases(s, step, now).value];
    Granted(r, step.worker, step.token, now, step.ttl)
  }

  ghost function Do(s: State, step: Step, now: int): State
    requires Enabled(s, step, now)
  {
    var leased := Leases(s, step, now);
    if leased.Some? then
      var r := GrantedRecord(s, step, now);
      State(Swept(s, step, now)[leased.value := r], now, s.issued + {ProofOf(leased.value, r)},
            s.granted[leased.value := GrantsOf(s, leased.value) + 1])
    else
      State(Swept(s, step, now), now,
            if step.Heartbeat? && Accepts(s.records, step.proof, now, ACTIVE)
            then s.issued + {step.proof.(expires := now + TtlOr(step.ttl))} else s.issued,
            s.granted)
  }

  function GrantsOf(s: State, id: QueueId): nat {
    if id in s.granted then s.granted[id] else 0
  }

  // ---------- invariants ----------

  predicate RecordOk(r: Record, clock: int) {
    && (Active(r) <==> r.lease.Some?)
    && (Active(r) ==> r.availableAt <= clock && r.attempt > 0 && r.fence > 0)
    && 1 <= r.maxAttempts && r.attempt <= r.maxAttempts
    && (Waiting(r) ==> r.attempt < r.maxAttempts)
    && r.createdAt != 0
    && (r.status.DeadLetter? ==> r.attempt > 0 && (r.deadLettered || r.deadLetterReason != ""))
  }

  ghost predicate TableOk(s: State) {
    && (forall id :: id in s.records ==>
          id != "" && RecordOk(s.records[id], s.clock) && GrantsOf(s, id) == s.records[id].attempt)
    && s.granted.Keys <= s.records.Keys
  }

  /** The proof belongs to the lease generation the record is in. */
  predicate Current(r: Record, p: Proof) {
    r.lease.Some? && r.fence == p.fence && r.attempt == p.attempt
    && r.lease.value.owner == p.worker && r.lease.value.token == p.token
  }

  /** The generation of the proof has been closed, or overtaken by a later one. */
  predicate Superseded(s: Records, p: Proof) {
    p.queueId in s && (p.fence < s[p.queueId].fence || (p.fence == s[p.queueId].fence && s[p.queueId].lease.None?))
  }

  /** Every proof ever issued is of the current generation or superseded. */
  ghost predicate IssuedOk(s: State) {
    && (forall p :: p in s.issued ==> p.queueId in s.records && (Current(s.records[p.queueId], p) || Superseded(s.records, p)))
    && (forall id :: id in s.records && s.records[id].lease.Some? ==> ProofOf(id, s.records[id]) in s.issued)
  }

  ghost predicate Inv(s: State) {
    TableOk(s) && IssuedOk(s)
  }

  // ---------- one record at a time ----------

  /** What any step may do to one record other than leasing it. */
  predicate Evolves(r: Record, r': Record) {
    && r'.fence == r.fence && r'.attempt == r.attempt && r'.maxAttempts == r.maxAttempts
    && (r'.lease.Some? ==> r.lease.Some? && r'.lease.value.owner == r.lease.value.owner && r'.lease.value.token == r.lease.value.token)
  }

  lemma SweptRecord(s: State, step: Step, now: int, id: QueueId)
    requires TableOk(s) && Enabled(s, step, now) && id in s.records
    ensures id in Swept(s, step, now)
    ensures Evolves(s.records[id], Swept(s, step, now)[id])
    ensures RecordOk(Swept(s, step, now)[id], now)
  {
    assert RecordOk(s.records[id], s.clock);
    if step.Update? && step.proof.queueId == id && Accepts(s.records, step.proof, now, AllowedSources(step.target)) {
      UpdatedRecord(s.records[id], step.proof, step.target, step.code, step.delay, s.clock, now);
    }
  }

  lemma UpdatedRecord(r: Record, p: Proof, target: Status, code: string, delay: int, clock: int, now: int)
    requires RecordOk(r, clock) && clock <= now && ProofTarget(target) && p.attempt == r.attempt && Active(r)
    requires target.Running? ==> r.status.Leased?
    ensures RecordOk(Updated(r, p, target, code, delay, now), now)
    ensures Evolves(r, Updated(r, p, target, code, delay, now))
  {
  }

  lemma NewRecordOk(s: State, step: Step, now: int, id: QueueId)
    requires TableOk(s) && Enabled(s, step, now) && id !in s.records && id in Swept(s, step, now)
    ensures id != "" && RecordOk(Swept(s, step, now)[id], now)
    ensures Swept(s, step, now)[id].attempt == 0 && Swept(s, step, now)[id].lease.None?
  {
  }

  /** A step leases only a waiting record, or a leased one whose time is over. */
  lemma LeasedWasFree(s: State, step: Step, now: int)
    requires TableOk(s) && Enabled(s, step, now) && Leases(s, step, now).Some?
    ensures var id := Leases(s, step, now).value;
            && id in s.records && s.records[id].attempt < s.records[id].maxAttempts && s.records[id].availableAt <= now
            && (Waiting(s.records[id]) || (s.records[id].status.Leased? && Expired(s.records[id], now)))
            && Swept(s, step, now).Keys == s.records.Keys
  {
  }

  /** One record across one step: swept as everybody's, and granted if it is the leased one. */
  lemma RecordStep(s: State, step: Step, now: int, id: QueueId)
    requires TableOk(s) && Enabled(s, step, now) && id in Do(s, step, now).records
    ensures var s' := Do(s, step, now);
            id != "" && RecordOk(s'.records[id], now) && GrantsOf(s', id) == s'.records[id].attempt
    ensures id in s.records && Leases(s, step, now) != Some(id) ==> Evolves(s.records[id], Do(s, step, now).records[id])
  {
    if Leases(s, step, now).Some? {
      LeasedWasFree(s, step, now);
    }
    if id in s.records {
      SweptRecord(s, step, now, id);
    } else {
      NewRecordOk(s, step, now, id);
    }
  }

  lemma RecordsPersist(s: State, step: Step, now: int, id: QueueId)
    requires TableOk(s) && Enabled(s, step, now) && id in s.records
    ensures id in Do(s, step, now).records
    ensures s.records[id].fence <= Do(s, step, now).records[id].fence
  {
    SweptRecord(s, step, now, id);
  }

  lemma TableStep(s: State, step: Step, now: int)
    requires TableOk(s) && Enabled(s, step, now)
    ensures TableOk(Do(s, step, now))
  {
    var s' := Do(s, step, now);
    forall id | id in s'.records
      ensures id != "" && RecordOk(s'.records[id], now) && GrantsOf(s', id) == s'.records[id].attempt
    {
      RecordStep(s, step, now, id);
    }
    forall id | id in s'.granted
      ensures id in s'.records
    {
      if id in s.granted {
        RecordsPersist(s, step, now, id);
      }
    }
  }

  // ---------- fencing ----------

  /** A closed or overtaken generation stays so: tokens of the fence only grow,
      and a fence whose lease was given back is never armed again. */
  lemma SupersededStep(s: State, step: Step, now: int, p: Proof)
    requires TableOk(s) && Enabled(s, step, now) && Superseded(s.records, p)
    ensures Superseded(Do(s, step, now).records, p)
  {
    RecordsPersist(s, step, now, p.queueId);
    if Leases(s, step, now) != Some(p.queueId) {
      RecordStep(s, step, now, p.queueId);
    } else {
      LeasedWasFree(s, step, now);
    }
  }

  /** A proof of the current generation stays current or becomes superseded. */
  lemma CurrentStep(s: State, step: Step, now: int, p: Proof)
    requires TableOk(s) && Enabled(s, step, now) && p.queueId in s.records && Current(s.records[p.queueId], p)
    ensures p.queueId in Do(s, step, now).records
    ensures Current(Do(s, step, now).records[p.queueId], p) || Superseded(Do(s, step, now).records, p)
  {
    RecordsPersist(s, step, now, p.queueId);
    RecordStep(s, step, now, p.queueId);
    if Leases(s, step, now) == Some(p.queueId) {
      LeasedWasFree(s, step, now);
    }
  }

  /** Whatever moves a live lease's expiry hands out the proof for it. */
  lemma LiveLeaseStep(s: State, step: Step, now: int, id: QueueId)
    requires Inv(s) && Enabled(s, step, now) && id in Do(s, step, now).records && Do(s, step, now).records[id].lease.Some?
    ensures ProofOf(id, Do(s, step, now).records[id]) in Do(s, step, now).issued
  {
    if Leases(s, step, now) == Some(id) {
    } else if id in s.records {
      SweptRecord(s, step, now, id);
      assert s.records[id].lease.Some? ==> ProofOf(id, s.records[id]) in s.issued;
    } else {
      NewRecordOk(s, step, now, id);
    }
  }

  lemma IssuedStep(s: State, step: Step, now: int)
    requires Inv(s) && Enabled(s, step, now)
    ensures IssuedOk(Do(s, step, now))
  {
    var s' := Do(s, step, now);
    forall p | p in s'.issued
      ensures p.queueId in s'.records && (Current(s'.records[p.queueId], p) || Superseded(s'.records, p))
    {
      if p in s.issued {
        if Superseded(s.records, p) {
          SupersededStep(s, step, now, p);
        } else {
          CurrentStep(s, step, now, p);
        }
      } else if step.Heartbeat? {
        CurrentStep(s, step, now, step.proof);
      }
    }
    forall id | id in s'.records && s'.records[id].lease.Some?
      ensures ProofOf(id, s'.records[id]) in s'.issued
    {
      LiveLeaseStep(s, step, now, id);
    }
  }

  lemma StepInv(s: State, step: Step, now: int)
    requires Inv(s) && Enabled(s, step, now)
    ensures Inv(Do(s, step, now))
  {
    TableStep(s, step, now);
    IssuedStep(s, step, now);
  }

  // ---------- whole runs ----------

  ghost predicate IsRun(states: seq<State>, steps: seq<Step>, times: seq<int>) {
    && |states| == |steps| + 1 && |times| == |steps|
    && states[0] == State(map[], 0, {}, map[])
    && forall i :: 0 <= i < |steps| ==>
         Enabled(states[i], steps[i], times[i]) && states[i + 1] == Do(states[i], steps[i], times[i])
  }

  lemma {:induction false} RunInv(states: seq<State>, steps: seq<Step>, times: seq<int>, i: nat)
    requires IsRun(states, steps, times) && i < |states|
    ensures Inv(states[i])
  {
    if i > 0 {
      RunInv(states, steps, times, i - 1);
      StepInv(states[i - 1], steps[i - 1], times[i - 1]);
    }
  }

  lemma {:induction false} SupersededForever(states: seq<State>, steps: seq<Step>, times: seq<int>, p: Proof, i: nat, j: nat)
    requires IsRun(states, steps, times) && i <= j < |states|
    requires Superseded(states[i].records, p)
    ensures Superseded(states[j].records, p)
    decreases j
  {
    if i < j {
      SupersededForever(states, steps, times, p, i, j - 1);
      RunInv(states, steps, times, j - 1);
      SupersededStep(states[j - 1], steps[j - 1], times[j - 1], p);
    }
  }

  /** Nothing a superseded proof is presented with has any effect. */
  ghost predicate Powerless(s: Records, p: Proof) {
    && (forall now, allowed :: !Accepts(s, p, now, allowed))
    && (forall now, ttl :: Heartbeaten(s, p, now, ttl) == s)
    && (forall target, code, delay, now :: ProofUpdated(s, p, target, code, delay, now) == s)
    && (forall code, now :: Annotated(s, p, code, now) == s)
  }

  /** Fencing: once the generation of an issued proof is closed or overtaken, in
      every later state of the run the worker that kept it can do nothing. */
  lemma StaleWorkerIsPowerlessForever(states: seq<State>, steps: seq<Step>, times: seq<int>, p: Proof, i: nat, j: nat)
    requires IsRun(states, steps, times) && i <= j < |states|
    requires p in states[i].issued && !(p.queueId in states[i].records && Current(states[i].records[p.queueId], p))
    ensures Powerless(states[j].records, p)
  {
    RunInv(states, steps, times, i);
    SupersededForever(states, steps, times, p, i, j);
  }

  /** All proofs that could still act on a record are of one lease generation. */
  lemma OneHolderAtATime(states: seq<State>, steps: seq<Step>, times: seq<int>, i: nat, p: Proof, q: Proof, now: int, allowed: set<Status>)
    requires IsRun(states, steps, times) && i < |states|
    requires p in states[i].issued && q in states[i].issued && p.queueId == q.queueId
    requires Accepts(states[i].records, p, now, allowed) && Accepts(states[i].records, q, now, allowed)
    ensures p == q && Current(states[i].records[p.queueId], p)
  {
    RunInv(states, steps, times, i);
  }

  /** A lease is granted only on a record nobody can act on any more, and it
      supersedes every proof issued for that record before. */
  lemma LeaseExcludesEarlierHolders(s: State, step: Step, now: int, p: Proof, allowed: set<Status>)
    requires Inv(s) && Enabled(s, step, now) && p in s.issued && Leases(s, step, now) == Some(p.queueId)
    ensures !Accepts(s.records, p, now, allowed)
    ensures Superseded(Do(s, step, now).records, p)
  {
    LeasedWasFree(s, step, now);
    assert RecordOk(s.records[p.queueId], s.clock);
  }

  /** While a lease is valid, only its own holder (heartbeat, update) or an
      operator's ignore can change it: no recovery sweep, requeue, replay or
      other worker's step takes it away. */
  lemma ValidLeaseSurvives(s: State, step: Step, now: int, p: Proof)
    requires Inv(s) && Enabled(s, step, now) && Accepts(s.records, p, now, ACTIVE)
    requires !(step.Update? && step.proof.queueId == p.queueId)
    requires !(step.Heartbeat? && step.proof.queueId == p.queueId)
    requires step != Ignore(p.queueId)
    ensures Accepts(Do(s, step, now).records, p, now, ACTIVE)
    ensures Do(s, step, now).records[p.queueId].status == s.records[p.queueId].status
  {
    if Leases(s, step, now).Some? {
      LeasedWasFree(s, step, now);
      assert RecordOk(s.records[p.queueId], s.clock);
    }
    SurvivesSweep(s, step, now, p);
  }

  lemma SurvivesSweep(s: State, step: Step, now: int, p: Proof)
    requires TableOk(s) && Enabled(s, step, now) && Accepts(s.records, p, now, ACTIVE)
    requires !(step.Update? && step.proof.queueId == p.queueId)
    requires !(step.Heartbeat? && step.proof.queueId == p.queueId)
    requires step != Ignore(p.queueId)
    ensures p.queueId in Swept(s, step, now)
    ensures Accepts(Swept(s, step, now), p, now, ACTIVE)
    ensures Swept(s, step, now)[p.queueId].status == s.records[p.queueId].status
  {
  }

  /** A record is leased at most maxAttempts times, and one that waits has attempts left. */
  lemma LeaseBudget(states: seq<State>, steps: seq<Step>, times: seq<int>, i: nat, id: QueueId)
    requires IsRun(states, steps, times) && i < |states| && id in states[i].records
    ensures GrantsOf(states[i], id) <= states[i].records[id].maxAttempts
    ensures Waiting(states[i].records[id]) ==> GrantsOf(states[i], id) < states[i].records[id].maxAttempts
    ensures Waiting(states[i].records[id]) ==> states[i].records[id].lease.None?
  {
    RunInv(states, steps, times, i);
  }

  /** Every dead letter a run can produce is complete enough to be replayed. */
  lemma DeadLettersAreReplayable(states: seq<State>, steps: seq<Step>, times: seq<int>, i: nat, c: ReplayCommand)
    requires IsRun(states, steps, times) && i < |states| && c.queueId in states[i].records
    ensures var r := states[i].records[c.queueId];
            ReplayRefusal(r, c).None? <==> !Material(r) && r.status.DeadLetter? && c.allowed
  {
    RunInv(states, steps, times, i);
    assert RecordOk(states[i].records[c.queueId], states[i].clock);
  }

  // ---------- the SQL form of a lease ----------

  /** deadLetterExpiredQueueBatchTx takes at most a batch of the exhausted leases: `chosen`. */
  function SqlDeadLetter(s: Records, f: Filter, now: int, chosen: set<QueueId>): Records {
    map id | id in s ::
      if id in chosen && InFilter(s[id], f) && Exhausted(s[id], now)
      then DeadLettered(s[id]).(errorCode := LEASE_EXHAUSTED, deadLetterReason := LEASE_EXHAUSTED, deadLettered := true)
      else s[id]
  }

  /** The first update of leasePostgres. */
  function SqlRequeue(s: Records, f: Filter, now: int): Records {
    map id | id in s ::
      if InFilter(s[id], f) && s[id].status.Leased? && Expired(s[id], now) && s[id].attempt < s[id].maxAttempts
      then Closed(s[id], RetryWait).(availableAt := now)
      else s[id]
  }

  function SqlPrepared(s: Records, f: Filter, now: int, chosen: set<QueueId>): Records {
    SqlRequeue(SqlDeadLetter(s, f, now, chosen), f, now)
  }

  /** The where clause of the candidate query. */
  predicate SqlCandidate(r: Record, f: Filter, now: int) {
    InFilter(r, f) && Waiting(r) && r.attempt < r.maxAttempts && r.availableAt <= now
  }

  /** The order by clause: priority desc, created_at asc, limit 1. */
  ghost predicate SqlPick(s: Records, f: Filter, now: int, id: QueueId) {
    && id in s && SqlCandidate(s[id], f, now)
    && forall k :: k in s && SqlCandidate(s[k], f, now) ==>
         s[k].priority < s[id].priority || (s[k].priority == s[id].priority && s[id].createdAt <= s[k].createdAt)
  }

  /** In reachable states both forms choose from the same records. */
  lemma SameCandidates(s: State, f: Filter, now: int, chosen: set<QueueId>, id: QueueId)
    requires TableOk(s) && s.clock <= now && id in s.records
    ensures Eligible(s.records[id], f, now) <==> SqlCandidate(SqlPrepared(s.records, f, now, chosen)[id], f, now)
    ensures SqlPrepared(s.records, f, now, chosen)[id].priority == s.records[id].priority
    ensures SqlPrepared(s.records, f, now, chosen)[id].createdAt == s.records[id].createdAt
  {
    assert RecordOk(s.records[id], s.clock);
  }

  /** The in-memory lease is a lease of the SQL form: it takes a record the query
      may return, and leaves it as the SQL update would (a reclaimed record's
      availability time aside, which only the SQL form rewrites). */
  lemma LeaseRefinesSql(s: State, f: Filter, worker: string, token: string, ttl: int, now: int, chosen: set<QueueId>, id: QueueId)
    requires TableOk(s) && Enabled(s, LeaseNext(f, worker, token, ttl, Some(id)), now)
    ensures SqlPick(SqlPrepared(s.records, f, now, chosen), f, now, id)
    ensures var mine := Do(s, LeaseNext(f, worker, token, ttl, Some(id)), now).records[id];
            var sqls := Granted(SqlPrepared(s.records, f, now, chosen)[id], worker, token, now, ttl);
            mine.(availableAt := now) == sqls.(availableAt := now)
  {
    var prepared := SqlPrepared(s.records, f, now, chosen);
    SameCandidates(s, f, now, chosen, id);
    forall k | k in prepared && SqlCandidate(prepared[k], f, now)
      ensures prepared[k].priority < prepared[id].priority
              || (prepared[k].priority == prepared[id].priority && prepared[id].createdAt <= prepared[k].createdAt)
    {
      SameCandidates(s, f, now, chosen, k);
      assert !SortsBefore(k, s.records[k], id, s.records[id]);
      assert RecordOk(s.records[k], s.clock) && RecordOk(s.records[id], s.clock);
    }
  }

  /** And it reports no work exactly when the query returns no row. */
  lemma NoWorkRefinesSql(s: State, f: Filter, now: int, chosen: set<QueueId>)
    requires TableOk(s) && s.clock <= now
    ensures (forall id :: id in s.records ==> !Eligible(s.records[id], f, now))
            <==> (forall id :: id in s.records ==> !SqlCandidate(SqlPrepared(s.records, f, now, chosen)[id], f, now))
  {
    forall id | id in s.records
      ensures Eligible(s.records[id], f, now) <==> SqlCandidate(SqlPrepared(s.records, f, now, chosen)[id], f, now)
    {
      SameCandidates(s, f, now, chosen, id);
    }
  }

  /** A picked record is found by leaseMemory in every stamped table, so the
      premise of the step is never empty while there is work. */
  lemma SomePickExists(s: State, f: Filter, now: int)
    requires TableOk(s) && exists id :: id in s.records && Eligible(s.records[id], f, now)
    ensures exists id :: id in s.records && Eligible(s.records[id], f, now) && NothingPrecedes(s.records, f, now, id)
  {
    var best := Scanned(s.records, s.records.Keys, f, now);
    assert AllStamped(s.records);
  }

  lemma Scanned(s: Records, seen: set<QueueId>, f: Filter, now: int) returns (best: Option<QueueId>)
    requires seen <= s.Keys
    ensures Best(s, seen, f, now, best)
    decreases |seen|
  {
    if seen == {} {
      return None;
    }
    var id :| id in seen;
    best := Scanned(s, seen - {id}, f, now);
    BestExtends(s, seen - {id}, f, now, best, id);
    assert seen - {id} + {id} == seen;
    if Eligible(s[id], f, now) && (best.None? || SortsBefore(id, s[id], best.value, s[best.value])) {
      best := Some(id);
    }
  }
}
