/** Queue records, leases and fences (queue_repository.go, the in-memory form).
    A record's lease owner, token and expiry are set and deleted together, so
    they are one optional Lease. Times are integers; 0 is the zero time. */
module Queue {
  import opened Wrappers

  type QueueId = string

  /** isMaterialQueueName: seven fixed names belong to the material repository. */
  datatype QueueName = MaterialQueue(stage: string) | WorkQueue(name: string)

  datatype Status = Pending | RetryWait | Leased | Running | Succeeded | Failed | Timeout | DeadLetter | Ignored

  datatype Lease = Lease(owner: string, token: string, expires: int)

  datatype Record = Record(
    queueName: QueueName, taskType: string, status: Status, priority: int,
    attempt: nat, maxAttempts: int, lease: Option<Lease>, fence: nat,
    availableAt: int, createdAt: int,
    errorCode: string, deadLettered: bool, deadLetterReason: string,
    replayedFrom: QueueId, replayedBy: string, replayReason: string)

  type Records = map<QueueId, Record>

  /** QueueLeaseProof */
  datatype Proof = Proof(queueId: QueueId, worker: string, attempt: int, token: string, fence: int, expires: int)

  datatype QueueError = StaleLease | NoWork | MaterialOwned | ReplayNotFound | ReplayConflict | ReplayForbidden

  datatype Filter = Filter(queueName: Option<QueueName>, taskTypes: set<string>)

  datatype EnqueueCommand = EnqueueCommand(queueName: QueueName, taskType: string, priority: int, maxAttempts: int, availableAt: int)

  /** `allowed` is the answer of adminReplayTaskAllowed, `suffix` the hash of the command. */
  datatype ReplayCommand = ReplayCommand(queueId: QueueId, operator: string, reason: string, suffix: string, allowed: bool)

  const DEFAULT_MAX_ATTEMPTS := 3
  const DEFAULT_PRIORITY := 100
  const DEFAULT_TTL := 60
  const LEASE_EXHAUSTED := "LEASE_EXHAUSTED"

  /** defaultInt */
  function DefaultInt(value: int, fallback: int): int {
    if value == 0 then fallback else value
  }

  function TtlOr(ttl: int): int {
    if ttl <= 0 then DEFAULT_TTL else ttl
  }

  predicate Material(r: Record) {
    r.queueName.MaterialQueue?
  }

  predicate Waiting(r: Record) {
    r.status.Pending? || r.status.RetryWait?
  }

  predicate Active(r: Record) {
    r.status.Leased? || r.status.Running?
  }

  predicate Expired(r: Record, now: int) {
    r.lease.Some? && r.lease.value.expires <= now
  }

  predicate InFilter(r: Record, f: Filter) {
    && !Material(r)
    && (f.queueName.Some? ==> r.queueName == f.queueName.value)
    && (f.taskTypes != {} ==> r.taskType in f.taskTypes)
  }

  /** What leaseMemory may hand out. */
  predicate Eligible(r: Record, f: Filter, now: int) {
    && InFilter(r, f)
    && (Waiting(r) || (r.status.Leased? && Expired(r, now)))
    && r.attempt < r.maxAttempts
    && r.availableAt <= now
  }

  predicate Exhausted(r: Record, now: int) {
    Active(r) && Expired(r, now) && r.attempt >= r.maxAttempts
  }

  /** markExpiredLeaseDeadLetterMemory */
  function DeadLettered(r: Record): Record {
    var code := if r.errorCode == "" then LEASE_EXHAUSTED else r.errorCode;
    r.(status := DeadLetter, lease := None, errorCode := code, deadLetterReason := code)
  }

  function Closed(r: Record, status: Status): Record {
    r.(status := status, lease := None)
  }

  // ---------- what each operation does to one record ----------

  function NewRecord(c: EnqueueCommand, now: int): Record {
    Record(c.queueName, c.taskType, Pending, DefaultInt(c.priority, DEFAULT_PRIORITY),
           0, DefaultInt(c.maxAttempts, DEFAULT_MAX_ATTEMPTS), None, 0,
           c.availableAt, now, "", false, "", "", "", "")
  }

  function Granted(r: Record, worker: string, token: string, now: int, ttl: int): Record {
    r.(status := Leased, lease := Some(Lease(worker, token, now + TtlOr(ttl))),
       fence := r.fence + 1, attempt := r.attempt + 1)
  }

  function ProofOf(id: QueueId, r: Record): Proof
    requires r.lease.Some?
  {
    Proof(id, r.lease.value.owner, r.attempt, r.lease.value.token, r.fence, r.lease.value.expires)
  }

  /** validateQueueLeaseProof */
  predicate WellFormed(p: Proof) {
    p.queueId != "" && p.worker != "" && p.attempt > 0 && p.token != "" && p.fence > 0 && p.expires != 0
  }

  /** queueMemoryProofMatches; the record is the one stored under the proof's queue id. */
  predicate ProofMatches(r: Record, p: Proof, now: int, allowed: set<Status>) {
    && r.lease.Some?
    && r.lease.value.owner == p.worker && r.lease.value.token == p.token
    && r.attempt == p.attempt && r.fence == p.fence
    && r.lease.value.expires == p.expires && r.lease.value.expires > now
    && r.status in allowed
  }

  const ACTIVE: set<Status> := {Leased, Running}

  /** allowedQueueSourceStatuses */
  function AllowedSources(target: Status): set<Status> {
    if target.Running? then {Leased} else ACTIVE
  }

  /** A retry without attempts left becomes a dead letter. */
  function ActualTarget(r: Record, p: Proof, target: Status): Status {
    if target.RetryWait? && p.attempt >= r.maxAttempts then DeadLetter else target
  }

  function Updated(r: Record, p: Proof, target: Status, code: string, delay: int, now: int): Record {
    var status := ActualTarget(r, p, target);
    var code' := if status != target && code == "" then LEASE_EXHAUSTED else code;
    r.(status := status,
       lease := if status.Running? then r.lease else None,
       availableAt := if status.RetryWait? then now + delay else r.availableAt,
       errorCode := if code' != "" then code' else if status.Succeeded? then "" else r.errorCode,
       deadLettered := r.deadLettered || status.DeadLetter?,
       deadLetterReason := if status.DeadLetter? then code' else r.deadLetterReason)
  }

  function Replayed(r: Record, c: ReplayCommand, now: int): Record {
    r.(status := Pending, attempt := 0, lease := None, availableAt := now, createdAt := now,
       errorCode := "", deadLettered := false, deadLetterReason := "",
       replayedFrom := c.queueId, replayedBy := c.operator, replayReason := c.reason)
  }

  /** validateAdminReplaySource */
  function ReplayRefusal(r: Record, c: ReplayCommand): Option<QueueError> {
    if Material(r) then Some(MaterialOwned)
    else if !r.status.DeadLetter? || r.lease.Some? then Some(ReplayConflict)
    else if r.attempt <= 0 || r.maxAttempts <= 0 || r.attempt > r.maxAttempts then Some(ReplayConflict)
    else if !c.allowed then Some(ReplayForbidden)
    else if !r.deadLettered && r.deadLetterReason == "" && r.errorCode == "" then Some(ReplayConflict)
    else None
  }

  function ReplayId(c: ReplayCommand): QueueId {
    c.queueId + ":replay:" + c.suffix
  }

  predicate SameLineage(r: Record, c: ReplayCommand) {
    r.replayedFrom == c.queueId && r.replayedBy == c.operator && r.replayReason == c.reason
  }

  /** recoverExpiredLeasesMemory, one record. */
  function RecoveredExpired(r: Record, now: int): Record {
    if Material(r) || !Active(r) || !Expired(r, now) then r
    else if r.attempt >= r.maxAttempts then DeadLettered(r)
    else if r.status.Running? then r
    else Closed(r, RetryWait)
  }

  /** recoverRunningWithoutHeartbeatMemory, one record. */
  function RecoveredRunning(r: Record, now: int): Record {
    if Material(r) || !r.status.Running? || !Expired(r, now) then r
    else Closed(r, Timeout).(errorCode := "RUNTIME_RUN_STALLED")
  }

  /** requeueRecoverableQueueMemory, one record. */
  function Requeued(r: Record, queueName: QueueName, code: string): Record {
    if r.queueName != queueName || !(r.status.Failed? || r.status.Timeout?) || r.attempt >= r.maxAttempts
       || (code != "" && r.errorCode != code)
    then r
    else Closed(r, RetryWait)
  }

  /** markDeadLetterCandidatesMemory, one record. */
  function MarkedDead(r: Record): Record {
    if Material(r) || !r.status.Failed? || r.attempt < r.maxAttempts then r else DeadLettered(r)
  }

  /** What a lease call does to every record it walks past. */
  function LeaseSwept(r: Record, f: Filter, now: int): Record {
    if InFilter(r, f) && Exhausted(r, now) then DeadLettered(r) else r
  }

  // ---------- what each operation does to the table ----------

  function Enqueued(s: Records, id: QueueId, c: EnqueueCommand, now: int): Records {
    if id in s then s else s[id := NewRecord(c, now)]
  }

  function SweepForLease(s: Records, f: Filter, now: int): Records {
    map id | id in s :: LeaseSwept(s[id], f, now)
  }

  function RecoverExpired(s: Records, now: int): Records {
    map id | id in s :: RecoveredExpired(s[id], now)
  }

  function RecoverRunning(s: Records, now: int): Records {
    map id | id in s :: RecoveredRunning(s[id], now)
  }

  function Requeue(s: Records, queueName: QueueName, code: string): Records {
    if queueName.MaterialQueue? then s else map id | id in s :: Requeued(s[id], queueName, code)
  }

  function MarkDead(s: Records): Records {
    map id | id in s :: MarkedDead(s[id])
  }

  /** The records a sweep wrote to; it returns how many. */
  function Changed(before: Records, after: Records): set<QueueId> {
    set id | id in before && id in after && after[id] != before[id]
  }

  predicate LeasableById(s: Records, id: QueueId, now: int) {
    id in s && !Material(s[id]) && Waiting(s[id]) && s[id].attempt < s[id].maxAttempts && s[id].availableAt <= now
  }

  /** May this proof act on the table at all? */
  predicate Accepts(s: Records, p: Proof, now: int, allowed: set<Status>) {
    WellFormed(p) && p.queueId in s && !Material(s[p.queueId]) && ProofMatches(s[p.queueId], p, now, allowed)
  }

  function Heartbeaten(s: Records, p: Proof, now: int, ttl: int): Records {
    if !Accepts(s, p, now, ACTIVE) then s
    else s[p.queueId := s[p.queueId].(lease := Some(s[p.queueId].lease.value.(expires := now + TtlOr(ttl))))]
  }

  function ProofUpdated(s: Records, p: Proof, target: Status, code: string, delay: int, now: int): Records {
    if !Accepts(s, p, now, AllowedSources(target)) then s
    else s[p.queueId := Updated(s[p.queueId], p, target, code, delay, now)]
  }

  function Annotated(s: Records, p: Proof, code: string, now: int): Records {
    if !Accepts(s, p, now, ACTIVE) then s
    else s[p.queueId := s[p.queueId].(errorCode := code)]
  }

  function IgnoredById(s: Records, id: QueueId): Records {
    if id !in s || Material(s[id]) then s else s[id := Closed(s[id], Ignored)]
  }

  function ReplayedById(s: Records, c: ReplayCommand, now: int): Records {
    if c.queueId !in s || ReplayRefusal(s[c.queueId], c).Some? || ReplayId(c) in s then s
    else s[ReplayId(c) := Replayed(s[c.queueId], c, now)]
  }

  // ---------- order ----------

  /** Go's string order. */
  predicate StringLess(a: string, b: string) {
    if b == "" then false
    else if a == "" then true
    else a[0] < b[0] || (a[0] == b[0] && StringLess(a[1..], b[1..]))
  }

  /** queueRecordSortsBefore */
  predicate SortsBefore(a: QueueId, ra: Record, b: QueueId, rb: Record) {
    if ra.priority != rb.priority then ra.priority > rb.priority
    else if ra.createdAt == 0 || rb.createdAt == 0 then StringLess(a, b)
    else ra.createdAt < rb.createdAt
  }

  /** Every record carries its creation time, as enqueue and replay stamp it. */
  ghost predicate AllStamped(s: Records) {
    forall id :: id in s ==> s[id].createdAt != 0
  }

  ghost predicate NothingPrecedes(s: Records, f: Filter, now: int, id: QueueId)
    requires id in s
  {
    forall k :: k in s && Eligible(s[k], f, now) ==> !SortsBefore(k, s[k], id, s[id])
  }

  /** The best eligible record among those already seen. */
  ghost predicate Best(s: Records, seen: set<QueueId>, f: Filter, now: int, best: Option<QueueId>) {
    match best
    case None => forall k :: k in seen && k in s ==> !Eligible(s[k], f, now)
    case Some(id) =>
      && id in seen && id in s && Eligible(s[id], f, now)
      && (AllStamped(s) ==> forall k :: k in seen && k in s && Eligible(s[k], f, now) ==> !SortsBefore(k, s[k], id, s[id]))
  }

  /** Looking at one more record: keep the best, or take the newcomer if it sorts before it. */
  lemma BestExtends(s: Records, seen: set<QueueId>, f: Filter, now: int, best: Option<QueueId>, id: QueueId)
    requires Best(s, seen, f, now, best) && id in s
    ensures var wins := Eligible(s[id], f, now) && (best.None? || SortsBefore(id, s[id], best.value, s[best.value]));
            Best(s, seen + {id}, f, now, if wins then Some(id) else best)
  {
  }

  /** Among records that carry a creation time the order is strict, so it has no cycles. */
  lemma SortsBeforeIsStrictWhenStamped(a: QueueId, ra: Record, b: QueueId, rb: Record, c: QueueId, rc: Record)
    requires ra.createdAt != 0 && rb.createdAt != 0 && rc.createdAt != 0
    ensures !SortsBefore(a, ra, a, ra)
    ensures SortsBefore(a, ra, b, rb) && SortsBefore(b, rb, c, rc) ==> SortsBefore(a, ra, c, rc)
  {
  }

  /** Without creation times the order is not even acyclic: three records of one
      priority, one of them unstamped, each sort before the next. */
  lemma SortsBeforeCyclesWithoutStamps()
    ensures exists a: Record, b: Record, c: Record ::
              && a.createdAt != 0 && b.createdAt != 0 && c.createdAt == 0
              && SortsBefore("c", a, "a", b) && SortsBefore("a", b, "b", c) && SortsBefore("b", c, "c", a)
  {
    var base := NewRecord(EnqueueCommand(WorkQueue("q"), "t", 1, 1, 0), 1);
    var later, unstamped := base.(createdAt := 2), base.(createdAt := 0);
    assert SortsBefore("c", base, "a", later) && SortsBefore("a", later, "b", unstamped) && SortsBefore("b", unstamped, "c", base);
  }

  // ---------- the repository ----------

  class QueueRepository {
    var records: Records
    var completions: map<string, QueueId>

    constructor ()
      ensures records == map[] && completions == map[]
    {
      records, completions := map[], map[];
    }

    method Enqueue(id: QueueId, c: EnqueueCommand, now: int)
      modifies this`records
      ensures records == Enqueued(old(records), id, c, now)
    {
      if id in records {
        return;
      }
      records := records[id := NewRecord(c, now)];
    }

    /** The branches of leaseMemory on one record: dead-letter it, consider it, or pass on. */
    static method Inspect(record: Record, f: Filter, now: int) returns (dead: bool, candidate: bool)
      ensures dead <==> InFilter(record, f) && Exhausted(record, now)
      ensures candidate <==> Eligible(record, f, now)
    {
      if !InFilter(record, f) {
        return false, false;
      }
      var leaseExpired := false;
      if Active(record) {
        var expired := Expired(record, now);
        if expired && record.attempt >= record.maxAttempts {
          return true, false;
        }
        if record.status.Running? {
          return false, false;
        }
        leaseExpired := expired;
      }
      if !Waiting(record) && !leaseExpired {
        return false, false;
      }
      if record.attempt >= record.maxAttempts || record.availableAt > now {
        return false, false;
      }
      return false, true;
    }

    /** The loop of leaseMemory: the records come in an arbitrary order, exhausted
        ones are dead-lettered on the way, the best eligible one is remembered. */
    method Scan(f: Filter, now: int) returns (selected: Option<QueueId>)
      modifies this`records
      ensures records == SweepForLease(old(records), f, now)
      ensures Best(old(records), old(records).Keys, f, now, selected)
    {
      ghost var before, seen: set<QueueId> := records, {};
      selected := None;
      var todo := records.Keys;
      while todo != {}
        invariant records.Keys == before.Keys && (forall k :: k in before <==> k in todo || k in seen)
        invariant forall k :: k in todo ==> k in records && records[k] == before[k]
        invariant forall k :: k in seen && k !in todo && k in records ==> records[k] == LeaseSwept(before[k], f, now)
        invariant Best(before, seen, f, now, selected)
        invariant seen !! todo
        decreases |todo|
      {
        var id :| id in todo;
        BestExtends(before, seen, f, now, selected, id);
        todo, seen := todo - {id}, seen + {id};
        var record := records[id];
        var dead, candidate := Inspect(record, f, now);
        if dead {
          records := records[id := DeadLettered(record)];
        } else if candidate && (selected.None? || SortsBefore(id, record, selected.value, records[selected.value])) {
          selected := Some(id);
        }
      }
      assert seen == before.Keys;
    }

    /** leaseMemory */
    method LeaseNext(f: Filter, worker: string, token: string, now: int, ttl: int) returns (r: Result<Proof, QueueError>)
      modifies this`records
      ensures r.Err? ==> r.error == NoWork && records == SweepForLease(old(records), f, now)
      ensures r.Err? <==> forall id :: id in old(records) ==> !Eligible(old(records)[id], f, now)
      ensures r.Ok? ==>
        var id := r.value.queueId;
        && id in old(records) && Eligible(old(records)[id], f, now)
        && records == SweepForLease(old(records), f, now)[id := Granted(old(records)[id], worker, token, now, ttl)]
        && records[id].lease.Some? && r.value == ProofOf(id, records[id])
        && (AllStamped(old(records)) ==> NothingPrecedes(old(records), f, now, id))
    {
      var selected := Scan(f, now);
      if selected.None? {
        return Err(NoWork);
      }
      var id := selected.value;
      records := records[id := Granted(records[id], worker, token, now, ttl)];
      return Ok(ProofOf(id, records[id]));
    }

    /** LeaseByID; like Lease it defaults the ttl before it looks at the record. */
    method LeaseById(id: QueueId, worker: string, token: string, now: int, ttl: int) returns (r: Result<Proof, QueueError>)
      modifies this`records
      ensures r.Ok? <==> LeasableById(old(records), id, now)
      ensures r.Err? ==> records == old(records)
      ensures r.Ok? ==>
        && records == old(records)[id := Granted(old(records)[id], worker, token, now, ttl)]
        && records[id].lease.Some? && r.value == ProofOf(id, records[id])
    {
      if id in records && Material(records[id]) {
        return Err(MaterialOwned);
      }
      if id !in records || !Waiting(records[id]) || records[id].attempt >= records[id].maxAttempts || records[id].availableAt > now {
        return Err(NoWork);
      }
      records := records[id := Granted(records[id], worker, token, now, ttl)];
      return Ok(ProofOf(id, records[id]));
    }

    method Heartbeat(p: Proof, now: int, ttl: int) returns (r: Result<Proof, QueueError>)
      modifies this`records
      ensures records == Heartbeaten(old(records), p, now, ttl)
      ensures r.Ok? <==> Accepts(old(records), p, now, ACTIVE)
      ensures r.Ok? ==> r.value == p.(expires := now + TtlOr(ttl))
    {
      if !WellFormed(p) {
        return Err(StaleLease);
      }
      if p.queueId in records && Material(records[p.queueId]) {
        return Err(MaterialOwned);
      }
      if p.queueId !in records || !ProofMatches(records[p.queueId], p, now, ACTIVE) {
        return Err(StaleLease);
      }
      var record := records[p.queueId];
      records := records[p.queueId := record.(lease := Some(record.lease.value.(expires := now + TtlOr(ttl))))];
      return Ok(p.(expires := now + TtlOr(ttl)));
    }

    /** updateQueueMemory behind mutateWithProof: running, complete, fail, retry, timeout, dead-letter. */
    method Update(p: Proof, target: Status, code: string, delay: int, now: int) returns (r: Result<Status, QueueError>)
      modifies this`records
      ensures records == ProofUpdated(old(records), p, target, code, delay, now)
      ensures r.Ok? <==> Accepts(old(records), p, now, AllowedSources(target))
      ensures r.Ok? ==> r.value == records[p.queueId].status
    {
      if !WellFormed(p) {
        return Err(StaleLease);
      }
      if p.queueId in records && Material(records[p.queueId]) {
        return Err(MaterialOwned);
      }
      if p.queueId !in records || !ProofMatches(records[p.queueId], p, now, AllowedSources(target)) {
        return Err(StaleLease);
      }
      var record := records[p.queueId];
      var status, errorCode := target, code;
      if status.RetryWait? && p.attempt >= record.maxAttempts {
        status := DeadLetter;
        if errorCode == "" {
          errorCode := LEASE_EXHAUSTED;
        }
      }
      record := record.(status := status);
      if !status.Running? {
        record := record.(lease := None);
      }
      if status.RetryWait? {
        record := record.(availableAt := now + delay);
      }
      if errorCode != "" {
        record := record.(errorCode := errorCode);
      } else if status.Succeeded? {
        record := record.(errorCode := "");
      }
      if status.DeadLetter? {
        record := record.(deadLettered := true, deadLetterReason := errorCode);
      }
      records := records[p.queueId := record];
      return Ok(status);
    }

    /** completeTerminalConvergenceMemory: a repeat is acknowledged without touching anything. */
    method CompleteConvergence(p: Proof, convergenceId: string, now: int) returns (r: Result<Status, QueueError>)
      modifies this
      ensures convergenceId in old(completions) ==> records == old(records) && completions == old(completions)
      ensures convergenceId !in old(completions) ==>
        && records == ProofUpdated(old(records), p, Succeeded, "", 0, now)
        && completions == (if r.Ok? then old(completions)[convergenceId := p.queueId] else old(completions))
        && (r.Ok? <==> Accepts(old(records), p, now, ACTIVE))
      ensures r.Ok? ==>
        && convergenceId in completions && completions[convergenceId] == p.queueId
        && p.queueId in records && records[p.queueId].status.Succeeded?
    {
      if !WellFormed(p) {
        return Err(StaleLease);
      }
      if convergenceId in completions {
        if completions[convergenceId] != p.queueId || p.queueId !in records || !records[p.queueId].status.Succeeded? {
          return Err(StaleLease);
        }
        return Ok(Succeeded);
      }
      if p.queueId in records && Material(records[p.queueId]) {
        return Err(MaterialOwned);
      }
      if p.queueId !in records || !ProofMatches(records[p.queueId], p, now, ACTIVE) {
        return Err(StaleLease);
      }
      records := records[p.queueId := Closed(records[p.queueId], Succeeded).(errorCode := "")];
      completions := completions[convergenceId := p.queueId];
      return Ok(Succeeded);
    }

    method UpdateErrorSummary(p: Proof, code: string, now: int) returns (ok: bool)
      modifies this`records
      ensures records == Annotated(old(records), p, code, now)
      ensures ok <==> Accepts(old(records), p, now, ACTIVE)
    {
      ok := WellFormed(p) && p.queueId in records && !Material(records[p.queueId])
            && ProofMatches(records[p.queueId], p, now, ACTIVE);
      if ok {
        records := records[p.queueId := records[p.queueId].(errorCode := code)];
      }
    }

    method MarkIgnored(id: QueueId)
      modifies this`records
      ensures records == IgnoredById(old(records), id)
    {
      if id !in records || Material(records[id]) {
        return;
      }
      records := records[id := Closed(records[id], Ignored)];
    }

    static method RecoverExpiredLease(record: Record, now: int) returns (next: Record, recovered: bool)
      ensures next == RecoveredExpired(record, now) && (recovered <==> next != record)
    {
      if Material(record) || !Active(record) || !Expired(record, now) {
        return record, false;
      }
      if record.status.Running? && record.attempt < record.maxAttempts {
        return record, false;
      }
      if record.attempt >= record.maxAttempts {
        return DeadLettered(record), true;
      }
      return Closed(record, RetryWait), true;
    }

    method RecoverExpiredLeases(now: int) returns (recovered: nat)
      modifies this`records
      ensures records == RecoverExpired(old(records), now)
      ensures recovered == |Changed(old(records), records)|
    {
      ghost var before, written: set<QueueId> := records, {};
      var todo := records.Keys;
      recovered := 0;
      while todo != {}
        invariant todo <= before.Keys && records.Keys == before.Keys
        invariant forall k :: k in before ==> records[k] == if k in todo then before[k] else RecoveredExpired(before[k], now)
        invariant recovered == |written| && forall k :: k in written <==> k in before && k !in todo && records[k] != before[k]
        decreases |todo|
      {
        var id :| id in todo;
        todo := todo - {id};
        var next, hit := RecoverExpiredLease(records[id], now);
        if hit {
          records, recovered, written := records[id := next], recovered + 1, written + {id};
        }
      }
      assert Changed(before, records) == written;
    }

    static method RecoverStalled(record: Record, now: int) returns (next: Record, recovered: bool)
      ensures next == RecoveredRunning(record, now) && (recovered <==> next != record)
    {
      if Material(record) || !record.status.Running? || !Expired(record, now) {
        return record, false;
      }
      return Closed(record, Timeout).(errorCode := "RUNTIME_RUN_STALLED"), true;
    }

    method RecoverRunningWithoutHeartbeat(now: int) returns (recovered: nat)
      modifies this`records
      ensures records == RecoverRunning(old(records), now)
      ensures recovered == |Changed(old(records), records)|
    {
      ghost var before, written: set<QueueId> := records, {};
      var todo := records.Keys;
      recovered := 0;
      while todo != {}
        invariant todo <= before.Keys && records.Keys == before.Keys
        invariant forall k :: k in before ==> records[k] == if k in todo then before[k] else RecoveredRunning(before[k], now)
        invariant recovered == |written| && forall k :: k in written <==> k in before && k !in todo && records[k] != before[k]
        decreases |todo|
      {
        var id :| id in todo;
        todo := todo - {id};
        var next, hit := RecoverStalled(records[id], now);
        if hit {
          records, recovered, written := records[id := next], recovered + 1, written + {id};
        }
      }
      assert Changed(before, records) == written;
    }

    static method RequeueOne(record: Record, queueName: QueueName, code: string) returns (next: Record, recovered: bool)
      ensures next == Requeued(record, queueName, code) && (recovered <==> next != record)
    {
      if record.queueName != queueName || !(record.status.Failed? || record.status.Timeout?) || record.attempt >= record.maxAttempts {
        return record, false;
      }
      if code != "" && record.errorCode != code {
        return record, false;
      }
      return Closed(record, RetryWait), true;
    }

    method RequeueRecoverable(queueName: QueueName, code: string) returns (recovered: nat)
      modifies this`records
      ensures records == Requeue(old(records), queueName, code)
      ensures recovered == |Changed(old(records), records)|
    {
      if queueName.MaterialQueue? {
        return 0;
      }
      ghost var before, written: set<QueueId> := records, {};
      var todo := records.Keys;
      recovered := 0;
      while todo != {}
        invariant todo <= before.Keys && records.Keys == before.Keys
        invariant forall k :: k in before ==> records[k] == if k in todo then before[k] else Requeued(before[k], queueName, code)
        invariant recovered == |written| && forall k :: k in written <==> k in before && k !in todo && records[k] != before[k]
        decreases |todo|
      {
        var id :| id in todo;
        todo := todo - {id};
        var next, hit := RequeueOne(records[id], queueName, code);
        if hit {
          records, recovered, written := records[id := next], recovered + 1, written + {id};
        }
      }
      assert Changed(before, records) == written;
    }

    static method MarkDeadLetter(record: Record) returns (next: Record, recovered: bool)
      ensures next == MarkedDead(record) && (recovered <==> next != record)
    {
      if Material(record) || !record.status.Failed? || record.attempt < record.maxAttempts {
        return record, false;
      }
      return DeadLettered(record), true;
    }

    method MarkDeadLetterCandidates() returns (recovered: nat)
      modifies this`records
      ensures records == MarkDead(old(records))
      ensures recovered == |Changed(old(records), records)|
    {
      ghost var before, written: set<QueueId> := records, {};
      var todo := records.Keys;
      recovered := 0;
      while todo != {}
        invariant todo <= before.Keys && records.Keys == before.Keys
        invariant forall k :: k in before ==> records[k] == if k in todo then before[k] else MarkedDead(before[k])
        invariant recovered == |written| && forall k :: k in written <==> k in before && k !in todo && records[k] != before[k]
        decreases |todo|
      {
        var id :| id in todo;
        todo := todo - {id};
        var next, hit := MarkDeadLetter(records[id]);
        if hit {
          records, recovered, written := records[id := next], recovered + 1, written + {id};
        }
      }
      assert Changed(before, records) == written;
    }

    method ReplayDeadLetter(c: ReplayCommand, now: int) returns (r: Result<QueueId, QueueError>)
      modifies this`records
      ensures records == ReplayedById(old(records), c, now)
      ensures r.Ok? ==> r.value == ReplayId(c) && r.value in records && SameLineage(records[r.value], c)
      ensures r.Ok? <==>
        && c.queueId in old(records) && ReplayRefusal(old(records)[c.queueId], c).None?
        && (ReplayId(c) in old(records) ==> SameLineage(old(records)[ReplayId(c)], c))
    {
      if c.queueId !in records {
        return Err(ReplayNotFound);
      }
      var refusal := ReplayRefusal(records[c.queueId], c);
      if refusal.Some? {
        return Err(refusal.value);
      }
      var id := ReplayId(c);
      if id in records {
        if !SameLineage(records[id], c) {
          return Err(ReplayConflict);
        }
        return Ok(id);
      }
      records := records[id := Replayed(records[c.queueId], c, now)];
      return Ok(id);
    }
  }
}
