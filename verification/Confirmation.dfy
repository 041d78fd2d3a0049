/** Confirming a plan (agent_run_confirmation_repository.go, the in-memory form): one
    call touches seven tables and takes a snapshot of them to roll back to. No other
    writer is interleaved. Hashes are injective; an id made of a hash keeps its input. */
module Confirmation {
  import opened Wrappers
  import Queue
  import EventLog
  import Sanitizer
  import RunLifecycle

  type RunStatus = RunLifecycle.Status

  datatype Run = Run(tenant: string, user: string, status: RunStatus, taskId: string, workspace: string, thread: string)

  datatype PlanStatus = AwaitingConfirmation | Confirmed | OtherPlan(name: string)

  datatype Plan = Plan(status: PlanStatus, taskType: string, scope: string, keyHash: string, confirmedAt: int)

  datatype TaskStatus = TaskQueued | TaskAdmissionPending | TaskRunning | OtherTask(name: string)

  datatype Refs = Refs(agentRunId: string, reservationId: string, quotaReservationId: string, check: Option<CheckId>,
                       thread: string, taskType: string)

  datatype Task = Task(user: string, workspace: string, thread: string, taskType: string, status: TaskStatus, refs: Refs)

  /** agentRunConfirmationPermissionCheckIDForKey, or an id made elsewhere. */
  datatype CheckId = ForKey(run: string, version: int, keyHash: string) | OtherCheck(id: string)

  datatype CheckStatus = Requested | Allowed | DeniedCheck

  datatype Check = Check(user: string, workspace: string, taskType: string, status: CheckStatus, denyReason: string, reservationId: string)

  datatype Reservation = Reservation(check: Option<CheckId>, user: string, workspace: string, taskId: string, taskType: string,
                                     reserved: bool, expiresAt: int)

  datatype Payload = Payload(run: string, version: int, lane: string)

  datatype Job = Job(queueName: string, taskType: string, taskId: string, dedupe: (string, int), status: Queue.Status, payload: Payload)

  datatype Store = Store(
    runs: map<string, Run>, plans: map<(string, int), Plan>, tasks: map<string, Task>,
    checks: map<CheckId, Check>, reserves: map<string, Reservation>,
    queue: map<string, Job>, logs: map<string, EventLog.Log>)

  datatype Command = Command(run: string, tenant: string, user: string, version: int, key: string, lane: string, confirmedAt: int)

  /** What the call reads from code that is not part of this model: the thread and status
      CreateAiTask gives a task, whether the queue can store a new record, the membership
      and feature verdicts, and the remaining generation quota. */
  datatype Env = Env(thread: string, status: TaskStatus, durable: bool, memberDeny: string, globalDeny: string, remaining: real)

  datatype ConfirmError =
    | PlanInvalid | NotFound | PlanExpired | AdmissionUnavailable | KeyConflict | ReservationFailed
    | Denied(reason: string) | ServiceBusy | EventRefused(error: EventLog.EventError)

  datatype Grant = Grant(check: CheckId, reservationId: string)

  datatype Receipt = Receipt(taskId: string, grant: Option<Grant>, replayed: bool)

  const DISPATCH := "runtime_dispatch"
  const QUOTA_INSUFFICIENT := "QUOTA_INSUFFICIENT"
  const RESERVATION_SECONDS := 5400

  function KeyHash(key: string): string {
    "sha256:" + key
  }

  function ConfirmTaskId(run: string): string {
    "agent_task_" + run
  }

  /** agentRunRuntimeLane */
  function Lane(taskType: string, scope: string): string {
    if taskType == "minutes_generation" || taskType == "summary_generation" || taskType == "material_deposit_generation" then "ai_runtime_recording"
    else if scope != "product_thread" then "ai_runtime_background"
    else "ai_runtime_interactive"
  }

  function JobId(lane: string, run: string): string {
    lane + ":" + run
  }

  function ReservationId(refs: Refs): string {
    if refs.reservationId != "" then refs.reservationId else refs.quotaReservationId
  }

  // ---------- what has to agree ----------

  /** agentRunConfirmationTaskMatches */
  predicate TaskMatches(c: Command, t: Task, workspace: string, thread: string, taskType: string, linked: bool) {
    && t.user == c.user && t.workspace == workspace && t.taskType == taskType && t.taskType != "" && t.thread == thread
    && (t.status.TaskQueued? || t.status.TaskAdmissionPending? || (linked && t.status.TaskRunning?))
    && (t.refs.thread == "" || t.refs.thread == thread)
    && (t.refs.taskType == "" || t.refs.taskType == taskType)
    && (t.refs.agentRunId == "" || t.refs.agentRunId == c.run)
    && (linked ==> t.refs.agentRunId == c.run)
  }

  predicate LiveJob(status: Queue.Status) {
    status.Pending? || status.RetryWait? || status.Leased? || status.Running?
  }

  /** agentRunConfirmationQueueMatches, for the record stored under the job's id. */
  predicate JobMatches(c: Command, lane: string, j: Job) {
    && j.queueName == lane && j.taskType == DISPATCH && j.taskId == c.run && j.dedupe == (c.run, c.version)
    && LiveJob(j.status) && j.payload == Payload(c.run, c.version, lane)
  }

  const QUEUED := "queued"
  const PLAN_VERSION := "planVersion"

  function Digits(n: nat): string {
    if n < 10 then [('0' as int + n) as char] else Digits(n / 10) + Digits(n % 10)
  }

  function VersionText(version: int): string {
    if version < 0 then "-" + Digits(-version) else Digits(version)
  }

  function EventKey(c: Command): string {
    "agent-run-confirm:" + c.run + ":" + VersionText(c.version)
  }

  function QueuedEvent(c: Command): EventLog.Event {
    EventLog.Event(0, QUEUED, QUEUED,
                   map[EventLog.STATUS := Sanitizer.Text(QUEUED), PLAN_VERSION := Sanitizer.Scalar(VersionText(c.version))])
  }

  /** agentRunConfirmationPublicEventMatches */
  predicate EventMatches(c: Command, e: EventLog.Event) {
    && e.eventType == QUEUED && e.status == QUEUED
    && EventLog.STATUS in e.data && e.data[EventLog.STATUS] == Sanitizer.Text(QUEUED)
    && PLAN_VERSION in e.data && e.data[PLAN_VERSION] == Sanitizer.Scalar(VersionText(c.version))
  }

  function LogOf(s: Store, run: string): EventLog.Log {
    if run in s.logs then s.logs[run] else EventLog.Log([], map[])
  }

  /** A reservation that is held for this task, and its permission check. */
  predicate Held(s: Store, c: Command, taskId: string, workspace: string, taskType: string, id: string) {
    && id in s.reserves
    && var r := s.reserves[id];
       && r.check.Some? && r.user == c.user && r.workspace == workspace && r.taskId == taskId && r.taskType == taskType
       && r.reserved && r.expiresAt > c.confirmedAt
       && r.check.value in s.checks
       && var k := s.checks[r.check.value];
          k.user == c.user && k.workspace == workspace && k.taskType == taskType && k.status.Allowed?
  }

  // ---------- admission ----------

  /** memoryAgentRunConfirmationAdmission on refs that already name a reservation. */
  function Reuse(s: Store, c: Command, taskId: string, workspace: string, taskType: string, id: string): Result<Grant, ConfirmError> {
    if Held(s, c, taskId, workspace, taskType, id) then Ok(Grant(s.reserves[id].check.value, id)) else Err(ReservationFailed)
  }

  function CheckIdOf(c: Command): CheckId {
    ForKey(c.run, c.version, KeyHash(c.key))
  }

  function DenyReason(reason: string): string {
    if reason == "" then QUOTA_INSUFFICIENT else reason
  }

  /** The verdict on a new check: "" allows. */
  function Verdict(env: Env): string {
    if env.memberDeny != "" then env.memberDeny
    else if env.globalDeny != "" then env.globalDeny
    else if env.remaining < 1.0 then QUOTA_INSUFFICIENT
    else ""
  }

  function Admit(s: Store, c: Command, taskId: string, workspace: string, taskType: string, env: Env): (Store, Result<Grant, ConfirmError>) {
    var id := CheckIdOf(c);
    if id in s.checks && s.checks[id].status.DeniedCheck? then (s, Err(Denied(DenyReason(s.checks[id].denyReason))))
    else if Verdict(env) != "" then
      (s.(checks := s.checks[id := Check(c.user, workspace, taskType, DeniedCheck, Verdict(env), "")]), Err(Denied(Verdict(env))))
    else
      var reservation := "reservation_" + taskId;
      (s.(checks := s.checks[id := Check(c.user, workspace, taskType, Allowed, "", reservation)],
          reserves := s.reserves[reservation :=
            Reservation(Some(id), c.user, workspace, taskId, taskType, true, c.confirmedAt + RESERVATION_SECONDS)]),
       Ok(Grant(id, reservation)))
  }

  // ---------- the writes ----------

  function Linked(s: Store, c: Command, taskId: string, taskType: string, refs: Refs, g: Grant, env: Env): Store
    requires c.run in s.runs
  {
    var run := s.runs[c.run];
    var refs' := refs.(agentRunId := c.run, reservationId := g.reservationId, quotaReservationId := g.reservationId,
                       check := Some(g.check), thread := run.thread);
    s.(tasks := s.tasks[taskId := Task(c.user, run.workspace, env.thread, taskType, env.status, refs')],
       runs := s.runs[c.run := run.(taskId := taskId)])
  }

  function Marked(s: Store, c: Command): Store
    requires c.run in s.runs && (c.run, c.version) in s.plans
  {
    var plan := s.plans[(c.run, c.version)].(status := Confirmed, keyHash := KeyHash(c.key), confirmedAt := c.confirmedAt);
    s.(plans := s.plans[(c.run, c.version) := plan],
       runs := s.runs[c.run := s.runs[c.run].(status := RunLifecycle.Queued)])
  }

  function NewJob(c: Command, lane: string): Job {
    Job(lane, DISPATCH, c.run, (c.run, c.version), Queue.Pending, Payload(c.run, c.version, lane))
  }

  function Enqueued(s: Store, c: Command, lane: string, env: Env): Store {
    if JobId(lane, c.run) in s.queue || !env.durable then s else s.(queue := s.queue[JobId(lane, c.run) := NewJob(c, lane)])
  }

  function WithEvent(s: Store, c: Command): Store {
    s.(logs := s.logs[c.run := EventLog.Append(LogOf(s, c.run), QueuedEvent(c), Some(EventKey(c))).0])
  }

  function EventError(s: Store, c: Command): Option<EventLog.EventError> {
    EventLog.Append(LogOf(s, c.run), QueuedEvent(c), Some(EventKey(c))).1
  }

  predicate JobStored(s: Store, c: Command, lane: string) {
    JobId(lane, c.run) in s.queue && JobMatches(c, lane, s.queue[JobId(lane, c.run)])
  }

  predicate EventStored(s: Store, c: Command) {
    var log := LogOf(s, c.run);
    && EventKey(c) in log.keys && EventMatches(c, log.keys[EventKey(c)])
    && exists i :: 0 <= i < |log.events| && EventMatches(c, log.events[i])
  }

  /** memoryValidateConfirmedAdmission */
  function Validate(s: Store, c: Command, taskId: string, workspace: string, thread: string, taskType: string, lane: string): Option<ConfirmError> {
    if taskId == "" || taskId !in s.tasks || !TaskMatches(c, s.tasks[taskId], workspace, thread, taskType, true)
       || ReservationId(s.tasks[taskId].refs) == ""
    then Some(AdmissionUnavailable)
    else
      var reuse := Reuse(s, c, taskId, workspace, taskType, ReservationId(s.tasks[taskId].refs));
      if reuse.Err? then Some(reuse.error)
      else if !JobStored(s, c, lane) || !EventStored(s, c) then Some(AdmissionUnavailable)
      else None
  }

  // ---------- the call ----------

  predicate Known(s: Store, c: Command) {
    c.run in s.runs && s.runs[c.run].tenant == c.tenant && s.runs[c.run].user == c.user
  }

  const NO_REFS := Refs("", "", "", None, "", "")

  /** The checks before admission. */
  function Refusal(s: Store, c: Command): Option<ConfirmError> {
    if c.run == "" || c.tenant == "" || c.user == "" || c.version < 1 || c.key == "" then Some(PlanInvalid)
    else if !Known(s, c) then Some(NotFound)
    else if (c.run, c.version) !in s.plans then Some(PlanExpired)
    else
      var plan := s.plans[(c.run, c.version)];
      if plan.taskType == "" || (c.lane != "" && c.lane != Lane(plan.taskType, plan.scope)) then Some(PlanInvalid) else None
  }

  predicate IsReplay(s: Store, c: Command)
    requires Refusal(s, c).None?
  {
    s.runs[c.run].status.Queued? && s.plans[(c.run, c.version)].status.Confirmed?
  }

  function Replay(s: Store, c: Command): Result<Receipt, ConfirmError>
    requires Refusal(s, c).None?
  {
    var run, plan := s.runs[c.run], s.plans[(c.run, c.version)];
    if plan.keyHash == "" then Err(AdmissionUnavailable)
    else if plan.keyHash != KeyHash(c.key) then Err(KeyConflict)
    else
      var invalid := Validate(s, c, run.taskId, run.workspace, run.thread, plan.taskType, Lane(plan.taskType, plan.scope));
      if invalid.Some? then Err(invalid.value) else Ok(Receipt(run.taskId, None, true))
  }

  /** The task the call is for, or why there is none. */
  function TaskFor(s: Store, c: Command): Result<string, ConfirmError>
    requires Refusal(s, c).None?
  {
    var run, taskType := s.runs[c.run], s.plans[(c.run, c.version)].taskType;
    if run.taskId == "" then
      if ConfirmTaskId(c.run) in s.tasks then Err(AdmissionUnavailable) else Ok(ConfirmTaskId(c.run))
    else if run.taskId in s.tasks && TaskMatches(c, s.tasks[run.taskId], run.workspace, run.thread, taskType, false) then Ok(run.taskId)
    else Err(PlanInvalid)
  }

  function RefsFor(s: Store, taskId: string): Refs {
    if taskId in s.tasks then s.tasks[taskId].refs else NO_REFS
  }

  function Admission(s: Store, c: Command, taskId: string, env: Env): (Store, Result<Grant, ConfirmError>)
    requires Refusal(s, c).None?
  {
    var run, taskType := s.runs[c.run], s.plans[(c.run, c.version)].taskType;
    var id := ReservationId(RefsFor(s, taskId));
    if id != "" then (s, Reuse(s, c, taskId, run.workspace, taskType, id)) else Admit(s, c, taskId, run.workspace, taskType, env)
  }

  /** Everything after a granted admission; an error here rolls back. */
  function Commit(s: Store, c: Command, taskId: string, refs: Refs, g: Grant, env: Env): (Store, Result<Receipt, ConfirmError>)
    requires Refusal(s, c).None?
  {
    var run, plan := s.runs[c.run], s.plans[(c.run, c.version)];
    var lane := Lane(plan.taskType, plan.scope);
    var queued := Enqueued(Marked(Linked(s, c, taskId, plan.taskType, refs, g, env), c), c, lane, env);
    if !JobStored(queued, c, lane) then (queued, Err(ServiceBusy))
    else if EventError(queued, c).Some? then (queued, Err(EventRefused(EventError(queued, c).value)))
    else
      var done := WithEvent(queued, c);
      var invalid := Validate(done, c, taskId, run.workspace, run.thread, plan.taskType, lane);
      (done, if invalid.Some? then Err(invalid.value) else Ok(Receipt(taskId, Some(g), false)))
  }

  /** confirmPlanAndEnqueueWithAdmissionMemory */
  function Confirm(s: Store, c: Command, env: Env): (Store, Result<Receipt, ConfirmError>) {
    if Refusal(s, c).Some? then (s, Err(Refusal(s, c).value))
    else if IsReplay(s, c) then (s, Replay(s, c))
    else if !s.runs[c.run].status.AwaitingConfirmation? || !s.plans[(c.run, c.version)].status.AwaitingConfirmation? then (s, Err(PlanExpired))
    else if TaskFor(s, c).Err? then (s, Err(TaskFor(s, c).error))
    else
      var taskId := TaskFor(s, c).value;
      var (admitted, grant) := Admission(s, c, taskId, env);
      if grant.Err? then (admitted, Err(grant.error))
      else
        var (done, result) := Commit(admitted, c, taskId, RefsFor(s, taskId), grant.value, env);
        if result.Err? then (s, result) else (done, result)
  }

  // ---------- all or nothing ----------

  /** What success means: everything the confirmation touches agrees. */
  ghost predicate Agreed(s: Store, c: Command, taskId: string) {
    && Known(s, c) && (c.run, c.version) in s.plans && taskId in s.tasks
    && var run, plan, task := s.runs[c.run], s.plans[(c.run, c.version)], s.tasks[taskId];
       && run.status.Queued? && run.taskId == taskId
       && plan.status.Confirmed? && plan.keyHash == KeyHash(c.key)
       && task.refs.agentRunId == c.run && task.user == c.user && task.workspace == run.workspace && task.thread == run.thread
       && Held(s, c, taskId, run.workspace, plan.taskType, ReservationId(task.refs))
       && JobStored(s, c, Lane(plan.taskType, plan.scope))
       && EventStored(s, c)
  }

  /** The state in which repeating the call with its key is a valid replay. */
  ghost predicate Sealed(s: Store, c: Command, taskId: string) {
    && Refusal(s, c).None? && IsReplay(s, c)
    && var run, plan := s.runs[c.run], s.plans[(c.run, c.version)];
       && run.taskId == taskId && plan.keyHash == KeyHash(c.key)
       && Validate(s, c, taskId, run.workspace, run.thread, plan.taskType, Lane(plan.taskType, plan.scope)).None?
  }

  lemma CommitSeals(s: Store, c: Command, taskId: string, refs: Refs, g: Grant, env: Env)
    requires Refusal(s, c).None? && Commit(s, c, taskId, refs, g, env).1.Ok?
    ensures Sealed(Commit(s, c, taskId, refs, g, env).0, c, taskId)
  {
  }

  lemma AdmissionKeepsRefusal(s: Store, c: Command, taskId: string, env: Env)
    requires Refusal(s, c).None?
    ensures Refusal(Admission(s, c, taskId, env).0, c).None?
    ensures Admission(s, c, taskId, env).0.runs == s.runs && Admission(s, c, taskId, env).0.plans == s.plans
  {
  }

  lemma ConfirmSeals(s: Store, c: Command, env: Env)
    requires Confirm(s, c, env).1.Ok?
    ensures Sealed(Confirm(s, c, env).0, c, Confirm(s, c, env).1.value.taskId)
  {
    if !IsReplay(s, c) {
      var taskId := TaskFor(s, c).value;
      var (admitted, grant) := Admission(s, c, taskId, env);
      AdmissionKeepsRefusal(s, c, taskId, env);
      CommitSeals(admitted, c, taskId, RefsFor(s, taskId), grant.value, env);
    }
  }

  lemma SuccessMeansAgreement(s: Store, c: Command, env: Env)
    requires Confirm(s, c, env).1.Ok?
    ensures Agreed(Confirm(s, c, env).0, c, Confirm(s, c, env).1.value.taskId)
  {
    ConfirmSeals(s, c, env);
  }

  /** The evidence a denial leaves: its permission check, and nothing else. */
  ghost predicate OnlyDenialRecorded(s: Store, s': Store, c: Command, reason: string) {
    && s' == s.(checks := s'.checks)
    && CheckIdOf(c) in s'.checks && s'.checks[CheckIdOf(c)].status.DeniedCheck? && DenyReason(s'.checks[CheckIdOf(c)].denyReason) == reason
    && forall id :: id != CheckIdOf(c) ==> (id in s'.checks <==> id in s.checks) && (id in s.checks ==> s'.checks[id] == s.checks[id])
  }

  lemma RefusedAdmission(s: Store, c: Command, taskId: string, env: Env)
    requires Refusal(s, c).None? && Admission(s, c, taskId, env).1.Err?
    ensures var (s', result) := Admission(s, c, taskId, env);
            if result.error.Denied? then OnlyDenialRecorded(s, s', c, result.error.reason) else s' == s
  {
  }

  lemma RefusedCommit(s: Store, c: Command, taskId: string, refs: Refs, g: Grant, env: Env)
    requires Refusal(s, c).None? && Commit(s, c, taskId, refs, g, env).1.Err?
    ensures !Commit(s, c, taskId, refs, g, env).1.error.Denied?
  {
  }

  /** Any failure restores the state the call found, except that a denial keeps its
      permission check. */
  lemma FailureRestores(s: Store, c: Command, env: Env)
    requires Confirm(s, c, env).1.Err?
    ensures var (s', result) := Confirm(s, c, env);
            if result.error.Denied? then OnlyDenialRecorded(s, s', c, result.error.reason) else s' == s
  {
    if Refusal(s, c).None? && !IsReplay(s, c) && TaskFor(s, c).Ok? {
      var taskId := TaskFor(s, c).value;
      var (admitted, grant) := Admission(s, c, taskId, env);
      if grant.Err? {
        RefusedAdmission(s, c, taskId, env);
      } else if Commit(admitted, c, taskId, RefsFor(s, taskId), grant.value, env).1.Err? {
        RefusedCommit(admitted, c, taskId, RefsFor(s, taskId), grant.value, env);
      }
    }
  }

  // ---------- repeating a confirmation ----------

  predicate SameRequest(c: Command, d: Command) {
    d == c.(confirmedAt := d.confirmedAt, lane := d.lane)
  }

  /** After a success, the same key changes nothing, whatever else the call reads; it
      answers with the same task as long as the reservation has not expired. */
  lemma RepeatChangesNothing(s: Store, c: Command, env: Env, d: Command, env': Env)
    requires Confirm(s, c, env).1.Ok? && SameRequest(c, d)
    ensures var (after, receipt) := Confirm(s, c, env);
            var run, plan, task := after.runs[c.run], after.plans[(c.run, c.version)], after.tasks[receipt.value.taskId];
            var expires := after.reserves[ReservationId(task.refs)].expiresAt;
            && Confirm(after, d, env').0 == after
            && ((d.lane == "" || d.lane == Lane(plan.taskType, plan.scope)) ==>
                  Confirm(after, d, env').1 ==
                    if expires > d.confirmedAt then Ok(Receipt(receipt.value.taskId, None, true)) else Err(ReservationFailed))
  {
    var (after, receipt) := Confirm(s, c, env);
    ConfirmSeals(s, c, env);
    if Refusal(after, d).None? {
      var run, plan := after.runs[c.run], after.plans[(c.run, c.version)];
      RepeatValidates(after, c, d, receipt.value.taskId, run.workspace, run.thread, plan.taskType, Lane(plan.taskType, plan.scope));
    }
  }

  lemma RepeatValidates(s: Store, c: Command, d: Command, taskId: string, workspace: string, thread: string, taskType: string, lane: string)
    requires SameRequest(c, d) && Validate(s, c, taskId, workspace, thread, taskType, lane).None?
    ensures var expires := s.reserves[ReservationId(s.tasks[taskId].refs)].expiresAt;
            Validate(s, d, taskId, workspace, thread, taskType, lane) == if expires > d.confirmedAt then None else Some(ReservationFailed)
  {
  }

  /** Another key on the confirmed plan is a conflict and changes nothing either. */
  lemma OtherKeyConflicts(s: Store, c: Command, env: Env, key: string, env': Env)
    requires Confirm(s, c, env).1.Ok? && key != c.key && key != ""
    ensures Confirm(Confirm(s, c, env).0, c.(key := key), env') == (Confirm(s, c, env).0, Err(KeyConflict))
  {
    ConfirmSeals(s, c, env);
    KeysDiffer(key, c.key);
  }

  lemma KeysDiffer(a: string, b: string)
    requires a != b
    ensures KeyHash(a) != KeyHash(b)
  {
    assert KeyHash(a)[7..] == a && KeyHash(b)[7..] == b;
  }

  /** A denial stands for its key: asking again gives the same answer and changes
      nothing, even when membership and quota would allow it by now. */
  lemma DenialStands(s: Store, c: Command, env: Env, env': Env)
    requires Confirm(s, c, env).1.Err? && Confirm(s, c, env).1.error.Denied?
    ensures Confirm(Confirm(s, c, env).0, c, env') == Confirm(s, c, env)
  {
    var taskId := TaskFor(s, c).value;
    DeniedAtAdmission(s, c, env);
    AdmissionKeepsRefusal(s, c, taskId, env);
    DeniedAdmissionStands(s, c, taskId, env, env');
  }

  lemma DeniedAtAdmission(s: Store, c: Command, env: Env)
    requires Confirm(s, c, env).1.Err? && Confirm(s, c, env).1.error.Denied?
    ensures Refusal(s, c).None? && !IsReplay(s, c) && TaskFor(s, c).Ok?
    ensures Admission(s, c, TaskFor(s, c).value, env).1.Err?
    ensures Admission(s, c, TaskFor(s, c).value, env).0 == Confirm(s, c, env).0
  {
    if Refusal(s, c).None? && !IsReplay(s, c) && TaskFor(s, c).Ok? {
      var taskId := TaskFor(s, c).value;
      var (admitted, grant) := Admission(s, c, taskId, env);
      AdmissionKeepsRefusal(s, c, taskId, env);
      if grant.Ok? && Commit(admitted, c, taskId, RefsFor(s, taskId), grant.value, env).1.Err? {
        RefusedCommit(admitted, c, taskId, RefsFor(s, taskId), grant.value, env);
      }
    }
  }

  lemma DeniedAdmissionStands(s: Store, c: Command, taskId: string, env: Env, env': Env)
    requires Refusal(s, c).None? && Admission(s, c, taskId, env).1.Err? && Admission(s, c, taskId, env).1.error.Denied?
    requires Refusal(Admission(s, c, taskId, env).0, c).None?
    ensures Admission(Admission(s, c, taskId, env).0, c, taskId, env') == Admission(s, c, taskId, env)
  {
  }

  // ---------- when a first confirmation succeeds ----------

  lemma {:induction false} SqueezedLowers(s: string)
    requires forall i :: 0 <= i < |s| ==> s[i] != '_' && s[i] != '-'
    ensures |Sanitizer.Squeezed(s)| == |s|
  {
    if s != "" {
      SqueezedLowers(s[1..]);
    }
  }

  /** No forbidden name has eleven letters. */
  lemma NoElevenLetters()
    ensures forall w :: w in Sanitizer.FORBIDDEN_CONTENT || w in Sanitizer.FORBIDDEN_INPUT ==> |w| != 11
  {
  }

  lemma NoElevenLettersMore()
    ensures forall w :: w in Sanitizer.FORBIDDEN_RUNTIME ==> |w| != 11
  {
  }

  lemma PlanVersionIsAllowed()
    ensures !Sanitizer.Forbidden(PLAN_VERSION)
  {
    var key := Sanitizer.NormalKey(PLAN_VERSION);
    assert |key| == 11 by {
      Sanitizer.Untrimmed(PLAN_VERSION);
      SqueezedLowers(PLAN_VERSION);
    }
    NoElevenLetters();
    NoElevenLettersMore();
  }

  lemma QueuedEventIsSafe(c: Command)
    ensures EventLog.Prepared(QueuedEvent(c)) == QueuedEvent(c)
  {
    var data := QueuedEvent(c).data;
    PlanVersionIsAllowed();
    EventLog.StatusIsAllowed();
    assert Sanitizer.Clean(Sanitizer.Forbidden, Sanitizer.Obj(data)) && Sanitizer.Shallow(Sanitizer.Obj(data), 0);
    Sanitizer.UnchangedIffClean(Sanitizer.Forbidden, Sanitizer.Obj(data), 0);
  }

  /** The run's log has not seen this confirmation, and its events are numbered from 1. */
  predicate FreshLog(log: EventLog.Log, c: Command) {
    EventKey(c) !in log.keys && !EventLog.HasSequence(log.events, 0)
  }

  lemma EventLands(s: Store, c: Command)
    requires FreshLog(LogOf(s, c.run), c)
    ensures EventError(s, c).None? && EventStored(WithEvent(s, c), c)
  {
    QueuedEventIsSafe(c);
    EventLog.FreshAppend(LogOf(s, c.run), QueuedEvent(c), EventKey(c));
    StoredEventMatches(s, c, QueuedEvent(c).(sequence := EventLog.Last(LogOf(s, c.run).events) + 1));
  }

  lemma StoredEventMatches(s: Store, c: Command, stored: EventLog.Event)
    requires stored == QueuedEvent(c).(sequence := stored.sequence)
    requires var log := LogOf(s, c.run);
             WithEvent(s, c) == s.(logs := s.logs[c.run := EventLog.Log(log.events + [stored], log.keys[EventKey(c) := stored])])
    ensures EventStored(WithEvent(s, c), c)
  {
    var events := LogOf(WithEvent(s, c), c.run).events;
    assert events[|events| - 1] == stored && EventMatches(c, stored);
  }

  predicate TaskComesOutRight(s: Store, c: Command, env: Env)
    requires c.run in s.runs
  {
    env.thread == s.runs[c.run].thread && (env.status.TaskQueued? || env.status.TaskAdmissionPending? || env.status.TaskRunning?)
  }

  predicate JobComesOutRight(s: Store, c: Command, lane: string, env: Env) {
    if JobId(lane, c.run) in s.queue then JobMatches(c, lane, s.queue[JobId(lane, c.run)]) else env.durable
  }

  lemma CommitSucceedsIff(s: Store, c: Command, g: Grant, env: Env)
    requires Refusal(s, c).None? && FreshLog(LogOf(s, c.run), c)
    requires var run, plan := s.runs[c.run], s.plans[(c.run, c.version)];
             Held(s, c, ConfirmTaskId(c.run), run.workspace, plan.taskType, g.reservationId) && g.reservationId != ""
    ensures var plan := s.plans[(c.run, c.version)];
            Commit(s, c, ConfirmTaskId(c.run), NO_REFS, g, env).1.Ok?
            <==> TaskComesOutRight(s, c, env) && JobComesOutRight(s, c, Lane(plan.taskType, plan.scope), env)
  {
    var run, plan := s.runs[c.run], s.plans[(c.run, c.version)];
    var lane := Lane(plan.taskType, plan.scope);
    var taskId := ConfirmTaskId(c.run);
    var linked := Linked(s, c, taskId, plan.taskType, NO_REFS, g, env);
    var queued := Enqueued(Marked(linked, c), c, lane, env);
    EventLands(queued, c);
    ValidatesIff(s, queued, WithEvent(queued, c), c, g, env);
  }

  /** Validation of what was just written comes down to how the AiTask came out. */
  lemma ValidatesIff(s: Store, queued: Store, done: Store, c: Command, g: Grant, env: Env)
    requires Refusal(s, c).None? && g.reservationId != ""
    requires var run, plan := s.runs[c.run], s.plans[(c.run, c.version)]; var lane := Lane(plan.taskType, plan.scope);
             && Held(s, c, ConfirmTaskId(c.run), run.workspace, plan.taskType, g.reservationId)
             && queued == Enqueued(Marked(Linked(s, c, ConfirmTaskId(c.run), plan.taskType, NO_REFS, g, env), c), c, lane, env)
             && done == WithEvent(queued, c) && EventStored(done, c)
    ensures var run, plan := s.runs[c.run], s.plans[(c.run, c.version)]; var lane := Lane(plan.taskType, plan.scope);
            JobStored(queued, c, lane) ==>
              (Validate(done, c, ConfirmTaskId(c.run), run.workspace, run.thread, plan.taskType, lane).None? <==> TaskComesOutRight(s, c, env))
    ensures var plan := s.plans[(c.run, c.version)]; var lane := Lane(plan.taskType, plan.scope);
            JobStored(queued, c, lane) <==> JobComesOutRight(s, c, lane, env)
  {
    assert done.reserves == s.reserves && done.checks == s.checks;
  }

  /** A first confirmation of a run without a task goes through exactly if membership,
      features and quota allow it, the AiTask comes out on the run's thread and waiting or
      running, and the queue holds or can store a live job for it. */
  lemma FirstConfirmationSucceedsIff(s: Store, c: Command, env: Env)
    requires Refusal(s, c).None? && FreshLog(LogOf(s, c.run), c)
    requires s.runs[c.run].status.AwaitingConfirmation? && s.plans[(c.run, c.version)].status.AwaitingConfirmation?
    requires s.runs[c.run].taskId == "" && ConfirmTaskId(c.run) !in s.tasks && CheckIdOf(c) !in s.checks
    ensures var plan := s.plans[(c.run, c.version)];
            Confirm(s, c, env).1.Ok? <==>
              Verdict(env) == "" && TaskComesOutRight(s, c, env) && JobComesOutRight(s, c, Lane(plan.taskType, plan.scope), env)
  {
    var taskId := ConfirmTaskId(c.run);
    var (admitted, grant) := Admission(s, c, taskId, env);
    AdmissionKeepsRefusal(s, c, taskId, env);
    NewAdmission(s, c, env);
    if grant.Ok? {
      CommitSucceedsIff(admitted, c, grant.value, env);
    }
  }

  lemma NewAdmission(s: Store, c: Command, env: Env)
    requires Refusal(s, c).None? && ConfirmTaskId(c.run) !in s.tasks && CheckIdOf(c) !in s.checks
    ensures var run, plan := s.runs[c.run], s.plans[(c.run, c.version)];
            var (admitted, grant) := Admission(s, c, ConfirmTaskId(c.run), env);
            && (grant.Ok? <==> Verdict(env) == "")
            && admitted.queue == s.queue && admitted.logs == s.logs
            && (grant.Ok? ==>
                  && Held(admitted, c, ConfirmTaskId(c.run), run.workspace, plan.taskType, grant.value.reservationId)
                  && grant.value.reservationId != "")
  {
    assert ("reservation_" + ConfirmTaskId(c.run))[0] == 'r';
  }

  /** Such a confirmation exists. */
  lemma SomeConfirmationSucceeds()
    ensures exists s: Store, c: Command, env: Env :: Confirm(s, c, env).1.Ok? && !Confirm(s, c, env).1.value.replayed
  {
    var c := Command("run", "tenant", "user", 1, "key", "", 0);
    var env := Env("thread", TaskQueued, true, "", "", 1.0);
    var run := Run("tenant", "user", RunLifecycle.AwaitingConfirmation, "", "workspace", "thread");
    var plan := Plan(AwaitingConfirmation, "chat", "product_thread", "", 0);
    var s := Store(map["run" := run], map[("run", 1) := plan], map[], map[], map[], map[], map[]);
    FirstConfirmationSucceedsIff(s, c, env);
  }

  // ---------- the call itself ----------

  class Repositories {
    var runs: map<string, Run>
    var plans: map<(string, int), Plan>
    var tasks: map<string, Task>
    var checks: map<CheckId, Check>
    var reserves: map<string, Reservation>
    var queue: map<string, Job>
    var logs: map<string, EventLog.Log>

    constructor ()
      ensures State() == Store(map[], map[], map[], map[], map[], map[], map[])
    {
      runs, plans, tasks, checks, reserves, queue, logs := map[], map[], map[], map[], map[], map[], map[];
    }

    /** captureAgentRunConfirmationMemorySnapshot */
    function State(): Store
      reads this
    {
      Store(runs, plans, tasks, checks, reserves, queue, logs)
    }

    method Restore(snapshot: Store)
      modifies this
      ensures State() == snapshot
    {
      runs, plans, tasks := snapshot.runs, snapshot.plans, snapshot.tasks;
      checks, reserves := snapshot.checks, snapshot.reserves;
      queue, logs := snapshot.queue, snapshot.logs;
    }

    method AdmitConfirmation(c: Command, taskId: string, env: Env) returns (grant: Result<Grant, ConfirmError>)
      requires Refusal(State(), c).None?
      modifies this
      ensures (State(), grant) == Admission(old(State()), c, taskId, env)
    {
      var run, taskType := runs[c.run], plans[(c.run, c.version)].taskType;
      var known := ReservationId(RefsFor(State(), taskId));
      if known != "" {
        return Reuse(State(), c, taskId, run.workspace, taskType, known);
      }
      var id := CheckIdOf(c);
      if id in checks && checks[id].status.DeniedCheck? {
        return Err(Denied(DenyReason(checks[id].denyReason)));
      }
      checks := checks[id := Check(c.user, run.workspace, taskType, Requested, "", "")];
      var deny := Verdict(env);
      if deny != "" {
        checks := checks[id := checks[id].(status := DeniedCheck, denyReason := deny)];
        assert checks == old(checks)[id := Check(c.user, run.workspace, taskType, DeniedCheck, deny, "")];
        return Err(Denied(deny));
      }
      checks := checks[id := checks[id].(status := Allowed)];
      var reservation := "reservation_" + taskId;
      reserves := reserves[reservation := Reservation(Some(id), c.user, run.workspace, taskId, taskType, true, c.confirmedAt + RESERVATION_SECONDS)];
      checks := checks[id := checks[id].(reservationId := reservation)];
      assert checks == old(checks)[id := Check(c.user, run.workspace, taskType, Allowed, "", reservation)];
      grant := Ok(Grant(id, reservation));
    }

    method CommitConfirmation(c: Command, taskId: string, refs: Refs, g: Grant, env: Env) returns (result: Result<Receipt, ConfirmError>)
      requires Refusal(State(), c).None?
      modifies this
      ensures (State(), result) == Commit(old(State()), c, taskId, refs, g, env)
    {
      var run, plan := runs[c.run], plans[(c.run, c.version)];
      var lane := Lane(plan.taskType, plan.scope);
      var input := refs.(agentRunId := c.run, reservationId := g.reservationId, quotaReservationId := g.reservationId,
                         check := Some(g.check), thread := run.thread);
      tasks := tasks[taskId := Task(c.user, run.workspace, env.thread, plan.taskType, env.status, input)];
      runs := runs[c.run := run.(taskId := taskId)];
      plans := plans[(c.run, c.version) := plan.(status := Confirmed, keyHash := KeyHash(c.key), confirmedAt := c.confirmedAt)];
      runs := runs[c.run := runs[c.run].(status := RunLifecycle.Queued)];
      if JobId(lane, c.run) !in queue && env.durable {
        queue := queue[JobId(lane, c.run) := NewJob(c, lane)];
      }
      if !JobStored(State(), c, lane) {
        return Err(ServiceBusy);
      }
      var (log, refused) := EventLog.Append(LogOf(State(), c.run), QueuedEvent(c), Some(EventKey(c)));
      if refused.Some? {
        return Err(EventRefused(refused.value));
      }
      logs := logs[c.run := log];
      var invalid := Validate(State(), c, taskId, run.workspace, run.thread, plan.taskType, lane);
      result := if invalid.Some? then Err(invalid.value) else Ok(Receipt(taskId, Some(g), false));
    }

    method ConfirmPlanAndEnqueueWithAdmission(c: Command, env: Env) returns (result: Result<Receipt, ConfirmError>)
      modifies this
      ensures (State(), result) == Confirm(old(State()), c, env)
    {
      var refusal := Refusal(State(), c);
      if refusal.Some? {
        return Err(refusal.value);
      }
      var snapshot := State();
      if IsReplay(State(), c) {
        return Replay(State(), c);
      }
      if !runs[c.run].status.AwaitingConfirmation? || !plans[(c.run, c.version)].status.AwaitingConfirmation? {
        return Err(PlanExpired);
      }
      var task := TaskFor(State(), c);
      if task.Err? {
        return Err(task.error);
      }
      var refs := RefsFor(State(), task.value);
      AdmissionKeepsRefusal(State(), c, task.value, env);
      var grant := AdmitConfirmation(c, task.value, env);
      if grant.Err? {
        return Err(grant.error);
      }
      result := CommitConfirmation(c, task.value, refs, grant.value, env);
      if result.Err? {
        Restore(snapshot);
      }
    }
  }
}
