/** An agent run's status, its cancel intent and its submit authorisation
    (agent_run_repository.go), written by the API, the planner, the dispatcher
    and the event, abort and recovery workers. */
module RunLifecycle {
  import opened Wrappers
  import Queue

  datatype Status =
    | Created | ResolvingIntent | Planning | AwaitingConfirmation | AdmissionPending | Queued | Reserving
    | Dispatched | Accepted | Materializing | Running | Finalizing | Aborting
    | Succeeded | Failed | Cancelled | Timeout | Orphaned

  /** cancelCode and cancelHash are "" while no cancel was requested. */
  datatype Run = Run(
    status: Status, authorizedAt: Option<int>,
    cancelAt: Option<int>, cancelCode: string, cancelHash: string, errorCode: string)

  datatype RunError = InvalidArgument | NotFound | StaleFence | RunCancelled | PlanExpired | PlanInvalid | ServiceBusy

  datatype Decision = Decision(status: Status, terminal: bool, abortEnqueued: bool, changed: bool)

  /** The dispatch and reservation rows a submit transaction locks. */
  datatype DispatchRow = DispatchRow(runId: string, reservationId: string, fence: int, state: string)
  datatype ReservationRow = ReservationRow(runId: string, fence: int, state: string)
  datatype Submit = Submit(runId: string, dispatchId: string, reservationId: string, fence: int,
                           dispatch: Option<DispatchRow>, reservation: Option<ReservationRow>)

  predicate Final(s: Status) {
    s.Succeeded? || s.Failed? || s.Cancelled? || s.Timeout?
  }

  /** terminalAgentRunStatus */
  predicate Terminal(s: Status) {
    Final(s) || s.Orphaned?
  }

  /** The source states of terminal convergence; with orphaned these are also
      the states activeAgentRunOwnershipStatus counts as owned. */
  predicate InRuntime(s: Status) {
    s.Reserving? || s.Dispatched? || s.Accepted? || s.Materializing? || s.Running? || s.Finalizing? || s.Aborting?
  }

  /** activeAgentRunOwnershipStatus */
  predicate Owned(s: Status) {
    InRuntime(s) || s.Orphaned?
  }

  /** validAgentRunCancelReason */
  predicate ValidReason(code: string) {
    code == "USER_CANCELLED" || code == "TIMEOUT" || code == "BUDGET_EXCEEDED" || code == "LEASE_LOST"
  }

  /** validAgentRunReasonHash */
  predicate ValidHash(hash: string) {
    && |hash| == 71 && hash[..7] == "sha256:"
    && forall i :: 7 <= i < 71 ==> '0' <= hash[i] <= '9' || 'a' <= hash[i] <= 'f'
  }

  // ---------- the submit fence ----------

  /** AuthorizeDispatchSubmit, in memory. */
  function Authorize(r: Run, now: int): (Run, Option<RunError>) {
    if r.cancelAt.Some? || r.status.Cancelled? || r.status.Aborting? then (r, Some(RunCancelled))
    else if r.status.Dispatched? && r.authorizedAt.Some? then (r, None)
    else if !r.status.Queued? then (r, Some(PlanExpired))
    else (r.(status := Dispatched, authorizedAt := Some(now)), None)
  }

  predicate FenceHolds(c: Submit) {
    && c.dispatch.Some? && c.dispatch.value.runId == c.runId
    && c.dispatch.value.reservationId == c.reservationId && c.dispatch.value.fence == c.fence
    && c.reservation.Some? && c.reservation.value.runId == c.runId && c.reservation.value.fence == c.fence
  }

  predicate Unsent(c: Submit)
    requires FenceHolds(c)
  {
    c.dispatch.value.state == "created" && c.reservation.value.state == "reserved"
  }

  /** AuthorizeDispatchSubmit as a transaction. */
  function AuthorizeSql(r: Run, c: Submit, now: int): (Run, Option<RunError>) {
    if !FenceHolds(c) then (r, Some(StaleFence))
    else if r.cancelAt.Some? || r.status.Cancelled? || r.status.Aborting? then (r, Some(RunCancelled))
    else if r.status.Dispatched? && r.authorizedAt.Some? && Unsent(c) then (r, None)
    else if !r.status.Queued? || !Unsent(c) then (r, Some(PlanExpired))
    else (r.(status := Dispatched, authorizedAt := if r.authorizedAt.Some? then r.authorizedAt else Some(now)), None)
  }

  // ---------- cancelling ----------

  /** The run's part of RequestCancelAndEnqueue, in memory. */
  function CancelMark(r: Run, code: string, hash: string, now: int): (Run, Decision) {
    if Terminal(r.status) then (r, Decision(r.status, true, false, false))
    else
      var intent := if r.cancelAt.Some? then r else r.(cancelAt := Some(now), cancelCode := code, cancelHash := hash);
      if !Owned(r.status) then (intent.(status := Cancelled, errorCode := code), Decision(Cancelled, false, false, true))
      else (intent.(status := Aborting, errorCode := code), Decision(Aborting, false, true, !r.status.Aborting?))
  }

  function Coalesce(value: string, fallback: string): string {
    if value == "" then fallback else value
  }

  /** The same as a transaction; `live` says that the run has an open dispatch or reservation row. */
  function CancelSql(r: Run, live: bool, code: string, hash: string, now: int): (Run, Decision) {
    if Terminal(r.status) then (r, Decision(r.status, true, false, false))
    else
      var owned := live || Owned(r.status);
      (r.(status := if owned then Aborting else Cancelled,
          cancelAt := if r.cancelAt.Some? then r.cancelAt else Some(now),
          cancelCode := Coalesce(r.cancelCode, code), cancelHash := Coalesce(r.cancelHash, hash),
          errorCode := code),
       if owned then Decision(Aborting, false, true, !r.status.Aborting?) else Decision(Cancelled, false, false, !r.status.Cancelled?))
  }

  // ---------- every other writer of the status ----------

  /** UpdateStatusVersioned: compare and set. */
  function UpdateStatus(r: Run, expected: set<Status>, next: Status, error: Option<string>): (Run, Option<RunError>) {
    if r.status !in expected then (r, Some(PlanExpired))
    else (r.(status := next, errorCode := if error.Some? then error.value else r.errorCode), None)
  }

  const CONVERGE_FROM: set<Status> := {Reserving, Dispatched, Accepted, Materializing, Running, Finalizing, Aborting, Orphaned}
  const OFFLINE_FROM: set<Status> := {Reserving, Dispatched, Accepted, Materializing, Running, Finalizing, Aborting}
  const STALL_FROM: set<Status> := {Planning, Queued, Reserving, Dispatched, Accepted, Materializing, Running, Finalizing, Aborting}
  const DISPATCH_FAIL_FROM: set<Status> := {Queued, Reserving, Dispatched, Accepted, Materializing, Running}

  datatype Step =
    | SaveIntent
    | SavePlan(next: Status)                                    // writes whatever valid status its caller passes
    | FinalizePlanning(confirm: bool)
    | Confirm
    | AuthorizeTx(submit: Submit, now: int)
    | AuthorizeInMemory(now: int)
    | CancelTx(live: bool, code: string, hash: string, now: int)
    | CancelMarkInMemory(code: string, hash: string, now: int)  // the run is written first ...
    | EnqueueAbort(stored: bool)                                // ... the abort job after the lock is released
    | Accept
    | Start
    | DispatchFail(code: string)
    | HostOffline
    | Stall(code: string)
    | AbortGiveUp
    | Converge(next: Status, error: Option<string>)
    | Compensate(timedOut: bool, code: string)

  /** A run, the abort job it may own, the cancel calls that still owe the job,
      and whether one of them was told SERVICE_BUSY. */
  datatype World = World(run: Run, abortJob: bool, owing: nat, busy: bool)

  predicate Enabled(w: World, s: Step) {
    match s
    case CancelTx(_, code, hash, _) => ValidReason(code) && ValidHash(hash)
    case CancelMarkInMemory(code, hash, _) => ValidReason(code) && ValidHash(hash)
    case EnqueueAbort(_) => w.owing > 0
    case Converge(next, _) => Final(next)
    case _ => true
  }

  function NextRun(r: Run, s: Step): Run {
    match s
    case SaveIntent => UpdateStatus(r, {Created, ResolvingIntent}, Planning, None).0
    case SavePlan(next) => UpdateStatus(r, {Planning}, next, None).0
    case FinalizePlanning(confirm) => UpdateStatus(r, {Planning}, if confirm then AwaitingConfirmation else Queued, None).0
    case Confirm => UpdateStatus(r, {AwaitingConfirmation}, Queued, None).0
    case AuthorizeTx(c, now) => AuthorizeSql(r, c, now).0
    case AuthorizeInMemory(now) => Authorize(r, now).0
    case CancelTx(live, code, hash, now) => CancelSql(r, live, code, hash, now).0
    case CancelMarkInMemory(code, hash, now) => CancelMark(r, code, hash, now).0
    case EnqueueAbort(_) => r
    case Accept => UpdateStatus(r, {Dispatched}, Accepted, None).0
    case Start => UpdateStatus(r, {Accepted}, Running, None).0
    case DispatchFail(code) => UpdateStatus(r, DISPATCH_FAIL_FROM, Failed, Some(code)).0
    case HostOffline => UpdateStatus(r, OFFLINE_FROM, Orphaned, Some("RUNTIME_HOST_OFFLINE")).0
    case Stall(code) => UpdateStatus(r, STALL_FROM, Orphaned, Some(code)).0
    case AbortGiveUp => UpdateStatus(r, {Aborting, Orphaned}, Orphaned, Some("RUNTIME_ABORT_FAILED")).0
    case Converge(next, error) => if r.status == next then r else UpdateStatus(r, CONVERGE_FROM, next, error).0
    case Compensate(timedOut, code) => if Final(r.status) then r else r.(status := if timedOut then Timeout else Failed, errorCode := code)
  }

  function Next(w: World, s: Step): World
    requires Enabled(w, s)
  {
    World(NextRun(w.run, s),
          w.abortJob || (s.CancelTx? && CancelSql(w.run, s.live, s.code, s.hash, s.now).1.abortEnqueued) || (s.EnqueueAbort? && s.stored),
          if s.CancelMarkInMemory? && CancelMark(w.run, s.code, s.hash, s.now).1.abortEnqueued then w.owing + 1
          else if s.EnqueueAbort? then w.owing - 1 else w.owing,
          w.busy || (s.EnqueueAbort? && !s.stored))
  }

  // ---------- what every step keeps ----------

  predicate Inv(w: World) {
    var r := w.run;
    && (r.cancelAt.Some? <==> r.cancelCode != "") && (r.cancelAt.Some? <==> r.cancelHash != "")
    && (r.cancelAt.Some? ==> r.status.Aborting? || Terminal(r.status))
    && (r.status.Aborting? ==> r.cancelAt.Some? && (w.abortJob || w.owing > 0 || w.busy))
    && (r.authorizedAt.Some? ==> Owned(r.status) || Terminal(r.status))
  }

  /** How far along its life a status is; the four outcomes are the end. */
  function Rank(s: Status): nat {
    match s
    case Created => 0 case ResolvingIntent => 1 case Planning => 2 case AwaitingConfirmation => 3
    case AdmissionPending => 4 case Queued => 5 case Reserving => 6 case Dispatched => 7 case Accepted => 8
    case Materializing => 9 case Running => 10 case Finalizing => 11 case Aborting => 12 case Orphaned => 13
    case _ => 14
  }

  /** SavePlan is the one writer that takes the next status on trust. */
  predicate PlansAhead(s: Step) {
    s.SavePlan? ==> !s.next.Aborting? && Forward(Planning, s.next)
  }

  predicate Forward(a: Status, b: Status) {
    a == b || Rank(a) < Rank(b)
  }

  lemma StepInv(w: World, s: Step)
    requires Inv(w) && Enabled(w, s) && PlansAhead(s)
    ensures Inv(Next(w, s))
  {
  }

  /** No worker moves a status back, and an outcome never changes. */
  lemma StepMovesForward(w: World, s: Step)
    requires Enabled(w, s) && PlansAhead(s)
    ensures Forward(w.run.status, Next(w, s).run.status)
  {
  }

  /** The trust is needed: saved on a planning run, any status that is not ahead
      of planning moves it back, and aborting leaves it without a cancel or a job. */
  lemma SavePlanNeedsTrust(w: World, next: Status)
    requires Inv(w) && w.run.status.Planning?
    ensures PlansAhead(SavePlan(next)) <==>
              Inv(Next(w, SavePlan(next))) && Forward(w.run.status, Next(w, SavePlan(next)).run.status)
  {
  }

  /** A recorded cancel closes the submit fence and stays as first recorded. */
  lemma StepKeepsCancel(w: World, s: Step)
    requires Inv(w) && Enabled(w, s) && PlansAhead(s) && w.run.cancelAt.Some?
    ensures var r, r' := w.run, Next(w, s).run;
            && r'.authorizedAt == r.authorizedAt && r'.cancelAt == r.cancelAt
            && r'.cancelCode == r.cancelCode && r'.cancelHash == r.cancelHash
  {
  }

  // ---------- runs ----------

  ghost predicate IsRun(states: seq<World>, steps: seq<Step>) {
    && |states| == |steps| + 1
    && states[0].run.status.Created? && states[0] == World(Run(Created, None, None, "", "", ""), false, 0, false)
    && forall i :: 0 <= i < |steps| ==> Enabled(states[i], steps[i]) && PlansAhead(steps[i]) && states[i + 1] == Next(states[i], steps[i])
  }

  lemma {:induction false} RunInv(states: seq<World>, steps: seq<Step>, i: nat)
    requires IsRun(states, steps) && i < |states|
    ensures Inv(states[i])
  {
    if i > 0 {
      RunInv(states, steps, i - 1);
      StepInv(states[i - 1], steps[i - 1]);
    }
  }

  lemma {:induction false} ForwardChain(statuses: seq<Status>, i: nat, j: nat)
    requires forall k :: 0 < k < |statuses| ==> Forward(statuses[k - 1], statuses[k])
    requires i <= j < |statuses|
    ensures Forward(statuses[i], statuses[j])
  {
    if i < j {
      ForwardChain(statuses, i, j - 1);
    }
  }

  /** Statuses only move forward: an outcome is absorbing, orphaned leads only to
      an outcome, an aborting run never becomes accepted or running again. */
  lemma StatusOnlyMovesForward(states: seq<World>, steps: seq<Step>, i: nat, j: nat)
    requires IsRun(states, steps) && i <= j < |states|
    ensures var a, b := states[i].run.status, states[j].run.status;
            && Forward(a, b)
            && (Final(a) ==> b == a)
            && (a.Orphaned? ==> Terminal(b))
            && (a.Aborting? ==> b.Aborting? || Terminal(b))
  {
    var statuses := seq(|states|, k requires 0 <= k < |states| => states[k].run.status);
    forall k | 0 < k < |statuses|
      ensures Forward(statuses[k - 1], statuses[k])
    {
      StepMovesForward(states[k - 1], steps[k - 1]);
    }
    ForwardChain(statuses, i, j);
  }

  lemma {:induction false} CancelIsKept(states: seq<World>, steps: seq<Step>, i: nat, j: nat)
    requires IsRun(states, steps) && i <= j < |states| && states[i].run.cancelAt.Some?
    ensures var a, b := states[i].run, states[j].run;
            && b.authorizedAt == a.authorizedAt && b.cancelAt == a.cancelAt
            && b.cancelCode == a.cancelCode && b.cancelHash == a.cancelHash
  {
    if i < j {
      CancelIsKept(states, steps, i, j - 1);
      RunInv(states, steps, j - 1);
      StepKeepsCancel(states[j - 1], steps[j - 1]);
    }
  }

  predicate IsCancel(s: Step) {
    s.CancelTx? || s.CancelMarkInMemory?
  }

  /** The cancel/submit race: once a cancel has committed on a live run, no submit
      is granted at any later moment, in either form and whatever rows it brings. */
  lemma NoSubmitAfterCancel(states: seq<World>, steps: seq<Step>, i: nat, j: nat, submit: Submit, now: int)
    requires IsRun(states, steps) && i < j < |states|
    requires IsCancel(steps[i]) && !Terminal(states[i].run.status)
    ensures Authorize(states[j].run, now) == (states[j].run, Some(RunCancelled))
    ensures AuthorizeSql(states[j].run, submit, now).1.Some? && AuthorizeSql(states[j].run, submit, now).0 == states[j].run
    ensures states[j].run.authorizedAt == states[i].run.authorizedAt
  {
    RunInv(states, steps, i);
    CancelIsKept(states, steps, i + 1, j);
  }

  /** The other order: the submit committed first, so the cancel becomes an abort
      with its job, and the first reason is the one that stays. */
  lemma AuthorizedThenCancelled(states: seq<World>, steps: seq<Step>, i: nat, j: nat)
    requires IsRun(states, steps) && i < j < |states|
    requires IsCancel(steps[i]) && !Terminal(states[i].run.status) && states[i].run.authorizedAt.Some?
    ensures states[i + 1].run.status.Aborting?
    ensures steps[i].CancelTx? ==> states[i + 1].abortJob
    ensures states[i].run.cancelAt.None? ==>
              states[j].run.cancelCode == steps[i].code && states[j].run.cancelHash == steps[i].hash && states[j].run.cancelAt == Some(steps[i].now)
    ensures states[i].run.cancelAt.Some? ==> states[j].run.cancelCode == states[i].run.cancelCode
    ensures states[j].run.status.Aborting? || Terminal(states[j].run.status)
  {
    RunInv(states, steps, i);
    CancelIsKept(states, steps, i + 1, j);
    StatusOnlyMovesForward(states, steps, i + 1, j);
  }

  ghost predicate PassedAborting(states: seq<World>, i: nat)
    requires i < |states|
  {
    exists k :: 0 <= k <= i && states[k].run.status.Aborting?
  }

  /** A cancelled run that never passed through aborting was never handed to the
      Runtime, provided a cancel request is what cancelled it. */
  lemma {:induction false} CancelledDirectlyWasNeverSubmitted(states: seq<World>, steps: seq<Step>, i: nat)
    requires IsRun(states, steps) && i < |states| && states[i].run.cancelAt.Some?
    ensures PassedAborting(states, i) || (states[i].run.status.Cancelled? && states[i].run.authorizedAt.None?)
  {
    RunInv(states, steps, i - 1);
    if states[i - 1].run.cancelAt.Some? {
      CancelledDirectlyWasNeverSubmitted(states, steps, i - 1);
      StepKeepsCancel(states[i - 1], steps[i - 1]);
      StepMovesForward(states[i - 1], steps[i - 1]);
    } else {
      assert states[i].run.status.Aborting? || states[i].run.status.Cancelled?;
    }
  }

  predicate WritesCancelled(s: Step) {
    (s.Converge? || s.SavePlan?) && s.next.Cancelled?
  }

  /** Without a cancel request only terminal convergence of a run the Runtime
      reports aborted (or SavePlan) turns a run cancelled. */
  lemma {:induction false} CancelledWithoutRequestWasConverged(states: seq<World>, steps: seq<Step>, i: nat)
    requires IsRun(states, steps) && i < |states| && states[i].run.status.Cancelled? && states[i].run.cancelAt.None?
    ensures exists k :: 0 <= k < i && WritesCancelled(steps[k]) && !PassedAborting(states, k)
                        && !states[k].run.status.Cancelled? && states[k + 1].run.status.Cancelled?
  {
    RunInv(states, steps, i - 1);
    if states[i - 1].run.status.Cancelled? {
      CancelledWithoutRequestWasConverged(states, steps, i - 1);
    } else {
      assert WritesCancelled(steps[i - 1]);
      if PassedAborting(states, i - 1) {
        var k :| 0 <= k <= i - 1 && states[k].run.status.Aborting?;
        RunInv(states, steps, k);
        CancelIsKept(states, steps, k, i);
      }
    }
  }

  // ---------- which runs were submitted ----------

  /** A queued run became dispatched. */
  ghost predicate Submitted(states: seq<World>, i: nat)
    requires i < |states|
  {
    exists k :: 0 <= k < i && states[k].run.status.Queued? && states[k + 1].run.status.Dispatched?
  }

  ghost predicate PassedDispatched(states: seq<World>, i: nat)
    requires i < |states|
  {
    exists k :: 0 <= k <= i && states[k].run.status.Dispatched?
  }

  predicate NoSavePlan(steps: seq<Step>, i: nat)
    requires i <= |steps|
  {
    forall k :: 0 <= k < i ==> !steps[k].SavePlan?
  }

  lemma AuthorizationStep(w: World, s: Step)
    requires Inv(w) && Enabled(w, s)
    ensures var r, r' := w.run, Next(w, s).run;
            && (r'.authorizedAt.Some? <==> r.authorizedAt.Some? || (r.status.Queued? && r'.status.Dispatched?))
            && (r'.status.Dispatched? && !s.SavePlan? ==> r.status.Dispatched? || r.status.Queued?)
  {
  }

  /** The submit authorisation is on record exactly if the run went from queued to
      dispatched; as nobody calls SavePlan, exactly if it was ever dispatched. */
  lemma {:induction false} AuthorizedIffSubmitted(states: seq<World>, steps: seq<Step>, i: nat)
    requires IsRun(states, steps) && i < |states|
    ensures states[i].run.authorizedAt.Some? <==> Submitted(states, i)
    ensures NoSavePlan(steps, i) ==> (Submitted(states, i) <==> PassedDispatched(states, i))
  {
    if i > 0 {
      AuthorizedIffSubmitted(states, steps, i - 1);
      RunInv(states, steps, i - 1);
      AuthorizationStep(states[i - 1], steps[i - 1]);
      assert Submitted(states, i) <==>
             Submitted(states, i - 1) || (states[i - 1].run.status.Queued? && states[i].run.status.Dispatched?);
      assert PassedDispatched(states, i) <==> PassedDispatched(states, i - 1) || states[i].run.status.Dispatched?;
    }
  }

  /** Of the runs that end cancelled without ever aborting, exactly those that were
      dispatched had been submitted; none of these has a cancel request on record,
      and terminal convergence is what cancelled it. */
  lemma CancelledWithoutAbortingWasSubmittedIff(states: seq<World>, steps: seq<Step>, i: nat)
    requires IsRun(states, steps) && i < |states| && states[i].run.status.Cancelled? && !PassedAborting(states, i)
    ensures states[i].run.authorizedAt.Some? <==> Submitted(states, i)
    ensures NoSavePlan(steps, i) ==> (states[i].run.authorizedAt.Some? <==> PassedDispatched(states, i))
    ensures Submitted(states, i) ==>
              && states[i].run.cancelAt.None?
              && exists k :: 0 <= k < i && steps[k].Converge? && !states[k].run.status.Cancelled? && states[k + 1].run.status.Cancelled?
  {
    AuthorizedIffSubmitted(states, steps, i);
    if Submitted(states, i) {
      if states[i].run.cancelAt.Some? {
        CancelledDirectlyWasNeverSubmitted(states, steps, i);
        assert false;
      }
      CancelledWithoutRequestWasConverged(states, steps, i);
      var k :| 0 <= k < i && WritesCancelled(steps[k]) && !states[k].run.status.Cancelled? && states[k + 1].run.status.Cancelled?;
      var d :| 0 <= d < i && states[d].run.status.Queued? && states[d + 1].run.status.Dispatched?;
      SubmittedThenConverged(states, steps, k, d);
    }
  }

  lemma SubmittedThenConverged(states: seq<World>, steps: seq<Step>, k: nat, d: nat)
    requires IsRun(states, steps) && k < |steps| && d < |steps|
    requires WritesCancelled(steps[k]) && !states[k].run.status.Cancelled? && states[k + 1].run.status.Cancelled?
    requires states[d].run.status.Queued? && states[d + 1].run.status.Dispatched?
    ensures steps[k].Converge?
  {
    if steps[k].SavePlan? {
      assert states[k].run.status.Planning?;
      if d < k {
        StatusOnlyMovesForward(states, steps, d + 1, k);
      } else {
        StatusOnlyMovesForward(states, steps, k + 1, d + 1);
      }
    }
  }

  const EXAMPLE_STEPS := [SaveIntent, FinalizePlanning(false), AuthorizeInMemory(1), Accept, Start, Converge(Cancelled, None)]

  function ExampleRun(i: nat): Run {
    var status := match i case 0 => Created case 1 => Planning case 2 => Queued case 3 => Dispatched
                          case 4 => Accepted case 5 => Running case _ => Cancelled;
    Run(status, if i < 3 then None else Some(1), None, "", "", "")
  }

  lemma ExampleStep(i: nat)
    requires i < 6
    ensures NextRun(ExampleRun(i), EXAMPLE_STEPS[i]) == ExampleRun(i + 1)
  {
    assert i == 0 || i == 1 || i == 2 || i == 3 || i == 4 || i == 5;
  }

  /** Such a run exists: submitted, cancelled, never aborting, nobody asked. */
  lemma CancelledWithoutAbortingThoughSubmitted()
    ensures exists states: seq<World>, steps: seq<Step> ::
              && IsRun(states, steps) && var w := states[|steps|];
              && w.run.status.Cancelled? && w.run.authorizedAt.Some? && w.run.cancelAt.None?
              && !PassedAborting(states, |steps|)
  {
    var states := seq(7, i requires 0 <= i < 7 => World(ExampleRun(i), false, 0, false));
    forall i | 0 <= i < 6
      ensures Enabled(states[i], EXAMPLE_STEPS[i]) && PlansAhead(EXAMPLE_STEPS[i]) && states[i + 1] == Next(states[i], EXAMPLE_STEPS[i])
    {
      ExampleStep(i);
    }
    assert IsRun(states, EXAMPLE_STEPS);
    assert !PassedAborting(states, |EXAMPLE_STEPS|);
  }

  const STALLED_STEPS := [SaveIntent, FinalizePlanning(false), Stall("RUN_STALLED"), Converge(Cancelled, Some(""))]

  function StalledRun(i: nat): Run {
    var status := match i case 0 => Created case 1 => Planning case 2 => Queued case 3 => Orphaned case _ => Cancelled;
    Run(status, None, None, "", "", if i == 3 then "RUN_STALLED" else "")
  }

  lemma StalledStep(i: nat)
    requires i < 4
    ensures NextRun(StalledRun(i), STALLED_STEPS[i]) == StalledRun(i + 1)
  {
    assert i == 0 || i == 1 || i == 2 || i == 3;
  }

  /** And so does the other kind: cancelled, nobody asked, never submitted. */
  lemma CancelledWithoutRequestNorSubmit()
    ensures exists states: seq<World>, steps: seq<Step> ::
              && IsRun(states, steps) && var w := states[|steps|];
              && w.run.status.Cancelled? && w.run.authorizedAt.None? && w.run.cancelAt.None?
              && !PassedAborting(states, |steps|)
  {
    var states := seq(5, i requires 0 <= i < 5 => World(StalledRun(i), false, 0, false));
    forall i | 0 <= i < 4
      ensures Enabled(states[i], STALLED_STEPS[i]) && PlansAhead(STALLED_STEPS[i]) && states[i + 1] == Next(states[i], STALLED_STEPS[i])
    {
      StalledStep(i);
    }
    assert IsRun(states, STALLED_STEPS);
    assert !PassedAborting(states, |STALLED_STEPS|);
  }

  /** With transactions an aborting run always has its abort job; in memory the
      job may be still owed, or its caller was told the service is busy. */
  lemma AbortingHasItsJob(states: seq<World>, steps: seq<Step>, i: nat)
    requires IsRun(states, steps) && i < |states| && states[i].run.status.Aborting?
    ensures states[i].abortJob || states[i].owing > 0 || states[i].busy
    ensures (forall k :: 0 <= k < i ==> !steps[k].CancelMarkInMemory?) ==> states[i].abortJob
  {
    RunInv(states, steps, i);
    if forall k :: 0 <= k < i ==> !steps[k].CancelMarkInMemory? {
      NothingOwed(states, steps, i);
    }
  }

  lemma {:induction false} NothingOwed(states: seq<World>, steps: seq<Step>, i: nat)
    requires IsRun(states, steps) && i < |states|
    requires forall k :: 0 <= k < i ==> !steps[k].CancelMarkInMemory?
    ensures states[i].owing == 0 && !states[i].busy
  {
    if i > 0 {
      NothingOwed(states, steps, i - 1);
    }
  }

  // ---------- the transaction and the in-memory form agree ----------

  /** A submit the transaction grants, the in-memory form grants with the same
      outcome; it refuses more only for a fence it lost or a dispatch already sent. */
  lemma AuthorizeSqlRefines(w: World, c: Submit, now: int)
    requires Inv(w)
    ensures AuthorizeSql(w.run, c, now).1.None? ==> AuthorizeSql(w.run, c, now) == Authorize(w.run, now)
    ensures AuthorizeSql(w.run, c, now).1.None? <==> Authorize(w.run, now).1.None? && FenceHolds(c) && Unsent(c)
    ensures AuthorizeSql(w.run, c, now).1.Some? ==> AuthorizeSql(w.run, c, now).0 == w.run
  {
  }

  /** Without a live row of a run whose status does not show it, cancelling is the same. */
  lemma CancelSqlRefines(w: World, live: bool, code: string, hash: string, now: int)
    requires Inv(w) && ValidReason(code) && ValidHash(hash)
    ensures CancelSql(w.run, live, code, hash, now) == CancelMark(w.run, code, hash, now)
            <==> Terminal(w.run.status) || Owned(w.run.status) || !live
  {
  }

  // ---------- the in-memory repository ----------

  const ABORT_LANE := "runtime_abort"

  function AbortQueueId(id: string): string {
    ABORT_LANE + ":" + id
  }

  const ABORT_JOB := Queue.EnqueueCommand(Queue.WorkQueue(ABORT_LANE), ABORT_LANE, 200, 8, 0)

  class AgentRunRepository {
    var runs: map<string, Run>

    constructor ()
      ensures runs == map[]
    {
      runs := map[];
    }

    method AuthorizeDispatchSubmit(c: Submit, now: int) returns (error: Option<RunError>)
      modifies this
      ensures (c.runId == "" || c.dispatchId == "" || c.reservationId == "" || c.fence < 1) ==> error == Some(InvalidArgument) && runs == old(runs)
      ensures c.runId != "" && c.dispatchId != "" && c.reservationId != "" && c.fence >= 1 ==>
                if c.runId !in old(runs) then error == Some(NotFound) && runs == old(runs)
                else error == Authorize(old(runs)[c.runId], now).1 && runs == old(runs)[c.runId := Authorize(old(runs)[c.runId], now).0]
    {
      if c.runId == "" || c.dispatchId == "" || c.reservationId == "" || c.fence < 1 {
        return Some(InvalidArgument);
      }
      if c.runId !in runs {
        return Some(NotFound);
      }
      var run := runs[c.runId];
      if run.cancelAt.Some? || run.status.Cancelled? || run.status.Aborting? {
        return Some(RunCancelled);
      }
      if run.status.Dispatched? && run.authorizedAt.Some? {
        return None;
      }
      if !run.status.Queued? {
        return Some(PlanExpired);
      }
      runs := runs[c.runId := run.(status := Dispatched, authorizedAt := Some(now))];
      error := None;
    }

    /** The run is written before the abort job: a queue that cannot store the job
        leaves the run aborting and reports SERVICE_BUSY, and calling again stores it. */
    method RequestCancelAndEnqueue(id: string, code: string, hash: string, now: int, queue: Queue.QueueRepository, durable: bool)
      returns (result: Result<Decision, RunError>)
      modifies this, queue`records
      ensures (id == "" || !ValidReason(code) || !ValidHash(hash)) ==>
                result == Err(InvalidArgument) && runs == old(runs) && queue.records == old(queue.records)
      ensures id != "" && ValidReason(code) && ValidHash(hash) && id !in old(runs) ==>
                result == Err(NotFound) && runs == old(runs) && queue.records == old(queue.records)
      ensures id != "" && ValidReason(code) && ValidHash(hash) && id in old(runs) ==>
                && runs == old(runs)[id := CancelMark(old(runs)[id], code, hash, now).0]
                && var d := CancelMark(old(runs)[id], code, hash, now).1;
                && (!d.abortEnqueued ==> result == Ok(d) && queue.records == old(queue.records))
                && var stored := durable || AbortQueueId(id) in old(queue.records);
                && (d.abortEnqueued && !stored ==> result == Err(ServiceBusy) && queue.records == old(queue.records))
                && (d.abortEnqueued && stored ==>
                      result == Ok(d) && queue.records == Queue.Enqueued(old(queue.records), AbortQueueId(id), ABORT_JOB, now))
    {
      if id == "" || !ValidReason(code) || !ValidHash(hash) {
        return Err(InvalidArgument);
      }
      if id !in runs {
        return Err(NotFound);
      }
      var run := runs[id];
      if Terminal(run.status) {
        return Ok(Decision(run.status, true, false, false));
      }
      if run.cancelAt.None? {
        run := run.(cancelAt := Some(now), cancelCode := code, cancelHash := hash);
      }
      if !Owned(run.status) {
        runs := runs[id := run.(status := Cancelled, errorCode := code)];
        return Ok(Decision(Cancelled, false, false, true));
      }
      var changed := !run.status.Aborting?;
      runs := runs[id := run.(status := Aborting, errorCode := code)];
      if AbortQueueId(id) !in queue.records && !durable {
        return Err(ServiceBusy);
      }
      queue.Enqueue(AbortQueueId(id), ABORT_JOB, now);
      result := Ok(Decision(Aborting, false, true, changed));
    }

    method UpdateStatusVersioned(id: string, expected: set<Status>, next: Status, code: Option<string>) returns (error: Option<RunError>)
      modifies this
      ensures id !in old(runs) ==> error == Some(PlanExpired) && runs == old(runs)
      ensures id in old(runs) ==>
                && error == UpdateStatus(old(runs)[id], expected, next, code).1
                && runs == old(runs)[id := UpdateStatus(old(runs)[id], expected, next, code).0]
    {
      if id !in runs || runs[id].status !in expected {
        return Some(PlanExpired);
      }
      var record := runs[id].(status := next);
      if code.Some? {
        record := record.(errorCode := code.value);
      }
      runs := runs[id := record];
      error := None;
    }
  }
}
