/** Settlement in any order, over every run of the ledger's transactions. */
module LedgerRuns {
  import opened Wrappers
  import opened Ledger
  import opened LedgerBooks

  datatype Op =
    | DoCheck(checkId: string, check: Check)           // CreatePermissionCheck
    | DoMark(checkId: string, denied: Option<string>)  // MarkPermissionAllowed, MarkPermissionDenied
    | DoAdmit(admission: Admission, created: Time, checkAt: seq<Time>, holdAt: seq<Time>)
    | DoCreate(checkId: string, taskId: string, taskType: string, reservationId: string, meters: seq<Meter>,
               created: Time, checkAt: seq<Time>, holdAt: seq<Time>)
    | DoSetStatus(id: string, status: Status)          // settle, release, expire
    | DoSettle(charge: Charge, reservationId: string)
    | DoRecord(charge: Charge, at: Time)
    | DoAdjust(key: Key, delta: real)
    | DoProject(terminal: Terminal)

  /** One clock reading per meter at each of the two loops. */
  ghost predicate Enabled(op: Op) {
    match op
    case DoAdmit(a, _, checkAt, holdAt) => |checkAt| == |holdAt| == |a.meters| && MetersOk(a.meters)
    case DoCreate(_, _, _, _, meters, _, checkAt, holdAt) => |checkAt| == |holdAt| == |meters| && MetersOk(meters)
    case _ => true
  }

  /** The reserving clock stays in the month of the transaction. */
  ghost predicate InMonth(op: Op) {
    op.DoAdmit? || op.DoCreate? ==> SameMonth(op.holdAt, op.created.month)
  }

  ghost predicate AllInMonth(ops: seq<Op>) {
    forall i :: 0 <= i < |ops| ==> InMonth(ops[i])
  }

  ghost function Do(b: Books, op: Op, limits: string -> real): Books
    requires Enabled(op)
  {
    match op
    case DoCheck(checkId, check) => if checkId in b.checks then b else b.(checks := b.checks[checkId := check])
    case DoMark(checkId, denied) =>
      if checkId in b.checks then b.(checks := b.checks[checkId := b.checks[checkId].(denied := denied)]) else b
    case DoAdmit(a, created, checkAt, holdAt) => Admit(b, a, created, checkAt, holdAt, limits).0
    case DoCreate(checkId, taskId, taskType, id, meters, created, checkAt, holdAt) =>
      CreateHold(b, checkId, taskId, taskType, id, meters, created, checkAt, holdAt, limits).0
    case DoSetStatus(id, status) => SetStatusById(b, id, status).0
    case DoSettle(c, id) => SettleUsage(b, c, id, limits).0
    case DoRecord(c, at) => Record(b, c, at, limits).0
    case DoAdjust(k, delta) => Adjust(b, k, delta, limits)
    case DoProject(t) => Project(b, t, limits).0
  }

  lemma SetStatusKeepsBooks(b: Books, id: string, status: Status)
    requires Inv(b)
    ensures Inv(SetStatusById(b, id, status).0)
    ensures SetStatusById(b, id, status).1 != Err(BalanceMismatch)
  {
    var found := FindReservation(b.reservations, id);
    if found.Some? && found.value < |b.reservations| {
      SetStatusExact(b, found.value, status);
    }
  }

  lemma StepKeepsBooks(b: Books, op: Op, limits: string -> real)
    requires Inv(b) && Enabled(op) && InMonth(op)
    ensures Inv(Do(b, op, limits))
  {
    match op
    case DoCheck(_, _) =>
    case DoMark(_, _) =>
    case DoCreate(checkId, taskId, taskType, id, meters, created, checkAt, holdAt) =>
      CreationKeepsBooks(b, checkId, taskId, taskType, id, meters, created, checkAt, holdAt, limits);
    case DoAdmit(a, created, checkAt, holdAt) => AdmissionKeepsBooks(b, a, created, checkAt, holdAt, limits);
    case DoSetStatus(id, status) => SetStatusKeepsBooks(b, id, status);
    case DoSettle(c, id) => SettleKeepsBooks(b, c, id, limits);
    case DoRecord(c, at) => RecordKeepsBooks(b, c, at, limits);
    case DoAdjust(k, delta) =>
    case DoProject(t) =>
      SetStatusKeepsBooks(b, t.reservationId, Released);
      SettleKeepsBooks(b, RunCharge(t), t.reservationId, limits);
  }

  ghost predicate IsRun(states: seq<Books>, ops: seq<Op>, limits: string -> real) {
    && |states| == |ops| + 1
    && states[0] == Books(map[], [], [], map[])
    && forall i :: 0 <= i < |ops| ==> Enabled(ops[i]) && states[i + 1] == Do(states[i], ops[i], limits)
  }

  /** Conservation: after any run whose reserving clocks stay in the month of
      their transaction, every balance's reserved amount is the sum of
      the holds still open and its used amount the sum of the records charged to
      its month, and no release or settlement ever meets a balance mismatch. */
  lemma {:induction false} BooksAlwaysBalance(states: seq<Books>, ops: seq<Op>, limits: string -> real, i: nat)
    requires IsRun(states, ops, limits) && AllInMonth(ops) && i < |states|
    ensures Inv(states[i])
    ensures forall id, status :: SetStatusById(states[i], id, status).1 != Err(BalanceMismatch)
    ensures forall c, id :: SettleUsage(states[i], c, id, limits).1 != Err(BalanceMismatch)
  {
    if i > 0 {
      BooksAlwaysBalance(states, ops, limits, i - 1);
      StepKeepsBooks(states[i - 1], ops[i - 1], limits);
    }
    forall id, status
      ensures SetStatusById(states[i], id, status).1 != Err(BalanceMismatch)
    {
      SetStatusKeepsBooks(states[i], id, status);
    }
    forall c, id
      ensures SettleUsage(states[i], c, id, limits).1 != Err(BalanceMismatch)
    {
      SettleKeepsBooks(states[i], c, id, limits);
    }
  }

  // ---------- rows, whatever the clocks read ----------

  lemma RowReplaced(b: Books, b': Books, i: nat, status: Status)
    requires RowsOk(b) && i < |b.reservations| && b'.reservations == b.reservations[i := WithStatus(b.reservations[i], status)]
    ensures RowsOk(b')
  {
    var r := b.reservations[i];
    assert DistinctTypes(SettledItems(r.items));
  }

  lemma SetStatusKeepsRows(b: Books, i: nat, status: Status)
    requires RowsOk(b) && i < |b.reservations|
    ensures RowsOk(SetStatus(b, i, status).0)
  {
    var b' := SetStatus(b, i, status).0;
    if b' != b {
      RowReplaced(b, b', i, status);
    }
  }

  lemma SettleKeepsRows(b: Books, c: Charge, id: string, limits: string -> real)
    requires RowsOk(b)
    ensures RowsOk(SettleUsage(b, c, id, limits).0)
  {
    var found := FindReservation(b.reservations, id);
    if found.Some? && found.value < |b.reservations| {
      var i := found.value;
      var charge := ChargeFor(c, b.reservations[i]);
      if charge.Some? {
        var recorded := Record(b, charge.value, b.reservations[i].createdAt, limits).0;
        if recorded.reservations[i].status.Reserved? || recorded.reservations[i].status.Settled? {
          SetStatusKeepsRows(recorded, i, Settled);
        } else {
          RowReplaced(recorded, SettleHold(recorded, i).0, i, Settled);
        }
      }
    }
  }

  lemma ReserveKeepsRows(b: Books, a: Admission, created: Time, checkAt: seq<Time>, holdAt: seq<Time>, limits: string -> real)
    requires RowsOk(b) && |checkAt| == |holdAt| == |a.meters| && MetersOk(a.meters)
    ensures RowsOk(Reserve(b, a, created, checkAt, holdAt, limits).0)
  {
    AdmittedRow(a, created);
    FindIff(b.reservations, a.reservationId);
  }

  lemma StepKeepsRows(b: Books, op: Op, limits: string -> real)
    requires RowsOk(b) && Enabled(op)
    ensures RowsOk(Do(b, op, limits))
  {
    match op
    case DoCheck(_, _) =>
    case DoMark(_, _) =>
    case DoAdmit(a, created, checkAt, holdAt) => AdmitKeepsRows(b, a, created, checkAt, holdAt, limits);
    case DoCreate(checkId, taskId, taskType, id, meters, created, checkAt, holdAt) =>
      CreateKeepsRows(b, checkId, taskId, taskType, id, meters, created, checkAt, holdAt, limits);
    case DoSetStatus(id, status) => SetStatusByIdKeepsRows(b, id, status);
    case DoSettle(c, id) => SettleKeepsRows(b, c, id, limits);
    case DoRecord(_, _) =>
    case DoAdjust(_, _) =>
    case DoProject(t) => ProjectKeepsRows(b, t, limits);
  }

  lemma AdmitKeepsRows(b: Books, a: Admission, created: Time, checkAt: seq<Time>, holdAt: seq<Time>, limits: string -> real)
    requires RowsOk(b) && |checkAt| == |holdAt| == |a.meters| && MetersOk(a.meters)
    ensures RowsOk(Admit(b, a, created, checkAt, holdAt, limits).0)
  {
    ReserveKeepsRows(b, a, created, checkAt, holdAt, limits);
  }

  lemma CreateKeepsRows(b: Books, checkId: string, taskId: string, taskType: string, id: string, meters: seq<Meter>,
                        created: Time, checkAt: seq<Time>, holdAt: seq<Time>, limits: string -> real)
    requires RowsOk(b) && |checkAt| == |holdAt| == |meters| && MetersOk(meters)
    ensures RowsOk(CreateHold(b, checkId, taskId, taskType, id, meters, created, checkAt, holdAt, limits).0)
  {
    if checkId in b.checks {
      ReserveKeepsRows(b, HoldFor(checkId, b.checks[checkId], taskId, taskType, id, meters), created, checkAt, holdAt, limits);
    }
  }

  lemma ProjectKeepsRows(b: Books, t: Terminal, limits: string -> real)
    requires RowsOk(b)
    ensures RowsOk(Project(b, t, limits).0)
  {
    SetStatusByIdKeepsRows(b, t.reservationId, Released);
    SettleKeepsRows(b, RunCharge(t), t.reservationId, limits);
  }

  lemma SetStatusByIdKeepsRows(b: Books, id: string, status: Status)
    requires RowsOk(b)
    ensures RowsOk(SetStatusById(b, id, status).0)
  {
    var found := FindReservation(b.reservations, id);
    if found.Some? && found.value < |b.reservations| {
      SetStatusKeepsRows(b, found.value, status);
    }
  }

  lemma {:induction false} RowsAlwaysOk(states: seq<Books>, ops: seq<Op>, limits: string -> real, i: nat)
    requires IsRun(states, ops, limits) && i < |states|
    ensures RowsOk(states[i])
  {
    if i > 0 {
      RowsAlwaysOk(states, ops, limits, i - 1);
      StepKeepsRows(states[i - 1], ops[i - 1], limits);
    }
  }

  // ---------- one reservation's life ----------

  /** A hold is given back once: a reservation never returns to reserved, a
      released or expired one can only become settled, a settled one stays. */
  predicate LifeStep(r: Reservation, r': Reservation) {
    && r'.id == r.id && r'.user == r.user && r'.workspace == r.workspace && r'.taskId == r.taskId
    && r'.asrTaskId == r.asrTaskId && r'.checkId == r.checkId && r'.createdAt == r.createdAt && |r'.items| == |r.items|
    && match r.status
       case Reserved => true
       case Settled => r'.status.Settled?
       case _ => r'.status == r.status || r'.status.Settled?
  }

  /** Rows of both tables are never removed, usage rows never change. */
  ghost predicate Extends(b: Books, b': Books) {
    && |b.reservations| <= |b'.reservations|
    && (forall i :: 0 <= i < |b.reservations| ==> LifeStep(b.reservations[i], b'.reservations[i]))
    && b.usage <= b'.usage
  }

  lemma SetStatusExtends(b: Books, id: string, status: Status)
    ensures Extends(b, SetStatusById(b, id, status).0)
  {
  }

  lemma SettleHoldExtends(b: Books, i: nat)
    requires i < |b.reservations|
    ensures Extends(b, SettleHold(b, i).0)
  {
  }

  lemma SettleExtends(b: Books, c: Charge, id: string, limits: string -> real)
    ensures Extends(b, SettleUsage(b, c, id, limits).0)
  {
    var found := FindReservation(b.reservations, id);
    if found.Some? && found.value < |b.reservations| {
      var r := b.reservations[found.value];
      if ChargeFor(c, r).Some? {
        SettleHoldExtends(Record(b, ChargeFor(c, r).value, r.createdAt, limits).0, found.value);
      }
    }
  }

  lemma AdmitExtends(b: Books, a: Admission, created: Time, checkAt: seq<Time>, holdAt: seq<Time>, limits: string -> real)
    requires |checkAt| == |holdAt| == |a.meters|
    ensures var b' := Admit(b, a, created, checkAt, holdAt, limits).0;
            b.reservations <= b'.reservations && b'.usage == b.usage
  {
  }

  lemma CreateExtends(b: Books, checkId: string, taskId: string, taskType: string, id: string, meters: seq<Meter>,
                      created: Time, checkAt: seq<Time>, holdAt: seq<Time>, limits: string -> real)
    requires |checkAt| == |holdAt| == |meters|
    ensures var b' := CreateHold(b, checkId, taskId, taskType, id, meters, created, checkAt, holdAt, limits).0;
            b.reservations <= b'.reservations && b'.usage == b.usage
  {
  }

  lemma StepExtends(b: Books, op: Op, limits: string -> real)
    requires Enabled(op)
    ensures Extends(b, Do(b, op, limits))
  {
    match op
    case DoSetStatus(id, status) => SetStatusExtends(b, id, status);
    case DoSettle(c, id) => SettleExtends(b, c, id, limits);
    case DoAdmit(a, created, checkAt, holdAt) => AdmitExtends(b, a, created, checkAt, holdAt, limits);
    case DoCreate(checkId, taskId, taskType, id, meters, created, checkAt, holdAt) =>
      CreateExtends(b, checkId, taskId, taskType, id, meters, created, checkAt, holdAt, limits);
    case DoCheck(_, _) =>
    case DoMark(_, _) =>
    case DoRecord(_, _) =>
    case DoAdjust(_, _) =>
    case DoProject(t) =>
      SetStatusExtends(b, t.reservationId, Released);
      SettleExtends(b, RunCharge(t), t.reservationId, limits);
  }

  lemma {:induction false} RunExtends(states: seq<Books>, ops: seq<Op>, limits: string -> real, i: nat, j: nat)
    requires IsRun(states, ops, limits) && i <= j < |states|
    ensures Extends(states[i], states[j])
    decreases j
  {
    if i < j {
      RunExtends(states, ops, limits, i, j - 1);
      StepExtends(states[j - 1], ops[j - 1], limits);
    }
  }

  // ---------- charging once ----------

  /** No two records share an id, or a task, meter and attempt. */
  ghost predicate UsageUnique(rows: seq<Usage>) {
    forall i, j :: 0 <= i < j < |rows| ==>
      && rows[i].id != rows[j].id
      && (rows[j].taskId != "" ==> !(rows[i].taskId == rows[j].taskId && rows[i].meter == rows[j].meter && rows[i].attempt == rows[j].attempt))
      && (rows[j].asrTaskId != "" ==>
            !(rows[i].asrTaskId == rows[j].asrTaskId && rows[i].meter == rows[j].meter && rows[i].attempt == rows[j].attempt))
  }

  lemma {:induction false} FindConflictMisses(rows: seq<Usage>, c: Charge)
    requires FindConflict(rows, c).None?
    ensures forall i :: 0 <= i < |rows| ==> !Conflicts(rows[i], c)
  {
    if rows != [] {
      FindConflictMisses(rows[..|rows| - 1], c);
    }
  }

  lemma {:induction false} FindByIdFinds(rows: seq<Usage>, i: nat)
    requires i < |rows| && forall j, k :: 0 <= j < k < |rows| ==> rows[j].id != rows[k].id
    ensures FindUsageById(rows, rows[i].id) == Some(rows[i])
  {
    if i < |rows| - 1 {
      FindByIdFinds(rows[..|rows| - 1], i);
    }
  }

  lemma RecordOnce(b: Books, c: Charge, at: Time, limits: string -> real)
    requires UsageUnique(b.usage)
    ensures UsageUnique(Record(b, c, at, limits).0.usage)
  {
    var resolved := Resolved(b, Normalized(c));
    if resolved.Some? && FindUsage(b.usage, resolved.value).None? {
      FindConflictMisses(b.usage, resolved.value);
    }
  }

  lemma StepChargesOnce(b: Books, op: Op, limits: string -> real)
    requires UsageUnique(b.usage) && Enabled(op)
    ensures UsageUnique(Do(b, op, limits).usage)
  {
    match op
    case DoAdmit(a, created, checkAt, holdAt) => AdmitExtends(b, a, created, checkAt, holdAt, limits);
    case DoCreate(checkId, taskId, taskType, id, meters, created, checkAt, holdAt) =>
      CreateExtends(b, checkId, taskId, taskType, id, meters, created, checkAt, holdAt, limits);
    case DoSettle(c, id) => SettleChargesOnce(b, c, id, limits);
    case DoRecord(c, at) => RecordOnce(b, c, at, limits);
    case DoProject(t) => SettleChargesOnce(b, RunCharge(t), t.reservationId, limits);
    case _ =>
  }

  lemma SettleChargesOnce(b: Books, c: Charge, id: string, limits: string -> real)
    requires UsageUnique(b.usage)
    ensures UsageUnique(SettleUsage(b, c, id, limits).0.usage)
  {
    var found := FindReservation(b.reservations, id);
    if found.Some? && found.value < |b.reservations| {
      var r := b.reservations[found.value];
      if ChargeFor(c, r).Some? {
        RecordOnce(b, ChargeFor(c, r).value, r.createdAt, limits);
      }
    }
  }

  /** In every run each usage key, and each attempt of a task on a meter, is charged at most once. */
  lemma {:induction false} EachKeyChargedOnce(states: seq<Books>, ops: seq<Op>, limits: string -> real, i: nat)
    requires IsRun(states, ops, limits) && i < |states|
    ensures UsageUnique(states[i].usage)
  {
    if i > 0 {
      EachKeyChargedOnce(states, ops, limits, i - 1);
      StepChargesOnce(states[i - 1], ops[i - 1], limits);
    }
  }

  // ---------- replays ----------

  lemma {:induction false} FindReservationFinds(rows: seq<Reservation>, id: string)
    ensures var r := FindReservation(rows, id); r.Some? ==> r.value < |rows| && rows[r.value].id == id
  {
    if rows != [] {
      FindReservationFinds(rows[..|rows| - 1], id);
    }
  }

  lemma {:induction false} FindUnique(rows: seq<Reservation>, i: nat)
    requires i < |rows| && forall j, k :: 0 <= j < k < |rows| ==> rows[j].id != rows[k].id
    ensures FindReservation(rows, rows[i].id) == Some(i)
  {
    if i < |rows| - 1 {
      FindUnique(rows[..|rows| - 1], i);
    }
  }

  /** The books already hold this settlement: the row is settled and the charge recorded. */
  ghost predicate Holds(b: Books, c: Charge, id: string, n: nat, k: nat) {
    && n < |b.reservations| && b.reservations[n].id == id && b.reservations[n].status.Settled?
    && k < |b.usage|
    && ChargeFor(c, b.reservations[n]).Some?
    && b.usage[k] == NewUsage(Normalized(ChargeFor(c, b.reservations[n]).value), b.reservations[n].createdAt.month)
  }

  lemma SettledAgain(b: Books, c: Charge, id: string, limits: string -> real, n: nat, k: nat)
    requires RowsOk(b) && UsageUnique(b.usage) && Holds(b, c, id, n, k) && b.reservations[n].user != ""
    ensures SettleUsage(b, c, id, limits) == (b, Ok(true))
  {
    FindUnique(b.reservations, n);
    FindByIdFinds(b.usage, k);
  }

  /** A settlement that charged, replayed at any later point of the run, reports
      the duplicate and changes nothing at all. */
  lemma SettlementReplays(states: seq<Books>, ops: seq<Op>, limits: string -> real, i: nat, j: nat)
    requires IsRun(states, ops, limits) && i < j < |states| && ops[i].DoSettle?
    requires SettleUsage(states[i], ops[i].charge, ops[i].reservationId, limits).1 == Ok(false)
    requires Reservable(states[i], ops[i].reservationId)
    ensures SettleUsage(states[j], ops[i].charge, ops[i].reservationId, limits) == (states[j], Ok(true))
  {
    var c, id := ops[i].charge, ops[i].reservationId;
    RowsAlwaysOk(states, ops, limits, j);
    EachKeyChargedOnce(states, ops, limits, j);
    RunExtends(states, ops, limits, i + 1, j);
    SettledAndRecorded(states[i], c, id, limits);
    SettledAgain(states[j], c, id, limits, FindReservation(states[i].reservations, id).value, |states[i].usage|);
  }

  /** Reservations made by admissions name their user. */
  predicate Reservable(b: Books, id: string) {
    var found := FindReservation(b.reservations, id);
    found.Some? && found.value < |b.reservations| && b.reservations[found.value].user != ""
  }

  lemma SettledAndRecorded(b: Books, c: Charge, id: string, limits: string -> real)
    requires SettleUsage(b, c, id, limits).1 == Ok(false) && Reservable(b, id)
    ensures FindReservation(b.reservations, id).Some?
    ensures var n := FindReservation(b.reservations, id).value;
            Holds(SettleUsage(b, c, id, limits).0, c, id, n, |b.usage|)
            && SettleUsage(b, c, id, limits).0.reservations[n].user != ""
  {
    FindReservationFinds(b.reservations, id);
  }

  /** Orphan release followed by late success: the hold is not taken out a
      second time, and the usage is charged to the month of the reservation. */
  lemma LateSuccessChargesTheOriginalMonth(b: Books, c: Charge, id: string, limits: string -> real, n: nat, k: Key)
    requires FindReservation(b.reservations, id) == Some(n) && n < |b.reservations|
    requires b.reservations[n].status.Released? || b.reservations[n].status.Expired?
    requires SettleUsage(b, c, id, limits).1 == Ok(false)
    ensures var b' := SettleUsage(b, c, id, limits).0;
            var charge := Normalized(ChargeFor(c, b.reservations[n]).value);
            var r := b.reservations[n];
            && ChargeFor(c, r).Some?
            && b'.reservations[n].status.Settled?
            && ReservedOf(b'.balances, k) == ReservedOf(b.balances, k)
            && (r.user != "" ==>
                  UsedOf(b'.balances, k) == UsedOf(b.balances, k)
                  + if k == Key(r.user, charge.meter, r.createdAt.month) then charge.amount else 0.0)
  {
  }

  /** Projecting the same terminal run a second time succeeds and changes nothing. */
  lemma ProjectionReplays(b: Books, t: Terminal, limits: string -> real)
    requires RowsOk(b) && UsageUnique(b.usage) && Project(b, t, limits).1
    requires t.reservationId != "" ==> Reservable(b, t.reservationId)
    ensures Project(Project(b, t, limits).0, t, limits) == (Project(b, t, limits).0, true)
  {
    if t.reservationId == "" {
    } else if t.usage.None? && t.status != "succeeded" {
      ReleaseReplays(b, t);
    } else {
      SettleReplays(b, RunCharge(t), t.reservationId, limits);
    }
  }

  lemma ReleaseReplays(b: Books, t: Terminal)
    requires RowsOk(b)
    requires SetStatusById(b, t.reservationId, Released).1.Ok? || AlreadySettledOrphan(b, t)
    ensures var b' := SetStatusById(b, t.reservationId, Released).0;
            && SetStatusById(b', t.reservationId, Released).0 == b'
            && (SetStatusById(b', t.reservationId, Released).1.Ok? || AlreadySettledOrphan(b', t))
  {
    FindReservationFinds(b.reservations, t.reservationId);
    var n := FindReservation(b.reservations, t.reservationId).value;
    SetStatusByIdKeepsRows(b, t.reservationId, Released);
    FindUnique(SetStatusById(b, t.reservationId, Released).0.reservations, n);
  }

  lemma SettleReplays(b: Books, c: Charge, id: string, limits: string -> real)
    requires RowsOk(b) && UsageUnique(b.usage) && Reservable(b, id) && SettleUsage(b, c, id, limits).1.Ok?
    ensures SettleUsage(SettleUsage(b, c, id, limits).0, c, id, limits) == (SettleUsage(b, c, id, limits).0, Ok(true))
  {
    var b' := SettleUsage(b, c, id, limits).0;
    FindReservationFinds(b.reservations, id);
    var n := FindReservation(b.reservations, id).value;
    SettleKeepsRows(b, c, id, limits);
    SettleChargesOnce(b, c, id, limits);
    if SettleUsage(b, c, id, limits).1 == Ok(false) {
      SettledAndRecorded(b, c, id, limits);
      SettledAgain(b', c, id, limits, n, |b.usage|);
    } else {
      assert b'.usage == b.usage && b'.checks == b.checks && b'.reservations[n].status.Settled?;
      FindUnique(b'.reservations, n);
    }
  }
}
