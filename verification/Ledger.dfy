/** The quota ledger (usage_repository.go, the transactional form): monthly
    balances, reservations with their items, and usage records. A time is its
    calendar month in UTC and the rest; amounts are reals. A function returns the
    tables after the transaction, which are the old ones whenever it fails. */
module Ledger {
  import opened Wrappers

  datatype Time = Time(month: int, rest: int)

  datatype Key = Key(user: string, quotaType: string, month: int)

  datatype Balance = Balance(limit: real, used: real, reserved: real, adjusted: real)

  datatype Status = Reserved | Settled | Released | Expired

  datatype Item = Item(quotaType: string, reserved: real, settled: real)

  datatype Reservation = Reservation(
    id: string, checkId: string, user: string, workspace: string, taskId: string, asrTaskId: string,
    taskType: string, status: Status, createdAt: Time, items: seq<Item>)

  /** `month` is the month the amount was charged to, kept as history. */
  datatype Usage = Usage(
    id: string, user: string, workspace: string, taskId: string, asrTaskId: string, checkId: string,
    meter: string, attempt: int, amount: real, month: int)

  datatype Check = Check(user: string, workspace: string, taskType: string, denied: Option<string>)

  datatype Books = Books(balances: map<Key, Balance>, reservations: seq<Reservation>, usage: seq<Usage>, checks: map<string, Check>)

  datatype LedgerError =
    | InvalidArgument | NotFound | IdempotencyConflict | IdentityConflict
    | StatusConflict | BalanceMismatch | DuplicateId | ItemsMissing | Insufficient

  datatype Meter = Meter(quotaType: string, amount: real)

  datatype Admission = Admission(
    checkId: string, user: string, workspace: string, taskId: string, taskType: string,
    reservationId: string, meters: seq<Meter>, policyDeny: Option<string>)

  datatype Verdict = Granted(reservationId: string) | Denied(reason: string)

  datatype Charge = Charge(
    id: string, user: string, workspace: string, taskId: string, asrTaskId: string, checkId: string,
    meter: string, attempt: int, amount: real)

  // ---------- balances ----------

  function Remaining(b: Balance): real {
    b.limit + b.adjusted - b.used - b.reserved
  }

  /** ensureQuotaBalanceAtInTx */
  function Ensured(balances: map<Key, Balance>, k: Key, limit: real): map<Key, Balance> {
    if k in balances then balances else balances[k := Balance(limit, 0.0, 0.0, 0.0)]
  }

  function AddReserved(balances: map<Key, Balance>, k: Key, delta: real): map<Key, Balance>
    requires k in balances
  {
    balances[k := balances[k].(reserved := balances[k].reserved + delta)]
  }

  function AddUsed(balances: map<Key, Balance>, k: Key, delta: real): map<Key, Balance>
    requires k in balances
  {
    balances[k := balances[k].(used := balances[k].used + delta)]
  }

  // ---------- admission ----------

  /** The checking loop of AdmitAndReserveInTx over the first n meters. */
  function CheckMeters(balances: map<Key, Balance>, a: Admission, at: seq<Time>, limits: string -> real, n: nat): (r: (map<Key, Balance>, bool))
    requires n <= |a.meters| == |at|
    ensures r.0.Keys >= balances.Keys
    ensures forall k :: k in balances ==> r.0[k] == balances[k]
    ensures forall k :: k in r.0 && k !in balances ==> r.0[k].used == 0.0 && r.0[k].reserved == 0.0
  {
    if n == 0 then (balances, true)
    else
      var (b, enough) := CheckMeters(balances, a, at, limits, n - 1);
      if !enough then (b, false)
      else
        var m := a.meters[n - 1];
        var k := Key(a.user, m.quotaType, at[n - 1].month);
        var b' := Ensured(b, k, limits(m.quotaType));
        (b', Remaining(b'[k]) >= m.amount)
  }

  /** The reserving loop over the first n meters: upsertReservationItemInTx of a new item each. */
  function HoldMeters(balances: map<Key, Balance>, a: Admission, at: seq<Time>, limits: string -> real, n: nat): map<Key, Balance>
    requires n <= |a.meters| == |at|
  {
    if n == 0 then balances
    else
      var m := a.meters[n - 1];
      var k := Key(a.user, m.quotaType, at[n - 1].month);
      AddReserved(Ensured(HoldMeters(balances, a, at, limits, n - 1), k, limits(m.quotaType)), k, m.amount)
  }

  function ItemsOf(meters: seq<Meter>): seq<Item> {
    seq(|meters|, i requires 0 <= i < |meters| => Item(meters[i].quotaType, meters[i].amount, 0.0))
  }

  function FindReservation(rows: seq<Reservation>, id: string): Option<nat> {
    if rows == [] then None
    else if rows[|rows| - 1].id == id then Some(|rows| - 1)
    else FindReservation(rows[..|rows| - 1], id)
  }

  function FindByCheck(rows: seq<Reservation>, checkId: string): Option<nat> {
    if rows == [] then None
    else if rows[|rows| - 1].checkId == checkId then Some(|rows| - 1)
    else FindByCheck(rows[..|rows| - 1], checkId)
  }

  function CheckFor(books: Books, a: Admission): Check {
    if a.checkId in books.checks then books.checks[a.checkId] else Check(a.user, a.workspace, a.taskType, None)
  }

  function Deny(books: Books, a: Admission, reason: string): (Books, Result<Verdict, LedgerError>) {
    (books.(checks := books.checks[a.checkId := CheckFor(books, a).(denied := Some(reason))]), Ok(Denied(reason)))
  }

  /** validateReservationMetersInTx */
  predicate SameMeters(r: Reservation, meters: seq<Meter>) {
    && |r.items| == |meters|
    && forall i :: 0 <= i < |meters| ==>
         exists j :: 0 <= j < |r.items| && r.items[j].quotaType == meters[i].quotaType && r.items[j].reserved == meters[i].amount
  }

  predicate SameHold(r: Reservation, a: Admission) {
    && r.status.Reserved? && r.user == a.user && r.workspace == a.workspace && r.taskId == a.taskId && r.taskType == a.taskType
    && SameMeters(r, a.meters)
  }

  function NewReservation(a: Admission, created: Time): Reservation {
    Reservation(a.reservationId, a.checkId, a.user, a.workspace, a.taskId, "", a.taskType, Reserved, created, ItemsOf(a.meters))
  }

  /** Checking and reserving for a check that has no reservation yet. */
  function Reserve(books: Books, a: Admission, created: Time, checkAt: seq<Time>, holdAt: seq<Time>, limits: string -> real)
    : (Books, Result<Verdict, LedgerError>)
    requires |checkAt| == |holdAt| == |a.meters|
  {
    var (balances, enough) := CheckMeters(books.balances, a, checkAt, limits, |a.meters|);
    if !enough then Deny(books.(balances := balances), a, "QUOTA_INSUFFICIENT")
    else if FindReservation(books.reservations, a.reservationId).Some? then (books, Err(DuplicateId))
    else
      (Books(HoldMeters(balances, a, holdAt, limits, |a.meters|),
             books.reservations + [NewReservation(a, created)],
             books.usage,
             books.checks[a.checkId := CheckFor(books, a)]),
       Ok(Granted(a.reservationId)))
  }

  /** AdmitAndReserveInTx. `created` is the database's transaction time; the Go
      process reads its own clock once per meter while checking and once per
      meter while reserving. */
  function Admit(books: Books, a: Admission, created: Time, checkAt: seq<Time>, holdAt: seq<Time>, limits: string -> real)
    : (Books, Result<Verdict, LedgerError>)
    requires |checkAt| == |holdAt| == |a.meters|
  {
    var check := CheckFor(books, a);
    var seen := books.(checks := books.checks[a.checkId := check]);
    if a.checkId == "" || a.user == "" || a.taskId == "" || a.taskType == "" then (books, Err(InvalidArgument))
    else if check.user != a.user || check.workspace != a.workspace || check.taskType != a.taskType then (books, Err(IdempotencyConflict))
    else if check.denied.Some? then (books, Ok(Denied(check.denied.value)))
    else if a.policyDeny.Some? then Deny(books, a, a.policyDeny.value)
    else
      match FindByCheck(books.reservations, a.checkId)
      case Some(i) =>
        if i < |books.reservations| && SameHold(books.reservations[i], a) then (seen, Ok(Granted(books.reservations[i].id)))
        else (books, Err(IdempotencyConflict))
      case None => Reserve(books, a, created, checkAt, holdAt, limits)
  }

  /** createReservationPostgres: a reservation for a check that was recorded
      before. The user comes from the check; an uncovered meter is an error, but
      the denial is committed. */
  function CreateHold(books: Books, checkId: string, taskId: string, taskType: string, id: string, meters: seq<Meter>,
                      created: Time, checkAt: seq<Time>, holdAt: seq<Time>, limits: string -> real)
    : (Books, Result<string, LedgerError>)
    requires |checkAt| == |holdAt| == |meters|
  {
    if checkId !in books.checks then (books, Err(NotFound))
    else if books.checks[checkId].denied.Some? then (books, Err(Insufficient))
    else
      var a := HoldFor(checkId, books.checks[checkId], taskId, taskType, id, meters);
      match FindByCheck(books.reservations, checkId)
      case Some(i) =>
        if i >= |books.reservations| || !books.reservations[i].status.Reserved? then (books, Err(StatusConflict))
        else if books.reservations[i].taskId != taskId || books.reservations[i].taskType != a.taskType
                || !SameMeters(books.reservations[i], meters) then (books, Err(IdempotencyConflict))
        else (books, Ok(books.reservations[i].id))
      case None =>
        var (next, verdict) := Reserve(books, a, created, checkAt, holdAt, limits);
        match verdict
        case Err(e) => (next, Err(e))
        case Ok(Denied(_)) => (next, Err(Insufficient))
        case Ok(Granted(r)) => (next, Ok(r))
  }

  function HoldFor(checkId: string, check: Check, taskId: string, taskType: string, id: string, meters: seq<Meter>): Admission {
    Admission(checkId, check.user, check.workspace, taskId, if taskType == "" then "unknown" else taskType, id, meters, None)
  }

  // ---------- release and settlement ----------

  /** applyReservationBalanceDeltaInTx over the first n items. */
  function Unhold(balances: map<Key, Balance>, r: Reservation, n: nat): Option<map<Key, Balance>>
    requires n <= |r.items|
  {
    if n == 0 then Some(balances)
    else
      match Unhold(balances, r, n - 1)
      case None => None
      case Some(b) =>
        var item := r.items[n - 1];
        var k := Key(r.user, item.quotaType, r.createdAt.month);
        if k !in b || b[k].reserved < item.reserved then None else Some(AddReserved(b, k, -item.reserved))
  }

  function SettledItems(items: seq<Item>): seq<Item> {
    seq(|items|, i requires 0 <= i < |items| => items[i].(settled := items[i].reserved))
  }

  function WithStatus(r: Reservation, status: Status): Reservation {
    r.(status := status, items := if status.Settled? then SettledItems(r.items) else r.items)
  }

  /** UpdateQuotaReservationStatusInTx on the i-th reservation. */
  function SetStatus(books: Books, i: nat, status: Status): (Books, Result<(), LedgerError>)
    requires i < |books.reservations|
  {
    var r := books.reservations[i];
    if !r.status.Reserved? && status != r.status then (books, Err(StatusConflict))
    else if r.status.Reserved? && !status.Reserved? then
      match Unhold(books.balances, r, |r.items|)
      case None => (books, Err(BalanceMismatch))
      case Some(b) => (books.(balances := b, reservations := books.reservations[i := WithStatus(r, status)]), Ok(()))
    else (books, Ok(()))
  }

  /** SettleReservation, ReleaseReservation, ExpireReservation. */
  function SetStatusById(books: Books, id: string, status: Status): (Books, Result<(), LedgerError>) {
    match FindReservation(books.reservations, id)
    case Some(i) => if i < |books.reservations| then SetStatus(books, i, status) else (books, Err(NotFound))
    case None => (books, Err(NotFound))
  }

  predicate Conflicts(u: Usage, c: Charge) {
    || u.id == c.id
    || (c.taskId != "" && u.taskId == c.taskId && u.meter == c.meter && u.attempt == c.attempt)
    || (c.asrTaskId != "" && u.asrTaskId == c.asrTaskId && u.meter == c.meter && u.attempt == c.attempt)
  }

  function FindUsageById(rows: seq<Usage>, id: string): Option<Usage> {
    if rows == [] then None
    else if rows[|rows| - 1].id == id then Some(rows[|rows| - 1])
    else FindUsageById(rows[..|rows| - 1], id)
  }

  function FindConflict(rows: seq<Usage>, c: Charge): Option<Usage> {
    if rows == [] then None
    else if Conflicts(rows[|rows| - 1], c) then Some(rows[|rows| - 1])
    else FindConflict(rows[..|rows| - 1], c)
  }

  /** findExistingUsageInTx: a record with this id first, else one with the same task, meter and attempt. */
  function FindUsage(rows: seq<Usage>, c: Charge): Option<Usage> {
    var byId := FindUsageById(rows, c.id);
    if byId.Some? then byId else FindConflict(rows, c)
  }

  /** validateExistingUsage */
  predicate SameUsage(u: Usage, c: Charge) {
    && u.user == c.user && u.workspace == c.workspace && u.taskId == c.taskId && u.asrTaskId == c.asrTaskId
    && u.meter == c.meter && u.attempt == c.attempt && u.amount == c.amount
    && (u.checkId == "" || c.checkId == "" || u.checkId == c.checkId)
  }

  /** Defaults of createUsageRecordOnceInTx. */
  function Normalized(c: Charge): Charge {
    c.(attempt := if c.attempt <= 0 then 1 else c.attempt,
       amount := if c.amount <= 0.0 then 1.0 else c.amount,
       meter := if c.meter == "" then "generation" else c.meter)
  }

  function NewUsage(c: Charge, month: int): Usage {
    Usage(c.id, c.user, c.workspace, c.taskId, c.asrTaskId, c.checkId, c.meter, c.attempt, c.amount, month)
  }

  /** A charge that names no user is charged to the user of its permission check. */
  function Resolved(books: Books, c: Charge): Option<Charge> {
    if c.user != "" || c.checkId == "" then Some(c)
    else if c.checkId in books.checks then
      Some(c.(user := books.checks[c.checkId].user, workspace := books.checks[c.checkId].workspace))
    else None
  }

  function WithCharge(balances: map<Key, Balance>, c: Charge, month: int, limits: string -> real): map<Key, Balance> {
    var k := Key(c.user, c.meter, month);
    if c.user == "" then balances else AddUsed(Ensured(balances, k, limits(c.meter)), k, c.amount)
  }

  /** createUsageRecordOnceInTx; the flag says it was a duplicate. */
  function Record(books: Books, command: Charge, at: Time, limits: string -> real): (r: (Books, Result<bool, LedgerError>))
    ensures r.0.reservations == books.reservations
  {
    match Resolved(books, Normalized(command))
    case None => (books, Err(NotFound))
    case Some(c) =>
      match FindUsage(books.usage, c)
      case Some(u) => (books, if SameUsage(u, c) then Ok(true) else Err(IdempotencyConflict))
      case None =>
        (books.(usage := books.usage + [NewUsage(c, at.month)], balances := WithCharge(books.balances, c, at.month, limits)),
         Ok(false))
  }

  predicate Agrees(provided: string, expected: string) {
    provided == "" || provided == expected
  }

  /** usageCommandForReservation */
  function ChargeFor(c: Charge, r: Reservation): Option<Charge> {
    if Agrees(c.user, r.user) && Agrees(c.workspace, r.workspace) && Agrees(c.taskId, r.taskId)
       && Agrees(c.asrTaskId, r.asrTaskId) && Agrees(c.checkId, r.checkId)
    then Some(c.(user := r.user, workspace := r.workspace, taskId := r.taskId, asrTaskId := r.asrTaskId, checkId := r.checkId))
    else None
  }

  /** settleUsageReservationInTx: a late settlement marks the items and leaves the balance alone. */
  function SettleHold(books: Books, i: nat): (Books, Result<(), LedgerError>)
    requires i < |books.reservations|
  {
    var r := books.reservations[i];
    match r.status
    case Reserved => SetStatus(books, i, Settled)
    case Settled => SetStatus(books, i, Settled)
    case _ =>
      if r.items == [] then (books, Err(ItemsMissing))
      else (books.(reservations := books.reservations[i := WithStatus(r, Settled)]), Ok(()))
  }

  /** SettleUsageOnce: one transaction, undone as a whole by any failure. */
  function SettleUsage(books: Books, command: Charge, id: string, limits: string -> real): (Books, Result<bool, LedgerError>) {
    match FindReservation(books.reservations, id)
    case None => (books, Err(NotFound))
    case Some(i) =>
      if i >= |books.reservations| then (books, Err(NotFound))
      else
        match ChargeFor(command, books.reservations[i])
        case None => (books, Err(IdentityConflict))
        case Some(c) =>
          var (recorded, duplicate) := Record(books, c, books.reservations[i].createdAt, limits);
          if duplicate.Err? then (books, duplicate)
          else
            var (settled, done) := SettleHold(recorded, i);
            if done.Err? then (books, Err(done.error)) else (settled, duplicate)
  }

  /** CreateQuotaAdjustmentInTx */
  function Adjust(books: Books, k: Key, delta: real, limits: string -> real): Books {
    var b := Ensured(books.balances, k, limits(k.quotaType));
    books.(balances := b[k := b[k].(adjusted := b[k].adjusted + delta)])
  }

  // ---------- what the books should say ----------

  function ItemAmount(items: seq<Item>, quotaType: string): real {
    if items == [] then 0.0
    else ItemAmount(items[..|items| - 1], quotaType)
         + if items[|items| - 1].quotaType == quotaType then items[|items| - 1].reserved else 0.0
  }

  /** What one reservation still holds of one monthly balance. */
  function Hold(r: Reservation, k: Key): real {
    if r.status.Reserved? && r.user == k.user && r.createdAt.month == k.month then ItemAmount(r.items, k.quotaType) else 0.0
  }

  function Held(rows: seq<Reservation>, k: Key): real {
    if rows == [] then 0.0 else Held(rows[..|rows| - 1], k) + Hold(rows[|rows| - 1], k)
  }

  function ChargeOf(u: Usage, k: Key): real {
    if u.user != "" && Key(u.user, u.meter, u.month) == k then u.amount else 0.0
  }

  function Charged(rows: seq<Usage>, k: Key): real {
    if rows == [] then 0.0 else Charged(rows[..|rows| - 1], k) + ChargeOf(rows[|rows| - 1], k)
  }

  function ReservedOf(balances: map<Key, Balance>, k: Key): real {
    if k in balances then balances[k].reserved else 0.0
  }

  function UsedOf(balances: map<Key, Balance>, k: Key): real {
    if k in balances then balances[k].used else 0.0
  }

  // ---------- the projector ----------

  /** What the projector hands to the ledger for one terminal run. `usage` is the
      amount of a non-empty usage report, 0.0 when it names none. */
  datatype Terminal = Terminal(reservationId: string, runId: string, user: string, workspace: string, taskId: string,
                               status: string, usage: Option<real>, alreadyOrphaned: bool)

  function RunCharge(t: Terminal): Charge {
    Charge("usage_" + t.runId, t.user, t.workspace, t.taskId, "", "", "generation", 1,
           if t.usage.Some? && t.usage.value > 0.0 then t.usage.value else 1.0)
  }

  /** alreadySettledOrphanedQuota */
  predicate AlreadySettledOrphan(books: Books, t: Terminal) {
    && t.status == "orphaned" && t.alreadyOrphaned
    && match FindReservation(books.reservations, t.reservationId)
       case None => false
       case Some(i) =>
         && i < |books.reservations|
         && books.reservations[i].status.Settled? && books.reservations[i].taskId == t.taskId
         && Agrees(t.user, books.reservations[i].user) && Agrees(t.workspace, books.reservations[i].workspace)
  }

  /** settleUsage of the product projector. */
  function Project(books: Books, t: Terminal, limits: string -> real): (Books, bool) {
    if t.reservationId == "" then (books, true)
    else if t.usage.None? && t.status != "succeeded" then
      var (released, done) := SetStatusById(books, t.reservationId, Released);
      (released, done.Ok? || AlreadySettledOrphan(books, t))
    else
      var (settled, done) := SettleUsage(books, RunCharge(t), t.reservationId, limits);
      (settled, done.Ok?)
  }

  // ---------- the tables, updated row by row ----------

  class UsageRepository {
    var balances: map<Key, Balance>
    var reservations: seq<Reservation>
    var usage: seq<Usage>
    var checks: map<string, Check>

    ghost function View(): Books
      reads this
    {
      Books(balances, reservations, usage, checks)
    }

    /** sortedPositiveQuotaMeters and the default; the order of the meters is not modelled. */
    static method PositiveMeters(requested: map<string, int>) returns (meters: seq<Meter>)
      ensures |meters| > 0
      ensures forall i, j :: 0 <= i < j < |meters| ==> meters[i].quotaType != meters[j].quotaType
      ensures (exists t :: t in requested && t != "" && requested[t] > 0) ==>
        forall m :: m in meters <==>
          m.quotaType in requested && m.quotaType != "" && requested[m.quotaType] > 0 && m.amount == requested[m.quotaType] as real
      ensures (forall t :: t in requested ==> t == "" || requested[t] <= 0) ==> meters == [Meter("generation", 1.0)]
    {
      meters := [];
      var todo := requested.Keys;
      while todo != {}
        invariant todo <= requested.Keys
        invariant forall i, j :: 0 <= i < j < |meters| ==> meters[i].quotaType != meters[j].quotaType
        invariant forall m :: m in meters <==> (m.quotaType in requested.Keys - todo && m.quotaType != ""
                                                && requested[m.quotaType] > 0 && m.amount == requested[m.quotaType] as real)
        decreases |todo|
      {
        var t :| t in todo;
        todo := todo - {t};
        if t != "" && requested[t] > 0 {
          meters := meters + [Meter(t, requested[t] as real)];
        }
      }
      ghost var chosen := meters;
      assert |chosen| > 0 ==> chosen[0] in chosen;
      if |meters| == 0 {
        meters := [Meter("generation", 1.0)];
      }
      assert forall t :: t in requested && t != "" && requested[t] > 0 ==> Meter(t, requested[t] as real) in chosen;
    }

    method EnsureBalance(k: Key, limit: real)
      modifies this`balances
      ensures balances == Ensured(old(balances), k, limit)
    {
      if k !in balances {
        balances := balances[k := Balance(limit, 0.0, 0.0, 0.0)];
      }
    }

    method AdmitAndReserve(a: Admission, created: Time, checkAt: seq<Time>, holdAt: seq<Time>, limits: string -> real)
      returns (r: Result<Verdict, LedgerError>)
      requires |checkAt| == |holdAt| == |a.meters|
      modifies this
      ensures (View(), r) == Admit(old(View()), a, created, checkAt, holdAt, limits)
    {
      if a.checkId == "" || a.user == "" || a.taskId == "" || a.taskType == "" {
        return Err(InvalidArgument);
      }
      var check := if a.checkId in checks then checks[a.checkId] else Check(a.user, a.workspace, a.taskType, None);
      if check.user != a.user || check.workspace != a.workspace || check.taskType != a.taskType {
        return Err(IdempotencyConflict);
      }
      if check.denied.Some? {
        return Ok(Denied(check.denied.value));
      }
      if a.policyDeny.Some? {
        checks := checks[a.checkId := check.(denied := a.policyDeny)];
        return Ok(Denied(a.policyDeny.value));
      }
      var existing := FindByCheck(reservations, a.checkId);
      if existing.Some? {
        if existing.value < |reservations| && SameHold(reservations[existing.value], a) {
          checks := checks[a.checkId := check];
          return Ok(Granted(reservations[existing.value].id));
        }
        return Err(IdempotencyConflict);
      }
      r := ReserveMeters(a, created, checkAt, holdAt, limits);
    }

    /** createReservationPostgres */
    method CreateReservation(checkId: string, taskId: string, taskType: string, id: string, meters: seq<Meter>,
                             created: Time, checkAt: seq<Time>, holdAt: seq<Time>, limits: string -> real)
      returns (r: Result<string, LedgerError>)
      requires |checkAt| == |holdAt| == |meters|
      modifies this
      ensures (View(), r) == CreateHold(old(View()), checkId, taskId, taskType, id, meters, created, checkAt, holdAt, limits)
    {
      if checkId !in checks {
        return Err(NotFound);
      }
      if checks[checkId].denied.Some? {
        return Err(Insufficient);
      }
      var a := HoldFor(checkId, checks[checkId], taskId, taskType, id, meters);
      var existing := FindByCheck(reservations, checkId);
      if existing.Some? {
        if existing.value >= |reservations| || !reservations[existing.value].status.Reserved? {
          return Err(StatusConflict);
        }
        var row := reservations[existing.value];
        if row.taskId != taskId || row.taskType != a.taskType || !SameMeters(row, meters) {
          return Err(IdempotencyConflict);
        }
        return Ok(row.id);
      }
      var verdict := ReserveMeters(a, created, checkAt, holdAt, limits);
      match verdict {
        case Err(e) => return Err(e);
        case Ok(Denied(_)) => return Err(Insufficient);
        case Ok(Granted(given)) => return Ok(given);
      }
    }

    /** Both writers: check every meter, then insert the reservation with its items. */
    method ReserveMeters(a: Admission, created: Time, checkAt: seq<Time>, holdAt: seq<Time>, limits: string -> real)
      returns (r: Result<Verdict, LedgerError>)
      requires |checkAt| == |holdAt| == |a.meters|
      modifies this
      ensures (View(), r) == Reserve(old(View()), a, created, checkAt, holdAt, limits)
    {
      var check := if a.checkId in checks then checks[a.checkId] else Check(a.user, a.workspace, a.taskType, None);
      var saved := balances;
      var enough := CheckAll(a, checkAt, limits);
      if !enough {
        checks := checks[a.checkId := check.(denied := Some("QUOTA_INSUFFICIENT"))];
        return Ok(Denied("QUOTA_INSUFFICIENT"));
      }
      if FindReservation(reservations, a.reservationId).Some? {
        balances := saved;
        return Err(DuplicateId);
      }
      reservations := reservations + [Reservation(a.reservationId, a.checkId, a.user, a.workspace, a.taskId, "",
                                                  a.taskType, Reserved, created, ItemsOf(a.meters))];
      HoldAll(a, holdAt, limits);
      checks := checks[a.checkId := check];
      return Ok(Granted(a.reservationId));
    }

    /** The checking loop: stops at the first meter that does not fit. */
    method CheckAll(a: Admission, at: seq<Time>, limits: string -> real) returns (enough: bool)
      requires |a.meters| == |at|
      modifies this`balances
      ensures (balances, enough) == CheckMeters(old(balances), a, at, limits, |a.meters|)
    {
      ghost var before := balances;
      var i := 0;
      while i < |a.meters|
        invariant 0 <= i <= |a.meters|
        invariant (balances, true) == CheckMeters(before, a, at, limits, i)
      {
        var m := a.meters[i];
        var k := Key(a.user, m.quotaType, at[i].month);
        EnsureBalance(k, limits(m.quotaType));
        if Remaining(balances[k]) < m.amount {
          CheckStops(before, a, at, limits, i + 1, |a.meters|);
          return false;
        }
        i := i + 1;
      }
      return true;
    }

    /** The reserving loop. */
    method HoldAll(a: Admission, at: seq<Time>, limits: string -> real)
      requires |a.meters| == |at|
      modifies this`balances
      ensures balances == HoldMeters(old(balances), a, at, limits, |a.meters|)
    {
      ghost var before := balances;
      var i := 0;
      while i < |a.meters|
        invariant 0 <= i <= |a.meters|
        invariant balances == HoldMeters(before, a, at, limits, i)
      {
        var m := a.meters[i];
        var k := Key(a.user, m.quotaType, at[i].month);
        EnsureBalance(k, limits(m.quotaType));
        balances := balances[k := balances[k].(reserved := balances[k].reserved + m.amount)];
        i := i + 1;
      }
    }

    /** UpdateQuotaReservationStatusInTx */
    method UpdateStatus(i: nat, status: Status) returns (r: Result<(), LedgerError>)
      requires i < |reservations|
      modifies this
      ensures (View(), r) == SetStatus(old(View()), i, status)
    {
      var row := reservations[i];
      if !row.status.Reserved? && status != row.status {
        return Err(StatusConflict);
      }
      if !row.status.Reserved? || status.Reserved? {
        return Ok(());
      }
      var saved := balances;
      var n := 0;
      while n < |row.items|
        invariant 0 <= n <= |row.items|
        invariant Some(balances) == Unhold(saved, row, n)
        invariant reservations == old(reservations) && usage == old(usage) && checks == old(checks)
      {
        var item := row.items[n];
        var k := Key(row.user, item.quotaType, row.createdAt.month);
        if k !in balances || balances[k].reserved < item.reserved {
          UnholdStops(saved, row, n + 1, |row.items|);
          balances := saved;
          return Err(BalanceMismatch);
        }
        balances := balances[k := balances[k].(reserved := balances[k].reserved - item.reserved)];
        n := n + 1;
      }
      reservations := reservations[i := row.(status := status, items := if status.Settled? then SettledItems(row.items) else row.items)];
      return Ok(());
    }

    method CreateUsageOnce(command: Charge, at: Time, limits: string -> real) returns (r: Result<bool, LedgerError>)
      modifies this
      ensures (View(), r) == Record(old(View()), command, at, limits)
    {
      var resolved := Resolved(Books(balances, reservations, usage, checks), Normalized(command));
      if resolved.None? {
        return Err(NotFound);
      }
      var c := resolved.value;
      var existing := FindUsage(usage, c);
      if existing.Some? {
        return if SameUsage(existing.value, c) then Ok(true) else Err(IdempotencyConflict);
      }
      usage := usage + [NewUsage(c, at.month)];
      if c.user != "" {
        var k := Key(c.user, c.meter, at.month);
        EnsureBalance(k, limits(c.meter));
        balances := balances[k := balances[k].(used := balances[k].used + c.amount)];
      }
      return Ok(false);
    }

    /** SettleUsageOnce, rolled back as a whole on failure. */
    method SettleUsageOnce(command: Charge, id: string, limits: string -> real) returns (r: Result<bool, LedgerError>)
      modifies this
      ensures (View(), r) == SettleUsage(old(View()), command, id, limits)
    {
      var found := FindReservation(reservations, id);
      if found.None? || found.value >= |reservations| {
        return Err(NotFound);
      }
      var i := found.value;
      var charge := ChargeFor(command, reservations[i]);
      if charge.None? {
        return Err(IdentityConflict);
      }
      var savedBalances, savedUsage := balances, usage;
      r := CreateUsageOnce(charge.value, reservations[i].createdAt, limits);
      if r.Err? {
        return;
      }
      var status := reservations[i].status;
      if status.Reserved? || status.Settled? {
        var done := UpdateStatus(i, Settled);
        if done.Err? {
          balances, usage := savedBalances, savedUsage;
          return Err(done.error);
        }
      } else if reservations[i].items == [] {
        balances, usage := savedBalances, savedUsage;
        return Err(ItemsMissing);
      } else {
        reservations := reservations[i := reservations[i].(status := Settled, items := SettledItems(reservations[i].items))];
      }
    }
  }

  lemma {:induction false} CheckStops(balances: map<Key, Balance>, a: Admission, at: seq<Time>, limits: string -> real, n: nat, m: nat)
    requires n <= m <= |a.meters| == |at|
    requires !CheckMeters(balances, a, at, limits, n).1
    ensures CheckMeters(balances, a, at, limits, m) == CheckMeters(balances, a, at, limits, n)
    decreases m
  {
    if n < m {
      CheckStops(balances, a, at, limits, n, m - 1);
    }
  }

  lemma {:induction false} UnholdStops(balances: map<Key, Balance>, r: Reservation, n: nat, m: nat)
    requires n <= m <= |r.items| && Unhold(balances, r, n).None?
    ensures Unhold(balances, r, m).None?
    decreases m
  {
    if n < m {
      UnholdStops(balances, r, n, m - 1);
    }
  }
}
