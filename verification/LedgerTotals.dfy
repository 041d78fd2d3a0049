/** What conservation is left when a transaction's clock readings cross months:
    a hold may sit on another month's balance, but nothing is made or lost. */
module LedgerTotals {
  import opened Wrappers
  import opened Ledger
  import opened LedgerBooks
  import opened LedgerRuns

  /** The reserved amounts of a user's balances of one type, over n months from `first`. */
  function Total(balances: map<Key, Balance>, user: string, quotaType: string, first: int, n: nat): real {
    if n == 0 then 0.0
    else Total(balances, user, quotaType, first, n - 1) + ReservedOf(balances, Key(user, quotaType, first + n - 1))
  }

  /** No balance lies outside these months. */
  ghost predicate Spans(balances: map<Key, Balance>, first: int, n: nat) {
    forall k :: k in balances ==> first <= k.month < first + n
  }

  function OpenAmount(r: Reservation, user: string, quotaType: string): real {
    if r.status.Reserved? && r.user == user then ItemAmount(r.items, quotaType) else 0.0
  }

  function OpenTotal(rows: seq<Reservation>, user: string, quotaType: string): real {
    if rows == [] then 0.0
    else OpenTotal(rows[..|rows| - 1], user, quotaType) + OpenAmount(rows[|rows| - 1], user, quotaType)
  }

  /** What the balances hold of one type over all months, less what the open reservations account for. */
  ghost predicate SameExcess(b: Books, b': Books) {
    && b.balances.Keys <= b'.balances.Keys
    && forall user, t, first, n: nat {:trigger Total(b'.balances, user, t, first, n)} :: Spans(b'.balances, first, n) ==>
         Total(b'.balances, user, t, first, n) - OpenTotal(b'.reservations, user, t)
         == Total(b.balances, user, t, first, n) - OpenTotal(b.reservations, user, t)
  }

  ghost predicate NonNegative(balances: map<Key, Balance>) {
    forall k :: k in balances ==> balances[k].reserved >= 0.0
  }

  // ---------- sums ----------

  lemma {:induction false} TotalMoves(b: map<Key, Balance>, b': map<Key, Balance>, k: Key, d: real, user: string, t: string, first: int, n: nat)
    requires forall k' :: ReservedOf(b', k') == ReservedOf(b, k') + if k' == k then d else 0.0
    ensures Total(b', user, t, first, n)
            == Total(b, user, t, first, n) + if k.user == user && k.quotaType == t && first <= k.month < first + n then d else 0.0
  {
    if n > 0 {
      TotalMoves(b, b', k, d, user, t, first, n - 1);
    }
  }

  lemma {:induction false} TotalSame(b: map<Key, Balance>, b': map<Key, Balance>, user: string, t: string, first: int, n: nat)
    requires forall k :: ReservedOf(b', k) == ReservedOf(b, k)
    ensures Total(b', user, t, first, n) == Total(b, user, t, first, n)
  {
    if n > 0 {
      TotalSame(b, b', user, t, first, n - 1);
    }
  }

  lemma {:induction false} OpenUpdate(rows: seq<Reservation>, i: nat, r: Reservation, user: string, t: string)
    requires i < |rows|
    ensures OpenTotal(rows[i := r], user, t) == OpenTotal(rows, user, t) - OpenAmount(rows[i], user, t) + OpenAmount(r, user, t)
  {
    var n := |rows| - 1;
    if i < n {
      OpenUpdate(rows[..n], i, r, user, t);
      assert rows[i := r][..n] == rows[..n][i := r];
    } else {
      assert rows[i := r][..n] == rows[..n];
    }
  }

  // ---------- holding ----------

  lemma {:induction false} HoldTotals(balances: map<Key, Balance>, a: Admission, at: seq<Time>, limits: string -> real, m: nat,
                                      user: string, t: string, first: int, n: nat)
    requires m <= |a.meters| == |at| && Spans(HoldMeters(balances, a, at, limits, m), first, n)
    ensures balances.Keys <= HoldMeters(balances, a, at, limits, m).Keys
    ensures Total(HoldMeters(balances, a, at, limits, m), user, t, first, n)
            == Total(balances, user, t, first, n) + if a.user == user then ItemAmount(ItemsOf(a.meters)[..m], t) else 0.0
  {
    if m > 0 {
      var k := KeyOf(a, at, m - 1);
      var before, after := HoldMeters(balances, a, at, limits, m - 1), HoldMeters(balances, a, at, limits, m);
      assert k in after && forall k' :: k' in before ==> k' in after;
      HoldTotals(balances, a, at, limits, m - 1, user, t, first, n);
      TotalMoves(before, after, k, a.meters[m - 1].amount, user, t, first, n);
      assert ItemsOf(a.meters)[..m][..m - 1] == ItemsOf(a.meters)[..m - 1];
    }
  }

  lemma {:induction false} HoldNonNegative(balances: map<Key, Balance>, a: Admission, at: seq<Time>, limits: string -> real, m: nat)
    requires m <= |a.meters| == |at| && NonNegative(balances) && MetersOk(a.meters)
    ensures NonNegative(HoldMeters(balances, a, at, limits, m))
  {
    if m > 0 {
      HoldNonNegative(balances, a, at, limits, m - 1);
    }
  }

  lemma CheckedTotal(b: Books, a: Admission, at: seq<Time>, limits: string -> real, user: string, t: string, first: int, n: nat)
    requires |at| == |a.meters|
    ensures Total(CheckMeters(b.balances, a, at, limits, |a.meters|).0, user, t, first, n) == Total(b.balances, user, t, first, n)
  {
    var checked := CheckMeters(b.balances, a, at, limits, |a.meters|).0;
    forall k
      ensures ReservedOf(checked, k) == ReservedOf(b.balances, k)
    {
      assert k in checked && k !in b.balances ==> checked[k].reserved == 0.0;
    }
    TotalSame(b.balances, checked, user, t, first, n);
  }

  lemma NewRowTotal(rows: seq<Reservation>, a: Admission, created: Time, user: string, t: string)
    ensures OpenTotal(rows + [NewReservation(a, created)], user, t)
            == OpenTotal(rows, user, t) + if a.user == user then ItemAmount(ItemsOf(a.meters), t) else 0.0
  {
    assert (rows + [NewReservation(a, created)])[..|rows|] == rows;
  }

  lemma ReserveTotal(b: Books, a: Admission, created: Time, checkAt: seq<Time>, holdAt: seq<Time>, limits: string -> real,
                     user: string, t: string, first: int, n: nat)
    requires |checkAt| == |holdAt| == |a.meters|
    requires Spans(Reserve(b, a, created, checkAt, holdAt, limits).0.balances, first, n)
    ensures var b' := Reserve(b, a, created, checkAt, holdAt, limits).0;
            Total(b'.balances, user, t, first, n) - OpenTotal(b'.reservations, user, t)
            == Total(b.balances, user, t, first, n) - OpenTotal(b.reservations, user, t)
  {
    CheckedTotal(b, a, checkAt, limits, user, t, first, n);
    if |Reserve(b, a, created, checkAt, holdAt, limits).0.reservations| > |b.reservations| {
      HoldTotals(CheckMeters(b.balances, a, checkAt, limits, |a.meters|).0, a, holdAt, limits, |a.meters|, user, t, first, n);
      NewRowTotal(b.reservations, a, created, user, t);
      assert ItemsOf(a.meters)[..|a.meters|] == ItemsOf(a.meters);
    }
  }

  lemma ReserveTotals(b: Books, a: Admission, created: Time, checkAt: seq<Time>, holdAt: seq<Time>, limits: string -> real)
    requires |checkAt| == |holdAt| == |a.meters|
    ensures SameExcess(b, Reserve(b, a, created, checkAt, holdAt, limits).0)
  {
    var b' := Reserve(b, a, created, checkAt, holdAt, limits).0;
    forall user, t, first, n: nat | Spans(b'.balances, first, n)
      ensures Total(b'.balances, user, t, first, n) - OpenTotal(b'.reservations, user, t)
              == Total(b.balances, user, t, first, n) - OpenTotal(b.reservations, user, t)
    {
      ReserveTotal(b, a, created, checkAt, holdAt, limits, user, t, first, n);
    }
    KeysGrow(CheckMeters(b.balances, a, checkAt, limits, |a.meters|).0, a, holdAt, limits, |a.meters|);
  }

  lemma {:induction false} KeysGrow(balances: map<Key, Balance>, a: Admission, at: seq<Time>, limits: string -> real, m: nat)
    requires m <= |a.meters| == |at|
    ensures balances.Keys <= HoldMeters(balances, a, at, limits, m).Keys
  {
    if m > 0 {
      KeysGrow(balances, a, at, limits, m - 1);
    }
  }

  lemma ReserveNonNegative(b: Books, a: Admission, created: Time, checkAt: seq<Time>, holdAt: seq<Time>, limits: string -> real)
    requires |checkAt| == |holdAt| == |a.meters| && MetersOk(a.meters) && NonNegative(b.balances)
    ensures NonNegative(Reserve(b, a, created, checkAt, holdAt, limits).0.balances)
  {
    HoldNonNegative(CheckMeters(b.balances, a, checkAt, limits, |a.meters|).0, a, holdAt, limits, |a.meters|);
  }

  // ---------- giving back ----------

  lemma {:induction false} UnholdTotals(balances: map<Key, Balance>, r: Reservation, m: nat, user: string, t: string, first: int, n: nat)
    requires m <= |r.items| && Unhold(balances, r, m).Some? && Spans(balances, first, n)
    ensures Unhold(balances, r, m).value.Keys == balances.Keys
    ensures Total(Unhold(balances, r, m).value, user, t, first, n)
            == Total(balances, user, t, first, n) - if r.user == user then ItemAmount(r.items[..m], t) else 0.0
    ensures NonNegative(balances) ==> NonNegative(Unhold(balances, r, m).value)
  {
    if m > 0 {
      UnholdTotals(balances, r, m - 1, user, t, first, n);
      var before, after := Unhold(balances, r, m - 1).value, Unhold(balances, r, m).value;
      var k := Key(r.user, r.items[m - 1].quotaType, r.createdAt.month);
      TotalMoves(before, after, k, -r.items[m - 1].reserved, user, t, first, n);
      assert r.items[..m][..m - 1] == r.items[..m - 1];
    }
  }

  lemma {:induction false} UnholdKeys(balances: map<Key, Balance>, r: Reservation, m: nat)
    requires m <= |r.items| && Unhold(balances, r, m).Some?
    ensures Unhold(balances, r, m).value.Keys == balances.Keys
    ensures NonNegative(balances) ==> NonNegative(Unhold(balances, r, m).value)
  {
    if m > 0 {
      UnholdKeys(balances, r, m - 1);
    }
  }

  lemma SetStatusTotals(b: Books, i: nat, status: Status)
    requires i < |b.reservations|
    ensures SameExcess(b, SetStatus(b, i, status).0)
    ensures NonNegative(b.balances) ==> NonNegative(SetStatus(b, i, status).0.balances)
  {
    var b', r := SetStatus(b, i, status).0, b.reservations[i];
    if b' != b {
      UnholdKeys(b.balances, r, |r.items|);
      forall user, t, first, n: nat | Spans(b'.balances, first, n)
        ensures Total(b'.balances, user, t, first, n) - OpenTotal(b'.reservations, user, t)
                == Total(b.balances, user, t, first, n) - OpenTotal(b.reservations, user, t)
      {
        UnholdTotals(b.balances, r, |r.items|, user, t, first, n);
        assert r.items[..|r.items|] == r.items;
        OpenUpdate(b.reservations, i, WithStatus(r, status), user, t);
      }
    }
  }

  lemma SetStatusByIdTotals(b: Books, id: string, status: Status)
    ensures SameExcess(b, SetStatusById(b, id, status).0)
    ensures NonNegative(b.balances) ==> NonNegative(SetStatusById(b, id, status).0.balances)
  {
    var found := FindReservation(b.reservations, id);
    if found.Some? && found.value < |b.reservations| {
      SetStatusTotals(b, found.value, status);
    }
  }

  // ---------- charging ----------

  /** Steps that leave every reserved amount alone. */
  lemma ReservedUntouched(b: Books, b': Books)
    requires b.balances.Keys <= b'.balances.Keys && b'.reservations == b.reservations
    requires forall k :: ReservedOf(b'.balances, k) == ReservedOf(b.balances, k)
    ensures SameExcess(b, b')
    ensures NonNegative(b.balances) ==> NonNegative(b'.balances)
  {
    forall user, t, first, n: nat | Spans(b'.balances, first, n)
      ensures Total(b'.balances, user, t, first, n) == Total(b.balances, user, t, first, n)
    {
      TotalSame(b.balances, b'.balances, user, t, first, n);
    }
    assert forall k :: k in b'.balances ==> b'.balances[k].reserved == ReservedOf(b.balances, k);
  }

  lemma RecordTotals(b: Books, c: Charge, at: Time, limits: string -> real)
    ensures SameExcess(b, Record(b, c, at, limits).0)
    ensures NonNegative(b.balances) ==> NonNegative(Record(b, c, at, limits).0.balances)
  {
    ReservedUntouched(b, Record(b, c, at, limits).0);
  }

  lemma LateSettleTotals(b: Books, i: nat, b': Books)
    requires i < |b.reservations| && !b.reservations[i].status.Reserved? && b'.balances == b.balances
    requires b'.reservations == b.reservations[i := WithStatus(b.reservations[i], Settled)]
    ensures SameExcess(b, b')
  {
    forall user, t
      ensures OpenTotal(b'.reservations, user, t) == OpenTotal(b.reservations, user, t)
    {
      OpenUpdate(b.reservations, i, WithStatus(b.reservations[i], Settled), user, t);
    }
  }

  lemma Chained(b0: Books, b1: Books, b2: Books)
    requires SameExcess(b0, b1) && SameExcess(b1, b2)
    ensures SameExcess(b0, b2)
  {
    forall user, t, first, n: nat | Spans(b2.balances, first, n)
      ensures Total(b2.balances, user, t, first, n) - OpenTotal(b2.reservations, user, t)
              == Total(b0.balances, user, t, first, n) - OpenTotal(b0.reservations, user, t)
    {
      assert Spans(b1.balances, first, n);
    }
  }

  lemma SettleHoldTotals(b: Books, i: nat)
    requires i < |b.reservations|
    ensures SameExcess(b, SettleHold(b, i).0)
    ensures NonNegative(b.balances) ==> NonNegative(SettleHold(b, i).0.balances)
  {
    if b.reservations[i].status.Reserved? || b.reservations[i].status.Settled? {
      SetStatusTotals(b, i, Settled);
    } else if b.reservations[i].items != [] {
      LateSettleTotals(b, i, SettleHold(b, i).0);
    }
  }

  lemma SettleTotals(b: Books, c: Charge, id: string, limits: string -> real)
    ensures SameExcess(b, SettleUsage(b, c, id, limits).0)
    ensures NonNegative(b.balances) ==> NonNegative(SettleUsage(b, c, id, limits).0.balances)
  {
    var found := FindReservation(b.reservations, id);
    if found.Some? && found.value < |b.reservations| {
      var i := found.value;
      var charge := ChargeFor(c, b.reservations[i]);
      if charge.Some? {
        var recorded := Record(b, charge.value, b.reservations[i].createdAt, limits).0;
        RecordTotals(b, charge.value, b.reservations[i].createdAt, limits);
        SettleHoldTotals(recorded, i);
        Chained(b, recorded, SettleHold(recorded, i).0);
      }
    }
  }

  // ---------- used amounts ----------

  lemma UseUntouched(b: Books, b': Books)
    requires UseBalances(b) && b'.usage == b.usage
    requires forall k :: UsedOf(b'.balances, k) == UsedOf(b.balances, k)
    ensures UseBalances(b')
  {
  }

  lemma ReserveKeepsUse(b: Books, a: Admission, created: Time, checkAt: seq<Time>, holdAt: seq<Time>, limits: string -> real)
    requires |checkAt| == |holdAt| == |a.meters| && UseBalances(b)
    ensures UseBalances(Reserve(b, a, created, checkAt, holdAt, limits).0)
  {
    var b' := Reserve(b, a, created, checkAt, holdAt, limits).0;
    forall k
      ensures UsedOf(b'.balances, k) == UsedOf(b.balances, k)
    {
      HoldMetersExact(CheckMeters(b.balances, a, checkAt, limits, |a.meters|).0, a, holdAt, limits, |a.meters|, k);
    }
  }

  lemma {:induction false} UnholdKeepsUse(balances: map<Key, Balance>, r: Reservation, m: nat, k: Key)
    requires m <= |r.items| && Unhold(balances, r, m).Some?
    ensures UsedOf(Unhold(balances, r, m).value, k) == UsedOf(balances, k)
  {
    if m > 0 {
      UnholdKeepsUse(balances, r, m - 1, k);
    }
  }

  lemma SetStatusKeepsUse(b: Books, i: nat, status: Status)
    requires i < |b.reservations| && UseBalances(b)
    ensures UseBalances(SetStatus(b, i, status).0)
  {
    var b', r := SetStatus(b, i, status).0, b.reservations[i];
    if b' != b {
      forall k
        ensures UsedOf(b'.balances, k) == UsedOf(b.balances, k)
      {
        UnholdKeepsUse(b.balances, r, |r.items|, k);
      }
    }
  }

  lemma SetStatusByIdKeepsUse(b: Books, id: string, status: Status)
    requires UseBalances(b)
    ensures UseBalances(SetStatusById(b, id, status).0)
  {
    var found := FindReservation(b.reservations, id);
    if found.Some? && found.value < |b.reservations| {
      SetStatusKeepsUse(b, found.value, status);
    }
  }

  lemma SettleKeepsUse(b: Books, c: Charge, id: string, limits: string -> real)
    requires UseBalances(b)
    ensures UseBalances(SettleUsage(b, c, id, limits).0)
  {
    var found := FindReservation(b.reservations, id);
    if found.Some? && found.value < |b.reservations| {
      var i := found.value;
      var charge := ChargeFor(c, b.reservations[i]);
      if charge.Some? {
        RecordKeepsUse(b, charge.value, b.reservations[i].createdAt, limits);
        var recorded := Record(b, charge.value, b.reservations[i].createdAt, limits).0;
        if recorded.reservations[i].status.Reserved? || recorded.reservations[i].status.Settled? {
          SetStatusKeepsUse(recorded, i, Settled);
        }
      }
    }
  }

  lemma StepKeepsUse(b: Books, op: Op, limits: string -> real)
    requires Enabled(op) && UseBalances(b)
    ensures UseBalances(Do(b, op, limits))
  {
    match op
    case DoCheck(_, _) =>
    case DoMark(_, _) =>
    case DoAdmit(a, created, checkAt, holdAt) =>
      ReserveKeepsUse(b, a, created, checkAt, holdAt, limits);
      AdmitIsReserve(b, a, created, checkAt, holdAt, limits);
    case DoCreate(checkId, taskId, taskType, id, meters, created, checkAt, holdAt) =>
      CreateIsReserve(b, checkId, taskId, taskType, id, meters, created, checkAt, holdAt, limits);
      if checkId in b.checks {
        ReserveKeepsUse(b, HoldFor(checkId, b.checks[checkId], taskId, taskType, id, meters), created, checkAt, holdAt, limits);
      }
    case DoSetStatus(id, status) => SetStatusByIdKeepsUse(b, id, status);
    case DoSettle(c, id) => SettleKeepsUse(b, c, id, limits);
    case DoRecord(c, at) => RecordKeepsUse(b, c, at, limits);
    case DoAdjust(k, delta) => UseUntouched(b, Do(b, op, limits));
    case DoProject(t) =>
      SetStatusByIdKeepsUse(b, t.reservationId, Released);
      SettleKeepsUse(b, RunCharge(t), t.reservationId, limits);
  }

  lemma AdmitIsReserve(b: Books, a: Admission, created: Time, checkAt: seq<Time>, holdAt: seq<Time>, limits: string -> real)
    requires |checkAt| == |holdAt| == |a.meters|
    ensures var b' := Admit(b, a, created, checkAt, holdAt, limits).0;
            || b' == Reserve(b, a, created, checkAt, holdAt, limits).0
            || (b'.balances == b.balances && b'.reservations == b.reservations && b'.usage == b.usage)
  {
  }

  // ---------- runs ----------

  lemma AdmitTotals(b: Books, a: Admission, created: Time, checkAt: seq<Time>, holdAt: seq<Time>, limits: string -> real)
    requires |checkAt| == |holdAt| == |a.meters| && MetersOk(a.meters)
    ensures SameExcess(b, Admit(b, a, created, checkAt, holdAt, limits).0)
    ensures NonNegative(b.balances) ==> NonNegative(Admit(b, a, created, checkAt, holdAt, limits).0.balances)
  {
    var b' := Admit(b, a, created, checkAt, holdAt, limits).0;
    ReserveTotals(b, a, created, checkAt, holdAt, limits);
    if NonNegative(b.balances) {
      ReserveNonNegative(b, a, created, checkAt, holdAt, limits);
    }
    AdmitIsReserve(b, a, created, checkAt, holdAt, limits);
    if b' != Reserve(b, a, created, checkAt, holdAt, limits).0 {
      ReservedUntouched(b, b');
    }
  }

  lemma CreateTotals(b: Books, checkId: string, taskId: string, taskType: string, id: string, meters: seq<Meter>,
                     created: Time, checkAt: seq<Time>, holdAt: seq<Time>, limits: string -> real)
    requires |checkAt| == |holdAt| == |meters| && MetersOk(meters)
    ensures SameExcess(b, CreateHold(b, checkId, taskId, taskType, id, meters, created, checkAt, holdAt, limits).0)
    ensures NonNegative(b.balances) ==>
              NonNegative(CreateHold(b, checkId, taskId, taskType, id, meters, created, checkAt, holdAt, limits).0.balances)
  {
    var b' := CreateHold(b, checkId, taskId, taskType, id, meters, created, checkAt, holdAt, limits).0;
    CreateIsReserve(b, checkId, taskId, taskType, id, meters, created, checkAt, holdAt, limits);
    if b' != b {
      var a := HoldFor(checkId, b.checks[checkId], taskId, taskType, id, meters);
      ReserveTotals(b, a, created, checkAt, holdAt, limits);
      if NonNegative(b.balances) {
        ReserveNonNegative(b, a, created, checkAt, holdAt, limits);
      }
    }
  }

  lemma CreateIsReserve(b: Books, checkId: string, taskId: string, taskType: string, id: string, meters: seq<Meter>,
                        created: Time, checkAt: seq<Time>, holdAt: seq<Time>, limits: string -> real)
    requires |checkAt| == |holdAt| == |meters|
    ensures var b' := CreateHold(b, checkId, taskId, taskType, id, meters, created, checkAt, holdAt, limits).0;
            || b' == b
            || (checkId in b.checks && b' == Reserve(b, HoldFor(checkId, b.checks[checkId], taskId, taskType, id, meters),
                                                     created, checkAt, holdAt, limits).0)
  {
  }

  lemma StepTotals(b: Books, op: Op, limits: string -> real)
    requires Enabled(op)
    ensures SameExcess(b, Do(b, op, limits))
    ensures NonNegative(b.balances) ==> NonNegative(Do(b, op, limits).balances)
  {
    match op
    case DoCheck(_, _) =>
    case DoMark(_, _) =>
    case DoAdmit(a, created, checkAt, holdAt) => AdmitTotals(b, a, created, checkAt, holdAt, limits);
    case DoCreate(checkId, taskId, taskType, id, meters, created, checkAt, holdAt) =>
      CreateTotals(b, checkId, taskId, taskType, id, meters, created, checkAt, holdAt, limits);
    case DoSetStatus(id, status) => SetStatusByIdTotals(b, id, status);
    case DoSettle(c, id) => SettleTotals(b, c, id, limits);
    case DoRecord(c, at) => RecordTotals(b, c, at, limits);
    case DoAdjust(k, delta) => ReservedUntouched(b, Do(b, op, limits));
    case DoProject(t) =>
      SetStatusByIdTotals(b, t.reservationId, Released);
      SettleTotals(b, RunCharge(t), t.reservationId, limits);
  }

  lemma {:induction false} EmptyTotal(user: string, t: string, first: int, n: nat)
    ensures Total(map[], user, t, first, n) == 0.0
  {
    if n > 0 {
      EmptyTotal(user, t, first, n - 1);
    }
  }

  /** Conservation in every run, whatever the clocks read: over all months
      together, what a user's balances of one type hold reserved is exactly what
      the open reservations account for, no balance's reserved amount is ever
      negative, and each month's used amount is the sum of its usage records. */
  lemma {:induction false} TotalsAlwaysBalance(states: seq<Books>, ops: seq<Op>, limits: string -> real, i: nat,
                                               user: string, t: string, first: int, n: nat)
    requires IsRun(states, ops, limits) && i < |states| && Spans(states[i].balances, first, n)
    ensures Total(states[i].balances, user, t, first, n) == OpenTotal(states[i].reservations, user, t)
    ensures NonNegative(states[i].balances) && UseBalances(states[i])
  {
    if i > 0 {
      StepTotals(states[i - 1], ops[i - 1], limits);
      TotalsAlwaysBalance(states, ops, limits, i - 1, user, t, first, n);
      StepKeepsUse(states[i - 1], ops[i - 1], limits);
    } else {
      EmptyTotal(user, t, first, n);
    }
  }
}
