/** Conservation of the quota ledger over every run of its transactions. */
module LedgerBooks {
  import opened Wrappers
  import opened Ledger

  ghost predicate DistinctTypes(items: seq<Item>) {
    forall i, j :: 0 <= i < j < |items| ==> items[i].quotaType != items[j].quotaType
  }

  /** What sortedPositiveQuotaMeters and the default meter guarantee. */
  ghost predicate MetersOk(meters: seq<Meter>) {
    && |meters| > 0
    && (forall i :: 0 <= i < |meters| ==> meters[i].amount > 0.0)
    && (forall i, j :: 0 <= i < j < |meters| ==> meters[i].quotaType != meters[j].quotaType)
  }

  ghost predicate ReservationOk(r: Reservation) {
    && r.items != [] && DistinctTypes(r.items)
    && forall i :: 0 <= i < |r.items| ==> r.items[i].reserved > 0.0
  }

  /** Reserved amounts are exactly the items of the reservations still held. */
  ghost predicate HoldsBalance(b: Books) {
    forall k :: ReservedOf(b.balances, k) == Held(b.reservations, k)
  }

  /** Used amounts are exactly the usage records charged to that month. */
  ghost predicate UseBalances(b: Books) {
    forall k :: UsedOf(b.balances, k) == Charged(b.usage, k)
  }

  ghost predicate RowsOk(b: Books) {
    && (forall i :: 0 <= i < |b.reservations| ==> ReservationOk(b.reservations[i]))
    && (forall i, j :: 0 <= i < j < |b.reservations| ==> b.reservations[i].id != b.reservations[j].id)
  }

  ghost predicate Inv(b: Books) {
    RowsOk(b) && HoldsBalance(b) && UseBalances(b)
  }

  // ---------- sums ----------

  lemma {:induction false} HeldUpdate(rows: seq<Reservation>, i: nat, r: Reservation, k: Key)
    requires i < |rows|
    ensures Held(rows[i := r], k) == Held(rows, k) - Hold(rows[i], k) + Hold(r, k)
  {
    var n := |rows| - 1;
    if i < n {
      HeldUpdate(rows[..n], i, r, k);
      assert rows[i := r][..n] == rows[..n][i := r];
    } else {
      assert rows[i := r][..n] == rows[..n];
    }
  }

  lemma {:induction false} ItemAmountNonneg(items: seq<Item>, t: string)
    requires forall i :: 0 <= i < |items| ==> items[i].reserved > 0.0
    ensures ItemAmount(items, t) >= 0.0
  {
    if items != [] {
      ItemAmountNonneg(items[..|items| - 1], t);
    }
  }

  lemma {:induction false} HeldCovers(rows: seq<Reservation>, i: nat, k: Key)
    requires i < |rows| && forall j :: 0 <= j < |rows| ==> ReservationOk(rows[j])
    ensures Held(rows, k) >= Hold(rows[i], k)
  {
    var n := |rows| - 1;
    ItemAmountNonneg(rows[n].items, k.quotaType);
    if i < n {
      HeldCovers(rows[..n], i, k);
    } else if n > 0 {
      HeldCovers(rows[..n], 0, k);
      ItemAmountNonneg(rows[0].items, k.quotaType);
    }
  }

  lemma {:induction false} ItemAmountAt(items: seq<Item>, n: nat)
    requires n < |items| && DistinctTypes(items)
    ensures ItemAmount(items, items[n].quotaType) == items[n].reserved
    ensures ItemAmount(items[..n], items[n].quotaType) == 0.0
  {
    var last := |items| - 1;
    ItemAmountAbsent(items[..n], items[n].quotaType);
    if n < last {
      ItemAmountAt(items[..last], n);
      assert items[..last][..n] == items[..n];
    } 
  }

  lemma {:induction false} ItemAmountAbsent(items: seq<Item>, t: string)
    requires forall i :: 0 <= i < |items| ==> items[i].quotaType != t
    ensures ItemAmount(items, t) == 0.0
  {
    if items != [] {
      ItemAmountAbsent(items[..|items| - 1], t);
    }
  }

  lemma {:induction false} ItemAmountSettled(items: seq<Item>, t: string)
    ensures ItemAmount(SettledItems(items), t) == ItemAmount(items, t)
  {
    if items != [] {
      ItemAmountSettled(items[..|items| - 1], t);
      assert SettledItems(items)[..|items| - 1] == SettledItems(items[..|items| - 1]);
    }
  }

  // ---------- giving a hold back ----------

  /** With balanced books the guard on the reserved amount never fails, and the
      release takes exactly the reservation's hold out of each balance. */
  lemma {:induction false} UnholdExact(balances: map<Key, Balance>, r: Reservation, n: nat)
    requires n <= |r.items| && ReservationOk(r) && r.status.Reserved?
    requires forall k :: ReservedOf(balances, k) >= Hold(r, k)
    ensures Unhold(balances, r, n).Some?
    ensures var b := Unhold(balances, r, n).value;
            && b.Keys == balances.Keys
            && (forall k :: k in balances ==> b[k].(reserved := balances[k].reserved) == balances[k])
            && (forall k :: ReservedOf(b, k) == ReservedOf(balances, k)
                 - if r.user == k.user && r.createdAt.month == k.month then ItemAmount(r.items[..n], k.quotaType) else 0.0)
  {
    if n > 0 {
      UnholdExact(balances, r, n - 1);
      var b := Unhold(balances, r, n - 1).value;
      var item := r.items[n - 1];
      var key := Key(r.user, item.quotaType, r.createdAt.month);
      ItemAmountAt(r.items, n - 1);
      assert r.items[..n][..n - 1] == r.items[..n - 1];
      assert Hold(r, key) == item.reserved;
      assert ReservedOf(b, key) == ReservedOf(balances, key) && ReservedOf(balances, key) >= item.reserved;
    } else {
      assert r.items[..0] == [];
    }
  }

  lemma SetStatusExact(b: Books, i: nat, status: Status)
    requires Inv(b) && i < |b.reservations|
    ensures SetStatus(b, i, status).1 != Err(BalanceMismatch)
    ensures Inv(SetStatus(b, i, status).0)
    ensures SetStatus(b, i, status).0.usage == b.usage
  {
    var r := b.reservations[i];
    if r.status.Reserved? && !status.Reserved? {
      forall k
        ensures ReservedOf(b.balances, k) >= Hold(r, k)
      {
        HeldCovers(b.reservations, i, k);
      }
      UnholdExact(b.balances, r, |r.items|);
      assert r.items[..|r.items|] == r.items;
      ReplaceRow(b, SetStatus(b, i, status).0, i, WithStatus(r, status));
    }
  }

  /** Replacing row i by one that holds nothing any more, and the balances accordingly, keeps the books. */
  lemma ReplaceRow(b: Books, b': Books, i: nat, r: Reservation)
    requires Inv(b) && i < |b.reservations|
    requires b'.reservations == b.reservations[i := r] && b'.usage == b.usage && b'.checks == b.checks
    requires r.id == b.reservations[i].id && ReservationOk(r) && !r.status.Reserved?
    requires forall k :: UsedOf(b'.balances, k) == UsedOf(b.balances, k)
    requires forall k :: ReservedOf(b'.balances, k) == ReservedOf(b.balances, k) - Hold(b.reservations[i], k)
    ensures Inv(b')
  {
    forall k
      ensures ReservedOf(b'.balances, k) == Held(b'.reservations, k)
    {
      HeldUpdate(b.reservations, i, r, k);
    }
  }

  // ---------- admission ----------

  /** What the first n meters put on balance k when the clock read `at`. */
  function HoldAt(a: Admission, at: seq<Time>, n: nat, k: Key): real
    requires n <= |a.meters| == |at|
  {
    if n == 0 then 0.0
    else HoldAt(a, at, n - 1, k)
         + if Key(a.user, a.meters[n - 1].quotaType, at[n - 1].month) == k then a.meters[n - 1].amount else 0.0
  }

  lemma {:induction false} HoldMetersExact(balances: map<Key, Balance>, a: Admission, at: seq<Time>, limits: string -> real, n: nat, k: Key)
    requires n <= |a.meters| == |at|
    ensures var b := HoldMeters(balances, a, at, limits, n);
            && ReservedOf(b, k) == ReservedOf(balances, k) + HoldAt(a, at, n, k)
            && UsedOf(b, k) == UsedOf(balances, k)
            && (k in balances ==> k in b && b[k].(reserved := balances[k].reserved) == balances[k])
  {
    if n > 0 {
      HoldMetersExact(balances, a, at, limits, n - 1, k);
    }
  }

  predicate SameMonth(at: seq<Time>, month: int) {
    forall i :: 0 <= i < |at| ==> at[i].month == month
  }

  lemma {:induction false} HoldAtIsHold(a: Admission, created: Time, at: seq<Time>, n: nat, k: Key)
    requires n <= |a.meters| == |at| && SameMonth(at, created.month)
    ensures HoldAt(a, at, n, k)
            == if a.user == k.user && created.month == k.month then ItemAmount(ItemsOf(a.meters)[..n], k.quotaType) else 0.0
  {
    if n > 0 {
      HoldAtIsHold(a, created, at, n - 1, k);
      assert ItemsOf(a.meters)[..n][..n - 1] == ItemsOf(a.meters)[..n - 1];
    }
  }

  lemma {:induction false} HoldAtOne(a: Admission, at: seq<Time>, n: nat, i: nat)
    requires n <= |a.meters| == |at| && i < |a.meters| && MetersOk(a.meters)
    ensures HoldAt(a, at, n, Key(a.user, a.meters[i].quotaType, at[i].month)) == if i < n then a.meters[i].amount else 0.0
  {
    if n > 0 {
      HoldAtOne(a, at, n - 1, i);
    }
  }

  lemma AppendRow(rows: seq<Reservation>, r: Reservation, k: Key)
    ensures Held(rows + [r], k) == Held(rows, k) + Hold(r, k)
  {
    assert (rows + [r])[..|rows|] == rows;
  }

  // What a caller can look up before the call.

  function KeyOf(a: Admission, at: seq<Time>, i: nat): Key
    requires i < |a.meters| == |at|
  {
    Key(a.user, a.meters[i].quotaType, at[i].month)
  }

  /** What balance k still offers; a balance that is not open yet offers its limit. */
  function Available(balances: map<Key, Balance>, k: Key, limits: string -> real): real {
    if k in balances then Remaining(balances[k]) else limits(k.quotaType)
  }

  ghost predicate Covered(balances: map<Key, Balance>, a: Admission, at: seq<Time>, limits: string -> real)
    requires |at| == |a.meters|
  {
    forall i :: 0 <= i < |a.meters| ==> Available(balances, KeyOf(a, at, i), limits) >= a.meters[i].amount
  }

  ghost predicate FreeId(rows: seq<Reservation>, id: string) {
    forall i :: 0 <= i < |rows| ==> rows[i].id != id
  }

  ghost predicate FreeCheck(rows: seq<Reservation>, checkId: string) {
    forall i :: 0 <= i < |rows| ==> rows[i].checkId != checkId
  }

  /** The request is complete, its check (if there is one) is the same request's and not denied, and no policy denies it. */
  predicate Allowed(b: Books, a: Admission) {
    && a.checkId != "" && a.user != "" && a.taskId != "" && a.taskType != "" && a.policyDeny.None?
    && (a.checkId in b.checks ==> b.checks[a.checkId] == Check(a.user, a.workspace, a.taskType, None))
  }

  /** The guards of a new reservation: allowed, no row for the check, none under the id, every amount covered. */
  ghost predicate Reserves(b: Books, a: Admission, checkAt: seq<Time>, limits: string -> real)
    requires |checkAt| == |a.meters|
  {
    Allowed(b, a) && FreeCheck(b.reservations, a.checkId) && Fits(b, a, checkAt, limits)
  }

  ghost predicate Fits(b: Books, a: Admission, checkAt: seq<Time>, limits: string -> real)
    requires |checkAt| == |a.meters|
  {
    FreeId(b.reservations, a.reservationId) && Covered(b.balances, a, checkAt, limits)
  }

  lemma {:induction false} FindIff(rows: seq<Reservation>, id: string)
    ensures FindReservation(rows, id).None? <==> FreeId(rows, id)
  {
    if rows != [] {
      FindIff(rows[..|rows| - 1], id);
      assert rows[|rows| - 1].id == id || FreeId(rows[..|rows| - 1], id) == FreeId(rows, id);
    }
  }

  lemma {:induction false} FindCheckIff(rows: seq<Reservation>, checkId: string)
    ensures FindByCheck(rows, checkId).None? <==> FreeCheck(rows, checkId)
    ensures FindByCheck(rows, checkId).Some? ==> FindByCheck(rows, checkId).value < |rows|
  {
    if rows != [] {
      FindCheckIff(rows[..|rows| - 1], checkId);
      assert rows[|rows| - 1].checkId == checkId || FreeCheck(rows[..|rows| - 1], checkId) == FreeCheck(rows, checkId);
    }
  }

  /** The checking loop passes exactly when every amount is covered, and what it opens offers what it offered before. */
  lemma {:induction false} CheckIff(balances: map<Key, Balance>, a: Admission, at: seq<Time>, limits: string -> real, n: nat)
    requires n <= |a.meters| == |at|
    ensures CheckMeters(balances, a, at, limits, n).1
            <==> forall i :: 0 <= i < n ==> Available(balances, KeyOf(a, at, i), limits) >= a.meters[i].amount
    ensures forall k :: Available(CheckMeters(balances, a, at, limits, n).0, k, limits) == Available(balances, k, limits)
  {
    if n > 0 {
      CheckIff(balances, a, at, limits, n - 1);
      assert Available(balances, KeyOf(a, at, n - 1), limits)
             == Available(CheckMeters(balances, a, at, limits, n - 1).0, KeyOf(a, at, n - 1), limits);
    }
  }

  lemma ReserveIff(b: Books, a: Admission, created: Time, checkAt: seq<Time>, holdAt: seq<Time>, limits: string -> real)
    requires |checkAt| == |holdAt| == |a.meters|
    ensures Fits(b, a, checkAt, limits) <==> Reserve(b, a, created, checkAt, holdAt, limits).1 == Ok(Granted(a.reservationId))
    ensures Fits(b, a, checkAt, limits) <==> |Reserve(b, a, created, checkAt, holdAt, limits).0.reservations| > |b.reservations|
  {
    FindIff(b.reservations, a.reservationId);
    CheckIff(b.balances, a, checkAt, limits, |a.meters|);
  }

  /** The guards decide: exactly under them does the admission insert a reservation. */
  lemma ReservesIff(b: Books, a: Admission, created: Time, checkAt: seq<Time>, holdAt: seq<Time>, limits: string -> real)
    requires |checkAt| == |holdAt| == |a.meters|
    ensures Reserves(b, a, checkAt, limits)
            <==> |Admit(b, a, created, checkAt, holdAt, limits).0.reservations| > |b.reservations|
    ensures Reserves(b, a, checkAt, limits) ==>
              Admit(b, a, created, checkAt, holdAt, limits) == Reserve(b, a, created, checkAt, holdAt, limits)
  {
    FindCheckIff(b.reservations, a.checkId);
    ReserveIff(b, a, created, checkAt, holdAt, limits);
  }

  lemma AdmittedRow(a: Admission, created: Time)
    requires MetersOk(a.meters)
    ensures ReservationOk(NewReservation(a, created))
  {
    var items := ItemsOf(a.meters);
    assert forall i :: 0 <= i < |items| ==> items[i].quotaType == a.meters[i].quotaType && items[i].reserved == a.meters[i].amount;
  }

  /** The sums after a reservation was inserted. */
  lemma ReserveSums(b: Books, a: Admission, created: Time, checkAt: seq<Time>, holdAt: seq<Time>, limits: string -> real, k: Key)
    requires |checkAt| == |holdAt| == |a.meters| && Fits(b, a, checkAt, limits)
    ensures var b' := Reserve(b, a, created, checkAt, holdAt, limits).0;
            && b'.reservations == b.reservations + [NewReservation(a, created)] && b'.usage == b.usage
            && ReservedOf(b'.balances, k) == ReservedOf(b.balances, k) + HoldAt(a, holdAt, |a.meters|, k)
            && UsedOf(b'.balances, k) == UsedOf(b.balances, k)
            && Held(b'.reservations, k) == Held(b.reservations, k) + Hold(NewReservation(a, created), k)
  {
    ReserveIff(b, a, created, checkAt, holdAt, limits);
    HoldMetersExact(CheckMeters(b.balances, a, checkAt, limits, |a.meters|).0, a, holdAt, limits, |a.meters|, k);
    AppendRow(b.reservations, NewReservation(a, created), k);
  }

  lemma ReserveKeepsBooks(b: Books, a: Admission, created: Time, checkAt: seq<Time>, holdAt: seq<Time>, limits: string -> real)
    requires Inv(b) && |checkAt| == |holdAt| == |a.meters| && MetersOk(a.meters)
    ensures Inv(Reserve(b, a, created, checkAt, holdAt, limits).0)
            <==> !Fits(b, a, checkAt, limits) || SameMonth(holdAt, created.month)
  {
    ReserveIff(b, a, created, checkAt, holdAt, limits);
    if Fits(b, a, checkAt, limits) {
      var b', r := Reserve(b, a, created, checkAt, holdAt, limits).0, NewReservation(a, created);
      forall k
        ensures ReservedOf(b'.balances, k) == Held(b.reservations, k) + HoldAt(a, holdAt, |a.meters|, k)
        ensures UsedOf(b'.balances, k) == Charged(b'.usage, k)
        ensures Held(b'.reservations, k) == Held(b.reservations, k) + Hold(r, k)
      {
        ReserveSums(b, a, created, checkAt, holdAt, limits, k);
      }
      if SameMonth(holdAt, created.month) {
        AdmittedRow(a, created);
        forall k
          ensures HoldAt(a, holdAt, |a.meters|, k) == Hold(r, k)
        {
          HoldAtIsHold(a, created, holdAt, |a.meters|, k);
          assert r.items[..|a.meters|] == r.items;
        }
      } else {
        var i :| 0 <= i < |holdAt| && holdAt[i].month != created.month;
        var k := Key(a.user, a.meters[i].quotaType, holdAt[i].month);
        HoldAtOne(a, holdAt, |a.meters|, i);
        assert ReservedOf(b'.balances, k) != Held(b'.reservations, k);
      }
    }
  }

  /** An admission keeps the books exactly when it makes no reservation or the
      Go clock, at every reserving step, is in the month of the database's
      transaction time. */
  lemma AdmissionKeepsBooks(b: Books, a: Admission, created: Time, checkAt: seq<Time>, holdAt: seq<Time>, limits: string -> real)
    requires Inv(b) && |checkAt| == |holdAt| == |a.meters| && MetersOk(a.meters)
    ensures Inv(Admit(b, a, created, checkAt, holdAt, limits).0)
            <==> !Reserves(b, a, checkAt, limits) || SameMonth(holdAt, created.month)
  {
    FindCheckIff(b.reservations, a.checkId);
    ReserveKeepsBooks(b, a, created, checkAt, holdAt, limits);
  }

  /** The same for a reservation created under an earlier check. */
  lemma CreationKeepsBooks(b: Books, checkId: string, taskId: string, taskType: string, id: string, meters: seq<Meter>,
                           created: Time, checkAt: seq<Time>, holdAt: seq<Time>, limits: string -> real)
    requires Inv(b) && |checkAt| == |holdAt| == |meters| && MetersOk(meters)
    ensures Inv(CreateHold(b, checkId, taskId, taskType, id, meters, created, checkAt, holdAt, limits).0)
            <==> !(&& checkId in b.checks && b.checks[checkId].denied.None? && FreeCheck(b.reservations, checkId)
                   && Fits(b, HoldFor(checkId, b.checks[checkId], taskId, taskType, id, meters), checkAt, limits))
                 || SameMonth(holdAt, created.month)
  {
    FindCheckIff(b.reservations, checkId);
    if checkId in b.checks {
      ReserveKeepsBooks(b, HoldFor(checkId, b.checks[checkId], taskId, taskType, id, meters), created, checkAt, holdAt, limits);
    }
  }

  /** All or nothing: without a reservation no amount, row or record moves; with
      one, each meter's amount goes out of what its balance offered in the month
      the reserving step read. The clocks of checking and reserving may differ. */
  lemma AdmissionIsAllOrNothing(b: Books, a: Admission, created: Time, checkAt: seq<Time>, holdAt: seq<Time>, limits: string -> real)
    requires |checkAt| == |holdAt| == |a.meters| && MetersOk(a.meters)
    ensures var (b', r) := Admit(b, a, created, checkAt, holdAt, limits);
            && (!Reserves(b, a, checkAt, limits) ==>
                  && b'.reservations == b.reservations && b'.usage == b.usage
                  && forall k :: ReservedOf(b'.balances, k) == ReservedOf(b.balances, k) && UsedOf(b'.balances, k) == UsedOf(b.balances, k))
            && (Reserves(b, a, checkAt, limits) ==>
                  && r == Ok(Granted(a.reservationId))
                  && b'.reservations == b.reservations + [NewReservation(a, created)]
                  && forall i :: 0 <= i < |a.meters| ==>
                       && KeyOf(a, holdAt, i) in b'.balances
                       && Remaining(b'.balances[KeyOf(a, holdAt, i)])
                          == Available(b.balances, KeyOf(a, holdAt, i), limits) - a.meters[i].amount)
  {
    ReservesIff(b, a, created, checkAt, holdAt, limits);
    if Reserves(b, a, checkAt, limits) {
      ReserveIff(b, a, created, checkAt, holdAt, limits);
      forall i | 0 <= i < |a.meters|
        ensures var b' := Admit(b, a, created, checkAt, holdAt, limits).0;
                && KeyOf(a, holdAt, i) in b'.balances
                && Remaining(b'.balances[KeyOf(a, holdAt, i)]) == Available(b.balances, KeyOf(a, holdAt, i), limits) - a.meters[i].amount
      {
        CheckIff(b.balances, a, checkAt, limits, |a.meters|);
        HeldMeter(CheckMeters(b.balances, a, checkAt, limits, |a.meters|).0, a, holdAt, limits, |a.meters|, i);
      }
    }
  }

  lemma {:induction false} HeldMeter(balances: map<Key, Balance>, a: Admission, at: seq<Time>, limits: string -> real, n: nat, i: nat)
    requires n <= |a.meters| == |at| && i < |a.meters| && MetersOk(a.meters)
    ensures var k, b := KeyOf(a, at, i), HoldMeters(balances, a, at, limits, n);
            && Available(b, k, limits) == Available(balances, k, limits) - (if i < n then a.meters[i].amount else 0.0)
            && (i < n ==> k in b)
  {
    if n > 0 {
      HeldMeter(balances, a, at, limits, n - 1, i);
    }
  }

  /** Granting overdraws no balance exactly when the months read while reserving
      cover the amounts; the months read while checking always do. */
  lemma NoOverdraftIff(b: Books, a: Admission, created: Time, checkAt: seq<Time>, holdAt: seq<Time>, limits: string -> real)
    requires |checkAt| == |holdAt| == |a.meters| && MetersOk(a.meters) && Reserves(b, a, checkAt, limits)
    ensures var b' := Admit(b, a, created, checkAt, holdAt, limits).0;
            forall i :: 0 <= i < |a.meters| ==>
              && KeyOf(a, holdAt, i) in b'.balances
              && (Remaining(b'.balances[KeyOf(a, holdAt, i)]) >= 0.0
                  <==> Available(b.balances, KeyOf(a, holdAt, i), limits) >= a.meters[i].amount)
              && (holdAt[i].month == checkAt[i].month ==> Remaining(b'.balances[KeyOf(a, holdAt, i)]) >= 0.0)
  {
    AdmissionIsAllOrNothing(b, a, created, checkAt, holdAt, limits);
    forall i | 0 <= i < |a.meters| && holdAt[i].month == checkAt[i].month
      ensures Available(b.balances, KeyOf(a, holdAt, i), limits) >= a.meters[i].amount
    {
      assert KeyOf(a, holdAt, i) == KeyOf(a, checkAt, i);
    }
  }

  /** The overdraft, concretely: checked in month 0, held in month 1 whose balance is used up. */
  lemma MonthBoundaryOverdraws(b: Books, a: Admission, limits: string -> real, checked: Time, held: Time, k: Key)
    requires a == Admission("check", "user", "", "task", "type", "res", [Meter("generation", 1.0)], None)
    requires checked == Time(0, 9) && held == Time(1, 0) && k == Key("user", "generation", 1) && limits("generation") == 100.0
    requires b == Books(map[k := Balance(100.0, 100.0, 0.0, 0.0)], [], [], map[])
    ensures var (b', r) := Admit(b, a, checked, [checked], [held], limits);
            r == Ok(Granted(a.reservationId)) && k in b'.balances && Remaining(b'.balances[k]) == -1.0
  {
    assert KeyOf(a, [held], 0) == k && KeyOf(a, [checked], 0).month == 0;
    OneMeter(b, a, checked, [checked], [held], limits);
  }

  lemma OneMeter(b: Books, a: Admission, created: Time, checkAt: seq<Time>, holdAt: seq<Time>, limits: string -> real)
    requires |checkAt| == |holdAt| == |a.meters| == 1 && a.meters[0].amount > 0.0
    requires Allowed(b, a) && b.reservations == []
    requires Available(b.balances, KeyOf(a, checkAt, 0), limits) >= a.meters[0].amount
    ensures var (b', r) := Admit(b, a, created, checkAt, holdAt, limits);
            && r == Ok(Granted(a.reservationId)) && KeyOf(a, holdAt, 0) in b'.balances
            && Remaining(b'.balances[KeyOf(a, holdAt, 0)]) == Available(b.balances, KeyOf(a, holdAt, 0), limits) - a.meters[0].amount
  {
    assert Reserves(b, a, checkAt, limits);
    AdmissionIsAllOrNothing(b, a, created, checkAt, holdAt, limits);
  }

  /** The month boundary, concretely: a transaction that starts in month 0 and
      reserves in month 1 leaves a hold that can never be released. */
  lemma MonthBoundaryTrapsTheHold()
    ensures var a := Admission("check", "user", "", "task", "type", "res", [Meter("generation", 1.0)], None);
            var limits: string -> real := (t: string) => 100.0;
            var (b, r) := Admit(Books(map[], [], [], map[]), a, Time(0, 9), [Time(1, 0)], [Time(1, 0)], limits);
            && r == Ok(Granted("res"))
            && SetStatusById(b, "res", Released) == (b, Err(BalanceMismatch))
            && SetStatusById(b, "res", Settled) == (b, Err(BalanceMismatch))
            && SetStatusById(b, "res", Expired) == (b, Err(BalanceMismatch))
  {
    var a := Admission("check", "user", "", "task", "type", "res", [Meter("generation", 1.0)], None);
    var limits: string -> real := (t: string) => 100.0;
    var empty := Books(map[], [], [], map[]);
    var at := [Time(1, 0)];
    var k := Key("user", "generation", 1);
    var (checked, enough) := CheckMeters(map[], a, at, limits, 1);
    assert CheckMeters(map[], a, at, limits, 0) == (map[], true);
    assert checked == map[k := Balance(100.0, 0.0, 0.0, 0.0)] && enough;
    assert HoldMeters(checked, a, at, limits, 0) == checked;
    var held := HoldMeters(checked, a, at, limits, 1);
    assert held == map[k := Balance(100.0, 0.0, 1.0, 0.0)];
    var (b, r) := Admit(empty, a, Time(0, 9), at, at, limits);
    assert b.reservations == [NewReservation(a, Time(0, 9))] && b.balances == held;
    var row := b.reservations[0];
    assert Unhold(held, row, 0) == Some(held);
    assert Unhold(held, row, 1) == None;
  }

  // ---------- usage ----------

  lemma AppendUsage(rows: seq<Usage>, u: Usage, k: Key)
    ensures Charged(rows + [u], k) == Charged(rows, k) + ChargeOf(u, k)
  {
    assert (rows + [u])[..|rows|] == rows;
  }

  lemma RecordKeepsUse(b: Books, c: Charge, at: Time, limits: string -> real)
    requires UseBalances(b)
    ensures UseBalances(Record(b, c, at, limits).0)
  {
    var b' := Record(b, c, at, limits).0;
    if |b'.usage| > |b.usage| {
      var u := b'.usage[|b.usage|];
      forall k
        ensures UsedOf(b'.balances, k) == Charged(b'.usage, k)
      {
        AppendUsage(b.usage, u, k);
      }
    }
  }

  lemma RecordKeepsReserved(b: Books, c: Charge, at: Time, limits: string -> real, k: Key)
    ensures ReservedOf(Record(b, c, at, limits).0.balances, k) == ReservedOf(b.balances, k)
  {
  }

  lemma RecordKeepsBooks(b: Books, c: Charge, at: Time, limits: string -> real)
    requires Inv(b)
    ensures Inv(Record(b, c, at, limits).0)
  {
    RecordKeepsUse(b, c, at, limits);
    forall k
      ensures ReservedOf(Record(b, c, at, limits).0.balances, k) == ReservedOf(b.balances, k)
    {
      RecordKeepsReserved(b, c, at, limits, k);
    }
  }

  lemma SettleHoldKeepsBooks(b: Books, i: nat)
    requires Inv(b) && i < |b.reservations|
    ensures SettleHold(b, i).1 != Err(BalanceMismatch) && SettleHold(b, i).1 != Err(ItemsMissing)
    ensures Inv(SettleHold(b, i).0)
  {
    var r := b.reservations[i];
    if r.status.Reserved? || r.status.Settled? {
      SetStatusExact(b, i, Settled);
    } else {
      ReplaceRow(b, SettleHold(b, i).0, i, WithStatus(r, Settled));
    }
  }

  lemma SettleKeepsBooks(b: Books, c: Charge, id: string, limits: string -> real)
    requires Inv(b)
    ensures Inv(SettleUsage(b, c, id, limits).0)
    ensures SettleUsage(b, c, id, limits).1 != Err(BalanceMismatch)
  {
    match FindReservation(b.reservations, id)
    case None =>
    case Some(i) =>
      if i < |b.reservations| {
        var charge := ChargeFor(c, b.reservations[i]);
        if charge.Some? {
          RecordKeepsBooks(b, charge.value, b.reservations[i].createdAt, limits);
          SettleHoldKeepsBooks(Record(b, charge.value, b.reservations[i].createdAt, limits).0, i);
        }
      }
  }
}
