/** Waking up event streams (agent_run_event_notifier.go): publishing wakeups with
    coalescing, and the round-robin recovery that covers those that were dropped. */
module Notifier {
  import opened Wrappers

  // ---------- publishing, step by step ----------

  /** Where a Notify call stands once it has marked its run as pending. */
  datatype Stage = Sending | Dropping | Triggering

  datatype Call = Call(run: string, stage: Stage)

  datatype Publisher = Idle | Took(run: string) | Publishing(run: string)

  /** `owed` records the runs whose last Notify was followed neither by the start of a
      publish nor by a recovery trigger yet. */
  datatype Fanout = Fanout(
    capacity: nat, pending: set<string>, queue: seq<string>, publisher: Publisher,
    calls: map<nat, Call>, triggered: bool, owed: set<string>)

  datatype Move =
    | Notify(id: nat, run: string)   // under the pending lock
    | Send(id: nat)                  // the non-blocking send on the publish queue
    | Drop(id: nat)                  // it was full: forget the pending mark ...
    | Trigger(id: nat)               // ... and ask for recovery
    | Take
    | Unpend
    | Publish(ok: bool)
    | BeginRecovery

  ghost predicate Enabled(s: Fanout, m: Move) {
    match m
    case Notify(id, _) => id !in s.calls
    case Send(id) => id in s.calls && s.calls[id].stage.Sending?
    case Drop(id) => id in s.calls && s.calls[id].stage.Dropping?
    case Trigger(id) => id in s.calls && s.calls[id].stage.Triggering?
    case Take => s.publisher.Idle? && s.queue != []
    case Unpend => s.publisher.Took?
    case Publish(_) => s.publisher.Publishing?
    case BeginRecovery => s.triggered
  }

  ghost function Next(s: Fanout, m: Move): Fanout
    requires Enabled(s, m)
  {
    match m
    case Notify(id, run) =>
      if run in s.pending then s.(owed := s.owed + {run})
      else s.(pending := s.pending + {run}, calls := s.calls[id := Call(run, Sending)], owed := s.owed + {run})
    case Send(id) =>
      if |s.queue| < s.capacity then s.(queue := s.queue + [s.calls[id].run], calls := s.calls - {id})
      else s.(calls := s.calls[id := Call(s.calls[id].run, Dropping)])
    case Drop(id) => s.(pending := s.pending - {s.calls[id].run}, calls := s.calls[id := Call(s.calls[id].run, Triggering)])
    case Trigger(id) => s.(calls := s.calls - {id}, triggered := true, owed := {})
    case Take => s.(queue := s.queue[1..], publisher := Took(s.queue[0]))
    case Unpend => s.(pending := s.pending - {s.publisher.run}, publisher := Publishing(s.publisher.run))
    case Publish(ok) =>
      s.(publisher := Idle, triggered := s.triggered || !ok, owed := if ok then s.owed - {s.publisher.run} else {})
    case BeginRecovery => s.(triggered := false)
  }

  predicate Holds(c: Call, run: string) {
    c.run == run && !c.stage.Triggering?
  }

  ghost predicate HeldBy(s: Fanout, id: nat, run: string) {
    id in s.calls && Holds(s.calls[id], run)
  }

  /** Someone still has this run in hand and will publish it or ask for recovery. */
  ghost predicate Carried(s: Fanout, run: string) {
    run in s.queue || s.publisher == Took(run) || exists id :: HeldBy(s, id, run)
  }

  ghost predicate TriggerIsNear(s: Fanout) {
    exists id :: id in s.calls && s.calls[id].stage.Triggering?
  }

  /** The pending mark of a run stands for exactly one place that has the run in hand. */
  ghost predicate OneToken(s: Fanout) {
    && (forall run :: run in s.pending <==> Carried(s, run))
    && (forall i, j :: 0 <= i < j < |s.queue| ==> s.queue[i] != s.queue[j])
    && (s.publisher.Took? ==> s.publisher.run !in s.queue)
    && (forall id, run :: HeldBy(s, id, run) ==> run !in s.queue && s.publisher != Took(run))
    && (forall id, id', run :: HeldBy(s, id, run) && HeldBy(s, id', run) ==> id == id')
  }

  ghost predicate OwedOk(s: Fanout) {
    forall run :: run in s.owed ==> run in s.pending || s.publisher == Publishing(run) || TriggerIsNear(s)
  }

  ghost predicate Inv(s: Fanout) {
    OneToken(s) && OwedOk(s) && |s.queue| <= s.capacity
  }

  /** Only the call that moves changes hands. */
  lemma OtherCalls(s: Fanout, m: Move, id: nat, run: string)
    requires Enabled(s, m)
    requires OfCall(m) ==> m.id != id
    ensures HeldBy(Next(s, m), id, run) <==> HeldBy(s, id, run)
  {
  }

  predicate OfCall(m: Move) {
    m.Notify? || m.Send? || m.Drop? || m.Trigger?
  }

  lemma CarriedStep(s: Fanout, m: Move, run: string)
    requires OneToken(s) && Enabled(s, m)
    ensures run in Next(s, m).pending <==> Carried(Next(s, m), run)
  {
    var s' := Next(s, m);
    if m.Send? || m.Drop? {
      assert HeldBy(s, m.id, s.calls[m.id].run);
    }
    if id :| HeldBy(s, id, run) {
      if !OfCall(m) || m.id != id {
        OtherCalls(s, m, id, run);
      } else {
        OwnCallStep(s, m, run);
      }
    } else {
      NobodyTookIt(s, m, run);
    }
  }

  lemma OwnCallStep(s: Fanout, m: Move, run: string)
    requires OneToken(s) && Enabled(s, m) && OfCall(m) && HeldBy(s, m.id, run)
    ensures run in Next(s, m).pending <==> Carried(Next(s, m), run)
  {
    var s' := Next(s, m);
    assert Carried(s, run);
    if m.Send? && |s.queue| >= s.capacity {
      assert HeldBy(s', m.id, run);
    } else if m.Drop? {
      forall id
        ensures !HeldBy(s', id, run)
      {
        if id != m.id {
          OtherCalls(s, m, id, run);
        }
      }
    }
  }

  lemma NobodyTookIt(s: Fanout, m: Move, run: string)
    requires OneToken(s) && Enabled(s, m) && forall id :: !HeldBy(s, id, run)
    ensures run in Next(s, m).pending <==> Carried(Next(s, m), run)
  {
    var s' := Next(s, m);
    if m.Send? || m.Drop? {
      assert HeldBy(s, m.id, s.calls[m.id].run);
    }
    if m.Notify? && m.run == run && run !in s.pending {
      assert HeldBy(s', m.id, run);
    } else {
      forall id
        ensures !HeldBy(s', id, run)
      {
        if !OfCall(m) || m.id != id {
          OtherCalls(s, m, id, run);
        }
      }
      assert m.Take? ==> s.queue == [s.queue[0]] + s.queue[1..];
    }
  }

  lemma TokenStep(s: Fanout, m: Move)
    requires Inv(s) && Enabled(s, m)
    ensures OneToken(Next(s, m))
  {
    var s' := Next(s, m);
    forall run
      ensures run in s'.pending <==> Carried(s', run)
    {
      CarriedStep(s, m, run);
    }
    forall id, run | HeldBy(s', id, run)
      ensures run !in s'.queue && s'.publisher != Took(run)
      ensures forall id' :: HeldBy(s', id', run) ==> id == id'
    {
      HeldStep(s, m, id, run);
    }
    if m.Send? {
      assert HeldBy(s, m.id, s.calls[m.id].run);
    }
  }

  lemma HeldStep(s: Fanout, m: Move, id: nat, run: string)
    requires OneToken(s) && Enabled(s, m) && HeldBy(Next(s, m), id, run)
    ensures run !in Next(s, m).queue && Next(s, m).publisher != Took(run)
    ensures forall id' :: HeldBy(Next(s, m), id', run) ==> id == id'
  {
    var s' := Next(s, m);
    if HeldBy(s, id, run) {
      assert Carried(s, run);
      forall id' | HeldBy(s', id', run)
        ensures id == id'
      {
        assert HeldBy(s, id', run) || (m.Notify? && run !in s.pending);
      }
      if m.Send? {
        assert HeldBy(s, m.id, s.calls[m.id].run);
      }
    } else {
      assert m.Notify? && m.id == id && m.run == run && run !in s.pending;
      assert !Carried(s, run);
      forall id' | HeldBy(s', id', run)
        ensures id == id'
      {
        assert !HeldBy(s, id', run);
      }
    }
  }

  lemma OwedStep(s: Fanout, m: Move)
    requires Inv(s) && Enabled(s, m)
    ensures OwedOk(Next(s, m))
  {
    var s' := Next(s, m);
    forall run | run in s'.owed
      ensures run in s'.pending || s'.publisher == Publishing(run) || TriggerIsNear(s')
    {
      if m.Drop? {
        assert m.id in s'.calls && s'.calls[m.id].stage.Triggering?;
      } else if TriggerIsNear(s) && !m.Trigger? {
        var id :| id in s.calls && s.calls[id].stage.Triggering?;
        assert id in s'.calls && s'.calls[id].stage.Triggering?;
      }
    }
  }

  lemma StepInv(s: Fanout, m: Move)
    requires Inv(s) && Enabled(s, m)
    ensures Inv(Next(s, m))
  {
    TokenStep(s, m);
    OwedStep(s, m);
  }

  ghost predicate IsRun(states: seq<Fanout>, moves: seq<Move>) {
    && |states| == |moves| + 1
    && states[0] == Fanout(states[0].capacity, {}, [], Idle, map[], false, {}) && states[0].capacity >= 1
    && forall i :: 0 <= i < |moves| ==> Enabled(states[i], moves[i]) && states[i + 1] == Next(states[i], moves[i])
  }

  lemma {:induction false} RunInv(states: seq<Fanout>, moves: seq<Move>, i: nat)
    requires IsRun(states, moves) && i < |states|
    ensures Inv(states[i]) && states[i].capacity == states[0].capacity
  {
    if i > 0 {
      RunInv(states, moves, i - 1);
      StepInv(states[i - 1], moves[i - 1]);
    }
  }

  // ---------- no wakeup is lost ----------

  function IndexIn(queue: seq<string>, run: string): Option<nat> {
    if queue == [] then None
    else if queue[0] == run then Some(0)
    else
      var rest := IndexIn(queue[1..], run);
      if rest.Some? then Some(rest.value + 1) else None
  }

  /** How many steps of the publish loop until a publish of this run starts. */
  function Distance(s: Fanout, run: string): Option<nat> {
    if s.publisher == Publishing(run) then Some(1)
    else if s.publisher == Took(run) then Some(2)
    else
      var i := IndexIn(s.queue, run);
      if i.None? then None
      else Some(3 * i.value + 3 + (match s.publisher case Idle => 0 case Took(_) => 2 case Publishing(_) => 1))
  }

  lemma {:induction false} IndexFacts(queue: seq<string>, run: string, tail: seq<string>)
    ensures IndexIn(queue, run).Some? <==> run in queue
    ensures IndexIn(queue, run).Some? ==> IndexIn(queue + tail, run) == IndexIn(queue, run)
  {
    if queue != [] {
      IndexFacts(queue[1..], run, tail);
      assert (queue + tail)[1..] == queue[1..] + tail;
    }
  }

  predicate OfPublisher(m: Move) {
    m.Take? || m.Unpend? || m.Publish?
  }

  /** While a publish of the run is on its way, the publish loop can move and each of its
      moves brings it nearer, until the run is served; nobody else sets it back. */
  lemma PublishApproaches(s: Fanout, m: Move, run: string)
    requires Inv(s) && Enabled(s, m) && Distance(s, run).Some?
    ensures var s', d := Next(s, m), Distance(s, run).value;
            && (OfPublisher(m) && d == 1 ==> run !in s'.owed)
            && (OfPublisher(m) && d > 1 ==> Distance(s', run) == Some(d - 1))
            && (!OfPublisher(m) ==> Distance(s', run) == Some(d))
  {
    IndexFacts(s.queue, run, []);
    if m.Send? {
      IndexFacts(s.queue, run, [s.calls[m.id].run]);
    }
  }

  lemma PublisherIsNeverStuck(s: Fanout, run: string)
    requires Distance(s, run).Some?
    ensures exists m :: OfPublisher(m) && Enabled(s, m)
  {
    if s.publisher.Idle? {
      assert Enabled(s, Take);
    } else if s.publisher.Took? {
      assert Enabled(s, Unpend);
    } else {
      assert Enabled(s, Publish(true));
    }
  }

  /** Every Notify, whether it marked its run or found the mark already set, is followed
      by the start of a publish or by a recovery trigger: until then a publish is on its
      way, or a call is about to hand the run over or to trigger recovery. */
  lemma NoWakeupIsLost(states: seq<Fanout>, moves: seq<Move>, i: nat, run: string)
    requires IsRun(states, moves) && i < |states| && run in states[i].owed
    ensures Distance(states[i], run).Some? || TriggerIsNear(states[i]) || exists id :: HeldBy(states[i], id, run)
    ensures forall id :: HeldBy(states[i], id, run) ==> Enabled(states[i], Send(id)) || Enabled(states[i], Drop(id))
  {
    RunInv(states, moves, i);
    var s := states[i];
    IndexFacts(s.queue, run, []);
    if run in s.pending && !Distance(s, run).Some? {
      assert Carried(s, run);
    }
  }

  /** What a call that has the run in hand does next: queue it, or give up and trigger. */
  lemma CallHandsOver(s: Fanout, id: nat, run: string)
    requires Inv(s) && HeldBy(s, id, run)
    ensures s.calls[id].stage.Sending? && |s.queue| < s.capacity ==> Distance(Next(s, Send(id)), run).Some?
    ensures s.calls[id].stage.Sending? && |s.queue| >= s.capacity ==> Enabled(Next(s, Send(id)), Drop(id))
    ensures s.calls[id].stage.Dropping? ==> Enabled(Next(s, Drop(id)), Trigger(id)) && Next(Next(s, Drop(id)), Trigger(id)).triggered
  {
    IndexFacts(s.queue + [run], run, []);
  }

  /** Coalescing: at any time each run is queued at most once. */
  lemma QueuedOnce(states: seq<Fanout>, moves: seq<Move>, i: nat)
    requires IsRun(states, moves) && i < |states|
    ensures |states[i].queue| <= states[0].capacity
    ensures forall j, k :: 0 <= j < k < |states[i].queue| ==> states[i].queue[j] != states[i].queue[k]
  {
    RunInv(states, moves, i);
  }

  // ---------- round-robin recovery ----------

  /** One subscription: its run and its id. A wakeup slot holds at most one wakeup. */
  datatype Ref = Ref(run: string, id: nat)

  function Min(a: int, b: int): int {
    if a < b then a else b
  }

  /** The subscribers one batch signals, from the cursor on, wrapping around. */
  function Signalled(refs: seq<Ref>, start: nat, count: nat): seq<Ref>
    requires refs != []
  {
    seq(count, j requires 0 <= j < count => refs[(start + j) % |refs|])
  }

  lemma SignalledOneMore(refs: seq<Ref>, start: nat, count: nat)
    requires refs != []
    ensures Signalled(refs, start, count + 1) == Signalled(refs, start, count) + [refs[(start + count) % |refs|]]
  {
  }

  /** How many subscribers a batch reaches. */
  function Attempts(refs: seq<Ref>, limit: int): nat {
    if limit <= 0 || refs == [] then 0 else Min(limit, |refs|)
  }

  /** recoverBatch's remaining count; without a ready subscriber a sweep starts over. */
  function BatchStart(refs: seq<Ref>, remaining: int, ready: bool): int {
    if remaining > 0 then remaining else if ready || refs == [] then 0 else |refs|
  }

  function AfterBatch(refs: seq<Ref>, remaining: int, ready: bool, batch: int): int {
    var r := BatchStart(refs, remaining, ready);
    if r <= 0 then remaining
    else
      var attempted := Attempts(refs, Min(batch, r));
      if attempted == 0 then 0 else r - attempted
  }

  /** The recovery loop's own state, and what it has signalled so far. */
  datatype Recovery = Recovery(cursor: nat, remaining: int, sent: seq<Ref>)

  /** What wakes the recovery loop: a trigger or the safety ticker, or the recovery ticker. */
  datatype Turn = Begin | Tick(ready: bool)

  function Turned(refs: seq<Ref>, batch: int, s: Recovery, t: Turn): Recovery {
    match t
    case Begin => s.(remaining := if |refs| > s.remaining then |refs| else s.remaining)
    case Tick(ready) =>
      var r := BatchStart(refs, s.remaining, ready);
      var attempted := if r <= 0 then 0 else Attempts(refs, Min(batch, r));
      if attempted == 0 then s.(remaining := AfterBatch(refs, s.remaining, ready, batch))
      else Recovery((s.cursor % |refs| + attempted) % |refs|, AfterBatch(refs, s.remaining, ready, batch),
                    s.sent + Signalled(refs, s.cursor % |refs|, attempted))
  }

  function TurnedAll(refs: seq<Ref>, batch: int, s: Recovery, turns: seq<Turn>): Recovery {
    if turns == [] then s else Turned(refs, batch, TurnedAll(refs, batch, s, turns[..|turns| - 1]), turns[|turns| - 1])
  }

  class RecoveringNotifier {
    var refs: seq<Ref>        // the subscribers in the order a batch sorts them
    var full: set<Ref>        // those whose slot holds a wakeup
    var cursor: nat
    var remaining: int

    constructor (subscribers: seq<Ref>)
      ensures refs == subscribers && full == {} && cursor == 0 && remaining == 0
    {
      refs, full, cursor, remaining := subscribers, {}, 0, 0;
    }

    method NotifyRecoveryBatch(limit: int) returns (attempts: nat)
      modifies this`full, this`cursor
      ensures attempts == Attempts(refs, limit)
      ensures attempts == 0 ==> full == old(full) && cursor == old(cursor)
      ensures attempts > 0 ==>
                && full == old(full) + (set r | r in Signalled(refs, old(cursor) % |refs|, attempts))
                && cursor == (old(cursor) % |refs| + attempts) % |refs|
    {
      if limit <= 0 || |refs| == 0 {
        return 0;
      }
      attempts := Min(limit, |refs|);
      var start := cursor % |refs|;
      ghost var sent: seq<Ref> := [];
      for offset := 0 to attempts
        invariant cursor == old(cursor)
        invariant sent == Signalled(refs, start, offset) && full == old(full) + (set r | r in sent)
      {
        var ref := refs[(start + offset) % |refs|];
        SignalledOneMore(refs, start, offset);
        full := full + {ref};
        sent := sent + [ref];
      }
      cursor := (start + attempts) % |refs|;
    }

    /** The sweep covers at least everyone subscribed when it begins. */
    method BeginRecovery()
      modifies this`remaining
      ensures remaining == Turned(refs, 1, Recovery(cursor, old(remaining), []), Begin).remaining
    {
      if |refs| > remaining {
        remaining := |refs|;
      }
    }

    method RecoverBatch(ready: bool, batch: int)
      modifies this`full, this`cursor, this`remaining
      ensures var s := Turned(refs, batch, Recovery(old(cursor), old(remaining), []), Tick(ready));
              cursor == s.cursor && remaining == s.remaining && full == old(full) + (set r | r in s.sent)
    {
      var total := |refs|;
      if remaining <= 0 {
        if ready || total == 0 {
          return;
        }
        remaining := total;
      }
      var limit := Min(batch, remaining);
      var attempted := NotifyRecoveryBatch(limit);
      remaining := remaining - attempted;
      if attempted == 0 {
        remaining := 0;
      }
    }
  }

  /** Everything a sweep signals until its remaining count is used up, batch by batch. */
  function Sweep(refs: seq<Ref>, cursor: nat, remaining: int, batch: int): seq<Ref>
    requires refs != [] && batch >= 1
    decreases remaining
  {
    if remaining <= 0 then []
    else
      var attempted := Attempts(refs, Min(batch, remaining));
      Signalled(refs, cursor % |refs|, attempted)
      + Sweep(refs, (cursor % |refs| + attempted) % |refs|, AfterBatch(refs, remaining, true, batch), batch)
  }

  lemma MulBound(n: nat, d: int)
    requires n > 0
    ensures d >= 1 ==> n * d >= n
    ensures d <= -1 ==> n * d + n <= 0
  {
  }

  lemma Remainder(x: nat, q: int, r: nat, n: nat)
    requires 0 <= r < n && x == n * q + r
    ensures x % n == r
  {
    var d := q - x / n;
    assert n * d == n * q - n * (x / n);
    MulBound(n, d);
  }

  lemma ModShift(a: nat, b: nat, n: nat)
    requires n > 0
    ensures (a % n + b) % n == (a + b) % n
  {
    var x := a % n + b;
    var q := a / n + x / n;
    assert n * q == n * (a / n) + n * (x / n);
    Remainder(a + b, q, x % n, n);
  }

  /** Whatever the batch size, a sweep of `remaining` goes round the subscribers one by
      one from the cursor on. */
  lemma {:induction false} SweepGoesRound(refs: seq<Ref>, cursor: nat, remaining: nat, batch: int)
    requires refs != [] && batch >= 1
    ensures Sweep(refs, cursor, remaining, batch) == Signalled(refs, cursor, remaining)
    decreases remaining
  {
    var n := |refs|;
    if remaining > 0 {
      var attempted := Attempts(refs, Min(batch, remaining));
      var next := (cursor % n + attempted) % n;
      SweepGoesRound(refs, next, remaining - attempted, batch);
      var sweep := Sweep(refs, cursor, remaining, batch);
      assert sweep == Signalled(refs, cursor % n, attempted) + Signalled(refs, next, remaining - attempted);
      forall j | 0 <= j < remaining
        ensures sweep[j] == refs[(cursor + j) % n]
      {
        if j < attempted {
          ModShift(cursor, j, n);
        } else {
          ModShift(cursor % n + attempted, j - attempted, n);
          ModShift(cursor, j, n);
        }
      }
    }
  }

  /** So a sweep begun over a fixed set of subscribers signals every one of them ... */
  lemma SweepReachesEveryone(refs: seq<Ref>, cursor: nat, remaining: nat, batch: int, k: nat)
    requires refs != [] && batch >= 1 && remaining >= |refs| && k < |refs|
    ensures refs[k] in Sweep(refs, cursor, remaining, batch)
  {
    SweepGoesRound(refs, cursor, remaining, batch);
    RoundReaches(refs, cursor, remaining, k);
  }

  /** ... and, if it is exactly as long as there are subscribers, none of them twice. */
  lemma SweepSignalsOnce(refs: seq<Ref>, cursor: nat, batch: int, i: nat, j: nat)
    requires refs != [] && batch >= 1 && i < j < |refs|
    requires forall k, l :: 0 <= k < l < |refs| ==> refs[k] != refs[l]
    ensures var sweep := Sweep(refs, cursor, |refs|, batch); |sweep| == |refs| && sweep[i] != sweep[j]
  {
    var n := |refs|;
    SweepGoesRound(refs, cursor, n, batch);
    ModShift(cursor, i, n);
    ModShift(cursor, j, n);
    DistinctOffsets(cursor % n, i, j, n);
  }

  /** One tick of a sweep under way is its next batch. */
  lemma SweepIsBatches(refs: seq<Ref>, s: Recovery, batch: int, ready: bool)
    requires refs != [] && batch >= 1 && s.remaining > 0 && s.sent == []
    ensures var s' := Turned(refs, batch, s, Tick(ready));
            && Sweep(refs, s.cursor, s.remaining, batch) == s'.sent + Sweep(refs, s'.cursor, s'.remaining, batch)
            && s'.remaining < s.remaining && s'.sent != []
  {
  }

  /** In any order of triggers and ticks, the loop goes round the subscribers one by
      one, and what it still owes falls only by what it signals. */
  lemma {:induction false} TurnsGoRound(refs: seq<Ref>, batch: int, s: Recovery, turns: seq<Turn>)
    requires refs != [] && batch >= 1 && s.sent == [] && s.remaining >= 0
    ensures var t := TurnedAll(refs, batch, s, turns);
            && t.remaining >= 0 && s.remaining <= t.remaining + |t.sent|
            && t.sent == Signalled(refs, s.cursor, |t.sent|) && t.cursor % |refs| == (s.cursor + |t.sent|) % |refs|
  {
    if turns != [] {
      var before, turn := TurnedAll(refs, batch, s, turns[..|turns| - 1]), turns[|turns| - 1];
      TurnsGoRound(refs, batch, s, turns[..|turns| - 1]);
      if turn.Tick? && BatchStart(refs, before.remaining, turn.ready) > 0 {
        var attempted := Attempts(refs, Min(batch, BatchStart(refs, before.remaining, turn.ready)));
        SignalledJoin(refs, s.cursor, |before.sent|, before.cursor, attempted);
        ModShift(before.cursor, attempted, |refs|);
        ModShift(s.cursor + |before.sent|, attempted, |refs|);
        ModShift(before.cursor % |refs| + attempted, 0, |refs|);
      }
    }
  }

  lemma SignalledJoin(refs: seq<Ref>, start: nat, count: nat, cursor: nat, more: nat)
    requires refs != [] && cursor % |refs| == (start + count) % |refs|
    ensures Signalled(refs, start, count) + Signalled(refs, cursor % |refs|, more) == Signalled(refs, start, count + more)
  {
    var n := |refs|;
    var both, whole := Signalled(refs, start, count) + Signalled(refs, cursor % n, more), Signalled(refs, start, count + more);
    forall j | 0 <= j < count + more
      ensures both[j] == whole[j]
    {
      if j >= count {
        SamePlace(cursor, start + count, j - count, n);
      }
    }
  }

  lemma SamePlace(a: nat, b: nat, j: nat, n: nat)
    requires n > 0 && a % n == b % n
    ensures (a % n + j) % n == (b + j) % n
  {
    ModShift(b, j, n);
  }

  /** Once recovery has begun over a fixed set of subscribers, whatever triggers and
      ticks follow: when nothing is owed any more, every subscriber has been signalled. */
  lemma RecoveryReachesEveryone(refs: seq<Ref>, batch: int, s: Recovery, turns: seq<Turn>, k: nat)
    requires refs != [] && batch >= 1 && s.sent == [] && k < |refs| && s.remaining >= 0
    requires var begun := Turned(refs, batch, s, Begin); TurnedAll(refs, batch, begun, turns).remaining == 0
    ensures refs[k] in TurnedAll(refs, batch, Turned(refs, batch, s, Begin), turns).sent
  {
    var begun := Turned(refs, batch, s, Begin);
    var t := TurnedAll(refs, batch, begun, turns);
    TurnsGoRound(refs, batch, begun, turns);
    RoundReaches(refs, begun.cursor, |t.sent|, k);
  }

  lemma RoundReaches(refs: seq<Ref>, cursor: nat, count: nat, k: nat)
    requires refs != [] && count >= |refs| && k < |refs|
    ensures refs[k] in Signalled(refs, cursor, count)
  {
    var n := |refs|;
    Wrap(k + (n - cursor % n), n);
    var j := (k + (n - cursor % n)) % n;
    ModShift(cursor, j, n);
    OffsetReaches(cursor % n, k, n);
    assert Signalled(refs, cursor, count)[j] == refs[k];
  }

  lemma Wrap(x: nat, n: nat)
    requires n > 0 && x < 2 * n
    ensures x % n == if x < n then x else x - n
  {
    Remainder(x, if x < n then 0 else 1, if x < n then x else x - n, n);
  }

  lemma OffsetReaches(c: nat, k: nat, n: nat)
    requires c < n && k < n
    ensures (c + (k + (n - c)) % n) % n == k
  {
    Wrap(k + (n - c), n);
    Wrap(c + (k + (n - c)) % n, n);
  }

  lemma DistinctOffsets(c: nat, i: nat, j: nat, n: nat)
    requires c < n && i < j < n
    ensures (c + i) % n != (c + j) % n
  {
    Wrap(c + i, n);
    Wrap(c + j, n);
  }
}
