/** The goroutine that keeps a worker's queue lease alive (queue_heartbeat.go), and
    what the proof it hands back on Stop or Freeze is worth. */
module QueueHolder {
  import opened Wrappers
  import opened Queue
  import opened QueueProtocol

  /** Where a refresh stands. A reply can be lost after the queue has committed, as when
      Stop cancels the context of a refresh on its way back. */
  datatype Flight = Idle | Asked | Renewed(proof: Proof) | Refused | Lost

  /** `proof` and `failed` are the fields behind the lock; `done` closes the channel. */
  datatype Holder = Holder(proof: Proof, failed: bool, flight: Flight, stopping: bool, done: bool)

  datatype World = World(queue: State, holder: Holder)

  datatype Move =
    | Tick                                         // the ticker, or the first refresh
    | AskQueue(ttl: int, arrives: bool, lost: bool)
    | StoreAnswer
    | StopOrFreeze                                 // closes `stop`; Stop also cancels the context
    | Exit
    | Others(step: Step)                           // anyone who does not hold this lease

  predicate UsesProof(step: Step) {
    step.Heartbeat? || step.Update? || step.Annotate?
  }

  /** The lease's token is in this holder's hands alone. */
  predicate NotOurs(step: Step, p: Proof) {
    UsesProof(step) ==> step.proof.queueId != p.queueId || step.proof.token != p.token
  }

  ghost predicate CanMove(w: World, m: Move, now: int) {
    && w.queue.clock <= now && 0 < now
    && match m
       case Tick => !w.holder.done && w.holder.flight.Idle?
       case AskQueue(_, _, _) => w.holder.flight.Asked?
       case StoreAnswer => w.holder.flight.Renewed? || w.holder.flight.Refused? || w.holder.flight.Lost?
       case StopOrFreeze => true
       case Exit => !w.holder.done && w.holder.flight.Idle? && w.holder.stopping
       case Others(step) => Enabled(w.queue, step, now) && NotOurs(step, w.holder.proof)
  }

  /** The queue's answer to a refresh. */
  function Answer(w: World, ttl: int, arrives: bool, lost: bool, now: int): Flight {
    if !arrives || !Accepts(w.queue.records, w.holder.proof, now, ACTIVE) then Refused
    else if lost then Lost
    else Renewed(w.holder.proof.(expires := now + TtlOr(ttl)))
  }

  ghost function Next(w: World, m: Move, now: int): World
    requires CanMove(w, m, now)
  {
    var h := w.holder;
    match m
    case Tick => World(w.queue, h.(flight := Asked))
    case AskQueue(ttl, arrives, lost) =>
      World(if arrives then Do(w.queue, Heartbeat(h.proof, ttl), now) else w.queue, h.(flight := Answer(w, ttl, arrives, lost, now)))
    case StoreAnswer =>
      World(w.queue, if h.flight.Renewed? then h.(proof := h.flight.proof, flight := Idle) else h.(failed := true, flight := Idle, done := true))
    case StopOrFreeze => World(w.queue, h.(stopping := true))
    case Exit => World(w.queue, h.(done := true))
    case Others(step) => World(Do(w.queue, step, now), h)
  }

  /** The proof a holder whose lease is still its own would have to show now. */
  function Newest(h: Holder): Proof {
    if h.flight.Renewed? then h.flight.proof else h.proof
  }

  /** Either the lease has passed on for good, or the record is leased under exactly the
      newest proof, unless a reply was lost. */
  ghost predicate Inv(w: World) {
    var h, s := w.holder, w.queue.records;
    && QueueProtocol.Inv(w.queue) && WellFormed(h.proof)
    && (h.flight.Renewed? ==> h.flight.proof == h.proof.(expires := h.flight.proof.expires) && h.flight.proof.expires != 0)
    && (h.failed ==> h.done) && (h.done ==> h.flight.Idle?)
    && (Superseded(s, h.proof)
        || (h.proof.queueId in s && Current(s[h.proof.queueId], h.proof)
            && (!h.failed && !h.flight.Lost? ==> ProofOf(h.proof.queueId, s[h.proof.queueId]) == Newest(h))))
  }

  /** Nobody else moves the expiry of a lease. */
  lemma OthersKeepTheExpiry(s: State, step: Step, now: int, p: Proof)
    requires QueueProtocol.Inv(s) && Enabled(s, step, now) && NotOurs(step, p)
    requires p.queueId in s.records && Current(s.records[p.queueId], p)
    ensures p.queueId in Do(s, step, now).records
    ensures var r, r' := s.records[p.queueId], Do(s, step, now).records[p.queueId];
            Superseded(Do(s, step, now).records, p) || (Current(r', p) && r'.lease.value.expires == r.lease.value.expires)
  {
    CurrentStep(s, step, now, p);
    if Leases(s, step, now) == Some(p.queueId) {
      LeasedWasFree(s, step, now);
    }
  }

  /** A refresh that reaches the queue moves the expiry of a lease that is still held, and
      does nothing else to it. */
  lemma RefreshMovesTheExpiry(s: State, p: Proof, ttl: int, now: int)
    requires QueueProtocol.Inv(s) && s.clock <= now && 0 < now
    requires p.queueId in s.records && Current(s.records[p.queueId], p)
    ensures var r, s' := s.records[p.queueId], Do(s, Heartbeat(p, ttl), now).records;
            && p.queueId in s' && Current(s'[p.queueId], p)
            && s'[p.queueId].lease.value.expires == if Accepts(s.records, p, now, ACTIVE) then now + TtlOr(ttl) else r.lease.value.expires
  {
  }

  lemma RefreshKeepsInv(w: World, ttl: int, arrives: bool, lost: bool, now: int)
    requires Inv(w) && CanMove(w, AskQueue(ttl, arrives, lost), now)
    ensures Inv(Next(w, AskQueue(ttl, arrives, lost), now))
  {
    var p := w.holder.proof;
    if arrives {
      StepInv(w.queue, Heartbeat(p, ttl), now);
      if Superseded(w.queue.records, p) {
        SupersededStep(w.queue, Heartbeat(p, ttl), now, p);
      } else {
        RefreshMovesTheExpiry(w.queue, p, ttl, now);
        AfterRefresh(w, ttl, lost, now);
      }
    }
  }

  lemma AfterRefresh(w: World, ttl: int, lost: bool, now: int)
    requires CanMove(w, AskQueue(ttl, true, lost), now) && !Superseded(w.queue.records, w.holder.proof)
    requires WellFormed(w.holder.proof) && !w.holder.failed && !w.holder.done
    requires var p, s, s' := w.holder.proof, w.queue.records, Do(w.queue, Heartbeat(w.holder.proof, ttl), now).records;
             && p.queueId in s && Current(s[p.queueId], p) && ProofOf(p.queueId, s[p.queueId]) == p
             && p.queueId in s' && Current(s'[p.queueId], p)
             && s'[p.queueId].lease.value.expires == if Accepts(s, p, now, ACTIVE) then now + TtlOr(ttl) else s[p.queueId].lease.value.expires
    requires QueueProtocol.Inv(Do(w.queue, Heartbeat(w.holder.proof, ttl), now))
    ensures Inv(Next(w, AskQueue(ttl, true, lost), now))
  {
  }

  lemma MoveKeepsInv(w: World, m: Move, now: int)
    requires Inv(w) && CanMove(w, m, now)
    ensures Inv(Next(w, m, now))
  {
    var p := w.holder.proof;
    match m
    case AskQueue(ttl, arrives, lost) => RefreshKeepsInv(w, ttl, arrives, lost, now);
    case Others(step) =>
      StepInv(w.queue, step, now);
      if Superseded(w.queue.records, p) {
        SupersededStep(w.queue, step, now, p);
      } else {
        OthersKeepTheExpiry(w.queue, step, now, p);
      }
    case _ =>
  }

  ghost predicate IsHolderRun(worlds: seq<World>, moves: seq<Move>, times: seq<int>) {
    && |worlds| == |moves| + 1 && |times| == |moves|
    && Inv(worlds[0]) && worlds[0].holder == Holder(worlds[0].holder.proof, false, Idle, false, false)
    && forall i :: 0 <= i < |moves| ==> CanMove(worlds[i], moves[i], times[i]) && worlds[i + 1] == Next(worlds[i], moves[i], times[i])
  }

  lemma {:induction false} HolderRunInv(worlds: seq<World>, moves: seq<Move>, times: seq<int>, i: nat)
    requires IsHolderRun(worlds, moves, times) && i < |worlds|
    ensures Inv(worlds[i])
  {
    if i > 0 {
      HolderRunInv(worlds, moves, times, i - 1);
      MoveKeepsInv(worlds[i - 1], moves[i - 1], times[i - 1]);
    }
  }

  /** Once the goroutine has ended, nothing changes the holder any more. */
  lemma {:induction false} DoneStaysPut(worlds: seq<World>, moves: seq<Move>, times: seq<int>, i: nat, j: nat)
    requires IsHolderRun(worlds, moves, times) && i <= j < |worlds|
    requires worlds[i].holder.done
    ensures worlds[j].holder == worlds[i].holder.(stopping := worlds[j].holder.stopping)
  {
    if i < j {
      DoneStaysPut(worlds, moves, times, i, j - 1);
      HolderRunInv(worlds, moves, times, j - 1);
    }
  }

  /** What Stop and Freeze hand back without an error is the live proof: at any later time
      before its expiry the queue accepts it, unless the lease has meanwhile been closed or
      overtaken, and then nothing ever accepts it again. */
  lemma StoppedProofIsLive(worlds: seq<World>, moves: seq<Move>, times: seq<int>, i: nat, j: nat, now: int)
    requires IsHolderRun(worlds, moves, times) && i <= j < |worlds|
    requires worlds[i].holder.done && !worlds[i].holder.failed
    requires worlds[j].queue.clock <= now < worlds[i].holder.proof.expires
    ensures var s, p := worlds[j].queue.records, worlds[i].holder.proof;
            p.queueId in s && (Superseded(s, p) || Material(s[p.queueId]) <==> !Accepts(s, p, now, ACTIVE))
  {
    HolderRunInv(worlds, moves, times, j);
    DoneStaysPut(worlds, moves, times, i, j);
    assert RecordOk(worlds[j].queue.records[worlds[i].holder.proof.queueId], worlds[j].queue.clock);
  }

  /** What a proof read at any moment is worth, as long as the lease is still this
      holder's and the proof has not run out: the queue accepts it exactly if the
      expiry on record is the one it names. Unless a reply was lost, that is exactly
      if no refresh with a new expiry is on its way back. */
  lemma ProofReadIff(worlds: seq<World>, moves: seq<Move>, times: seq<int>, i: nat, now: int)
    requires IsHolderRun(worlds, moves, times) && i < |worlds|
    requires !Superseded(worlds[i].queue.records, worlds[i].holder.proof)
    requires worlds[i].queue.clock <= now < worlds[i].holder.proof.expires
    ensures var s, h := worlds[i].queue.records, worlds[i].holder;
            && h.proof.queueId in s && s[h.proof.queueId].lease.Some?
            && (Accepts(s, h.proof, now, ACTIVE) <==>
                  !Material(s[h.proof.queueId]) && s[h.proof.queueId].lease.value.expires == h.proof.expires)
            && (!h.failed && !h.flight.Lost? && !Material(s[h.proof.queueId]) ==>
                  (Accepts(s, h.proof, now, ACTIVE) <==> Newest(h) == h.proof))
  {
    HolderRunInv(worlds, moves, times, i);
    assert RecordOk(worlds[i].queue.records[worlds[i].holder.proof.queueId], worlds[i].queue.clock);
  }

  /** After a refresh whose reply is lost, the proof in hand is accepted exactly if
      the refresh did not move the expiry. */
  lemma LostReplyIff(worlds: seq<World>, moves: seq<Move>, times: seq<int>, i: nat, now: int)
    requires IsHolderRun(worlds, moves, times) && i < |moves|
    requires moves[i].AskQueue? && worlds[i + 1].holder.flight.Lost?
    requires times[i] <= now < worlds[i].holder.proof.expires
    ensures Accepts(worlds[i + 1].queue.records, worlds[i].holder.proof, now, ACTIVE)
            <==> times[i] + TtlOr(moves[i].ttl) == worlds[i].holder.proof.expires
  {
    HolderRunInv(worlds, moves, times, i);
  }

  /** The proof read while a refresh is on its way back, refused in every status. */
  lemma ProofInFlightIsRefused(worlds: seq<World>, moves: seq<Move>, times: seq<int>, i: nat, now: int, allowed: set<Status>)
    requires IsHolderRun(worlds, moves, times) && i < |worlds|
    requires worlds[i].holder.flight.Renewed? && worlds[i].holder.flight.proof != worlds[i].holder.proof
    requires !Superseded(worlds[i].queue.records, worlds[i].holder.proof)
    ensures var s, p := worlds[i].queue.records, worlds[i].holder.proof;
            && !Accepts(s, p, now, allowed)
            && p.queueId in s && s[p.queueId].lease.Some? && ProofOf(p.queueId, s[p.queueId]) == worlds[i].holder.flight.proof
  {
    HolderRunInv(worlds, moves, times, i);
  }

  // ---------- such a refusal, concretely ----------

  /** One record, enqueued and leased at time 1 for a minute. */
  lemma LeasedOnce(id: QueueId, c: EnqueueCommand, worker: string, token: string) returns (s: State, p: Proof)
    requires id != "" && worker != "" && token != "" && c.queueName.WorkQueue? && c.maxAttempts >= 0 && c.availableAt == 0
    ensures QueueProtocol.Inv(s) && s.clock == 1
    ensures p == Proof(id, worker, 1, token, 1, 61) && WellFormed(p)
    ensures id in s.records && s.records[id].lease.Some? && ProofOf(id, s.records[id]) == p
    ensures s.records[id].status.Leased? && !Material(s.records[id])
  {
    var empty := State(map[], 1, {}, map[]);
    var enqueue, lease := Step.Enqueue(id, c), Step.LeaseById(id, worker, token, 60);
    var one := Do(empty, enqueue, 1);
    StepInv(empty, enqueue, 1);
    assert one.records == map[id := NewRecord(c, 1)] && one.issued == {};
    StepInv(one, lease, 1);
    s, p := Do(one, lease, 1), Proof(id, worker, 1, token, 1, 61);
  }

  /** The ticker fires at time 2 and the queue renews the lease: until the reply is
      stored, the proof the holder shows is refused, with a minute to go. */
  lemma RefusedWhileRenewed()
    ensures exists worlds: seq<World>, moves: seq<Move>, times: seq<int> ::
              && IsHolderRun(worlds, moves, times) && moves == [Tick, AskQueue(60, true, false)] && times == [2, 2]
              && !Superseded(worlds[2].queue.records, worlds[2].holder.proof)
              && worlds[2].holder.proof.expires == 61
              && !Accepts(worlds[2].queue.records, worlds[2].holder.proof, 2, ACTIVE)
  {
    var s, p := LeasedOnce("q", EnqueueCommand(WorkQueue("work"), "task", 100, 3, 0), "worker", "token");
    var w0 := World(s, Holder(p, false, Idle, false, false));
    var w1 := Next(w0, Tick, 2);
    var ask := AskQueue(60, true, false);
    var w2 := Next(w1, ask, 2);
    assert Accepts(s.records, p, 2, ACTIVE);
    assert w2.holder.flight == Renewed(p.(expires := 62));
    var worlds, moves, times := [w0, w1, w2], [Tick, ask], [2, 2];
    assert Inv(w0);
    assert IsHolderRun(worlds, moves, times);
    ProofInFlightIsRefused(worlds, moves, times, 2, 2, ACTIVE);
  }
}
