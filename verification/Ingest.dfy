/** Copying a Runtime's events into the store (runtime_event_worker.go), whatever
    pages the Runtime returns and whichever append the store refuses. */
module Ingest {
  import opened Wrappers

  /** One event as the Runtime sends it; `usable` is false where its payload is refused. */
  datatype Source = Source(sequence: int, eventType: string, payload: string, usable: bool)

  datatype Stored = Stored(sequence: int, eventType: string, public: bool, payload: string)

  datatype Page = Page(items: seq<Source>, next: int, oldest: int, latest: int, terminal: int, hasMore: bool, gap: bool)

  datatype IngestError = EventGap | PageLimit | Payload | Unreachable | StoreFailed

  /** The durable part of one dispatch: its cursor and its events, oldest first. */
  datatype Store = Store(cursor: int, events: seq<Stored>)

  /** runtimeEventStorageRoute */
  function Routed(s: Source): Stored {
    if s.eventType == "assistant.delta" then Stored(s.sequence, "draft_delta", true, s.payload)
    else Stored(s.sequence, s.eventType, false, s.payload)
  }

  function FindEvent(events: seq<Stored>, sequence: int): Option<nat> {
    if events == [] then None
    else if events[|events| - 1].sequence == sequence then Some(|events| - 1)
    else FindEvent(events[..|events| - 1], sequence)
  }

  /** AppendRunEventAndAdvanceCursor: a known event again is fine, if it is the same. */
  function AppendEvent(s: Store, e: Stored, expectedPrevious: int): (Store, Option<IngestError>) {
    if e.sequence < 1 || expectedPrevious < 0 || e.sequence != expectedPrevious + 1 then (s, Some(EventGap))
    else
      var found := FindEvent(s.events, e.sequence);
      if found.Some? && found.value < |s.events| then (s, if s.events[found.value] == e then None else Some(EventGap))
      else if s.cursor != expectedPrevious then (s, Some(EventGap))
      else (Store(e.sequence, s.events + [e]), None)
  }

  datatype Outcome = Outcome(store: Store, after: int, error: Option<IngestError>)

  predicate PageRefused(page: Page, after: int) {
    || page.gap || (page.oldest > 0 && after + 1 < page.oldest)
    || (page.latest > 0 && page.latest < after)
    || (page.terminal > 0 && page.latest > 0 && page.terminal > page.latest)
  }

  /** One item of a page. `outage` tells which appends fail outright. */
  function IngestItem(s: Store, item: Source, after: int, outage: int -> bool): Outcome {
    if item.sequence != after + 1 then Outcome(s, after, Some(EventGap))
    else if !item.usable then Outcome(s, after, Some(Payload))
    else if outage(item.sequence) then Outcome(s, after, Some(StoreFailed))
    else
      var (s', error) := AppendEvent(s, Routed(item), after);
      if error.Some? then Outcome(s', after, error) else Outcome(s', item.sequence, None)
  }

  function IngestItems(s: Store, items: seq<Source>, after: int, outage: int -> bool): Outcome
    decreases |items|
  {
    if items == [] then Outcome(s, after, None)
    else
      var first := IngestItem(s, items[0], after, outage);
      if first.error.Some? then first else IngestItems(first.store, items[1..], first.after, outage)
  }

  /** What a page leaves to do once its items are stored: stop with a verdict or go on. */
  function Verdict(page: Page, before: int, after: int): Option<Option<IngestError>> {
    if page.next != 0 && page.next != after then Some(Some(EventGap))
    else if !page.hasMore then Some(if page.latest > after then Some(EventGap) else None)
    else if after == before then Some(Some(EventGap))
    else None
  }

  /** The Runtime: what the n-th request, for events after `after`, brings. */
  type Runtime = (nat, int) -> Option<Page>

  const PAGES := 100

  /** ingestEventPages, from its n-th page on. */
  function IngestFrom(s: Store, after: int, n: nat, runtime: Runtime, outage: int -> bool): Outcome
    requires n <= PAGES
    decreases PAGES - n
  {
    if n == PAGES then Outcome(s, after, Some(PageLimit))
    else
      var page := runtime(n, after);
      if page.None? then Outcome(s, after, Some(Unreachable))
      else if PageRefused(page.value, after) then Outcome(s, after, Some(EventGap))
      else
        var o := IngestItems(s, page.value.items, after, outage);
        if o.error.Some? then o
        else
          var v := Verdict(page.value, after, o.after);
          if v.Some? then Outcome(o.store, o.after, v.value)
          else IngestFrom(o.store, o.after, n + 1, runtime, outage)
  }

  class RuntimeEvents {
    var store: Store

    constructor ()
      ensures store == Store(0, [])
    {
      store := Store(0, []);
    }

    method AppendRunEventAndAdvanceCursor(e: Stored, expectedPrevious: int) returns (error: Option<IngestError>)
      modifies this
      ensures (store, error) == AppendEvent(old(store), e, expectedPrevious)
    {
      if e.sequence < 1 || expectedPrevious < 0 || e.sequence != expectedPrevious + 1 {
        return Some(EventGap);
      }
      var known := FindEvent(store.events, e.sequence);
      if known.Some? && known.value < |store.events| {
        return if store.events[known.value] == e then None else Some(EventGap);
      }
      if store.cursor != expectedPrevious {
        return Some(EventGap);
      }
      store := Store(e.sequence, store.events + [e]);
      error := None;
    }

    method IngestPage(items: seq<Source>, start: int, outage: int -> bool) returns (after: int, error: Option<IngestError>)
      modifies this
      ensures Outcome(store, after, error) == IngestItems(old(store), items, start, outage)
    {
      after, error := start, None;
      var i := 0;
      while i < |items|
        invariant 0 <= i <= |items|
        invariant IngestItems(old(store), items, start, outage) == IngestItems(store, items[i..], after, outage)
      {
        if items[i].sequence != after + 1 {
          return after, Some(EventGap);
        }
        if !items[i].usable {
          return after, Some(Payload);
        }
        if outage(items[i].sequence) {
          return after, Some(StoreFailed);
        }
        var refused := AppendRunEventAndAdvanceCursor(Routed(items[i]), after);
        if refused.Some? {
          return after, refused;
        }
        after := items[i].sequence;
        assert items[i..][1..] == items[i + 1..];
        i := i + 1;
      }
    }

    method IngestEventPages(start: int, runtime: Runtime, outage: int -> bool) returns (after: int, error: Option<IngestError>)
      modifies this
      ensures Outcome(store, after, error) == IngestFrom(old(store), start, 0, runtime, outage)
    {
      after := start;
      for n := 0 to PAGES
        invariant IngestFrom(old(store), start, 0, runtime, outage) == IngestFrom(store, after, n, runtime, outage)
      {
        var pageStart := after;
        var page := runtime(n, after);
        if page.None? {
          return after, Some(Unreachable);
        }
        if PageRefused(page.value, after) {
          return after, Some(EventGap);
        }
        after, error := IngestPage(page.value.items, after, outage);
        if error.Some? {
          return after, error;
        }
        if page.value.next != 0 && page.value.next != after {
          return after, Some(EventGap);
        }
        if !page.value.hasMore {
          return after, if page.value.latest > after then Some(EventGap) else None;
        }
        if after == pageStart {
          return after, Some(EventGap);
        }
      }
      error := Some(PageLimit);
    }
  }

  // ---------- what the store holds ----------

  /** No hole, no duplicate: the events are 1, 2, 3, ... up to the cursor. */
  ghost predicate Consecutive(s: Store) {
    s.cursor == |s.events| && forall i :: 0 <= i < |s.events| ==> s.events[i].sequence == i + 1
  }

  lemma {:induction false} FindConsecutive(events: seq<Stored>, sequence: int)
    requires forall i :: 0 <= i < |events| ==> events[i].sequence == i + 1
    ensures FindEvent(events, sequence) == if 1 <= sequence <= |events| then Some(sequence - 1) else None
  {
    if events != [] {
      FindConsecutive(events[..|events| - 1], sequence);
    }
  }

  /** Any append, with any expectation, by any worker: the store stays consecutive and
      only grows, by the one event after its cursor or not at all. */
  lemma AppendKeepsConsecutive(s: Store, e: Stored, expectedPrevious: int)
    requires Consecutive(s)
    ensures var (s', error) := AppendEvent(s, e, expectedPrevious);
            && Consecutive(s')
            && (s' == s || (s' == Store(s.cursor + 1, s.events + [e]) && error.None? && expectedPrevious == s.cursor))
            && (error.None? ==> e.sequence == expectedPrevious + 1 <= s'.cursor && e == s'.events[expectedPrevious])
  {
    FindConsecutive(s.events, e.sequence);
  }

  /** A worker whose cursor is out of date writes nothing, and passes only over
      events that are already stored just as it has them. */
  lemma StaleWorkerWritesNothing(s: Store, item: Source, after: int, outage: int -> bool)
    requires Consecutive(s) && after != s.cursor
    ensures var o := IngestItem(s, item, after, outage);
            o.store == s && (o.error.None? ==> 0 <= after < s.cursor && s.events[after] == Routed(item))
  {
    FindConsecutive(s.events, item.sequence);
  }

  /** The items stored are exactly the first ones of the page, each routed. */
  ghost predicate Extends(s: Store, items: seq<Source>, s': Store) {
    && Consecutive(s') && s.events <= s'.events && |s'.events| - |s.events| <= |items|
    && forall i :: |s.events| <= i < |s'.events| ==> s'.events[i] == Routed(items[i - |s.events|])
  }

  lemma {:induction false} PageExtends(s: Store, items: seq<Source>, outage: int -> bool)
    requires Consecutive(s)
    ensures var o := IngestItems(s, items, s.cursor, outage);
            && Extends(s, items, o.store) && o.after == o.store.cursor
            && (o.error.None? ==> |o.store.events| == |s.events| + |items|)
    decreases |items|
  {
    if items != [] {
      AppendKeepsConsecutive(s, Routed(items[0]), s.cursor);
      var first := IngestItem(s, items[0], s.cursor, outage);
      if first.error.None? {
        PageExtends(first.store, items[1..], outage);
        var o := IngestItems(first.store, items[1..], first.after, outage);
        forall i | |s.events| <= i < |o.store.events|
          ensures o.store.events[i] == Routed(items[i - |s.events|])
        {
          assert i > |s.events| ==> items[1..][i - |s.events| - 1] == items[i - |s.events|];
        }
      }
    }
  }

  /** The Runtime answered with a last page that was stored whole, up to `after`, and
      announced nothing newer. */
  ghost predicate SawTheEnd(runtime: Runtime, begin: int, after: int) {
    exists n: nat, start: int ::
      && n < PAGES && begin <= start && runtime(n, start).Some?
      && var page := runtime(n, start).value;
         !PageRefused(page, start) && !page.hasMore && page.latest <= after && start + |page.items| == after
  }

  /** Whatever the Runtime answers and whichever append fails: the store grows by
      consecutive events, the returned cursor is the durable one even on an error, so a
      rerun resumes there, and success means that nothing newer was announced. */
  lemma {:induction false} IngestIsConsecutive(s: Store, n: nat, runtime: Runtime, outage: int -> bool)
    requires Consecutive(s) && n <= PAGES
    ensures var o := IngestFrom(s, s.cursor, n, runtime, outage);
            && Consecutive(o.store) && s.events <= o.store.events && o.after == o.store.cursor
            && (o.error.None? ==> SawTheEnd(runtime, s.cursor, o.after))
    decreases PAGES - n
  {
    if n < PAGES && runtime(n, s.cursor).Some? && !PageRefused(runtime(n, s.cursor).value, s.cursor) {
      var page := runtime(n, s.cursor).value;
      PageExtends(s, page.items, outage);
      var o := IngestItems(s, page.items, s.cursor, outage);
      if o.error.None? && Verdict(page, s.cursor, o.after).None? {
        IngestIsConsecutive(o.store, n + 1, runtime, outage);
      }
    }
  }

  /** Pages are followed at most PAGES deep, each one ending further on. */
  lemma NoProgressIsAGap(s: Store, n: nat, runtime: Runtime, outage: int -> bool)
    requires Consecutive(s) && n < PAGES && runtime(n, s.cursor).Some?
    requires var page := runtime(n, s.cursor).value; page.items == [] && page.hasMore
    ensures IngestFrom(s, s.cursor, n, runtime, outage) == Outcome(s, s.cursor, Some(EventGap))
  {
  }

  // ---------- over several runs, and at the end ----------

  /** One worker's ingest: waiting for its n-th page, or in the middle of storing one.
      `page` and `before` are the page and the cursor it was asked for. */
  datatype Worker =
    | Reading(after: int, n: nat)
    | Storing(after: int, n: nat, before: int, page: Page, left: seq<Source>)
    | Stopped(after: int, error: Option<IngestError>)

  /** Any number of workers on one dispatch; only the lease keeps them apart, and it may be lost. */
  datatype World = World(store: Store, workers: map<nat, Worker>)

  datatype Move =
    | Start(id: nat)                           // reads the durable cursor
    | Answer(id: nat, page: Option<Page>)      // whatever the Runtime returns
    | StoreItem(id: nat, fails: bool)
    | EndPage(id: nat)

  predicate Enabled(w: World, m: Move) {
    match m
    case Start(id) => id !in w.workers
    case Answer(id, _) => id in w.workers && w.workers[id].Reading?
    case StoreItem(id, _) => id in w.workers && w.workers[id].Storing? && w.workers[id].left != []
    case EndPage(id) => id in w.workers && w.workers[id].Storing? && w.workers[id].left == []
  }

  function AfterAnswer(w: Worker, page: Option<Page>): Worker
    requires w.Reading?
  {
    if w.n >= PAGES then Stopped(w.after, Some(PageLimit))
    else if page.None? then Stopped(w.after, Some(Unreachable))
    else if PageRefused(page.value, w.after) then Stopped(w.after, Some(EventGap))
    else Storing(w.after, w.n, w.after, page.value, page.value.items)
  }

  function AfterItem(w: Worker, o: Outcome): Worker
    requires w.Storing? && w.left != []
  {
    if o.error.Some? then Stopped(o.after, o.error) else w.(after := o.after, left := w.left[1..])
  }

  function AfterPage(w: Worker): Worker
    requires w.Storing?
  {
    var v := Verdict(w.page, w.before, w.after);
    if v.Some? then Stopped(w.after, v.value) else Reading(w.after, w.n + 1)
  }

  function ItemOutcome(w: World, id: nat, fails: bool): Outcome
    requires id in w.workers && w.workers[id].Storing? && w.workers[id].left != []
  {
    IngestItem(w.store, w.workers[id].left[0], w.workers[id].after, (_: int) => fails)
  }

  function Next(w: World, m: Move): World {
    if !Enabled(w, m) then w
    else
      match m
      case Start(id) => w.(workers := w.workers[id := Reading(w.store.cursor, 0)])
      case Answer(id, page) => w.(workers := w.workers[id := AfterAnswer(w.workers[id], page)])
      case StoreItem(id, fails) =>
        var o := ItemOutcome(w, id, fails);
        World(o.store, w.workers[id := AfterItem(w.workers[id], o)])
      case EndPage(id) => w.(workers := w.workers[id := AfterPage(w.workers[id])])
  }

  function RunAll(w: World, moves: seq<Move>): World {
    if moves == [] then w else Next(RunAll(w, moves[..|moves| - 1]), moves[|moves| - 1])
  }

  /** A worker's cursor never runs ahead of the store; in the middle of a page, what it
      has passed of the page is in the store, by whoever's hand. */
  ghost predicate WorkerOk(s: Store, w: Worker) {
    && 0 <= w.after <= |s.events|
    && (w.Storing? ==>
          && 0 <= w.before <= w.after && w.after - w.before <= |w.page.items| && w.left == w.page.items[w.after - w.before..]
          && forall k :: w.before <= k < w.after ==> s.events[k] == Routed(w.page.items[k - w.before]))
  }

  ghost predicate WorldOk(w: World) {
    Consecutive(w.store) && forall id :: id in w.workers ==> WorkerOk(w.store, w.workers[id])
  }

  lemma WorkerKept(s: Store, s': Store, w: Worker)
    requires WorkerOk(s, w) && s.events <= s'.events
    ensures WorkerOk(s', w)
  {
  }

  /** One item by one worker, whatever the others stored since its last one. */
  lemma ItemStep(w: World, id: nat, fails: bool)
    requires WorldOk(w) && Enabled(w, StoreItem(id, fails))
    ensures var o := ItemOutcome(w, id, fails);
            Consecutive(o.store) && w.store.events <= o.store.events && WorkerOk(o.store, AfterItem(w.workers[id], o))
  {
    var worker := w.workers[id];
    assert WorkerOk(w.store, worker);
    ItemResult(w.store, worker.left[0], worker.after, fails);
    PassedOne(w.store, worker, ItemOutcome(w, id, fails));
  }

  lemma PassedOne(s: Store, worker: Worker, o: Outcome)
    requires WorkerOk(s, worker) && worker.Storing? && worker.left != []
    requires s.events <= o.store.events
    requires o.error.Some? ==> o.after == worker.after
    requires o.error.None? ==>
               o.after == worker.after + 1 <= |o.store.events| && o.store.events[worker.after] == Routed(worker.left[0])
    ensures WorkerOk(o.store, AfterItem(worker, o))
  {
    var items, done := worker.page.items, worker.after - worker.before;
    assert worker.left[0] == items[done];
    assert worker.left[1..] == items[done + 1..];
  }

  lemma ItemResult(s: Store, item: Source, after: int, fails: bool)
    requires Consecutive(s) && 0 <= after <= |s.events|
    ensures var o := IngestItem(s, item, after, (_: int) => fails);
            && Consecutive(o.store) && s.events <= o.store.events && after <= |o.store.events|
            && (o.error.Some? ==> o.after == after)
            && (o.error.None? ==> o.after == after + 1 <= |o.store.events| && o.store.events[after] == Routed(item))
  {
    AppendKeepsConsecutive(s, Routed(item), after);
  }

  lemma MoveKeepsOk(w: World, m: Move)
    requires WorldOk(w)
    ensures WorldOk(Next(w, m)) && w.store.events <= Next(w, m).store.events
  {
    var w' := Next(w, m);
    if Enabled(w, m) {
      if m.StoreItem? {
        ItemStep(w, m.id, m.fails);
      }
      forall id | id in w'.workers
        ensures WorkerOk(w'.store, w'.workers[id])
      {
        if id in w.workers {
          WorkerKept(w.store, w'.store, w.workers[id]);
        }
      }
    }
  }

  /** However the workers interleave, item by item: no hole, no duplicate, events
      stay once they are stored, and nobody's cursor is ahead of the durable one. */
  lemma {:induction false} StoreIsAlwaysConsecutive(moves: seq<Move>, i: nat)
    requires i <= |moves|
    ensures var before, after := RunAll(World(Store(0, []), map[]), moves[..i]), RunAll(World(Store(0, []), map[]), moves);
            WorldOk(after) && before.store.events <= after.store.events
  {
    var empty := World(Store(0, []), map[]);
    if moves == [] {
      assert moves[..i] == [];
    } else {
      var init := moves[..|moves| - 1];
      StoreIsAlwaysConsecutive(init, if i <= |init| then i else |init|);
      MoveKeepsOk(RunAll(empty, init), moves[|moves| - 1]);
      assert if i <= |init| then init[..i] == moves[..i] else moves[..i] == moves;
    }
  }

  /** A worker that stops without an error has the whole of its last page in the store,
      whoever else was writing, and that page announced nothing newer. */
  lemma SuccessSawTheEnd(moves: seq<Move>, id: nat)
    requires var w := RunAll(World(Store(0, []), map[]), moves);
             && Enabled(w, EndPage(id)) && Next(w, EndPage(id)).workers[id] == Stopped(w.workers[id].after, None)
    ensures var w := RunAll(World(Store(0, []), map[]), moves); var worker := w.workers[id];
            && !worker.page.hasMore && worker.page.latest <= worker.after == worker.before + |worker.page.items|
            && 0 <= worker.before && worker.after <= w.store.cursor == |w.store.events|
            && forall k :: worker.before <= k < worker.after ==> w.store.events[k] == Routed(worker.page.items[k - worker.before])
  {
    StoreIsAlwaysConsecutive(moves, 0);
    var w := RunAll(World(Store(0, []), map[]), moves);
    assert WorkerOk(w.store, w.workers[id]);
  }

  // A worker nobody interrupts does what the loop does.

  lemma {:induction false} RunAppend(w: World, a: seq<Move>, b: seq<Move>)
    ensures RunAll(w, a + b) == RunAll(RunAll(w, a), b)
  {
    if b == [] {
      assert a + b == a;
    } else {
      RunAppend(w, a, b[..|b| - 1]);
      assert (a + b)[..|a + b| - 1] == a + b[..|b| - 1];
    }
  }

  lemma RunOne(w: World, m: Move)
    ensures RunAll(w, [m]) == Next(w, m)
  {
    assert [m][..0] == [];
    assert RunAll(w, []) == w;
  }

  lemma {:induction false} ItemsAlone(w: World, id: nat, outage: int -> bool) returns (moves: seq<Move>)
    requires id in w.workers && w.workers[id].Storing?
    ensures var worker := w.workers[id]; var o := IngestItems(w.store, worker.left, worker.after, outage);
            RunAll(w, moves) == World(o.store, w.workers[id := if o.error.Some? then Stopped(o.after, o.error)
                                                               else worker.(after := o.after, left := [])])
    decreases |w.workers[id].left|
  {
    var worker := w.workers[id];
    if worker.left == [] {
      moves := [];
      assert w.workers[id := worker] == w.workers;
    } else {
      var m := StoreItem(id, outage(worker.left[0].sequence));
      var w' := Next(w, m);
      RunOne(w, m);
      assert ItemOutcome(w, id, m.fails) == IngestItem(w.store, worker.left[0], worker.after, outage);
      if w'.workers[id].Stopped? {
        moves := [m];
      } else {
        var rest := ItemsAlone(w', id, outage);
        moves := [m] + rest;
        RunAppend(w, [m], rest);
        assert w.workers[id := w'.workers[id]][id := RunAll(w, moves).workers[id]] == w.workers[id := RunAll(w, moves).workers[id]];
      }
    }
  }

  /** ingestEventPages is the run of one worker between which nobody moves. */
  lemma {:induction false} IngestIsARun(w: World, id: nat, runtime: Runtime, outage: int -> bool) returns (moves: seq<Move>)
    requires id in w.workers && w.workers[id].Reading? && w.workers[id].n <= PAGES
    ensures var o := IngestFrom(w.store, w.workers[id].after, w.workers[id].n, runtime, outage);
            RunAll(w, moves) == World(o.store, w.workers[id := Stopped(o.after, o.error)])
    decreases PAGES - w.workers[id].n
  {
    var worker := w.workers[id];
    var first := Answer(id, if worker.n < PAGES then runtime(worker.n, worker.after) else None);
    var w1 := Next(w, first);
    RunOne(w, first);
    if w1.workers[id].Stopped? {
      return [first];
    }
    var items := ItemsAlone(w1, id, outage);
    var w2 := RunAll(w1, items);
    RunAppend(w, [first], items);
    if w2.workers[id].Stopped? {
      moves := [first] + items;
      assert w2.workers == w.workers[id := w2.workers[id]];
      return;
    }
    var w3 := Next(w2, EndPage(id));
    RunOne(w2, EndPage(id));
    RunAppend(w, [first] + items, [EndPage(id)]);
    moves := [first] + items + [EndPage(id)];
    if !w3.workers[id].Stopped? {
      var rest := IngestIsARun(w3, id, runtime, outage);
      RunAppend(w, moves, rest);
      moves := moves + rest;
    }
    assert RunAll(w, moves).workers == w.workers[id := RunAll(w, moves).workers[id]];
  }

  datatype Decision = Retry(error: Option<IngestError>) | Converge(terminalSequence: int)

  /** The terminal-sequence decision of Process, once the status is terminal. */
  function Decide(lastEventSequence: int, after: int): Decision {
    if lastEventSequence > after then Retry(Some(EventGap))
    else
      var claimed := if lastEventSequence <= 0 then after else lastEventSequence;
      var sequence := if after > claimed then after else claimed;
      if sequence <= 0 then Retry(Some(EventGap)) else Converge(sequence)
  }

  /** Convergence always uses exactly the ingested cursor, whatever the status claims. */
  lemma ConvergesAtTheCursor(s: Store, runtime: Runtime, outage: int -> bool, lastEventSequence: int)
    requires Consecutive(s)
    ensures var o := IngestFrom(s, s.cursor, 0, runtime, outage);
            var d := Decide(lastEventSequence, o.after);
            && (d.Converge? <==> lastEventSequence <= o.store.cursor && o.store.events != [])
            && (d.Converge? ==> d.terminalSequence == o.store.cursor == o.store.events[|o.store.events| - 1].sequence)
  {
    IngestIsConsecutive(s, 0, runtime, outage);
  }
}
