/** Reading a run's events while others append and compact: what a client that
    follows the cursors ends up with, and what the SSE stream writes. */
module EventStream {
  import opened Wrappers
  import opened Sanitizer
  import opened EventLog

  /** Public and admin events of a run share one numbering. */
  datatype Entry = Entry(public: bool, event: Event)

  /** Everything ever appended, and the sequence up to which public events are deleted. */
  datatype World = World(history: seq<Entry>, floor: nat)

  ghost predicate Numbered(h: seq<Entry>) {
    forall i :: 0 <= i < |h| ==> h[i].event.sequence == i + 1
  }

  /** The public events with a < sequence <= b. */
  function PublicIn(h: seq<Entry>, a: nat, b: nat): seq<Event>
    requires b <= |h|
    decreases b
  {
    if b <= a then []
    else PublicIn(h, a, b - 1) + (if h[b - 1].public then [h[b - 1].event] else [])
  }

  function Retained(w: World): seq<Event> {
    PublicIn(w.history, w.floor, |w.history|)
  }

  function Max(a: nat, b: nat): nat {
    if a > b then a else b
  }

  function Min(a: nat, b: nat): nat {
    if a < b then a else b
  }

  // ---------- slices of the history ----------

  lemma {:induction false} SliceBounds(h: seq<Entry>, a: nat, b: nat)
    requires Numbered(h) && b <= |h|
    ensures forall e :: e in PublicIn(h, a, b) ==> a < e.sequence <= b
    ensures forall i, j :: 0 <= i < j < |PublicIn(h, a, b)| ==> PublicIn(h, a, b)[i].sequence < PublicIn(h, a, b)[j].sequence
    decreases b
  {
    if b > a {
      SliceBounds(h, a, b - 1);
    }
  }

  lemma {:induction false} SliceOfPrefix(h: seq<Entry>, more: seq<Entry>, a: nat, b: nat)
    requires b <= |h|
    ensures PublicIn(h + more, a, b) == PublicIn(h, a, b)
    decreases b
  {
    if b > a {
      SliceOfPrefix(h, more, a, b - 1);
    }
  }

  lemma {:induction false} SlicesJoin(h: seq<Entry>, a: nat, b: nat, c: nat)
    requires a <= b <= c <= |h|
    ensures PublicIn(h, a, c) == PublicIn(h, a, b) + PublicIn(h, b, c)
    decreases c
  {
    if c > b {
      SlicesJoin(h, a, b, c - 1);
    }
  }

  lemma AfterOne(s: seq<Event>, e: Event, after: int)
    ensures After(s + [e], after) == After(s, after) + if e.sequence > after then [e] else []
  {
    assert (s + [e])[..|s|] == s;
  }

  lemma {:induction false} AfterSlice(h: seq<Entry>, a: nat, b: nat, after: nat)
    requires Numbered(h) && b <= |h|
    ensures After(PublicIn(h, a, b), after) == PublicIn(h, Max(a, after), b)
    decreases b
  {
    if b > a {
      AfterSlice(h, a, b - 1, after);
      AfterOne(PublicIn(h, a, b - 1), h[b - 1].event, after);
      assert PublicIn(h, a, b - 1) + [] == PublicIn(h, a, b - 1);
      if b <= after {
        assert PublicIn(h, Max(a, after), b) == [] == PublicIn(h, Max(a, after), b - 1);
      }
    }
  }

  /** Cutting a slice after its first l events leaves the slice up to the last one kept. */
  lemma {:induction false} SliceCut(h: seq<Entry>, a: nat, b: nat, l: nat)
    requires Numbered(h) && a <= b <= |h| && 1 <= l <= |PublicIn(h, a, b)|
    ensures var cut := PublicIn(h, a, b)[..l];
            a < cut[l - 1].sequence <= b && cut == PublicIn(h, a, cut[l - 1].sequence)
    decreases b
  {
    if l <= |PublicIn(h, a, b - 1)| {
      SliceCut(h, a, b - 1, l);
      assert PublicIn(h, a, b)[..l] == PublicIn(h, a, b - 1)[..l];
    } else {
      assert PublicIn(h, a, b)[..l] == PublicIn(h, a, b);
    }
  }

  lemma SliceOfOne(h: seq<Entry>, a: nat, c: nat)
    requires Numbered(h) && a < c <= |h| && |PublicIn(h, a, c)| == 1 && PublicIn(h, a, c)[0].sequence == c
    ensures PublicIn(h, a, c - 1) == []
  {
    SliceBounds(h, a, c - 1);
    assert forall e :: e in PublicIn(h, a, c - 1) ==> e.sequence < c;
  }

  lemma SliceFirst(h: seq<Entry>, a: nat, b: nat)
    requires Numbered(h) && a <= b <= |h| && PublicIn(h, a, b) != []
    ensures var c := PublicIn(h, a, b)[0].sequence;
            a < c <= b && PublicIn(h, a, c - 1) == [] && PublicIn(h, c - 1, b) == PublicIn(h, a, b)
  {
    SliceCut(h, a, b, 1);
    var c := PublicIn(h, a, b)[0].sequence;
    SliceOfOne(h, a, c);
    SlicesJoin(h, a, c - 1, b);
  }

  // ---------- the world and its steps ----------

  ghost predicate Deleting(w: World) {
    Numbered(w.history) && w.floor <= |w.history|
  }

  /** A public event is left, as compaction leaves the terminal one, or none was
      ever deleted. NeverMisledIff says that a reader depends on exactly this. */
  ghost predicate WorldOk(w: World) {
    Deleting(w) && (Retained(w) != [] || PublicIn(w.history, 0, w.floor) == [])
  }

  /** The rows of the table: admin rows stay, public ones up to the floor are gone. */
  function Stored(h: seq<Entry>, floor: nat): seq<Event> {
    if h == [] then []
    else
      var e := h[|h| - 1];
      Stored(h[..|h| - 1], floor) + (if !e.public || e.event.sequence > floor then [e.event] else [])
  }

  /** max(sequence) of the table is the number of events ever appended, so that the
      next one gets a new number, exactly if the last event is still there: nothing
      was appended, or it was not deleted, or it is an admin event. */
  lemma {:induction false} NumberingContinuesIff(h: seq<Entry>, floor: nat)
    requires Numbered(h) && floor <= |h|
    ensures Last(Stored(h, floor)) <= |h|
    ensures Last(Stored(h, floor)) == |h| <==> h == [] || floor < |h| || !h[|h| - 1].public
  {
    if h != [] && h[|h| - 1].public && floor == |h| {
      StoredBelow(h[..|h| - 1], floor);
    }
  }

  lemma {:induction false} StoredBelow(h: seq<Entry>, floor: nat)
    requires Numbered(h)
    ensures Last(Stored(h, floor)) <= |h|
  {
    if h != [] {
      StoredBelow(h[..|h| - 1], floor);
    }
  }

  /** As long as a public event is left, it continues. */
  lemma NumberingContinues(w: World)
    requires WorldOk(w)
    ensures Last(Stored(w.history, w.floor)) == |w.history|
  {
    var h := w.history;
    NumberingContinuesIff(h, w.floor);
    if h != [] && w.floor == |h| {
      SliceEmpty(h, 0, w.floor);
    }
  }

  ghost predicate AllPublic(h: seq<Entry>) {
    forall i :: 0 <= i < |h| ==> h[i].public
  }

  /** The in-memory log is the world whose events are all public: appending ... */
  lemma MemoryAppendRefines(w: World, keys: map<string, Event>, e: Event)
    requires WorldOk(w) && AllPublic(w.history) && e.sequence <= 0
    ensures var stored := Prepared(e).(sequence := |w.history| + 1);
            Append(Log(Retained(w), keys), e, None) == (Log(Retained(World(w.history + [Entry(true, stored)], w.floor)), keys), None)
  {
    var h := w.history;
    var stored := Prepared(e).(sequence := |h| + 1);
    SliceOfPrefix(h, [Entry(true, stored)], w.floor, |h|);
    SliceBounds(h, w.floor, |h|);
    assert !HasSequence(Retained(w), e.sequence);
    LastRetainedIff(w);
  }

  /** In memory the numbering continues exactly if the last event was not pruned. */
  lemma LastRetainedIff(w: World)
    requires Deleting(w) && AllPublic(w.history)
    ensures Last(Retained(w)) == |w.history| <==> w.history == [] || w.floor < |w.history|
    ensures w.history == [] || w.floor < |w.history| <==> WorldOk(w)
  {
    SliceEmpty(w.history, 0, w.floor);
  }

  /** ... and pruning. */
  lemma MemoryPruneRefines(w: World, oldestToKeep: int)
    requires Deleting(w) && oldestToKeep > 1
    ensures After(Retained(w), oldestToKeep - 1) == Retained(NextWorld(w, Prune(oldestToKeep)))
  {
    AfterSlice(w.history, w.floor, |w.history|, oldestToKeep - 1);
  }

  /** Deleting every event instead restarts the numbering, and a reader who was up to
      date is told neither of a gap nor of the event that takes an old number. */
  lemma FullPruneRestartsNumbering(e: Event)
    requires e.sequence <= 0
    ensures var one := Append(Log([], map[]), e, None).0;
            var pruned := Log(After(one.events, 1), one.keys);
            var again := Append(pruned, e, None).0;
            && Last(one.events) == 1 && pruned.events == [] && Last(again.events) == 1
            && var page := List(again.events, 1, 0); page.items == [] && !page.gap && !page.hasMore
  {
    assert !HasSequence([], e.sequence);
    var stored := Prepared(e).(sequence := 1);
    AfterOne([], stored, 1);
    assert [] + [stored] == [stored];
  }

  predicate Draft(e: Event) {
    e.eventType == "draft_delta"
  }

  /** CompactTerminalAgentRunDraftEvents on one expired run: the public events before
      the last terminal one go, if there is a draft among them. */
  function Compacted(w: World): World {
    var rows := Retained(w);
    var t := TerminalSequence(rows);
    if t > 0 && exists i :: 0 <= i < |rows| && Draft(rows[i]) && rows[i].sequence < t then World(w.history, Max(w.floor, t - 1)) else w
  }

  lemma {:induction false} TerminalIsThere(events: seq<Event>)
    requires TerminalSequence(events) != 0
    ensures exists i :: 0 <= i < |events| && TerminalEvent(events[i]) && events[i].sequence == TerminalSequence(events)
  {
    var n := |events| - 1;
    if !TerminalEvent(events[n]) {
      TerminalIsThere(events[..n]);
      var i :| 0 <= i < n && TerminalEvent(events[..n][i]) && events[..n][i].sequence == TerminalSequence(events[..n]);
      assert TerminalEvent(events[i]);
    }
  }

  lemma DeletingKeeps(w: World, t: nat, e: Event)
    requires WorldOk(w) && e in Retained(w) && e.sequence == t
    ensures w.floor < t <= |w.history| && e in Retained(World(w.history, t - 1))
  {
    var h := w.history;
    SliceBounds(h, w.floor, |h|);
    SlicesJoin(h, w.floor, t - 1, |h|);
    SliceBounds(h, w.floor, t - 1);
  }

  /** Compaction keeps the terminal event, so the result can always be replayed. */
  lemma CompactionKeepsTheOutcome(w: World)
    requires WorldOk(w)
    ensures WorldOk(Compacted(w))
    ensures TerminalSequence(Retained(w)) > 0 ==>
              exists e :: e in Retained(Compacted(w)) && TerminalEvent(e) && e.sequence == TerminalSequence(Retained(w))
  {
    var rows := Retained(w);
    var t := TerminalSequence(rows);
    if t > 0 {
      TerminalIsThere(rows);
      var i :| 0 <= i < |rows| && TerminalEvent(rows[i]) && rows[i].sequence == t;
      DeletingKeeps(w, t, rows[i]);
      assert Compacted(w) == w || Compacted(w) == World(w.history, t - 1);
      assert rows[i] in Retained(Compacted(w));
    }
  }

  // ---------- gaps ----------

  ghost predicate Lost(w: World, after: nat)
    requires w.floor <= |w.history|
  {
    PublicIn(w.history, after, w.floor) != []
  }

  ghost predicate Gap(w: World, after: nat) {
    RetainedGap(after, Oldest(Retained(w)))
  }

  lemma {:induction false} SliceEmpty(h: seq<Entry>, a: nat, b: nat)
    requires b <= |h|
    ensures PublicIn(h, a, b) == [] <==> OnlyAdmin(h, a, b)
    decreases b
  {
    if b > a {
      SliceEmpty(h, a, b - 1);
    }
  }

  predicate OnlyAdmin(h: seq<Entry>, a: int, b: int) {
    forall i :: a <= i < b && 0 <= i < |h| ==> !h[i].public
  }

  lemma OldestFacts(w: World)
    requires WorldOk(w) && Retained(w) != []
    ensures w.floor < Oldest(Retained(w)) <= |w.history|
    ensures OnlyAdmin(w.history, w.floor, Oldest(Retained(w)) - 1) && w.history[Oldest(Retained(w)) - 1].public
  {
    SliceFirst(w.history, w.floor, |w.history|);
    var oldest := Oldest(Retained(w));
    SliceEmpty(w.history, w.floor, oldest - 1);
    assert PublicIn(w.history, oldest - 1, |w.history|)[0].sequence == oldest;
    PublicAt(w.history, w.floor, |w.history|, 0);
  }

  lemma {:induction false} PublicAt(h: seq<Entry>, a: nat, b: nat, i: nat)
    requires Numbered(h) && b <= |h| && i < |PublicIn(h, a, b)|
    ensures var n := PublicIn(h, a, b)[i].sequence; 1 <= n <= b && h[n - 1].public
    decreases b
  {
    if i < |PublicIn(h, a, b - 1)| {
      PublicAt(h, a, b - 1, i);
    }
  }

  /** A reader that lost an event is always told. It is told without having lost one
      exactly if only admin events lie between its cursor and the oldest public one. */
  lemma GapIsReported(w: World, after: nat)
    requires WorldOk(w)
    ensures Lost(w, after) ==> Gap(w, after)
    ensures Gap(w, after) ==> (Lost(w, after) <==> !OnlyAdmin(w.history, after, Oldest(Retained(w)) - 1))
    ensures AllPublic(w.history) ==> (Gap(w, after) <==> Lost(w, after))
  {
    SliceEmpty(w.history, after, w.floor);
    SliceEmpty(w.history, 0, w.floor);
    if Retained(w) != [] {
      OldestFacts(w);
      if Gap(w, after) {
        assert AllPublic(w.history) ==> w.history[Oldest(Retained(w)) - 2].public;
      }
    }
  }

  /** With neither a public event left nor every deleted one an admin event, loss goes
      unreported: a reader is never misled exactly in the worlds allowed here. */
  lemma NeverMisledIff(w: World)
    requires Deleting(w)
    ensures WorldOk(w) <==> forall after: nat :: Lost(w, after) ==> Gap(w, after)
  {
    if WorldOk(w) {
      forall after: nat | Lost(w, after)
        ensures Gap(w, after)
      {
        GapIsReported(w, after);
      }
    } else {
      assert Lost(w, 0) && !Gap(w, 0);
    }
  }

  /** Such a false alarm: the reader saw the draft, then only an admin event and the
      outcome followed, and compaction deleted the draft. */
  lemma GapWithoutLoss()
    ensures exists w: World :: WorldOk(w) && w == Compacted(World(w.history, 0)) && Gap(w, 1) && !Lost(w, 1)
  {
    var draft := Entry(true, Event(1, "draft_delta", "running", map[]));
    var admin := Entry(false, Event(2, "run.completed", "succeeded", map[]));
    var outcome := Entry(true, Event(3, "succeeded", "succeeded", map[]));
    var h := [draft, admin, outcome];
    assert PublicIn(h, 0, 1) == [draft.event];
    assert PublicIn(h, 0, 2) == [draft.event];
    var rows := [draft.event, outcome.event];
    assert Retained(World(h, 0)) == rows;
    assert TerminalEvent(rows[1]) && TerminalSequence(rows) == 3;
    assert Draft(rows[0]) && rows[0].sequence < 3;
    var w := World(h, 2);
    assert Compacted(World(h, 0)) == w;
    assert PublicIn(h, 2, 2) == [] && Retained(w) == [outcome.event];
    assert Gap(w, 1);
    assert PublicIn(h, 1, 1) == [] && PublicIn(h, 1, 2) == [];
    assert Numbered(h) && WorldOk(w);
  }

  // ---------- following the cursors ----------

  /** One page: exactly the public events between the two cursors; progress while
      there is more; and when there is no more, nothing was left behind. */
  lemma ReadIsExact(w: World, after: nat, limit: int)
    requires WorldOk(w)
    ensures var page := List(Retained(w), after, limit);
            && (page.gap ==> page.oldest - 1 > after)
            && (!page.gap ==>
                  && after <= page.next && (page.next <= |w.history| || page.next == after)
                  && page.items == PublicIn(w.history, after, Min(page.next, |w.history|))
                  && (page.hasMore ==> after < page.next)
                  && (!page.hasMore ==> PublicIn(w.history, page.next, |w.history|) == []))
  {
    if !Gap(w, after) {
      var rest := PublicIn(w.history, after, |w.history|);
      AfterSlice(w.history, w.floor, |w.history|, after);
      NothingSkipped(w, after);
      if rest != [] {
        PageOfRest(w.history, Retained(w), after, limit);
      } else {
        CaughtUp(w, after);
        EmptyPage(Retained(w), after, limit);
      }
    }
  }

  lemma PageOfRest(h: seq<Entry>, events: seq<Event>, after: nat, limit: int)
    requires Numbered(h) && after <= |h| && !RetainedGap(after, Oldest(events))
    requires After(events, after) == PublicIn(h, after, |h|) != []
    ensures var page := List(events, after, limit);
            && !page.gap && after < page.next <= |h| && page.items == PublicIn(h, after, page.next)
            && (!page.hasMore ==> PublicIn(h, page.next, |h|) == [])
  {
    PageIsPrefix(events, after, limit);
    var rest := PublicIn(h, after, |h|);
    CutIsExact(h, after, rest[..Min(|rest|, PageLimit(limit))]);
  }

  lemma EmptyPage(events: seq<Event>, after: nat, limit: int)
    requires After(events, after) == [] && !RetainedGap(after, Oldest(events)) && Last(events) <= after
    ensures var page := List(events, after, limit); !page.gap && page.items == [] && page.next == after && !page.hasMore
  {
  }

  lemma PageIsPrefix(events: seq<Event>, after: nat, limit: int)
    requires After(events, after) != [] && !RetainedGap(after, Oldest(events))
    ensures var page, items := List(events, after, limit), After(events, after);
            && page.items == items[..Min(|items|, PageLimit(limit))]
            && page.next == page.items[|page.items| - 1].sequence
            && (!page.hasMore ==> page.items == items)
  {
  }

  lemma CutIsExact(h: seq<Entry>, after: nat, cut: seq<Event>)
    requires Numbered(h) && cut != [] && cut <= PublicIn(h, after, |h|)
    ensures var next := cut[|cut| - 1].sequence;
            && after < next <= |h| && cut == PublicIn(h, after, next)
            && (cut == PublicIn(h, after, |h|) ==> PublicIn(h, next, |h|) == [])
  {
    SliceCut(h, after, |h|, |cut|);
    assert cut == PublicIn(h, after, |h|)[..|cut|];
    SlicesJoin(h, after, cut[|cut| - 1].sequence, |h|);
  }

  lemma NothingSkipped(w: World, after: nat)
    requires WorldOk(w) && !Gap(w, after)
    ensures PublicIn(w.history, Max(w.floor, after), |w.history|) == PublicIn(w.history, after, |w.history|)
  {
    GapIsReported(w, after);
    if after <= w.floor {
      SlicesJoin(w.history, after, w.floor, |w.history|);
    }
  }

  lemma CaughtUp(w: World, after: nat)
    requires WorldOk(w) && PublicIn(w.history, Max(w.floor, after), |w.history|) == []
    ensures Last(Retained(w)) <= after
  {
    var h := w.history;
    var rows := Retained(w);
    AfterSlice(h, w.floor, |h|, after);
    assert After(rows, after) == [];
  }

  /** A client that started after `start` and has since collected `got`. */
  datatype Client = Client(start: nat, cursor: nat, got: seq<Event>, behind: bool)

  datatype Step = Add(public: bool, event: Event) | Compact | Prune(oldestToKeep: int) | Read(limit: int)

  ghost predicate Enabled(w: World, s: Step) {
    match s
    case Add(_, e) => e.sequence == |w.history| + 1
    case Prune(_) => WorldOk(NextWorld(w, s))
    case _ => true
  }

  function NextWorld(w: World, s: Step): World {
    match s
    case Add(public, e) => World(w.history + [Entry(public, e)], w.floor)
    case Compact => Compacted(w)
    case Prune(k) => if k > 1 then World(w.history, Max(w.floor, Min(k - 1, |w.history|))) else w
    case Read(_) => w
  }

  /** A page moves the cursor; a gap makes the client start over where it is told to. */
  ghost function NextClient(w: World, c: Client, s: Step): Client
    requires WorldOk(w)
  {
    if !s.Read? then c
    else
      var page := List(Retained(w), c.cursor, s.limit);
      ReadIsExact(w, c.cursor, s.limit);
      if page.gap then Client(page.oldest - 1, page.oldest - 1, [], true)
      else Client(c.start, page.next, c.got + page.items, page.hasMore)
  }

  /** The client holds exactly the public events after its start up to its cursor. */
  ghost predicate Exact(h: seq<Entry>, c: Client) {
    && c.start <= c.cursor && (c.cursor <= |h| || c.cursor == c.start)
    && c.got == PublicIn(h, c.start, Min(c.cursor, |h|))
  }

  lemma WorldStep(w: World, s: Step)
    requires WorldOk(w) && Enabled(w, s)
    ensures WorldOk(NextWorld(w, s)) && w.history <= NextWorld(w, s).history
  {
    match s
    case Add(public, e) =>
      SliceOfPrefix(w.history, [Entry(public, e)], w.floor, |w.history|);
      SliceOfPrefix(w.history, [Entry(public, e)], 0, w.floor);
    case Compact => CompactionKeepsTheOutcome(w);
    case _ =>
  }

  lemma ClientStep(w: World, c: Client, s: Step)
    requires WorldOk(w) && Exact(w.history, c) && Enabled(w, s)
    ensures Exact(NextWorld(w, s).history, NextClient(w, c, s))
  {
    var h := w.history;
    match s
    case Add(public, e) => SliceOfPrefix(h, [Entry(public, e)], c.start, Min(c.cursor, |h|));
    case Read(limit) =>
      ReadIsExact(w, c.cursor, limit);
      var page := List(Retained(w), c.cursor, limit);
      if page.gap {
        GapBound(w, c.cursor);
      } else if c.cursor <= |h| {
        SlicesJoin(h, c.start, c.cursor, page.next);
      }
    case _ =>
  }

  lemma GapBound(w: World, after: nat)
    requires WorldOk(w) && Gap(w, after)
    ensures Oldest(Retained(w)) <= |w.history|
  {
    OldestFacts(w);
  }

  ghost predicate IsRun(worlds: seq<World>, clients: seq<Client>, steps: seq<Step>) {
    && |worlds| == |clients| == |steps| + 1
    && worlds[0] == World([], 0) && clients[0].cursor == clients[0].start && clients[0].got == []
    && forall i :: 0 <= i < |steps| ==>
         && WorldOk(worlds[i]) && Enabled(worlds[i], steps[i])
         && worlds[i + 1] == NextWorld(worlds[i], steps[i]) && clients[i + 1] == NextClient(worlds[i], clients[i], steps[i])
  }

  /** With appends, compaction and pruning between its reads, a client always holds
      exactly the public events after its start up to its cursor. */
  lemma {:induction false} FollowingIsExact(worlds: seq<World>, clients: seq<Client>, steps: seq<Step>, i: nat)
    requires IsRun(worlds, clients, steps) && i < |worlds|
    ensures WorldOk(worlds[i]) && Exact(worlds[i].history, clients[i])
  {
    if i > 0 {
      FollowingIsExact(worlds, clients, steps, i - 1);
      WorldStep(worlds[i - 1], steps[i - 1]);
      ClientStep(worlds[i - 1], clients[i - 1], steps[i - 1]);
    }
  }

  /** A read either moves on, or starts over further ahead because of a gap, or ends
      with every public event after the start in the client's hands. */
  lemma EveryReadProgressesOrCatchesUp(worlds: seq<World>, clients: seq<Client>, steps: seq<Step>, i: nat)
    requires IsRun(worlds, clients, steps) && i < |steps| && steps[i].Read?
    ensures var h, c, c' := worlds[i].history, clients[i], clients[i + 1];
            && (c'.behind ==> c.cursor < c'.cursor)
            && (!c'.behind ==> c'.start == c.start && c'.got == PublicIn(h, c'.start, |h|))
  {
    FollowingIsExact(worlds, clients, steps, i);
    FollowingIsExact(worlds, clients, steps, i + 1);
    var w, c := worlds[i], clients[i];
    ReadIsExact(w, c.cursor, steps[i].limit);
    var c' := clients[i + 1];
    if !c'.behind && c'.cursor <= |w.history| {
      SlicesJoin(w.history, c'.start, c'.cursor, |w.history|);
    }
  }

  lemma PageNotEmpty(events: seq<Event>, after: int, limit: int)
    requires After(events, after) != [] && !RetainedGap(after, Oldest(events))
    ensures List(events, after, limit).items != []
  {
  }

  /** Starting over at `oldest - 1` skips nothing that is still there. */
  lemma ResumingSkipsNothingRetained(w: World, after: nat, limit: int)
    requires WorldOk(w) && Gap(w, after)
    ensures var resume := Oldest(Retained(w)) - 1;
            && resume >= 0 && !Gap(w, resume) && !Lost(w, resume)
            && After(Retained(w), resume) == Retained(w) && List(Retained(w), resume, limit).items != []
  {
    OldestFacts(w);
    var resume := Oldest(Retained(w)) - 1;
    assert After(Retained(w), resume) == Retained(w) by {
      SliceFirst(w.history, w.floor, |w.history|);
      AfterSlice(w.history, w.floor, |w.history|, resume);
    }
    PageNotEmpty(Retained(w), resume, limit);
  }
}
