/** The server-sent event stream over a run's pages (agent_run_routes.go), with the
    public projection of a page (agent_run_service.go). */
module EventSse {
  import opened Wrappers
  import opened Sanitizer
  import opened EventLog
  import opened EventStream

  // ---------- the public projection ----------

  predicate ResolvingWord(s: string) { s == "created" || s == "resolving_intent" || s == "resolving" }

  predicate QueuedWord(s: string) { s == "admission_pending" || s == "queued" }

  predicate RunningWord(s: string) {
    s == "reserving" || s == "dispatched" || s == "accepted" || s == "materializing" || s == "running" || s == "finalizing"
  }

  predicate OtherWord(s: string) { s == "planning" || s == "awaiting_confirmation" || s == "aborting" }

  /** The statuses of a run that is still going. */
  predicate LiveWord(s: string) {
    ResolvingWord(s) || QueuedWord(s) || RunningWord(s) || OtherWord(s)
  }

  /** publicAgentRunStatus on a trimmed status; anything unknown is a failure. */
  function PublicStatus(s: string): string {
    if ResolvingWord(s) then "resolving"
    else if QueuedWord(s) then "queued"
    else if RunningWord(s) then "running"
    else if OtherWord(s) || s == "succeeded" || s == "timeout" then s
    else if s == "cancelled" || s == "aborted" then "cancelled"
    else "failed"
  }

  /** publicAgentRunTerminalStatus */
  predicate PublicTerminal(s: string) {
    s == "succeeded" || s == "failed" || s == "timeout" || s == "cancelled"
  }

  /** publicAgentRunLifecycleEventType */
  function PublicType(s: string): string {
    if s == "created" || s == "resolving_intent" || s == "admission_pending" || s == "reserving" || s == "dispatched"
       || s == "accepted" || s == "materializing" || s == "orphaned" || s == "aborted"
    then PublicStatus(s) else s
  }

  function Trim(s: string): string {
    TrimRight(TrimLeft(s))
  }

  function ProjectEvent(e: Event): Event {
    var status := PublicStatus(Trim(e.status));
    e.(status := status, eventType := if PublicType(Trim(e.eventType)) == Trim(e.eventType) then e.eventType else PublicType(Trim(e.eventType)),
       data := if STATUS in e.data then e.data[STATUS := Text(status)] else e.data)
  }

  function ProjectItems(items: seq<Event>): (r: seq<Event>)
    ensures |r| == |items| && forall i :: 0 <= i < |items| ==> r[i] == ProjectEvent(items[i])
  {
    seq(|items|, i requires 0 <= i < |items| => ProjectEvent(items[i]))
  }

  /** The last item the public would call terminal. */
  function PublicTerminalSequence(items: seq<Event>): int {
    if items == [] then 0
    else if PublicTerminal(items[|items| - 1].status) then items[|items| - 1].sequence
    else PublicTerminalSequence(items[..|items| - 1])
  }

  /** ProjectPublicAgentRunEventPage */
  function Project(page: Page): Page {
    var items := ProjectItems(page.items);
    var t := PublicTerminalSequence(items);
    page.(items := items, terminal := if t > 0 then Some(t) else page.terminal)
  }

  /** Terminal to the public are the outcomes, and every status nobody knows. */
  lemma PublicTerminalIff(s: string)
    ensures PublicTerminal(PublicStatus(s)) <==> !LiveWord(s)
    ensures TerminalWord(s) ==> !LiveWord(s)
  {
  }

  // ---------- writing one page ----------

  /** One frame; heartbeats and the renewal error carry no id and are left out. */
  datatype Frame = Frame(id: int, name: string, event: Option<Event>)

  /** terminalAgentRunSSEEvent */
  predicate SseTerminal(e: Event) {
    PublicTerminal(e.eventType) || PublicTerminal(e.status)
  }

  predicate EndsAt(page: Page, i: nat)
    requires i < |page.items|
  {
    || (page.terminal == Some(page.items[i].sequence) && page.items[i].sequence == page.latest)
    || (i == |page.items| - 1 && !page.hasMore && SseTerminal(page.items[i]))
  }

  predicate SafeChar(c: char) {
    'a' <= c <= 'z' || 'A' <= c <= 'Z' || '0' <= c <= '9' || c == '_' || c == '-' || c == '.'
  }

  /** safeAgentRunSSEEventName */
  function SafeName(s: string): string {
    if s == "" || exists i :: 0 <= i < |s| && !SafeChar(s[i]) then "message" else s
  }

  function FrameOf(page: Page, i: nat): Frame
    requires i < |page.items|
  {
    var e := page.items[i];
    Frame(e.sequence, if EndsAt(page, i) then "terminal" else SafeName(e.eventType), Some(e))
  }

  function Resume(page: Page): int {
    if page.oldest - 1 < 0 then 0 else page.oldest - 1
  }

  function Frames(page: Page): seq<Frame> {
    if page.gap then [Frame(Resume(page), "gap", None)]
    else seq(|page.items|, i requires 0 <= i < |page.items| => FrameOf(page, i))
  }

  function NextCursor(page: Page, cursor: int): int {
    if page.gap then Resume(page)
    else if page.items == [] then cursor
    else page.items[|page.items| - 1].sequence
  }

  /** Does the stream end after this page? */
  predicate Ends(page: Page, cursor: int) {
    || page.gap
    || (exists i :: 0 <= i < |page.items| && EndsAt(page, i))
    || (page.terminal.Some? && NextCursor(page, cursor) >= page.terminal.value && NextCursor(page, cursor) >= page.latest)
  }

  method FrameAt(page: Page, i: nat) returns (frame: Frame, last: bool)
    requires i < |page.items|
    ensures frame == FrameOf(page, i) && (last <==> EndsAt(page, i))
  {
    var event := page.items[i];
    var name := SafeName(event.eventType);
    last := false;
    if (page.terminal.Some? && event.sequence == page.terminal.value && event.sequence == page.latest)
       || (i == |page.items| - 1 && !page.hasMore && SseTerminal(event)) {
      name, last := "terminal", true;
    }
    frame := Frame(event.sequence, name, Some(event));
  }

  /** writePage on a connection that takes `budget` more frames before it fails. */
  method WritePage(page: Page, cursor: int, budget: nat) returns (terminal: bool, next: int, written: seq<Frame>, failed: bool)
    ensures failed <==> budget < |Frames(page)|
    ensures !failed ==> written == Frames(page) && next == NextCursor(page, cursor) && (terminal <==> Ends(page, cursor))
    ensures failed ==> written == Frames(page)[..budget]
    ensures failed && !page.gap ==> !terminal && next == if budget == 0 then cursor else written[budget - 1].id
  {
    if page.gap {
      var resume := page.oldest - 1;
      if resume < 0 {
        resume := 0;
      }
      if budget == 0 {
        return true, resume, [], true;
      }
      return true, resume, [Frame(resume, "gap", None)], false;
    }
    var ended := false;
    next, written := cursor, [];
    for i := 0 to |page.items|
      invariant i <= budget && written == Frames(page)[..i]
      invariant next == if i == 0 then cursor else page.items[i - 1].sequence
      invariant ended <==> exists j :: 0 <= j < i && EndsAt(page, j)
    {
      var frame, last := FrameAt(page, i);
      ended := ended || last;
      if i == budget {
        return false, next, written, true;
      }
      assert Frames(page)[..i + 1] == Frames(page)[..i] + [Frames(page)[i]];
      written := written + [frame];
      next := frame.id;
    }
    assert Frames(page)[..|page.items|] == Frames(page);
    terminal := ended || (page.terminal.Some? && next >= page.terminal.value && next >= page.latest);
    failed := false;
  }

  // ---------- the stream ----------

  const STREAM_LIMIT := 500

  function Ids(page: Page): seq<int> {
    if page.gap then [Resume(page)] else seq(|page.items|, i requires 0 <= i < |page.items| => page.items[i].sequence)
  }

  /** Ids are the ids of the frames written, and the projection does not touch them. */
  lemma FramesCarryIds(page: Page, cursor: int)
    ensures |Frames(Project(page))| == |Ids(page)|
    ensures forall i :: 0 <= i < |Ids(page)| ==> Frames(Project(page))[i].id == Ids(page)[i]
    ensures NextCursor(Project(page), cursor) == NextCursor(page, cursor)
  {
  }

  ghost predicate Increasing(ids: seq<int>) {
    forall i, j :: 0 <= i < j < |ids| ==> ids[i] < ids[j]
  }

  ghost predicate Within(ids: seq<int>, after: int, upTo: int) {
    forall i :: 0 <= i < |ids| ==> after < ids[i] <= upTo
  }

  lemma OrderedPageMovesOn(page: Page, cursor: int)
    requires page.gap ==> page.oldest - 1 > cursor >= 0
    requires forall i, j :: 0 <= i < j < |page.items| ==> page.items[i].sequence < page.items[j].sequence
    requires forall e :: e in page.items ==> cursor < e.sequence
    ensures Increasing(Ids(page)) && cursor <= NextCursor(page, cursor) && Within(Ids(page), cursor, NextCursor(page, cursor))
  {
  }

  /** A page read at a cursor is written with increasing ids beyond that cursor. */
  lemma FreshPageMovesOn(w: World, cursor: nat)
    requires WorldOk(w)
    ensures var page := List(Retained(w), cursor, STREAM_LIMIT);
            && Increasing(Ids(page)) && cursor <= NextCursor(page, cursor) && Within(Ids(page), cursor, NextCursor(page, cursor))
            && (page.items == [] && !page.gap ==> NextCursor(page, cursor) == cursor)
  {
    var page := List(Retained(w), cursor, STREAM_LIMIT);
    ReadIsExact(w, cursor, STREAM_LIMIT);
    if page.gap {
      GapPageIsEmpty(Retained(w), cursor, STREAM_LIMIT);
    } else {
      SliceBounds(w.history, cursor, Min(page.next, |w.history|));
    }
    OrderedPageMovesOn(page, cursor);
  }

  lemma GapPageIsEmpty(events: seq<Event>, after: int, limit: int)
    requires List(events, after, limit).gap
    ensures List(events, after, limit).items == []
  {
  }

  /** One pass of the loop: what it writes, and whether a heartbeat or a lease renewal
      brought the loop round with the page of the pass before. */
  datatype Pass = Pass(ids: seq<int>, before: int, after: int, again: bool)

  ghost predicate Chained(passes: seq<Pass>) {
    && (forall p :: p in passes && !p.again ==> Increasing(p.ids) && Within(p.ids, p.before, p.after) && p.before <= p.after)
    && (forall i, j :: 0 <= i && j == i + 1 && j < |passes| ==>
          && passes[j].before == passes[i].after
          && (passes[j].again ==> passes[j].ids == passes[i].ids && passes[j].after == passes[i].after))
    && (passes != [] ==> !passes[0].again)
  }

  function Written(passes: seq<Pass>): seq<int> {
    if passes == [] then [] else Written(passes[..|passes| - 1]) + passes[|passes| - 1].ids
  }

  lemma {:induction false} QuietTicksKeepIncreasing(passes: seq<Pass>)
    requires Chained(passes) && passes != [] && forall p :: p in passes && p.again ==> p.ids == []
    ensures Increasing(Written(passes)) && forall id :: id in Written(passes) ==> id <= passes[|passes| - 1].after
  {
    var init, last := passes[..|passes| - 1], passes[|passes| - 1];
    if init != [] {
      ChainedPrefix(passes, |passes| - 1);
      QuietTicksKeepIncreasing(init);
      assert init[|init| - 1] == passes[|init| - 1] && last.before == init[|init| - 1].after;
    }
    assert last in passes;
    if last.again {
      assert Written(passes) == Written(init);
    } else {
      assert Within(last.ids, last.before, last.after) && Increasing(last.ids);
      assert forall i :: 0 <= i < |Written(init)| ==> Written(init)[i] in Written(init);
    }
  }

  lemma ChainedPrefix(passes: seq<Pass>, n: nat)
    requires Chained(passes) && n <= |passes|
    ensures Chained(passes[..n])
  {
  }

  lemma {:induction false} WrittenPrefix(passes: seq<Pass>, n: nat)
    requires n <= |passes|
    ensures Written(passes[..n]) <= Written(passes)
  {
    if n < |passes| {
      var init := passes[..|passes| - 1];
      WrittenPrefix(init, n);
      assert init[..n] == passes[..n];
    } else {
      assert passes[..n] == passes;
    }
  }

  lemma WrittenTwice(passes: seq<Pass>, i: nat)
    requires 0 < i < |passes| && passes[i].ids == passes[i - 1].ids
    ensures Written(passes[..i + 1]) == Written(passes[..i - 1]) + passes[i].ids + passes[i].ids
  {
    assert passes[..i + 1][..i] == passes[..i] && passes[..i][..i - 1] == passes[..i - 1];
  }

  lemma RepeatIsNotIncreasing(before: seq<int>, ids: seq<int>, all: seq<int>)
    requires ids != [] && before + ids + ids <= all
    ensures !Increasing(all)
  {
    assert all[|before|] == ids[0] == all[|before| + |ids|];
  }

  lemma LoudTickRepeats(passes: seq<Pass>, i: nat)
    requires Chained(passes) && i < |passes| && passes[i].again && passes[i].ids != []
    ensures !Increasing(Written(passes))
  {
    assert passes[i - 1].ids == passes[i].ids;
    WrittenTwice(passes, i);
    WrittenPrefix(passes, i + 1);
    RepeatIsNotIncreasing(Written(passes[..i - 1]), passes[i].ids, Written(passes));
  }

  /** Event ids are meant to increase, so that a client can resume after the last one it
      saw. They do exactly if no heartbeat and no renewal comes while the last page read
      has items: such a tick writes that whole page again. */
  lemma IdsIncreaseIffTicksAreQuiet(passes: seq<Pass>)
    requires Chained(passes)
    ensures Increasing(Written(passes)) <==> forall p :: p in passes && p.again ==> p.ids == []
  {
    if passes != [] {
      if forall p :: p in passes && p.again ==> p.ids == [] {
        QuietTicksKeepIncreasing(passes);
      } else {
        var p :| p in passes && p.again && p.ids != [];
        var i :| 0 <= i < |passes| && passes[i] == p;
        LoudTickRepeats(passes, i);
      }
    }
  }

  /** The stream itself: the world at each pass, and the page it then writes. */
  datatype Turn = Turn(w: World, page: Page, cursor: nat, again: bool)

  ghost predicate TurnOk(t: Turn) {
    WorldOk(t.w) && (!t.again ==> t.page == List(Retained(t.w), t.cursor, STREAM_LIMIT))
  }

  ghost predicate Follows(t: Turn, u: Turn) {
    && !Ends(Project(t.page), t.cursor) && u.cursor == NextCursor(Project(t.page), t.cursor)
    && (u.again ==> u.page == t.page && !t.page.hasMore)
  }

  ghost predicate IsStream(turns: seq<Turn>) {
    && (forall i {:trigger TurnOk(turns[i])} :: 0 <= i < |turns| ==> TurnOk(turns[i]))
    && (forall i, j {:trigger Follows(turns[i], turns[j])} :: 0 <= i && j == i + 1 && j < |turns| ==> Follows(turns[i], turns[j]))
    && (turns != [] ==> !turns[0].again)
  }

  function PassOf(t: Turn): Pass {
    Pass(Ids(t.page), t.cursor, NextCursor(t.page, t.cursor), t.again)
  }

  lemma TurnPasses(turns: seq<Turn>, i: nat)
    requires IsStream(turns) && i < |turns| && !turns[i].again
    ensures var p := PassOf(turns[i]); Increasing(p.ids) && Within(p.ids, p.before, p.after) && p.before <= p.after
  {
    assert TurnOk(turns[i]);
    FreshPageMovesOn(turns[i].w, turns[i].cursor);
  }

  lemma FollowingPasses(turns: seq<Turn>, i: nat)
    requires IsStream(turns) && i + 1 < |turns|
    ensures var p, q := PassOf(turns[i]), PassOf(turns[i + 1]);
            && q.before == p.after
            && (q.again ==> q.ids == p.ids && q.after == p.after && (q.ids == [] <==> turns[i + 1].page.items == []))
  {
    assert Follows(turns[i], turns[i + 1]);
    FramesCarryIds(turns[i].page, turns[i].cursor);
  }

  function Passes(turns: seq<Turn>): (r: seq<Pass>)
    ensures |r| == |turns| && forall i :: 0 <= i < |turns| ==> r[i] == PassOf(turns[i])
  {
    seq(|turns|, i requires 0 <= i < |turns| => PassOf(turns[i]))
  }

  lemma StreamIsChained(turns: seq<Turn>)
    requires IsStream(turns)
    ensures Chained(Passes(turns))
  {
    var passes := Passes(turns);
    forall i | 0 <= i < |turns| && !passes[i].again
      ensures Increasing(passes[i].ids) && Within(passes[i].ids, passes[i].before, passes[i].after) && passes[i].before <= passes[i].after
    {
      TurnPasses(turns, i);
    }
    forall i, j | 0 <= i && j == i + 1 && j < |turns|
      ensures passes[j].before == passes[i].after
      ensures passes[j].again ==> passes[j].ids == passes[i].ids && passes[j].after == passes[i].after
    {
      FollowingPasses(turns, i);
    }
  }

  /** The same for the pages of a real stream: between any appends and compactions, its
      ids increase exactly if every tick finds the last page empty. */
  lemma StreamIdsIncreaseIff(turns: seq<Turn>)
    requires IsStream(turns)
    ensures Increasing(Written(Passes(turns))) <==> forall i :: 0 <= i < |turns| && turns[i].again ==> turns[i].page.items == []
  {
    StreamIsChained(turns);
    IdsIncreaseIffTicksAreQuiet(Passes(turns));
    QuietTicks(turns);
  }

  lemma QuietTicks(turns: seq<Turn>)
    requires IsStream(turns)
    ensures (forall p :: p in Passes(turns) && p.again ==> p.ids == [])
            <==> forall i :: 0 <= i < |turns| && turns[i].again ==> turns[i].page.items == []
  {
    var passes := Passes(turns);
    forall i | 0 <= i < |turns| && turns[i].again
      ensures passes[i] in passes && (passes[i].ids == [] <==> turns[i].page.items == [])
    {
      FollowingPasses(turns, i - 1);
    }
  }

  /** A run with one event and a heartbeat after it: the event is written twice. */
  lemma HeartbeatWritesTheEventAgain(e: Event)
    requires e.sequence == 1 && e.eventType == "running" && e.status == "running"
    ensures exists turns :: IsStream(turns) && Written(Passes(turns)) == [1, 1]
  {
    var page := Page([e], 1, 1, 1, None, false, false);
    var t, u := OneEventTurn(e, false), OneEventTurn(e, true);
    OneEventTurns(e);
    PairIsStream(t, u);
    assert Ids(page) == [1];
    TwicePassed(Passes([t, u]));
  }

  function OneEventTurn(e: Event, again: bool): Turn {
    Turn(World([Entry(true, e)], 0), Page([e], 1, 1, 1, None, false, false), if again then 1 else 0, again)
  }

  lemma OneEventTurns(e: Event)
    requires e.sequence == 1 && e.eventType == "running" && e.status == "running"
    ensures TurnOk(OneEventTurn(e, false)) && TurnOk(OneEventTurn(e, true))
    ensures Follows(OneEventTurn(e, false), OneEventTurn(e, true))
  {
    OneEventPage(e);
    OneEventDoesNotEnd(e);
  }

  lemma PairIsStream(t: Turn, u: Turn)
    requires TurnOk(t) && TurnOk(u) && Follows(t, u) && !t.again
    ensures IsStream([t, u])
  {
    var turns := [t, u];
    assert turns[0] == t && turns[1] == u;
    forall i | 0 <= i < |turns|
      ensures TurnOk(turns[i])
    {
      assert i == 0 || i == 1;
    }
    forall i, j | 0 <= i && j == i + 1 && j < |turns|
      ensures Follows(turns[i], turns[j])
    {
      assert i == 0 && j == 1;
    }
  }

  lemma TwicePassed(passes: seq<Pass>)
    requires |passes| == 2 && passes[0].ids == passes[1].ids == [1]
    ensures Written(passes) == [1, 1]
  {
    assert Written(passes[..1]) == Written(passes[..1][..0]) + [1];
  }

  lemma OneEventPage(e: Event)
    requires e.sequence == 1 && e.eventType == "running" && e.status == "running"
    ensures var w := World([Entry(true, e)], 0);
            WorldOk(w) && List(Retained(w), 0, STREAM_LIMIT) == Page([e], 1, 1, 1, None, false, false)
  {
    var w := World([Entry(true, e)], 0);
    assert PublicIn(w.history, 0, 0) == [];
    assert Retained(w) == [e];
    AfterOne([], e, 0);
    RunningIsNotTerminal(e);
  }

  lemma RunningIsNotTerminal(e: Event)
    requires e.eventType == "running" && e.status == "running"
    ensures TerminalSequence([e]) == 0
  {
    assert !TerminalEvent(e) && TerminalSequence([e]) == TerminalSequence([e][..0]) == 0;
  }

  lemma OneEventDoesNotEnd(e: Event)
    requires e.sequence == 1 && e.eventType == "running" && e.status == "running"
    ensures var page := Project(Page([e], 1, 1, 1, None, false, false)); !Ends(page, 0) && NextCursor(page, 0) == 1
  {
    assert Trim("running") == "running";
    assert ProjectEvent(e).status == "running" && ProjectEvent(e).eventType == "running";
    var items := ProjectItems([e]);
    assert PublicTerminalSequence(items[..0]) == 0;
  }

  // ---------- when a stream ends ----------

  lemma {:induction false} PublicTerminalSequenceFacts(items: seq<Event>)
    ensures PublicTerminalSequence(items) != 0 ==>
              exists i :: 0 <= i < |items| && PublicTerminal(items[i].status) && items[i].sequence == PublicTerminalSequence(items)
  {
    if items != [] && !PublicTerminal(items[|items| - 1].status) {
      var init := items[..|items| - 1];
      PublicTerminalSequenceFacts(init);
      if PublicTerminalSequence(init) != 0 {
        var i :| 0 <= i < |init| && PublicTerminal(init[i].status) && init[i].sequence == PublicTerminalSequence(init);
        assert items[i] == init[i];
      }
    }
  }

  /** A stream that ends other than by a gap has written everything there was. */
  lemma EndsOnlyWhenCaughtUp(w: World, cursor: nat)
    requires WorldOk(w)
    ensures var page := List(Retained(w), cursor, STREAM_LIMIT);
            !page.gap && Ends(Project(page), cursor) ==> page.next >= page.latest
  {
    var page := List(Retained(w), cursor, STREAM_LIMIT);
    FreshPageMovesOn(w, cursor);
    FramesCarryIds(page, cursor);
    if !page.gap && Ends(Project(page), cursor) {
      EndsAtTheLatest(page, cursor);
      ReadIsExact(w, cursor, STREAM_LIMIT);
    }
  }

  lemma EndsAtTheLatest(page: Page, cursor: int)
    requires !page.gap && Ends(Project(page), cursor) && page.next == NextCursor(page, cursor)
    requires Within(Ids(page), cursor, page.next) && (page.next < page.latest ==> page.hasMore)
    ensures page.next >= page.latest
  {
    var items := Project(page).items;
    forall i | 0 <= i < |items|
      ensures items[i].sequence <= page.next
    {
      assert Ids(page)[i] == items[i].sequence;
    }
  }

  lemma {:induction false} PublicTerminalSequenceIff(items: seq<Event>)
    requires forall e :: e in items ==> e.sequence > 0
    ensures PublicTerminalSequence(items) > 0 <==> exists i :: 0 <= i < |items| && PublicTerminal(items[i].status)
  {
    if items != [] {
      var n := |items| - 1;
      assert items[n] in items;
      assert items == items[..n] + [items[n]];
      if !PublicTerminal(items[n].status) {
        PublicTerminalSequenceIff(items[..n]);
        if i :| 0 <= i < |items| && PublicTerminal(items[i].status) {
          assert items[..n][i] == items[i];
        }
      }
    }
  }

  /** At the end of the log a stream ends exactly if the log holds a terminal event, or
      some event on the page has a status that is not one of a live run, or the last
      event is of an outcome's type. */
  lemma EndsIff(w: World, cursor: nat)
    requires WorldOk(w)
    requires var page := List(Retained(w), cursor, STREAM_LIMIT); !page.gap && !page.hasMore
    ensures var page := List(Retained(w), cursor, STREAM_LIMIT); var n := |page.items|;
            Ends(Project(page), cursor) <==>
              || TerminalSequence(Retained(w)) > 0
              || (exists i :: 0 <= i < n && !LiveWord(Trim(page.items[i].status)))
              || (n > 0 && PublicTerminal(ProjectItems(page.items)[n - 1].eventType))
  {
    var page := List(Retained(w), cursor, STREAM_LIMIT);
    ReadIsExact(w, cursor, STREAM_LIMIT);
    SliceBounds(w.history, cursor, Min(page.next, |w.history|));
    FreshPageMovesOn(w, cursor);
    FramesCarryIds(page, cursor);
    TerminalAtMostLast(w);
    assert page.terminal.Some? <==> TerminalSequence(Retained(w)) > 0;
    EndsIffOnPage(page, cursor);
  }

  lemma EndsIffOnPage(page: Page, cursor: int)
    requires !page.gap && !page.hasMore && page.next == NextCursor(Project(page), cursor) >= page.latest
    requires page.terminal.Some? ==> page.terminal.value <= page.latest
    requires forall e :: e in page.items ==> 0 < e.sequence <= page.next
    ensures var n := |page.items|;
            Ends(Project(page), cursor) <==>
              || page.terminal.Some?
              || (exists i :: 0 <= i < n && !LiveWord(Trim(page.items[i].status)))
              || (n > 0 && PublicTerminal(ProjectItems(page.items)[n - 1].eventType))
  {
    PublicItems(page.items);
    ProjectedTerminal(page);
    EndsIffProjected(Project(page), cursor);
  }

  lemma ProjectedTerminal(page: Page)
    requires page.terminal.Some? ==> page.terminal.value <= page.next
    requires forall e :: e in page.items ==> 0 < e.sequence <= page.next
    ensures var t, items := Project(page).terminal, ProjectItems(page.items);
            && (t.Some? <==> page.terminal.Some? || exists i :: 0 <= i < |items| && PublicTerminal(items[i].status))
            && (t.Some? ==> t.value <= page.next)
  {
    var items := ProjectItems(page.items);
    PublicTerminalSequenceIff(items);
    if PublicTerminalSequence(items) != 0 {
      PublicTerminalSequenceFacts(items);
    }
  }

  /** At the end of the log, ending comes down to a terminal sequence or a last event. */
  lemma EndsIffProjected(page: Page, cursor: int)
    requires !page.gap && !page.hasMore && NextCursor(page, cursor) >= page.latest
    requires page.terminal.Some? ==> page.terminal.value <= NextCursor(page, cursor)
    ensures Ends(page, cursor) <==> page.terminal.Some? || (page.items != [] && SseTerminal(page.items[|page.items| - 1]))
  {
    if page.items != [] && SseTerminal(page.items[|page.items| - 1]) {
      assert EndsAt(page, |page.items| - 1);
    }
  }

  lemma PublicItems(items: seq<Event>)
    ensures forall i :: 0 <= i < |items| ==>
              ProjectItems(items)[i].sequence == items[i].sequence
              && (PublicTerminal(ProjectItems(items)[i].status) <==> !LiveWord(Trim(items[i].status)))
  {
    forall i | 0 <= i < |items|
      ensures PublicTerminal(ProjectItems(items)[i].status) <==> !LiveWord(Trim(items[i].status))
    {
      PublicTerminalIff(Trim(items[i].status));
    }
  }

  lemma TerminalAtMostLast(w: World)
    requires WorldOk(w)
    ensures TerminalSequence(Retained(w)) <= Last(Retained(w))
  {
    var rows := Retained(w);
    SliceBounds(w.history, w.floor, |w.history|);
    if TerminalSequence(rows) != 0 {
      TerminalIsThere(rows);
      var i :| 0 <= i < |rows| && TerminalEvent(rows[i]) && rows[i].sequence == TerminalSequence(rows);
      assert i == |rows| - 1 || rows[i].sequence < rows[|rows| - 1].sequence;
    }
  }
}
