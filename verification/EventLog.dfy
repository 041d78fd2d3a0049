/** One run's public event log (agent_run_repository.go): the in-memory form and
    the SQL table, appending under idempotency keys, pruning and reading pages. */
module EventLog {
  import opened Wrappers
  import opened Sanitizer

  datatype Event = Event(sequence: int, eventType: string, status: string, data: Fields)

  /** A row of runtime_run_events; only public rows carry an idempotency key here. */
  datatype Row = Row(sequence: int, public: bool, key: Option<string>, eventType: string, data: Fields)

  datatype EventError = IdempotencyConflict | SequenceConflict

  const STATUS := "status"

  // ---------- appending ----------

  function Safe(data: Fields): Fields {
    Sanitize(Forbidden, data, 0)
  }

  /** What every append does to its event first. */
  function Prepared(e: Event): Event {
    var data := Safe(e.data);
    e.(data := if e.status != "" && STATUS !in data then data[STATUS := Text(e.status)] else data)
  }

  /** sameAgentRunEvent, within one run. */
  predicate Same(existing: Event, candidate: Event) {
    && existing.eventType == candidate.eventType && existing.status == candidate.status
    && (candidate.sequence > 0 ==> existing.sequence == candidate.sequence)
    && Safe(existing.data) == Safe(candidate.data)
  }

  function Last(events: seq<Event>): int {
    if events == [] then 0 else events[|events| - 1].sequence
  }

  datatype Log = Log(events: seq<Event>, keys: map<string, Event>)

  predicate HasSequence(events: seq<Event>, sequence: int) {
    exists i :: 0 <= i < |events| && events[i].sequence == sequence
  }

  /** appendPublicEvent, in memory. */
  function Append(log: Log, e: Event, key: Option<string>): (Log, Option<EventError>) {
    var p := Prepared(e);
    if key.Some? && key.value in log.keys then (log, if Same(log.keys[key.value], p) then None else Some(IdempotencyConflict))
    else if HasSequence(log.events, p.sequence) then (log, None)
    else if p.sequence > 0 && p.sequence != Last(log.events) + 1 then (log, Some(SequenceConflict))
    else
      var stored := p.(sequence := Last(log.events) + 1);
      (Log(log.events + [stored], if key.Some? then log.keys[key.value := stored] else log.keys), None)
  }

  /** fmt.Sprint; of an array or object only the opening is kept. */
  function Print(v: Json): string {
    match v case Text(t) => t case Scalar(p) => p case Arr(_) => "[" case Obj(_) => "map["
  }

  function PrintedStatus(data: Fields): string {
    if STATUS in data then Print(data[STATUS]) else "<nil>"
  }

  /** How the SQL form reads an event back when its key is used again. */
  function ReadBack(r: Row): Event {
    Event(r.sequence, r.eventType, PrintedStatus(Safe(r.data)), Safe(r.data))
  }

  function FindKey(rows: seq<Row>, key: string): Option<nat> {
    if rows == [] then None
    else if rows[|rows| - 1].key == Some(key) then Some(|rows| - 1)
    else FindKey(rows[..|rows| - 1], key)
  }

  function LastRow(rows: seq<Row>): int {
    if rows == [] then 0 else rows[|rows| - 1].sequence
  }

  /** appendPublicEvent as a transaction. */
  function AppendSql(rows: seq<Row>, e: Event, key: Option<string>): (seq<Row>, Option<EventError>) {
    var p := Prepared(e);
    var found := if key.Some? then FindKey(rows, key.value) else None;
    if found.Some? && found.value < |rows| then
      (rows, if Same(ReadBack(rows[found.value]), p) then None else Some(IdempotencyConflict))
    else if 0 < p.sequence <= LastRow(rows) then
      (rows, if exists i :: 0 <= i < |rows| && rows[i].sequence == p.sequence then None else Some(SequenceConflict))
    else if p.sequence > 0 && p.sequence != LastRow(rows) + 1 then (rows, Some(SequenceConflict))
    else (rows + [Row(LastRow(rows) + 1, true, key, p.eventType, p.data)], None)
  }

  // ---------- appending the same event again ----------

  lemma StatusIsAllowed()
    ensures !Forbidden(STATUS)
  {
    assert NormalKey(STATUS) == STATUS by {
      Untrimmed(STATUS);
      assert Squeezed("status") == ['s'] + Squeezed("tatus") && Squeezed("tatus") == ['t'] + Squeezed("atus");
      assert Squeezed("atus") == ['a'] + Squeezed("tus") && Squeezed("tus") == ['t'] + Squeezed("us");
    }
  }

  lemma PreparedIsSafe(e: Event)
    ensures Safe(Prepared(e).data) == Prepared(e).data
  {
    var safe, data := Safe(e.data), Prepared(e).data;
    SanitizedIsClean(Forbidden, Obj(e.data), 0);
    StatusIsAllowed();
    assert forall k :: k in data ==> !Forbidden(k) && Clean(Forbidden, data[k]) && Shallow(data[k], 1);
    UnchangedIffClean(Forbidden, Obj(data), 0);
  }

  /** A new event under a new key goes to the end. */
  lemma FreshAppend(log: Log, e: Event, key: string)
    requires Prepared(e) == e && e.sequence == 0 && key !in log.keys && !HasSequence(log.events, 0)
    ensures var stored := e.(sequence := Last(log.events) + 1);
            Append(log, e, Some(key)) == (Log(log.events + [stored], log.keys[key := stored]), None)
  {
  }

  /** The same key with other content, another type or another status is a conflict. */
  lemma OtherContentConflicts(log: Log, e: Event, key: string)
    requires key in log.keys
    ensures Append(log, e, Some(key)) == (log, None) ==>
              && log.keys[key].eventType == e.eventType && log.keys[key].status == e.status
              && Safe(log.keys[key].data) == Prepared(e).data
    ensures Append(log, e, Some(key)) != (log, None) ==> Append(log, e, Some(key)) == (log, Some(IdempotencyConflict))
  {
    PreparedIsSafe(e);
  }

  /** What a caller can check before it appends: the payload's own status, if there
      is one, prints as the event's status, and otherwise the event has a status. */
  predicate StatusAgrees(e: Event) {
    if STATUS in e.data then Print(e.data[STATUS]) == e.status else e.status != ""
  }

  lemma SafeStatus(data: Fields)
    ensures PrintedStatus(Safe(data)) == PrintedStatus(data)
    ensures STATUS in Safe(data) <==> STATUS in data
  {
    StatusIsAllowed();
    if STATUS in data {
      SanitizedIsClean(Forbidden, data[STATUS], 1);
    }
  }

  /** The table stores no status but reads it back from the payload. While the row is
      there, the same append is a no-op exactly if the two agree, else a conflict. */
  lemma ReappendSqlIffStatusAgrees(rows: seq<Row>, e: Event, key: string, later: seq<Row>, j: nat)
    requires FindKey(rows, key).None? && |AppendSql(rows, e, Some(key)).0| > |rows|
    requires FindKey(later, key) == Some(j) && j < |later| && later[j] == AppendSql(rows, e, Some(key)).0[|rows|]
    ensures AppendSql(later, e, Some(key)) == (later, if StatusAgrees(e) then None else Some(IdempotencyConflict))
  {
    PreparedIsSafe(e);
    SafeStatus(e.data);
  }

  /** A caller that leaves both statuses out conflicts with itself. */
  lemma EventWithoutStatusConflictsWithItself()
    ensures exists e: Event, rows: seq<Row> ::
              AppendSql([], e, Some("k")) == (rows, None) && AppendSql(rows, e, Some("k")) == (rows, Some(IdempotencyConflict))
  {
    var e := Event(0, "progress", "", map[]);
    var rows := AppendSql([], e, Some("k")).0;
    assert |rows| == 1 && FindKey(rows, "k") == Some(0);
    ReappendSqlIffStatusAgrees([], e, "k", rows, 0);
  }

  // ---------- reading pages ----------

  datatype Page = Page(items: seq<Event>, next: int, oldest: int, latest: int, terminal: Option<int>, hasMore: bool, gap: bool)

  const DEFAULT_LIMIT := 100
  const MAX_LIMIT := 500

  function PageLimit(limit: int): (l: int)
    ensures 1 <= l <= MAX_LIMIT
  {
    if limit <= 0 then DEFAULT_LIMIT else if limit > MAX_LIMIT then MAX_LIMIT else limit
  }

  predicate TerminalWord(word: string) {
    word == "succeeded" || word == "failed" || word == "cancelled" || word == "timeout" || word == "aborted" || word == "orphaned"
  }

  /** terminalAgentRunEvent */
  predicate TerminalEvent(e: Event) {
    TerminalWord(e.eventType) || TerminalWord(e.status)
  }

  /** The sequence of the last terminal event, 0 without one. */
  function TerminalSequence(events: seq<Event>): int {
    if events == [] then 0
    else if TerminalEvent(events[|events| - 1]) then events[|events| - 1].sequence
    else TerminalSequence(events[..|events| - 1])
  }

  function Oldest(events: seq<Event>): int {
    if events == [] then 0 else events[0].sequence
  }

  /** retainedAgentEventGap */
  predicate RetainedGap(after: int, oldest: int) {
    oldest > 1 && after < oldest - 1
  }

  /** pageAgentEvents */
  function PageOf(items: seq<Event>, after: int, limit: int, oldest: int, latest: int, terminal: int): Page
    requires limit >= 1
  {
    var gap := RetainedGap(after, oldest);
    var kept := if |items| > limit then items[..limit] else items;
    var next := if |kept| > 0 then kept[|kept| - 1].sequence else after;
    Page(kept, next, oldest, latest, if terminal > 0 then Some(terminal) else None, |items| > limit || (next < latest && !gap), gap)
  }

  function After(events: seq<Event>, after: int): seq<Event> {
    if events == [] then []
    else After(events[..|events| - 1], after) + (if events[|events| - 1].sequence > after then [events[|events| - 1]] else [])
  }

  /** PrunePublicEventsBefore, in memory: the keys stay. */
  function Prune(log: Log, oldestToKeep: int): Log {
    log.(events := if oldestToKeep <= 1 then log.events else After(log.events, oldestToKeep - 1))
  }

  /** ListPublicEvents in memory: nothing but the bounds on a gap. */
  function List(events: seq<Event>, after: int, limit: int): Page {
    PageOf(if RetainedGap(after, Oldest(events)) then [] else After(events, after), after, PageLimit(limit),
           Oldest(events), Last(events), TerminalSequence(events))
  }

  /** ListPublicEvents as one statement: `limit + 1` rows, gap or not. */
  function ListSql(events: seq<Event>, after: int, limit: int): Page {
    var items := After(events, after);
    var l := PageLimit(limit);
    PageOf(if |items| > l + 1 then items[..l + 1] else items, after, l, Oldest(events), Last(events), TerminalSequence(events))
  }

  /** The forms agree on every page without a gap; with one they agree on the gap
      and its bounds, which is all that the API and the stream look at then. */
  lemma ListSqlAgrees(events: seq<Event>, after: int, limit: int)
    ensures var a, b := List(events, after, limit), ListSql(events, after, limit);
            && (!a.gap ==> b == a)
            && b.gap == a.gap && b.oldest == a.oldest && b.latest == a.latest && b.terminal == a.terminal
  {
  }

  class AgentRunEvents {
    var logs: map<string, Log>

    constructor ()
      ensures logs == map[]
    {
      logs := map[];
    }

    function LogOf(run: string): Log
      reads this
    {
      if run in logs then logs[run] else Log([], map[])
    }

    static method Prepare(e: Event) returns (event: Event)
      ensures event == Prepared(e)
    {
      event := e.(data := Safe(e.data));
      if event.status != "" && STATUS !in event.data {
        event := event.(data := event.data[STATUS := Text(event.status)]);
      }
    }

    method AppendPublicEvent(run: string, e: Event, key: Option<string>) returns (error: Option<EventError>)
      modifies this
      ensures error == Append(old(LogOf(run)), e, key).1
      ensures LogOf(run) == Append(old(LogOf(run)), e, key).0
      ensures forall other :: other != run ==> LogOf(other) == old(LogOf(other))
    {
      var log := LogOf(run);
      var event := Prepare(e);
      if key.Some? && key.value in log.keys {
        return if Same(log.keys[key.value], event) then None else Some(IdempotencyConflict);
      }
      for i := 0 to |log.events|
        invariant forall j :: 0 <= j < i ==> log.events[j].sequence != event.sequence
      {
        if log.events[i].sequence == event.sequence {
          return None;
        }
      }
      var last := 0;
      if |log.events| > 0 {
        last := log.events[|log.events| - 1].sequence;
      }
      if event.sequence <= 0 {
        event := event.(sequence := last + 1);
      } else if event.sequence != last + 1 {
        return Some(SequenceConflict);
      }
      logs := logs[run := Log(log.events + [event], if key.Some? then log.keys[key.value := event] else log.keys)];
      error := None;
    }

    /** eventSequenceBounds */
    static method Bounds(items: seq<Event>) returns (oldest: int, latest: int, terminal: int)
      ensures oldest == Oldest(items) && latest == Last(items) && terminal == TerminalSequence(items)
    {
      if |items| == 0 {
        return 0, 0, 0;
      }
      oldest, latest, terminal := items[0].sequence, items[|items| - 1].sequence, 0;
      for i := 0 to |items|
        invariant terminal == TerminalSequence(items[..i])
      {
        assert items[..i + 1][..i] == items[..i];
        if TerminalEvent(items[i]) {
          terminal := items[i].sequence;
        }
      }
      assert items[..|items|] == items;
    }

    method ListPublicEvents(run: string, after: int, limit: int) returns (page: Page)
      ensures page == List(LogOf(run).events, after, limit)
    {
      var stored := LogOf(run).events;
      var oldest, latest, terminal := Bounds(stored);
      if RetainedGap(after, oldest) {
        return PageOf([], after, PageLimit(limit), oldest, latest, terminal);
      }
      var items := [];
      for i := 0 to |stored|
        invariant items == After(stored[..i], after)
      {
        assert stored[..i + 1][..i] == stored[..i];
        if stored[i].sequence > after {
          items := items + [stored[i]];
        }
      }
      assert stored[..|stored|] == stored;
      page := PageOf(items, after, PageLimit(limit), oldest, latest, terminal);
    }

    method PrunePublicEventsBefore(run: string, oldestToKeep: int)
      modifies this
      ensures var log := old(LogOf(run));
              LogOf(run) == Prune(log, oldestToKeep)
      ensures forall other :: other != run ==> LogOf(other) == old(LogOf(other))
    {
      if oldestToKeep <= 1 {
        return;
      }
      var items := LogOf(run).events;
      var kept := [];
      for i := 0 to |items|
        invariant kept == After(items[..i], oldestToKeep - 1)
      {
        assert items[..i + 1][..i] == items[..i];
        if items[i].sequence >= oldestToKeep {
          kept := kept + [items[i]];
        }
      }
      assert items[..|items|] == items;
      logs := logs[run := LogOf(run).(events := kept)];
    }
  }
}
