/** Idempotency keys over time: what a repeated append does after any number of
    other appends, prunes and compactions. */
module EventKeys {
  import opened Wrappers
  import opened Sanitizer
  import opened EventLog

  // ---------- in memory ----------

  datatype Move = Appended(event: Event, key: Option<string>) | Pruned(oldestToKeep: int)

  function Moved(log: Log, m: Move): Log {
    match m
    case Appended(e, key) => Append(log, e, key).0
    case Pruned(oldestToKeep) => Prune(log, oldestToKeep)
  }

  function Run(log: Log, moves: seq<Move>): Log {
    if moves == [] then log else Moved(Run(log, moves[..|moves| - 1]), moves[|moves| - 1])
  }

  const EMPTY := Log([], map[])

  lemma {:induction false} KeyStays(log: Log, moves: seq<Move>, key: string)
    requires key in log.keys
    ensures key in Run(log, moves).keys && Run(log, moves).keys[key] == log.keys[key]
  {
    if moves != [] {
      KeyStays(log, moves[..|moves| - 1], key);
    }
  }

  /** What every log looks like: consecutive numbers, starting anywhere from 1. */
  ghost predicate Consecutive(events: seq<Event>) {
    && (events != [] ==> events[0].sequence >= 1)
    && forall i :: 0 <= i < |events| ==> events[i].sequence == events[0].sequence + i
  }

  function Cut(events: seq<Event>, after: int): (c: nat)
    ensures c <= |events|
  {
    if events == [] || after < events[0].sequence then 0
    else if after - events[0].sequence + 1 > |events| then |events|
    else after - events[0].sequence + 1
  }

  lemma {:induction false} AfterIsSuffix(events: seq<Event>, after: int)
    requires Consecutive(events)
    ensures After(events, after) == events[Cut(events, after)..]
  {
    if events != [] {
      var n := |events| - 1;
      AfterIsSuffix(events[..n], after);
      if events[n].sequence > after {
        assert events[Cut(events, after)..] == events[..n][Cut(events[..n], after)..] + [events[n]];
      } else {
        assert events[..n][Cut(events[..n], after)..] == [];
      }
    }
  }

  /** An append leaves the log alone or adds the next number at its end. */
  lemma AppendShape(log: Log, e: Event, key: Option<string>)
    ensures var events := Append(log, e, key).0.events;
            || events == log.events
            || (|events| == |log.events| + 1 && events[..|log.events|] == log.events
                && events[|log.events|].sequence == Last(log.events) + 1)
  {
    var events := Append(log, e, key).0.events;
    if |events| > |log.events| {
      assert events == log.events + [events[|log.events|]];
    }
  }

  lemma MoveIsConsecutive(log: Log, m: Move)
    requires Consecutive(log.events)
    ensures Consecutive(Moved(log, m).events)
  {
    match m
    case Appended(e, key) => AppendShape(log, e, key);
    case Pruned(oldestToKeep) => AfterIsSuffix(log.events, oldestToKeep - 1);
  }

  lemma {:induction false} RunIsConsecutive(moves: seq<Move>)
    ensures Consecutive(Run(EMPTY, moves).events)
  {
    if moves != [] {
      RunIsConsecutive(moves[..|moves| - 1]);
      MoveIsConsecutive(Run(EMPTY, moves[..|moves| - 1]), moves[|moves| - 1]);
    }
  }

  /** A call that found or stored its key is a no-op at any later time. */
  lemma ReappendIsNoOp(log: Log, e: Event, key: string, moves: seq<Move>)
    requires Append(log, e, Some(key)).1.None?
    requires key in log.keys || !HasSequence(log.events, e.sequence)
    ensures var later := Run(Append(log, e, Some(key)).0, moves);
            Append(later, e, Some(key)) == (later, None)
  {
    KeyStays(Append(log, e, Some(key)).0, moves, key);
  }

  /** A call under a new key with the number of a stored event answers that all is
      well but stores no key: append another event, prune the old ones, and the
      same call is refused. */
  lemma TakenSequenceIsRefusedLater(log: Log, e: Event, key: string, x: Event)
    requires Consecutive(log.events) && key !in log.keys && HasSequence(log.events, e.sequence) && x.sequence == 0
    ensures Append(log, e, Some(key)) == (log, None) && log.events != []
    ensures var later := Run(log, [Appended(x, None), Pruned(Last(log.events) + 1)]);
            Append(later, e, Some(key)) == (later, Some(SequenceConflict))
  {
    var last := Last(log.events);
    var longer, m := Append(log, x, None).0, Pruned(Last(log.events) + 1);
    var stored := Prepared(x).(sequence := last + 1);
    assert longer == Log(log.events + [stored], log.keys);
    OnlyTheNewest(log, stored);
    TwoMoves(log, Appended(x, None), m);
    RefusedAfterwards(Log([stored], log.keys), e, key);
  }

  lemma TwoMoves(log: Log, first: Move, second: Move)
    ensures Run(log, [first, second]) == Moved(Moved(log, first), second)
  {
    var moves := [first, second];
    assert moves[..1] == [first] && moves[..1][..0] == [];
    assert Run(log, []) == log;
    assert Run(log, moves[..1]) == Moved(log, first);
  }

  lemma OnlyTheNewest(log: Log, stored: Event)
    requires Consecutive(log.events) && stored.sequence == Last(log.events) + 1 && log.events != []
    ensures Prune(Log(log.events + [stored], log.keys), Last(log.events) + 1) == Log([stored], log.keys)
  {
    AfterIsSuffix(log.events + [stored], Last(log.events));
  }

  lemma RefusedAfterwards(log: Log, e: Event, key: string)
    requires |log.events| == 1 && key !in log.keys && 0 < e.sequence < log.events[0].sequence
    ensures Append(log, e, Some(key)) == (log, Some(SequenceConflict))
  {
  }

  /** Exactly then: in every reachable log, an accepted call stays a no-op for ever
      if and only if its key was known or the number it asked for was not taken. */
  lemma ReappendIsNoOpIff(before: seq<Move>, e: Event, key: string)
    requires Append(Run(EMPTY, before), e, Some(key)).1.None?
    ensures var log := Run(EMPTY, before);
            var after := Append(log, e, Some(key)).0;
            (forall moves :: Append(Run(after, moves), e, Some(key)) == (Run(after, moves), None))
            <==> key in log.keys || !HasSequence(log.events, e.sequence)
  {
    var log := Run(EMPTY, before);
    var after := Append(log, e, Some(key)).0;
    if key in log.keys || !HasSequence(log.events, e.sequence) {
      forall moves
        ensures Append(Run(after, moves), e, Some(key)) == (Run(after, moves), None)
      {
        ReappendIsNoOp(log, e, key, moves);
      }
    } else {
      RunIsConsecutive(before);
      var x := Event(0, "progress", "", map[]);
      TakenSequenceIsRefusedLater(log, e, key, x);
      var moves := [Appended(x, None), Pruned(Last(log.events) + 1)];
      assert Append(Run(after, moves), e, Some(key)).1 == Some(SequenceConflict);
    }
  }

  // ---------- the table ----------

  /** The terminal test of the compaction query; a missing status prints as no terminal word. */
  predicate TerminalRow(r: Row) {
    r.public && (TerminalWord(r.eventType) || TerminalWord(PrintedStatus(r.data)))
  }

  function LastTerminal(rows: seq<Row>): int {
    if rows == [] then 0
    else
      var n := |rows| - 1;
      var before := LastTerminal(rows[..n]);
      if TerminalRow(rows[n]) && rows[n].sequence > before then rows[n].sequence else before
  }

  /** The table without the public rows below `floor`. */
  function Kept(rows: seq<Row>, floor: int): seq<Row> {
    if rows == [] then []
    else
      var n := |rows| - 1;
      Kept(rows[..n], floor) + (if rows[n].public && rows[n].sequence < floor then [] else [rows[n]])
  }

  predicate DraftBefore(rows: seq<Row>, sequence: int) {
    exists i :: 0 <= i < |rows| && rows[i].public && rows[i].eventType == "draft_delta" && rows[i].sequence < sequence
  }

  datatype RowMove =
    | AppendedRow(event: Event, key: Option<string>)
    | AdminRow(eventType: string, data: Fields)
    | CompactedRows
    | PrunedRows(oldestToKeep: int)

  function MovedRows(rows: seq<Row>, m: RowMove): seq<Row> {
    match m
    case AppendedRow(e, key) => AppendSql(rows, e, key).0
    case AdminRow(eventType, data) => rows + [Row(LastRow(rows) + 1, false, None, eventType, data)]
    case CompactedRows => if DraftBefore(rows, LastTerminal(rows)) then Kept(rows, LastTerminal(rows)) else rows
    case PrunedRows(oldestToKeep) => if oldestToKeep > 1 then Kept(rows, oldestToKeep) else rows
  }

  function RunRows(rows: seq<Row>, moves: seq<RowMove>): seq<Row> {
    if moves == [] then rows else MovedRows(RunRows(rows, moves[..|moves| - 1]), moves[|moves| - 1])
  }

  /** What takes row r out of the table: compaction, if r is public, lies below the
      last terminal row and a draft lies there too; or a prune above a public r. */
  predicate Deletes(rows: seq<Row>, m: RowMove, r: Row) {
    && r.public
    && match m
       case CompactedRows => r.sequence < LastTerminal(rows) && DraftBefore(rows, LastTerminal(rows))
       case PrunedRows(oldestToKeep) => oldestToKeep > 1 && r.sequence < oldestToKeep
       case _ => false
  }

  predicate DeletedBy(rows: seq<Row>, moves: seq<RowMove>, r: Row) {
    exists j :: 0 <= j < |moves| && Deletes(RunRows(rows, moves[..j]), moves[j], r)
  }

  /** Nobody else appends under this key. */
  predicate Foreign(moves: seq<RowMove>, key: string) {
    forall j :: 0 <= j < |moves| && moves[j].AppendedRow? ==> moves[j].key != Some(key)
  }

  ghost predicate OnlyRow(rows: seq<Row>, r: Row, key: string) {
    forall i :: 0 <= i < |rows| && rows[i].key == Some(key) ==> rows[i] == r
  }

  lemma {:induction false} KeptExactly(rows: seq<Row>, floor: int, r: Row)
    ensures r in Kept(rows, floor) <==> r in rows && !(r.public && r.sequence < floor)
  {
    if rows != [] {
      var n := |rows| - 1;
      KeptExactly(rows[..n], floor, r);
      assert rows == rows[..n] + [rows[n]];
    }
  }

  lemma {:induction false} FindKeyIff(rows: seq<Row>, key: string)
    ensures var found := FindKey(rows, key);
            && (found.Some? ==> found.value < |rows| && rows[found.value].key == Some(key))
            && (found.None? <==> forall i :: 0 <= i < |rows| ==> rows[i].key != Some(key))
  {
    if rows != [] {
      FindKeyIff(rows[..|rows| - 1], key);
      assert forall i :: 0 <= i < |rows| - 1 ==> rows[..|rows| - 1][i] == rows[i];
    }
  }

  lemma MoveOnRow(rows: seq<Row>, m: RowMove, r: Row, key: string)
    requires OnlyRow(rows, r, key) && r.key == Some(key) && (m.AppendedRow? ==> m.key != Some(key))
    ensures OnlyRow(MovedRows(rows, m), r, key)
    ensures r in MovedRows(rows, m) <==> r in rows && !Deletes(rows, m, r)
  {
    match m
    case AppendedRow(_, _) =>
    case AdminRow(_, _) =>
    case CompactedRows => KeptOnly(rows, LastTerminal(rows), r, key);
    case PrunedRows(oldestToKeep) => KeptOnly(rows, oldestToKeep, r, key);
  }

  lemma KeptOnly(rows: seq<Row>, floor: int, r: Row, key: string)
    requires OnlyRow(rows, r, key)
    ensures OnlyRow(Kept(rows, floor), r, key)
    ensures r in Kept(rows, floor) <==> r in rows && !(r.public && r.sequence < floor)
  {
    KeptExactly(rows, floor, r);
    var kept := Kept(rows, floor);
    forall i | 0 <= i < |kept| && kept[i].key == Some(key)
      ensures kept[i] == r
    {
      KeptExactly(rows, floor, kept[i]);
      assert kept[i] in kept;
    }
  }

  /** Following one row: it is there exactly until a move deletes it. */
  lemma {:induction false} RowIsThereUntilDeleted(rows: seq<Row>, moves: seq<RowMove>, r: Row, key: string)
    requires OnlyRow(rows, r, key) && r in rows && r.key == Some(key) && Foreign(moves, key)
    ensures OnlyRow(RunRows(rows, moves), r, key)
    ensures r in RunRows(rows, moves) <==> !DeletedBy(rows, moves, r)
  {
    if moves != [] {
      var n := |moves| - 1;
      var before, m := RunRows(rows, moves[..n]), moves[n];
      RowIsThereUntilDeleted(rows, moves[..n], r, key);
      MoveOnRow(before, m, r, key);
      DeletedByLast(rows, moves, r);
    }
  }

  lemma DeletedByLast(rows: seq<Row>, moves: seq<RowMove>, r: Row)
    requires moves != []
    ensures var n := |moves| - 1;
            DeletedBy(rows, moves, r) <==> DeletedBy(rows, moves[..n], r) || Deletes(RunRows(rows, moves[..n]), moves[n], r)
  {
    var n := |moves| - 1;
    assert forall j :: 0 <= j < n ==> moves[..n][..j] == moves[..j] && moves[..n][j] == moves[j];
    if DeletedBy(rows, moves[..n], r) {
      var j :| 0 <= j < n && Deletes(RunRows(rows, moves[..n][..j]), moves[..n][j], r);
      assert Deletes(RunRows(rows, moves[..j]), moves[j], r);
    }
    if DeletedBy(rows, moves, r) {
      var j :| 0 <= j < |moves| && Deletes(RunRows(rows, moves[..j]), moves[j], r);
      assert j < n ==> Deletes(RunRows(rows, moves[..n][..j]), moves[..n][j], r);
    }
  }

  /** In SQL the key lives and dies with its row. After an append under a key and
      any further appends, compactions and prunes, the same call stores a second
      row exactly if the first one has been deleted (and the number it asks for,
      if any, is the next one); with the row still there it is a no-op or a
      conflict, as its status says. */
  lemma DeletedRowIsAppendedAgain(rows: seq<Row>, e: Event, key: string, moves: seq<RowMove>)
    requires FindKey(rows, key).None? && |AppendSql(rows, e, Some(key)).0| > |rows| && Foreign(moves, key)
    ensures var after := AppendSql(rows, e, Some(key)).0;
            var later := RunRows(after, moves);
            var (again, error) := AppendSql(later, e, Some(key));
            && (|again| > |later| <==>
                  DeletedBy(after, moves, after[|rows|]) && (e.sequence <= 0 || e.sequence == LastRow(later) + 1))
            && (|again| > |later| ==>
                  again == later + [Row(LastRow(later) + 1, true, Some(key), e.eventType, Prepared(e).data)])
            && (!DeletedBy(after, moves, after[|rows|]) ==>
                  (again, error) == (later, if StatusAgrees(e) then None else Some(IdempotencyConflict)))
  {
    var after := AppendSql(rows, e, Some(key)).0;
    var later, r := RunRows(after, moves), after[|rows|];
    StoredRow(rows, e, key);
    FindKeyIff(rows, key);
    RowIsThereUntilDeleted(after, moves, r, key);
    KeyFoundIffRow(later, r, key);
    if r in later {
      ReappendSqlIffStatusAgrees(rows, e, key, later, FindKey(later, key).value);
    } else {
      NewKeyStores(later, e, key);
    }
  }

  lemma StoredRow(rows: seq<Row>, e: Event, key: string)
    requires FindKey(rows, key).None? && |AppendSql(rows, e, Some(key)).0| > |rows|
    ensures var after := AppendSql(rows, e, Some(key)).0;
            after == rows + [after[|rows|]] && after[|rows|].key == Some(key)
  {
  }

  lemma KeyFoundIffRow(rows: seq<Row>, r: Row, key: string)
    requires OnlyRow(rows, r, key) && r.key == Some(key)
    ensures r in rows <==> FindKey(rows, key).Some?
    ensures FindKey(rows, key).Some? ==> FindKey(rows, key).value < |rows| && rows[FindKey(rows, key).value] == r
  {
    FindKeyIff(rows, key);
  }

  lemma NewKeyStores(rows: seq<Row>, e: Event, key: string)
    requires FindKey(rows, key).None?
    ensures var again := AppendSql(rows, e, Some(key)).0;
            if e.sequence <= 0 || e.sequence == LastRow(rows) + 1
            then again == rows + [Row(LastRow(rows) + 1, true, Some(key), e.eventType, Prepared(e).data)]
            else again == rows
  {
  }

  /** Concretely: a draft under a key, the outcome, compaction, the draft again. */
  lemma CompactedDraftIsStoredTwice(draft: Event, outcome: Event, key: string)
    requires draft.eventType == "draft_delta" && draft.sequence == 0 && outcome.eventType == "succeeded" && outcome.sequence == 0
    ensures var kept := [Row(2, true, None, "succeeded", Prepared(outcome).data)];
            && RunRows(AppendSql([], draft, Some(key)).0, [AppendedRow(outcome, None), CompactedRows]) == kept
            && AppendSql(kept, draft, Some(key)) == (kept + [Row(3, true, Some(key), "draft_delta", Prepared(draft).data)], None)
  {
    var first := Row(1, true, Some(key), "draft_delta", Prepared(draft).data);
    var last := Row(2, true, None, "succeeded", Prepared(outcome).data);
    StoredAtEnd([], draft, Some(key));
    assert [] + [first] == [first];
    StoredAtEnd([first], outcome, None);
    assert [first] + [last] == [first, last];
    TwoRowMoves([first], AppendedRow(outcome, None), CompactedRows);
    TwoRows(first, last);
    StoredAgain(last, draft, key);
  }

  lemma StoredAgain(last: Row, draft: Event, key: string)
    requires last.key == None && draft.sequence == 0
    ensures AppendSql([last], draft, Some(key))
            == ([last] + [Row(last.sequence + 1, true, Some(key), draft.eventType, Prepared(draft).data)], None)
  {
    FindKeyIff([last], key);
    StoredAtEnd([last], draft, Some(key));
  }

  lemma StoredAtEnd(rows: seq<Row>, e: Event, key: Option<string>)
    requires e.sequence == 0 && (key.Some? ==> FindKey(rows, key.value).None?)
    ensures AppendSql(rows, e, key) == (rows + [Row(LastRow(rows) + 1, true, key, e.eventType, Prepared(e).data)], None)
  {
  }

  lemma TwoRowMoves(rows: seq<Row>, first: RowMove, second: RowMove)
    ensures RunRows(rows, [first, second]) == MovedRows(MovedRows(rows, first), second)
  {
    var moves := [first, second];
    assert moves[..1] == [first] && moves[..1][..0] == [];
    assert RunRows(rows, []) == rows;
    assert RunRows(rows, moves[..1]) == MovedRows(rows, first);
  }

  lemma TwoRows(first: Row, last: Row)
    requires first.public && first.eventType == "draft_delta" && first.sequence == 1
    requires last.public && TerminalWord(last.eventType) && last.sequence == 2
    ensures MovedRows([first, last], CompactedRows) == [last]
  {
    var rows := [first, last];
    assert rows[..1] == [first] && rows[..1][..0] == [];
    assert LastTerminal(rows[..1]) <= 1;
    assert rows[0].sequence < 2;
    assert Kept([first], 2) == [];
    assert Kept(rows, 2) == [] + [last];
  }
}
