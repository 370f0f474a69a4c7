/** The columns that the store itself fills: row ids, the writing connection and the time of the write. */
module RowTimes {
  import opened Model
  import opened EventLog
  import opened Reaping
  import opened Engine
  import opened EngineRuns

  lemma TurnGrows(turns: seq<Turn>, n: nat)
    requires IsEngineRun(turns) && n < |turns|
    ensures RowsAt(turns, n) <= RowsAt(turns, n + 1)
  {
    assert TurnAt(turns, n);
    var t := turns[n];
    var result, before := ResultOf(t.cycle.env), t.cycle.before.rows;
    InsertAllGrows(before, t.conn, SaltAll(before, t.conn, result.events) + t.cycle.removals, t.cycle.env.now);
    InsertAllGrows(before, t.conn, result.events, t.cycle.env.now);
  }

  lemma {:induction false} RunGrows(turns: seq<Turn>, m: nat, n: nat)
    requires IsEngineRun(turns) && m <= n <= |turns|
    ensures RowsAt(turns, m) <= RowsAt(turns, n)
  {
    if m < n {
      RunGrows(turns, m, n - 1);
      TurnGrows(turns, n - 1);
    }
  }

  /** The event is one that the turn's poll emitted, up to the salt of its key, or one of the turn's removals. */
  predicate OfTurn(t: Turn, e: Event) {
    || (e in ResultOf(t.cycle.env).events)
    || (e.key.Resurrect? && e.(key := e.key.base) in ResultOf(t.cycle.env).events)
    || (e.eventType == ItemRemoved && e in t.cycle.removals)
  }

  lemma SaltedOf(rows: seq<Row>, conn: string, events: seq<Event>, removals: seq<Event>, e: Event)
    requires e in SaltAll(rows, conn, events) + removals
    ensures || e in events || (e.key.Resurrect? && e.(key := e.key.base) in events)
            || e in removals
  {
    if e in SaltAll(rows, conn, events) {
      var i :| 0 <= i < |events| && e == Salt(rows, conn, events[i]);
      assert events[i] in events;
      assert e != events[i] ==> e.(key := e.key.base) == events[i];
    }
  }

  /** The row was added by turn m, from an event of that turn, and carries the turn's clock. */
  ghost predicate AddedBy(turns: seq<Turn>, m: nat, i: nat)
    requires m < |turns|
  {
    && |RowsAt(turns, m)| <= i < |RowsAt(turns, m + 1)|
    && exists e :: OfTurn(turns[m], e) && WrittenAs(RowsAt(turns, m + 1), i, turns[m].conn, e, turns[m].cycle.env.now)
  }

  lemma TurnStamps(turns: seq<Turn>, m: nat, i: nat)
    requires IsEngineRun(turns) && m < |turns| && |RowsAt(turns, m)| <= i < |RowsAt(turns, m + 1)|
    ensures AddedBy(turns, m, i)
  {
    assert TurnAt(turns, m);
    var t := turns[m];
    var result, before, at := ResultOf(t.cycle.env), t.cycle.before.rows, t.cycle.env.now;
    if result.complete {
      var written := SaltAll(before, t.conn, result.events) + t.cycle.removals;
      InsertAllStamps(before, t.conn, written, at, i);
      var e :| e in written && WrittenAs(RowsAt(turns, m + 1), i, t.conn, e, at);
      SaltedOf(before, t.conn, result.events, t.cycle.removals, e);
      if e in t.cycle.removals {
        assert e.eventType == ItemRemoved;
      }
      assert OfTurn(t, e);
    } else {
      InsertAllStamps(before, t.conn, result.events, at, i);
      var e :| e in result.events && WrittenAs(RowsAt(turns, m + 1), i, t.conn, e, at);
      assert OfTurn(t, e);
    }
  }

  /**
   Over every engine run each row of the log was added by one turn, of the row's connection,
   from an event of that turn, and carries the clock of that turn; and rows are numbered from
   1 without a gap.
   */
  lemma {:induction false} EngineRowsDated(turns: seq<Turn>, n: nat, i: nat) returns (m: nat)
    requires IsEngineRun(turns) && n <= |turns| && i < |RowsAt(turns, n)|
    ensures m < n && AddedBy(turns, m, i)
    ensures RowsAt(turns, n)[i].observedAt == turns[m].cycle.env.now && RowsAt(turns, n)[i].conn == turns[m].conn
    ensures RowsAt(turns, n)[i].id == i + 1
  {
    TurnGrows(turns, n - 1);
    if i < |RowsAt(turns, n - 1)| {
      m := EngineRowsDated(turns, n - 1, i);
    } else {
      m := n - 1;
      TurnStamps(turns, m, i);
      if i > 0 {
        EngineIDs(turns, n, i - 1);
      }
    }
  }

  lemma EngineIDs(turns: seq<Turn>, n: nat, i: nat)
    requires IsEngineRun(turns) && n <= |turns| && i < |RowsAt(turns, n)|
    ensures RowsAt(turns, n)[i].id == i + 1
    decreases n, i
  {
    TurnGrows(turns, n - 1);
    if i < |RowsAt(turns, n - 1)| {
      EngineIDs(turns, n - 1, i);
    } else {
      TurnStamps(turns, n - 1, i);
      if i > 0 {
        EngineIDs(turns, n, i - 1);
      }
    }
  }

  /** A row is in the log from the turn that added it on, and was not in it before. */
  lemma WrittenIn(turns: seq<Turn>, n: nat, i: nat, m: nat)
    requires IsEngineRun(turns) && m < n <= |turns| && AddedBy(turns, m, i) && i < |RowsAt(turns, n)|
    ensures var r := RowsAt(turns, n)[i]; r !in RowsAt(turns, m) && r in RowsAt(turns, m + 1)
  {
    RunGrows(turns, m + 1, n);
    RunGrows(turns, m, m + 1);
    var r := RowsAt(turns, n)[i];
    assert RowsAt(turns, m + 1)[i] == r;
    if r in RowsAt(turns, m) {
      var j :| 0 <= j < |RowsAt(turns, m)| && RowsAt(turns, m)[j] == r;
      EngineIDs(turns, m, j);
      EngineIDs(turns, m + 1, i);
    }
  }

  /** In particular every row's writer is one turn of its connection, whose clock it carries. */
  lemma WriterOf(turns: seq<Turn>, n: nat, r: Row) returns (m: nat)
    requires IsEngineRun(turns) && n <= |turns| && r in RowsAt(turns, n)
    ensures m < n && turns[m].conn == r.conn && turns[m].cycle.env.now == r.observedAt
    ensures r !in RowsAt(turns, m) && r in RowsAt(turns, m + 1)
  {
    var x :| 0 <= x < |RowsAt(turns, n)| && RowsAt(turns, n)[x] == r;
    m := EngineRowsDated(turns, n, x);
    WrittenIn(turns, n, x, m);
  }
}
