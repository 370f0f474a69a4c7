/**
 The events table as a value: INSERT OR IGNORE on the five-column key, the latest
 fact of an item, and what appending rows can do to it.
 */
module EventLog {
  import opened Model

  /** The UNIQUE constraint's columns agree. */
  predicate SameKey(r: Row, conn: string, e: Event) {
    && r.conn == conn
    && r.objectType == e.objectType
    && r.nativeID == e.nativeID
    && r.eventType == e.eventType
    && r.key == e.key
  }

  predicate Stored(rows: seq<Row>, conn: string, e: Event) {
    exists i :: 0 <= i < |rows| && SameKey(rows[i], conn, e)
  }

  /** INTEGER PRIMARY KEY without deletions: one more than the newest id. */
  function NextID(rows: seq<Row>): int {
    if rows == [] then 1 else rows[|rows| - 1].id + 1
  }

  function Stamp(id: int, conn: string, e: Event, at: Time): Row {
    Row(id, conn, e.objectType, e.nativeID, e.eventType, e.occurredAt, e.actor, e.key, e.body, at)
  }

  function Insert(rows: seq<Row>, conn: string, e: Event, at: Time): seq<Row> {
    if Stored(rows, conn, e) then rows else rows + [Stamp(NextID(rows), conn, e, at)]
  }

  function InsertAll(rows: seq<Row>, conn: string, events: seq<Event>, at: Time): seq<Row> {
    if events == [] then rows
    else Insert(InsertAll(rows, conn, events[..|events| - 1], at), conn, events[|events| - 1], at)
  }

  /** Row ids are positive and grow with insertion. */
  predicate Ordered(rows: seq<Row>) {
    && (forall i :: 0 <= i < |rows| ==> 0 < rows[i].id)
    && (forall i, j :: 0 <= i < j < |rows| ==> rows[i].id < rows[j].id)
  }

  predicate SameColumns(r: Row, s: Row) {
    && KeyOf(r) == KeyOf(s)
    && r.eventType == s.eventType
    && r.key == s.key
  }

  /** No two rows agree on the five-column key. */
  predicate UniqueKeys(rows: seq<Row>) {
    forall i, j :: 0 <= i < j < |rows| ==> !SameColumns(rows[i], rows[j])
  }

  /** The newest item.observed or item.removed row of an item. */
  function LatestFact(rows: seq<Row>, k: ItemKey): (f: Option<Row>)
    ensures f.Some? ==> f.value in rows && IsFact(f.value) && KeyOf(f.value) == k
  {
    if rows == [] then None
    else
      var r := rows[|rows| - 1];
      if IsFact(r) && KeyOf(r) == k then Some(r) else LatestFact(rows[..|rows| - 1], k)
  }

  /** The item appears in the fold: its latest fact is a readable open snapshot. */
  predicate Visible(rows: seq<Row>, k: ItemKey) {
    var f := LatestFact(rows, k);
    f.Some? && IsOpen(f.value)
  }

  // ---- the latest fact ----

  /** LatestFact is the fact of the item with the greatest id, and None when there is no fact. */
  lemma {:induction false} LatestFactIsNewest(rows: seq<Row>, k: ItemKey)
    requires Ordered(rows)
    ensures forall r :: r in rows && IsFact(r) && KeyOf(r) == k ==>
                          LatestFact(rows, k).Some? && r.id <= LatestFact(rows, k).value.id
  {
    if rows != [] {
      var init := rows[..|rows| - 1];
      LatestFactIsNewest(init, k);
      var last := rows[|rows| - 1];
      forall r | r in rows && IsFact(r) && KeyOf(r) == k
        ensures LatestFact(rows, k).Some? && r.id <= LatestFact(rows, k).value.id
      {
        if r in init {
        } else {
          assert r == last;
        }
      }
    }
  }

  /** Appending a row that is not a fact of the item leaves its latest fact alone. */
  lemma LatestFactAppend(rows: seq<Row>, r: Row, k: ItemKey)
    ensures LatestFact(rows + [r], k) ==
            if IsFact(r) && KeyOf(r) == k then Some(r) else LatestFact(rows, k)
  {
    assert (rows + [r])[..|rows|] == rows;
  }

  lemma SameIDSameRow(rows: seq<Row>, r: Row, s: Row)
    requires Ordered(rows) && r in rows && s in rows && r.id == s.id
    ensures r == s
  {
  }

  // ---- inserting ----

  lemma InsertShape(rows: seq<Row>, conn: string, e: Event, at: Time)
    requires Ordered(rows) && UniqueKeys(rows)
    ensures Ordered(Insert(rows, conn, e, at)) && UniqueKeys(Insert(rows, conn, e, at))
    ensures rows <= Insert(rows, conn, e, at)
    ensures Stored(Insert(rows, conn, e, at), conn, e)
  {
    var rows' := Insert(rows, conn, e, at);
    if !Stored(rows, conn, e) {
      assert SameKey(rows'[|rows|], conn, e);
      forall i, j | 0 <= i < j < |rows'|
        ensures !SameColumns(rows'[i], rows'[j])
      {
        if j == |rows| {
          assert !SameKey(rows[i], conn, e);
        }
      }
    }
  }

  lemma StoredMonotone(rows: seq<Row>, rows': seq<Row>, conn: string, e: Event)
    requires rows <= rows' && Stored(rows, conn, e)
    ensures Stored(rows', conn, e)
  {
    var i :| 0 <= i < |rows| && SameKey(rows[i], conn, e);
    assert rows'[i] == rows[i];
  }

  /** The log only grows. */
  lemma {:induction false} InsertAllGrows(rows: seq<Row>, conn: string, events: seq<Event>, at: Time)
    ensures rows <= InsertAll(rows, conn, events, at)
  {
    if events != [] {
      InsertAllGrows(rows, conn, events[..|events| - 1], at);
    }
  }

  /** The log only grows, keeps its order and its unique keys, and holds every event written to it. */
  lemma {:induction false} InsertAllShape(rows: seq<Row>, conn: string, events: seq<Event>, at: Time)
    requires Ordered(rows) && UniqueKeys(rows)
    ensures Ordered(InsertAll(rows, conn, events, at)) && UniqueKeys(InsertAll(rows, conn, events, at))
    ensures rows <= InsertAll(rows, conn, events, at)
    ensures forall e :: e in events ==> Stored(InsertAll(rows, conn, events, at), conn, e)
  {
    if events != [] {
      var init, last := events[..|events| - 1], events[|events| - 1];
      InsertAllShape(rows, conn, init, at);
      var mid := InsertAll(rows, conn, init, at);
      InsertShape(mid, conn, last, at);
      forall e | e in events
        ensures Stored(Insert(mid, conn, last, at), conn, e)
      {
        if e in init {
          StoredMonotone(mid, Insert(mid, conn, last, at), conn, e);
        } else {
          assert e == last;
        }
      }
    }
  }

  /** Writing events that are all stored already changes nothing. */
  lemma {:induction false} InsertAllStored(rows: seq<Row>, conn: string, events: seq<Event>, at: Time)
    requires forall e :: e in events ==> Stored(rows, conn, e)
    ensures InsertAll(rows, conn, events, at) == rows
  {
    if events != [] {
      assert forall e :: e in events[..|events| - 1] ==> e in events;
      InsertAllStored(rows, conn, events[..|events| - 1], at);
      assert events[|events| - 1] in events;
    }
  }

  lemma {:induction false} InsertAllConcat(rows: seq<Row>, conn: string, a: seq<Event>, b: seq<Event>, at: Time)
    ensures InsertAll(rows, conn, a + b, at) == InsertAll(InsertAll(rows, conn, a, at), conn, b, at)
  {
    if b == [] {
      assert a + b == a;
    } else {
      assert (a + b)[..|a + b| - 1] == a + b[..|b| - 1];
      InsertAllConcat(rows, conn, a, b[..|b| - 1], at);
    }
  }

  predicate FactOf(e: Event, conn: string, k: ItemKey) {
    && (e.eventType == ItemObserved || e.eventType == ItemRemoved)
    && ItemKey(conn, e.objectType, e.nativeID) == k
  }

  /** A batch that holds no fact of the item leaves its latest fact alone. */
  lemma {:induction false} LatestFactUntouched(rows: seq<Row>, conn: string, events: seq<Event>, at: Time, k: ItemKey)
    requires forall e :: e in events ==> !FactOf(e, conn, k)
    ensures LatestFact(InsertAll(rows, conn, events, at), k) == LatestFact(rows, k)
  {
    if events != [] {
      var init, last := events[..|events| - 1], events[|events| - 1];
      assert forall e :: e in init ==> e in events;
      LatestFactUntouched(rows, conn, init, at, k);
      var mid := InsertAll(rows, conn, init, at);
      assert last in events;
      LatestFactAppend(mid, Stamp(NextID(mid), conn, last, at), k);
    }
  }

  /** A row carries the columns of an event written for the connection. */
  predicate RowFrom(r: Row, conn: string, e: Event) {
    && SameKey(r, conn, e)
    && r.occurredAt == e.occurredAt
    && r.actor == e.actor
    && r.body == e.body
  }

  /** Every row of the grown log was there before or was written from an event of the batch that was not stored. */
  lemma {:induction false} InsertAllOrigin(rows: seq<Row>, conn: string, events: seq<Event>, at: Time, r: Row)
    requires r in InsertAll(rows, conn, events, at)
    ensures r in rows || exists e :: e in events && RowFrom(r, conn, e) && !Stored(rows, conn, e)
  {
    if events != [] {
      var init, last := events[..|events| - 1], events[|events| - 1];
      var mid := InsertAll(rows, conn, init, at);
      InsertAllGrows(rows, conn, init, at);
      if r in mid {
        InsertAllOrigin(rows, conn, init, at, r);
        assert forall e :: e in init ==> e in events;
      } else {
        assert last in events && RowFrom(r, conn, last) && !Stored(mid, conn, last);
        if Stored(rows, conn, last) {
          StoredMonotone(rows, mid, conn, last);
        }
      }
    }
  }

  /** A row as one write of the batch makes it: new, numbered next, dated by the write, with an event's columns. */
  predicate WrittenAs(rows: seq<Row>, i: nat, conn: string, e: Event, at: Time)
    requires i < |rows|
  {
    var r := rows[i];
    && r.id == (if i == 0 then 1 else rows[i - 1].id + 1)
    && r.conn == conn && r.observedAt == at
    && r.objectType == e.objectType && r.nativeID == e.nativeID && r.eventType == e.eventType && r.key == e.key
    && r.occurredAt == e.occurredAt && r.actor == e.actor && r.body == e.body
  }

  /** Every row that a batch adds carries its event's columns, the connection, the time of the write and the next id. */
  lemma {:induction false} InsertAllStamps(rows: seq<Row>, conn: string, events: seq<Event>, at: Time, i: nat)
    requires |rows| <= i < |InsertAll(rows, conn, events, at)|
    ensures exists e :: e in events && WrittenAs(InsertAll(rows, conn, events, at), i, conn, e, at)
  {
    var init, last := events[..|events| - 1], events[|events| - 1];
    var mid, out := InsertAll(rows, conn, init, at), InsertAll(rows, conn, events, at);
    InsertAllGrows(rows, conn, init, at);
    if i < |mid| {
      InsertAllStamps(rows, conn, init, at, i);
      var e :| e in init && WrittenAs(mid, i, conn, e, at);
      assert e in events && WrittenAs(out, i, conn, e, at);
    } else {
      assert last in events && WrittenAs(out, i, conn, last, at);
    }
  }

  /**
   After a batch, the latest fact of an item is either the old one, and then every fact
   of the item in the batch was stored before, or a new row written from the batch.
   */
  lemma {:induction false} LatestFactAfter(rows: seq<Row>, conn: string, events: seq<Event>, at: Time, k: ItemKey)
    ensures var f := LatestFact(InsertAll(rows, conn, events, at), k);
            || (&& f == LatestFact(rows, k)
                && forall e :: e in events && FactOf(e, conn, k) ==> Stored(rows, conn, e))
            || (f.Some? && exists e :: e in events && FactOf(e, conn, k) && !Stored(rows, conn, e) && RowFrom(f.value, conn, e))
  {
    if events != [] {
      var init, last := events[..|events| - 1], events[|events| - 1];
      LatestFactAfter(rows, conn, init, at, k);
      var mid := InsertAll(rows, conn, init, at);
      LatestFactAppend(mid, Stamp(NextID(mid), conn, last, at), k);
      assert last in events && forall e :: e in events <==> e in init || e == last;
      if Stored(rows, conn, last) {
        InsertAllGrows(rows, conn, init, at);
        StoredMonotone(rows, mid, conn, last);
      }
      if FactOf(last, conn, k) && !Stored(rows, conn, last) && Stored(mid, conn, last) {
        var i :| 0 <= i < |mid| && SameKey(mid[i], conn, last);
        InsertAllOrigin(rows, conn, init, at, mid[i]);
        assert mid[i] !in rows;
        var e :| e in init && RowFrom(mid[i], conn, e);
        assert FactOf(e, conn, k) && !Stored(rows, conn, e);
      }
    }
  }
}
