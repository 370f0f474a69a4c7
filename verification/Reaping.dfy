/**
 The diff of a complete reconcile sweep against the log: which items are removed and which
 swept snapshots are salted, and why none of those rows is swallowed as a duplicate.
 */
module Reaping {
  import opened Model
  import opened EventLog

  function Item(conn: string, nid: string): ItemKey {
    ItemKey(conn, MERGE_REQUEST, nid)
  }

  /** Keys that providers make: a facts hash or a text. The engine alone puts row ids in keys. */
  predicate ProviderKey(k: DedupeKey) {
    k.FactsKey? || k.TextKey?
  }

  /** What both providers emit: snapshots and signals of merge requests, never a removal. */
  predicate ProviderEvent(e: Event) {
    e.objectType == MERGE_REQUEST && e.eventType != ItemRemoved && ProviderKey(e.key)
  }

  predicate ProviderEvents(events: seq<Event>) {
    forall e :: e in events ==> ProviderEvent(e)
  }

  // ---- the specification of reap ----

  function Swept(events: seq<Event>): set<string> {
    set e | e in events && e.eventType == ItemObserved :: e.nativeID
  }

  predicate LatestIsRemoval(rows: seq<Row>, k: ItemKey) {
    var f := LatestFact(rows, k);
    f.Some? && f.value.eventType == ItemRemoved
  }

  /**
   The item left the sweep: its latest fact is a readable open snapshot, it was not swept,
   and it either holds a role or ResolveOpen answered without listing it. `open` is None
   when that call failed.
   */
  predicate MustReap(rows: seq<Row>, conn: string, swept: set<string>, open: Option<set<string>>, nid: string) {
    var f := LatestFact(rows, Item(conn, nid));
    && f.Some? && IsOpen(f.value)
    && nid !in swept
    && (IsOpenRoled(f.value) || (open.Some? && nid !in open.value))
  }

  /** The item.removed event for an item whose latest fact is f. */
  function RemovalOf(f: Row): Event {
    Event(f.objectType, f.nativeID, ItemRemoved, None, "", RemovedKey(f.id), Opaque)
  }

  /** A swept snapshot of an item whose latest fact is a removal gets that removal's id in its key. */
  function Salt(rows: seq<Row>, conn: string, e: Event): Event {
    var f := LatestFact(rows, Item(conn, e.nativeID));
    if e.eventType == ItemObserved && f.Some? && f.value.eventType == ItemRemoved
    then e.(key := Resurrect(e.key, f.value.id))
    else e
  }

  function SaltAll(rows: seq<Row>, conn: string, events: seq<Event>): (salted: seq<Event>)
    ensures |salted| == |events|
  {
    seq(|events|, i requires 0 <= i < |events| => Salt(rows, conn, events[i]))
  }

  /** Exactly one removal, in any order, for each item that must be reaped. */
  ghost predicate IsReap(rows: seq<Row>, conn: string, events: seq<Event>, open: Option<set<string>>, removals: seq<Event>) {
    && (forall i :: 0 <= i < |removals| ==>
          && MustReap(rows, conn, Swept(events), open, removals[i].nativeID)
          && removals[i] == RemovalOf(LatestFact(rows, Item(conn, removals[i].nativeID)).value))
    && (forall i, j :: 0 <= i < j < |removals| ==> removals[i].nativeID != removals[j].nativeID)
    && (forall nid :: MustReap(rows, conn, Swept(events), open, nid) ==>
          exists i :: 0 <= i < |removals| && removals[i].nativeID == nid)
  }

  /** The log after a complete reconcile was persisted. */
  function CompletePersist(rows: seq<Row>, conn: string, events: seq<Event>, removals: seq<Event>, at: Time): seq<Row> {
    InsertAll(rows, conn, SaltAll(rows, conn, events) + removals, at)
  }

  // ---- the invariant of the log ----

  /** The removal directly follows, among the facts of its item, the snapshot that keys it. */
  predicate RemovalInPlace(rows: seq<Row>, j: int)
    requires 0 <= j < |rows|
  {
    var f := LatestFact(rows[..j], KeyOf(rows[j]));
    f.Some? && f.value.eventType == ItemObserved && rows[j].key == RemovedKey(f.value.id)
  }

  /** The salt names an earlier removal of the same item. */
  predicate SaltInPlace(rows: seq<Row>, j: int)
    requires 0 <= j < |rows| && rows[j].key.Resurrect?
  {
    && rows[j].eventType == ItemObserved
    && exists i :: 0 <= i < j && rows[i].id == rows[j].key.removalID
                   && rows[i].eventType == ItemRemoved && KeyOf(rows[i]) == KeyOf(rows[j])
  }

  predicate RowInPlace(rows: seq<Row>, j: int)
    requires 0 <= j < |rows|
  {
    && rows[j].objectType == MERGE_REQUEST
    && (rows[j].eventType == ItemRemoved ==> RemovalInPlace(rows, j))
    && (rows[j].key.Resurrect? ==> SaltInPlace(rows, j))
  }

  ghost predicate LogInv(rows: seq<Row>) {
    && Ordered(rows)
    && UniqueKeys(rows)
    && forall j :: 0 <= j < |rows| ==> RowInPlace(rows, j)
  }

  // ---- no required row is a duplicate ----

  /** A removal keyed to the item's latest snapshot is never stored already. */
  lemma RemovalIsFresh(rows: seq<Row>, conn: string, nid: string)
    requires LogInv(rows)
    requires var f := LatestFact(rows, Item(conn, nid)); f.Some? && f.value.eventType == ItemObserved
    ensures !Stored(rows, conn, RemovalOf(LatestFact(rows, Item(conn, nid)).value))
  {
    var k := Item(conn, nid);
    var f := LatestFact(rows, k).value;
    LatestFactIsNewest(rows, k);
    forall j | 0 <= j < |rows| && KeyOf(rows[j]) == k && rows[j].eventType == ItemRemoved
      ensures rows[j].key != RemovedKey(f.id)
    {
      assert RowInPlace(rows, j);
      var o := LatestFact(rows[..j], k).value;
      var i :| 0 <= i < j && rows[i] == o;
      assert o.id < rows[j].id <= f.id;
    }
  }

  /** A salted key names the item's latest removal, so no stored row can carry it. */
  lemma SaltIsFresh(rows: seq<Row>, conn: string, e: Event)
    requires LogInv(rows) && e.objectType == MERGE_REQUEST && e.eventType == ItemObserved
    requires LatestIsRemoval(rows, Item(conn, e.nativeID))
    ensures !Stored(rows, conn, Salt(rows, conn, e))
  {
    var k := Item(conn, e.nativeID);
    var f := LatestFact(rows, k).value;
    LatestFactIsNewest(rows, k);
    forall j | 0 <= j < |rows| && KeyOf(rows[j]) == k && rows[j].key.Resurrect?
      ensures rows[j].key.removalID != f.id
    {
      assert RowInPlace(rows, j);
      var i :| 0 <= i < j && rows[i].id == rows[j].key.removalID && rows[i].eventType == ItemRemoved && KeyOf(rows[i]) == k;
      assert rows[i].id < rows[j].id <= f.id;
    }
  }

  // ---- writing keeps the invariant ----

  /** The event may be appended to the log without breaking its invariant. */
  predicate InPlace(rows: seq<Row>, conn: string, e: Event) {
    && e.objectType == MERGE_REQUEST
    && (e.eventType == ItemRemoved ==>
          var f := LatestFact(rows, Item(conn, e.nativeID));
          f.Some? && f.value.eventType == ItemObserved && e.key == RemovedKey(f.value.id))
    && (e.key.Resurrect? ==> e.eventType == ItemObserved && RemovalWithID(rows, Item(conn, e.nativeID), e.key.removalID))
  }

  predicate RemovalWithID(rows: seq<Row>, k: ItemKey, id: int) {
    exists i :: 0 <= i < |rows| && rows[i].id == id && rows[i].eventType == ItemRemoved && KeyOf(rows[i]) == k
  }

  lemma InsertKeepsInv(rows: seq<Row>, conn: string, e: Event, at: Time)
    requires LogInv(rows) && InPlace(rows, conn, e)
    ensures LogInv(Insert(rows, conn, e, at))
  {
    InsertShape(rows, conn, e, at);
    var rows' := Insert(rows, conn, e, at);
    if !Stored(rows, conn, e) {
      assert rows'[..|rows|] == rows;
      forall j | 0 <= j < |rows'|
        ensures RowInPlace(rows', j)
      {
        if j < |rows| {
          assert rows'[..j] == rows[..j] && RowInPlace(rows, j);
        }
      }
    }
  }

  lemma RemovalWithIDMonotone(rows: seq<Row>, rows': seq<Row>, k: ItemKey, id: int)
    requires rows <= rows' && RemovalWithID(rows, k, id)
    ensures RemovalWithID(rows', k, id)
  {
    var i :| 0 <= i < |rows| && rows[i].id == id && rows[i].eventType == ItemRemoved && KeyOf(rows[i]) == k;
    assert rows'[i] == rows[i];
  }

  /** Snapshots, salted or not, and signals may be appended in any number. */
  lemma {:induction false} BatchKeepsInv(rows: seq<Row>, conn: string, events: seq<Event>, at: Time)
    requires LogInv(rows)
    requires forall e :: e in events ==> e.eventType != ItemRemoved && InPlace(rows, conn, e)
    ensures LogInv(InsertAll(rows, conn, events, at))
  {
    if events != [] {
      var init, last := events[..|events| - 1], events[|events| - 1];
      assert last in events && forall e :: e in init ==> e in events;
      BatchKeepsInv(rows, conn, init, at);
      InsertAllGrows(rows, conn, init, at);
      var mid := InsertAll(rows, conn, init, at);
      if last.key.Resurrect? {
        RemovalWithIDMonotone(rows, mid, Item(conn, last.nativeID), last.key.removalID);
      }
      InsertKeepsInv(mid, conn, last, at);
    }
  }

  // ---- the removals of one sweep ----

  /** A batch of removals, each keyed to its item's latest snapshot, one per item. */
  predicate RemovalBatch(rows: seq<Row>, conn: string, removals: seq<Event>) {
    && (forall i :: 0 <= i < |removals| ==>
          var f := LatestFact(rows, Item(conn, removals[i].nativeID));
          f.Some? && f.value.eventType == ItemObserved && removals[i] == RemovalOf(f.value))
    && (forall i, j :: 0 <= i < j < |removals| ==> removals[i].nativeID != removals[j].nativeID)
  }

  /** Every removal of the batch is inserted and becomes the latest fact of its item. */
  lemma {:induction false} RemovalsLand(rows: seq<Row>, conn: string, removals: seq<Event>, at: Time)
    requires LogInv(rows) && RemovalBatch(rows, conn, removals)
    ensures var rows' := InsertAll(rows, conn, removals, at);
            && LogInv(rows')
            && |rows'| == |rows| + |removals|
            && forall i :: 0 <= i < |removals| ==> LatestIsRemoval(rows', Item(conn, removals[i].nativeID))
  {
    if removals != [] {
      var n := |removals| - 1;
      var init, last := removals[..n], removals[n];
      RemovalsLand(rows, conn, init, at);
      var mid := InsertAll(rows, conn, init, at);
      var k := Item(conn, last.nativeID);
      LatestFactUntouched(rows, conn, init, at, k);
      RemovalIsFresh(mid, conn, last.nativeID);
      InsertKeepsInv(mid, conn, last, at);
      forall i | 0 <= i < |removals|
        ensures LatestIsRemoval(InsertAll(rows, conn, removals, at), Item(conn, removals[i].nativeID))
      {
        LatestFactAppend(mid, Stamp(NextID(mid), conn, last, at), Item(conn, removals[i].nativeID));
        if i < n {
          assert init[i] == removals[i];
        }
      }
    }
  }
}
