/** What one persisted sweep does to the log and to the visibility of every item: exit and re-entry. */
module Visibility {
  import opened Model
  import opened EventLog
  import opened Reaping

  // ---- one complete reconcile ----

  lemma SaltedInPlace(rows: seq<Row>, conn: string, events: seq<Event>)
    requires ProviderEvents(events)
    ensures forall e :: e in SaltAll(rows, conn, events) ==> e.eventType != ItemRemoved && InPlace(rows, conn, e)
  {
    forall s | s in SaltAll(rows, conn, events)
      ensures s.eventType != ItemRemoved && InPlace(rows, conn, s)
    {
      var i :| 0 <= i < |events| && s == Salt(rows, conn, events[i]);
      assert events[i] in events;
      var k := Item(conn, s.nativeID);
      if s != events[i] {
        var f := LatestFact(rows, k).value;
        var j :| 0 <= j < |rows| && rows[j] == f;
        assert RemovalWithID(rows, k, f.id);
      }
    }
  }

  /** The snapshots of a sweep touch the facts of swept items only. */
  lemma SweepTouchesSwept(rows: seq<Row>, conn: string, events: seq<Event>, at: Time, nid: string)
    requires ProviderEvents(events) && nid !in Swept(events)
    ensures LatestFact(InsertAll(rows, conn, SaltAll(rows, conn, events), at), Item(conn, nid)) ==
            LatestFact(rows, Item(conn, nid))
  {
    var salted := SaltAll(rows, conn, events);
    forall s | s in salted
      ensures !FactOf(s, conn, Item(conn, nid))
    {
      var i :| 0 <= i < |events| && s == Salt(rows, conn, events[i]);
      assert events[i] in events;
    }
    LatestFactUntouched(rows, conn, salted, at, Item(conn, nid));
  }

  /** After the snapshots are written, the removals of the sweep are still due, unswallowed. */
  lemma SweepThenRemovals(rows: seq<Row>, conn: string, events: seq<Event>, open: Option<set<string>>,
                          removals: seq<Event>, at: Time)
    requires LogInv(rows) && ProviderEvents(events) && IsReap(rows, conn, events, open, removals)
    ensures var mid := InsertAll(rows, conn, SaltAll(rows, conn, events), at);
            && LogInv(mid)
            && RemovalBatch(mid, conn, removals)
            && CompletePersist(rows, conn, events, removals, at) == InsertAll(mid, conn, removals, at)
  {
    var salted := SaltAll(rows, conn, events);
    SaltedInPlace(rows, conn, events);
    BatchKeepsInv(rows, conn, salted, at);
    InsertAllConcat(rows, conn, salted, removals, at);
    forall i | 0 <= i < |removals|
      ensures LatestFact(InsertAll(rows, conn, salted, at), Item(conn, removals[i].nativeID)) ==
              LatestFact(rows, Item(conn, removals[i].nativeID))
    {
      SweepTouchesSwept(rows, conn, events, at, removals[i].nativeID);
    }
  }

  /** A complete reconcile keeps the invariant, and no removal it requires is ignored as a duplicate. */
  lemma CompleteKeepsInv(rows: seq<Row>, conn: string, events: seq<Event>, open: Option<set<string>>,
                         removals: seq<Event>, at: Time)
    requires LogInv(rows) && ProviderEvents(events) && IsReap(rows, conn, events, open, removals)
    ensures var rows' := CompletePersist(rows, conn, events, removals, at);
            && LogInv(rows')
            && |rows'| == |InsertAll(rows, conn, SaltAll(rows, conn, events), at)| + |removals|
            && forall nid :: MustReap(rows, conn, Swept(events), open, nid) ==> LatestIsRemoval(rows', Item(conn, nid))
  {
    SweepThenRemovals(rows, conn, events, open, removals, at);
    RemovalsLand(InsertAll(rows, conn, SaltAll(rows, conn, events), at), conn, removals, at);
  }

  // ---- visibility ----

  /**
   Exit. After a complete reconcile an unswept item is visible exactly when it was visible
   before, holds no role, and ResolveOpen listed it as open or failed.
   */
  lemma Exit(rows: seq<Row>, conn: string, events: seq<Event>, open: Option<set<string>>,
             removals: seq<Event>, at: Time, nid: string)
    requires LogInv(rows) && ProviderEvents(events) && IsReap(rows, conn, events, open, removals)
    requires nid !in Swept(events)
    ensures var rows', k := CompletePersist(rows, conn, events, removals, at), Item(conn, nid);
            && (Visible(rows', k) <==>
                  Visible(rows, k) && !IsOpenRoled(LatestFact(rows, k).value) && (open.None? || nid in open.value))
            && (LatestFact(rows', k) == LatestFact(rows, k) || LatestIsRemoval(rows', k))
  {
    var k := Item(conn, nid);
    var mid := InsertAll(rows, conn, SaltAll(rows, conn, events), at);
    SweepThenRemovals(rows, conn, events, open, removals, at);
    SweepTouchesSwept(rows, conn, events, at, nid);
    if MustReap(rows, conn, Swept(events), open, nid) {
      CompleteKeepsInv(rows, conn, events, open, removals, at);
    } else {
      assert forall e :: e in removals ==> !FactOf(e, conn, k);
      LatestFactUntouched(mid, conn, removals, at, k);
    }
  }

  /** Every snapshot of the item in the sweep is readable and open. */
  predicate SweptOpen(events: seq<Event>, nid: string) {
    && nid in Swept(events)
    && forall e :: e in events && e.eventType == ItemObserved && e.nativeID == nid ==>
                     e.body.Snapshot? && e.body.facts.state == Open
  }

  /** Every snapshot of the item in the poll repeats a key that is stored already. */
  predicate AllRepeated(rows: seq<Row>, conn: string, events: seq<Event>, nid: string) {
    forall e :: e in events && e.eventType == ItemObserved && e.nativeID == nid ==> Stored(rows, conn, e)
  }

  /** For a swept item the removals change nothing. */
  lemma SweptNotRemoved(rows: seq<Row>, conn: string, events: seq<Event>, open: Option<set<string>>,
                        removals: seq<Event>, at: Time, nid: string)
    requires LogInv(rows) && ProviderEvents(events) && IsReap(rows, conn, events, open, removals)
    requires nid in Swept(events)
    ensures LatestFact(CompletePersist(rows, conn, events, removals, at), Item(conn, nid)) ==
            LatestFact(InsertAll(rows, conn, SaltAll(rows, conn, events), at), Item(conn, nid))
  {
    SweepThenRemovals(rows, conn, events, open, removals, at);
    LatestFactUntouched(InsertAll(rows, conn, SaltAll(rows, conn, events), at), conn, removals, at, Item(conn, nid));
  }

  /** What a plain write of a poll leaves as the latest fact of an item it saw open. */
  lemma PlainVisible(rows: seq<Row>, conn: string, events: seq<Event>, at: Time, nid: string)
    requires ProviderEvents(events) && SweptOpen(events, nid)
    ensures Visible(InsertAll(rows, conn, events, at), Item(conn, nid)) <==>
            Visible(rows, Item(conn, nid)) || !AllRepeated(rows, conn, events, nid)
  {
    LatestFactAfter(rows, conn, events, at, Item(conn, nid));
    assert forall e :: e in events && e.eventType == ItemObserved && e.nativeID == nid ==> FactOf(e, conn, Item(conn, nid));
  }

  /**
   Re-entry. After a complete reconcile an item swept as open is visible unless its previous
   latest fact was a closed or unreadable snapshot and every swept key was already stored.
   */
  lemma Reentry(rows: seq<Row>, conn: string, events: seq<Event>, open: Option<set<string>>,
                removals: seq<Event>, at: Time, nid: string)
    requires LogInv(rows) && ProviderEvents(events) && IsReap(rows, conn, events, open, removals)
    requires SweptOpen(events, nid)
    ensures var k := Item(conn, nid); var f := LatestFact(rows, k);
            Visible(CompletePersist(rows, conn, events, removals, at), k) <==>
            !(f.Some? && f.value.eventType == ItemObserved && !IsOpen(f.value) && AllRepeated(rows, conn, events, nid))
  {
    var k := Item(conn, nid);
    var salted := SaltAll(rows, conn, events);
    SweptNotRemoved(rows, conn, events, open, removals, at, nid);
    LatestFactAfter(rows, conn, salted, at, k);
    forall s | s in salted && FactOf(s, conn, k)
      ensures exists e :: e in events && e.eventType == ItemObserved && e.nativeID == nid && s == Salt(rows, conn, e)
    {
      var e := SaltedOrigin(rows, conn, events, s);
    }
    var e :| e in events && e.eventType == ItemObserved && e.nativeID == nid;
    SaltedMember(rows, conn, events, e);
    assert FactOf(Salt(rows, conn, e), conn, k);
    if LatestIsRemoval(rows, k) {
      SaltIsFresh(rows, conn, e);
    } else {
      forall x | x in events && FactOf(x, conn, k)
        ensures x in salted
      {
        SaltedMember(rows, conn, events, x);
      }
      if LatestFact(rows, k).None? {
        NoFactNoKey(rows, conn, e, k);
      }
    }
  }

  lemma SaltedOrigin(rows: seq<Row>, conn: string, events: seq<Event>, s: Event) returns (e: Event)
    requires s in SaltAll(rows, conn, events)
    ensures e in events && s == Salt(rows, conn, e)
  {
    var i :| 0 <= i < |events| && s == Salt(rows, conn, events[i]);
    e := events[i];
  }

  lemma SaltedMember(rows: seq<Row>, conn: string, events: seq<Event>, e: Event)
    requires e in events
    ensures Salt(rows, conn, e) in SaltAll(rows, conn, events)
  {
    var i :| 0 <= i < |events| && events[i] == e;
    assert SaltAll(rows, conn, events)[i] == Salt(rows, conn, e);
  }

  lemma NoFactNoKey(rows: seq<Row>, conn: string, e: Event, k: ItemKey)
    requires Ordered(rows) && FactOf(e, conn, k) && LatestFact(rows, k).None?
    ensures !Stored(rows, conn, e)
  {
    LatestFactIsNewest(rows, k);
    forall i | 0 <= i < |rows|
      ensures !SameKey(rows[i], conn, e)
    {
      assert rows[i] in rows;
    }
  }
}
