/**
 Repeating the same complete sweep: the first persist may reap and salt, the second may
 add an unsalted copy of what the first salted, and from then on nothing is inserted.
 */
module Convergence {
  import opened Model
  import opened EventLog
  import opened Reaping
  import opened Visibility

  /** The snapshots that the sweep salts when it is diffed against the log. */
  function SaltedCount(rows: seq<Row>, conn: string, events: seq<Event>): nat {
    if events == [] then 0
    else
      SaltedCount(rows, conn, events[..|events| - 1])
      + if Salt(rows, conn, events[|events| - 1]) != events[|events| - 1] then 1 else 0
  }

  /** Nothing is left to reap and no swept item's latest fact is a removal. */
  ghost predicate Settled(rows: seq<Row>, conn: string, events: seq<Event>, open: Option<set<string>>) {
    && (forall nid :: !MustReap(rows, conn, Swept(events), open, nid))
    && (forall nid :: nid in Swept(events) ==> !LatestIsRemoval(rows, Item(conn, nid)))
  }

  /** In a settled log a sweep is written as it is: no salt and no removal. */
  lemma SettledIsPlain(rows: seq<Row>, conn: string, events: seq<Event>, open: Option<set<string>>,
                       removals: seq<Event>, at: Time)
    requires Settled(rows, conn, events, open) && IsReap(rows, conn, events, open, removals)
    ensures removals == []
    ensures CompletePersist(rows, conn, events, removals, at) == InsertAll(rows, conn, events, at)
  {
    forall i | 0 <= i < |events|
      ensures Salt(rows, conn, events[i]) == events[i]
    {
      if events[i].eventType == ItemObserved {
        assert events[i].nativeID in Swept(events);
      }
    }
    assert SaltAll(rows, conn, events) == events;
    assert removals != [] ==> MustReap(rows, conn, Swept(events), open, removals[0].nativeID);
    assert events + [] == events;
  }

  /** After a batch, an item with a snapshot in it whose latest fact was no removal has none now. */
  lemma LatestStaysObserved(rows: seq<Row>, conn: string, events: seq<Event>, at: Time, nid: string)
    requires forall e :: e in events ==> e.eventType != ItemRemoved
    requires !LatestIsRemoval(rows, Item(conn, nid))
    ensures !LatestIsRemoval(InsertAll(rows, conn, events, at), Item(conn, nid))
  {
    LatestFactAfter(rows, conn, events, at, Item(conn, nid));
  }

  /** A removed item that the sweep holds is brought back by its salted snapshot. */
  lemma SweptComesBack(rows: seq<Row>, conn: string, events: seq<Event>, at: Time, nid: string)
    requires LogInv(rows) && ProviderEvents(events) && nid in Swept(events)
    ensures !LatestIsRemoval(InsertAll(rows, conn, SaltAll(rows, conn, events), at), Item(conn, nid))
  {
    var k := Item(conn, nid);
    var salted := SaltAll(rows, conn, events);
    SaltedInPlace(rows, conn, events);
    if LatestIsRemoval(rows, k) {
      LatestFactAfter(rows, conn, salted, at, k);
      var e :| e in events && e.eventType == ItemObserved && e.nativeID == nid;
      var i :| 0 <= i < |events| && events[i] == e;
      assert salted[i] == Salt(rows, conn, e) && salted[i] in salted && FactOf(salted[i], conn, k);
      SaltIsFresh(rows, conn, e);
    } else {
      LatestStaysObserved(rows, conn, salted, at, nid);
    }
  }

  lemma FirstPersistSettles(rows: seq<Row>, conn: string, events: seq<Event>, open: Option<set<string>>,
                            removals: seq<Event>, at: Time)
    requires LogInv(rows) && ProviderEvents(events) && IsReap(rows, conn, events, open, removals)
    ensures Settled(CompletePersist(rows, conn, events, removals, at), conn, events, open)
  {
    var rows' := CompletePersist(rows, conn, events, removals, at);
    forall nid
      ensures !MustReap(rows', conn, Swept(events), open, nid)
    {
      if nid !in Swept(events) {
        Exit(rows, conn, events, open, removals, at, nid);
      }
    }
    forall nid | nid in Swept(events)
      ensures !LatestIsRemoval(rows', Item(conn, nid))
    {
      SweptNotRemoved(rows, conn, events, open, removals, at, nid);
      SweptComesBack(rows, conn, events, at, nid);
    }
  }

  lemma PlainKeepsSettled(rows: seq<Row>, conn: string, events: seq<Event>, open: Option<set<string>>, at: Time)
    requires ProviderEvents(events) && Settled(rows, conn, events, open)
    ensures Settled(InsertAll(rows, conn, events, at), conn, events, open)
  {
    var rows' := InsertAll(rows, conn, events, at);
    forall nid
      ensures !MustReap(rows', conn, Swept(events), open, nid)
    {
      if nid !in Swept(events) {
        assert forall e :: e in events ==> !FactOf(e, conn, Item(conn, nid));
        LatestFactUntouched(rows, conn, events, at, Item(conn, nid));
        assert !MustReap(rows, conn, Swept(events), open, nid);
      }
    }
    forall nid | nid in Swept(events)
      ensures !LatestIsRemoval(rows', Item(conn, nid))
    {
      LatestStaysObserved(rows, conn, events, at, nid);
    }
  }

  /** The first persist stored every event that it did not salt. */
  lemma UnsaltedStored(rows: seq<Row>, conn: string, events: seq<Event>, removals: seq<Event>, at: Time, e: Event)
    requires LogInv(rows) && e in events && Salt(rows, conn, e) == e
    ensures Stored(CompletePersist(rows, conn, events, removals, at), conn, e)
  {
    InsertAllShape(rows, conn, SaltAll(rows, conn, events) + removals, at);
    var i :| 0 <= i < |events| && events[i] == e;
    assert (SaltAll(rows, conn, events) + removals)[i] == e;
  }

  /** Of a batch, only events that are not stored yet grow the log, by one row each. */
  lemma {:induction false} GrowthBySalted(rows0: seq<Row>, rows: seq<Row>, conn: string, events: seq<Event>, at: Time)
    requires forall e :: e in events && Salt(rows0, conn, e) == e ==> Stored(rows, conn, e)
    ensures |InsertAll(rows, conn, events, at)| <= |rows| + SaltedCount(rows0, conn, events)
  {
    if events != [] {
      var init, last := events[..|events| - 1], events[|events| - 1];
      assert last in events && forall e :: e in init ==> e in events;
      GrowthBySalted(rows0, rows, conn, init, at);
      if Salt(rows0, conn, last) == last {
        InsertAllGrows(rows, conn, init, at);
        StoredMonotone(rows, InsertAll(rows, conn, init, at), conn, last);
      }
    }
  }

  /** Consecutive logs under repeated persists of one complete sweep with fixed ResolveOpen answers. */
  ghost predicate Repeats(logs: seq<seq<Row>>, conn: string, events: seq<Event>, open: Option<set<string>>,
                          removals: seq<seq<Event>>, ats: seq<Time>)
  {
    && |logs| == |removals| + 1 == |ats| + 1
    && forall i :: 0 <= i < |removals| ==>
         && IsReap(logs[i], conn, events, open, removals[i])
         && logs[i + 1] == CompletePersist(logs[i], conn, events, removals[i], ats[i])
  }

  lemma {:induction false} StaysSettled(logs: seq<seq<Row>>, conn: string, events: seq<Event>, open: Option<set<string>>,
                                        removals: seq<seq<Event>>, ats: seq<Time>, n: nat)
    requires Repeats(logs, conn, events, open, removals, ats) && 1 <= n < |logs|
    requires LogInv(logs[0]) && ProviderEvents(events)
    ensures LogInv(logs[n]) && Settled(logs[n], conn, events, open)
    ensures n >= 2 ==> logs[n] == InsertAll(logs[n - 1], conn, events, ats[n - 1]) && removals[n - 1] == []
  {
    if n == 1 {
      assert IsReap(logs[0], conn, events, open, removals[0]);
      CompleteKeepsInv(logs[0], conn, events, open, removals[0], ats[0]);
      FirstPersistSettles(logs[0], conn, events, open, removals[0], ats[0]);
    } else {
      StaysSettled(logs, conn, events, open, removals, ats, n - 1);
      assert IsReap(logs[n - 1], conn, events, open, removals[n - 1]);
      SettledIsPlain(logs[n - 1], conn, events, open, removals[n - 1], ats[n - 1]);
      CompleteKeepsInv(logs[n - 1], conn, events, open, removals[n - 1], ats[n - 1]);
      PlainKeepsSettled(logs[n - 1], conn, events, open, ats[n - 1]);
    }
  }

  /**
   Convergence. Only the first persist removes anything; the second inserts at most one row
   per snapshot salted in the first; the third and every later one inserts nothing.
   */
  lemma Converges(logs: seq<seq<Row>>, conn: string, events: seq<Event>, open: Option<set<string>>,
                  removals: seq<seq<Event>>, ats: seq<Time>, n: nat)
    requires Repeats(logs, conn, events, open, removals, ats) && 2 <= n < |logs|
    requires LogInv(logs[0]) && ProviderEvents(events)
    ensures removals[n - 1] == []
    ensures |logs[2]| <= |logs[1]| + SaltedCount(logs[0], conn, events)
    ensures logs[n] == logs[2]
  {
    StaysSettled(logs, conn, events, open, removals, ats, n);
    StaysSettled(logs, conn, events, open, removals, ats, 2);
    assert IsReap(logs[0], conn, events, open, removals[0]);
    forall e | e in events && Salt(logs[0], conn, e) == e
      ensures Stored(logs[1], conn, e)
    {
      UnsaltedStored(logs[0], conn, events, removals[0], ats[0], e);
    }
    GrowthBySalted(logs[0], logs[1], conn, events, ats[1]);
    NothingMore(logs, conn, events, open, removals, ats, n);
  }

  lemma {:induction false} NothingMore(logs: seq<seq<Row>>, conn: string, events: seq<Event>, open: Option<set<string>>,
                                       removals: seq<seq<Event>>, ats: seq<Time>, n: nat)
    requires Repeats(logs, conn, events, open, removals, ats) && 2 <= n < |logs|
    requires LogInv(logs[0]) && ProviderEvents(events)
    ensures logs[n] == logs[2] && forall e :: e in events ==> Stored(logs[n], conn, e)
  {
    StaysSettled(logs, conn, events, open, removals, ats, n - 1);
    StaysSettled(logs, conn, events, open, removals, ats, n);
    if n == 2 {
      InsertAllShape(logs[1], conn, events, ats[1]);
    } else {
      NothingMore(logs, conn, events, open, removals, ats, n - 1);
      InsertAllStored(logs[n - 1], conn, events, ats[n - 1]);
    }
  }
}
