/** The storage layer: the events table, the cursors and the sync log, each updated in place. */
module Storage {
  import opened Model
  import opened EventLog
  import opened Collections

  /** One item's latest fact, as LatestItemFacts returns it. */
  datatype ItemFact = ItemFact(objectType: string, nativeID: string, eventID: int, eventType: EventType, body: Body)

  function FactRow(r: Row): ItemFact {
    ItemFact(r.objectType, r.nativeID, r.id, r.eventType, r.body)
  }

  datatype Operation = FastPoll | Reconcile

  datatype Outcome = OK | Degraded | Auth | RateLimited | Network | Server | Parse | StorageFailure | Unexpected

  datatype SyncLogEntry = SyncLogEntry(
    ts: Time,
    conn: string,
    operation: Operation,
    outcome: Outcome,
    itemsChanged: nat,
    retries: nat,
    nextRetry: Option<Time>)

  /** The ticket keys that a latest fact contributes: those of an observed row that reads as open. */
  function OpenKeys(r: Row): seq<string> {
    if r.eventType != ItemObserved then []
    else match r.body
      case Snapshot(facts) => if facts.state == Open then facts.ticketKeys else []
      case Head(state, keys) => if state == Open then keys else []
      case Opaque => []
  }

  /** The union of the keys that the latest facts of all items contribute. */
  ghost predicate OpenTicketKey(rows: seq<Row>, t: string) {
    exists k :: LatestFact(rows, k).Some? && t in OpenKeys(LatestFact(rows, k).value)
  }

  /** `latest` holds the latest fact of every item that has one. */
  ghost predicate IsGrouping(rows: seq<Row>, latest: map<ItemKey, Row>) {
    forall k :: if k in latest then LatestFact(rows, k) == Some(latest[k]) else LatestFact(rows, k) == None
  }

  lemma GroupingAppend(rows: seq<Row>, r: Row, latest: map<ItemKey, Row>)
    requires IsGrouping(rows, latest)
    ensures IsGrouping(rows + [r], if IsFact(r) then latest[KeyOf(r) := r] else latest)
  {
    forall k {
      LatestFactAppend(rows, r, k);
    }
  }

  /** A batch leaves the rows alone that were there, and stamps the ones it adds. */
  lemma Stamped(rows: seq<Row>, conn: string, events: seq<Event>, at: Time)
    ensures rows <= InsertAll(rows, conn, events, at)
    ensures forall i :: |rows| <= i < |InsertAll(rows, conn, events, at)| ==>
              InsertAll(rows, conn, events, at)[i].observedAt == at && InsertAll(rows, conn, events, at)[i].conn == conn
  {
    InsertAllGrows(rows, conn, events, at);
    forall i | |rows| <= i < |InsertAll(rows, conn, events, at)|
      ensures InsertAll(rows, conn, events, at)[i].observedAt == at && InsertAll(rows, conn, events, at)[i].conn == conn
    {
      InsertAllStamps(rows, conn, events, at, i);
    }
  }

  class Store {
    var rows: seq<Row>
    var cursors: map<(string, string), string>
    var syncLog: seq<SyncLogEntry>

    ghost predicate Valid()
      reads this
    {
      Ordered(rows) && UniqueKeys(rows)
    }

    constructor ()
      ensures Valid() && rows == [] && cursors == map[] && syncLog == []
    {
      rows, cursors, syncLog := [], map[], [];
    }

    /**
     One transaction. `failAt` names the statement that fails, the commit when it is no
     index of `events`; a failure rolls everything back.
     */
    method WriteEvents(conn: string, events: seq<Event>, at: Time, failAt: Option<nat>)
      returns (inserted: nat, ok: bool)
      requires Valid()
      modifies this`rows
      ensures Valid()
      ensures ok <==> events == [] || failAt.None?
      ensures ok ==> rows == InsertAll(old(rows), conn, events, at)
      ensures ok ==> |rows| == |old(rows)| + inserted
      ensures ok ==> old(rows) <= rows
      ensures ok ==> forall i :: |old(rows)| <= i < |rows| ==> rows[i].observedAt == at && rows[i].conn == conn
      ensures !ok ==> rows == old(rows) && inserted == 0
    {
      if events == [] {
        return 0, true;
      }
      var pending;
      pending, inserted, ok := Execute(conn, events, at, failAt);
      if !ok || failAt.Some? {
        return 0, false;
      }
      Stamped(rows, conn, events, at);
      rows := pending;
    }

    /** The statements of the transaction, up to its commit. */
    method Execute(conn: string, events: seq<Event>, at: Time, failAt: Option<nat>)
      returns (pending: seq<Row>, inserted: nat, ok: bool)
      requires Valid()
      ensures failAt.None? ==> ok
      ensures ok ==> pending == InsertAll(rows, conn, events, at) && Ordered(pending) && UniqueKeys(pending)
      ensures ok ==> |pending| == |rows| + inserted
    {
      pending, inserted := rows, 0;
      for i := 0 to |events|
        invariant Ordered(pending) && UniqueKeys(pending)
        invariant pending == InsertAll(rows, conn, events[..i], at)
        invariant |pending| == |rows| + inserted
      {
        if failAt == Some(i) {
          return pending, inserted, false;
        }
        InsertShape(pending, conn, events[i], at);
        assert events[..i + 1][..i] == events[..i];
        if !Stored(pending, conn, events[i]) {
          pending := pending + [Stamp(NextID(pending), conn, events[i], at)];
          inserted := inserted + 1;
        }
      }
      assert events[..|events|] == events;
      ok := true;
    }

    /** The max(id) GROUP BY that both readers below run. */
    method GroupLatest(only: Option<string>) returns (latest: map<ItemKey, Row>)
      requires Valid()
      ensures forall k :: k in latest <==> LatestFact(rows, k).Some? && (only.None? || k.conn == only.value)
      ensures forall k :: k in latest ==> LatestFact(rows, k) == Some(latest[k])
    {
      var all: map<ItemKey, Row> := map[];
      for i := 0 to |rows|
        invariant IsGrouping(rows[..i], all)
      {
        assert rows[..i + 1] == rows[..i] + [rows[i]];
        GroupingAppend(rows[..i], rows[i], all);
        if IsFact(rows[i]) {
          all := all[KeyOf(rows[i]) := rows[i]];
        }
      }
      assert rows[..|rows|] == rows;
      latest := map k | k in all && (only.None? || k.conn == only.value) :: all[k];
    }

    /** One fact per item of the connection, in no particular order. */
    method LatestItemFacts(conn: string) returns (facts: seq<ItemFact>)
      requires Valid()
      ensures forall i :: 0 <= i < |facts| ==>
                var f := LatestFact(rows, ItemKey(conn, facts[i].objectType, facts[i].nativeID));
                f.Some? && facts[i] == FactRow(f.value)
      ensures forall i, j :: 0 <= i < j < |facts| ==>
                facts[i].objectType != facts[j].objectType || facts[i].nativeID != facts[j].nativeID
      ensures forall ot, nid :: LatestFact(rows, ItemKey(conn, ot, nid)).Some? ==>
                exists i :: 0 <= i < |facts| && facts[i].objectType == ot && facts[i].nativeID == nid
    {
      var latest := GroupLatest(Some(conn));
      var items := Listing(latest.Keys);
      facts := seq(|items|, i requires 0 <= i < |items| && items[i] in latest => FactRow(latest[items[i]]));
      forall i | 0 <= i < |facts|
        ensures items[i] == ItemKey(conn, facts[i].objectType, facts[i].nativeID) && facts[i] == FactRow(latest[items[i]])
      {
        assert items[i] in latest && KeyOf(latest[items[i]]) == items[i];
      }
      forall ot, nid | LatestFact(rows, ItemKey(conn, ot, nid)).Some?
        ensures exists i :: 0 <= i < |facts| && facts[i].objectType == ot && facts[i].nativeID == nid
      {
        assert ItemKey(conn, ot, nid) in items;
        var i :| 0 <= i < |items| && items[i] == ItemKey(conn, ot, nid);
        assert facts[i].objectType == ot && facts[i].nativeID == nid;
      }
    }

    /** Each ticket key of an open item once, over all connections. */
    method AllOpenTicketKeys() returns (keys: seq<string>)
      requires Valid()
      ensures NoDuplicates(keys)
      ensures forall t :: t in keys <==> OpenTicketKey(rows, t)
    {
      var latest := GroupLatest(None);
      keys := [];
      var todo := latest.Keys;
      while todo != {}
        invariant todo <= latest.Keys
        invariant NoDuplicates(keys)
        invariant forall t :: t in keys <==> exists k :: k in latest && k !in todo && t in OpenKeys(latest[k])
      {
        var k :| k in todo;
        ghost var before := keys;
        keys := AddUnseen(keys, OpenKeys(latest[k]));
        todo := todo - {k};
        forall t
          ensures t in keys <==> exists x :: x in latest && x !in todo && t in OpenKeys(latest[x])
        {
          if t in before {
            var x :| x in latest && x !in todo + {k} && t in OpenKeys(latest[x]);
          }
        }
      }
    }

    /** The inner loop of AllOpenTicketKeys: append what was not seen yet. */
    method AddUnseen(keys: seq<string>, more: seq<string>) returns (all: seq<string>)
      requires NoDuplicates(keys)
      ensures NoDuplicates(all)
      ensures forall t :: t in all <==> t in keys || t in more
    {
      all := keys;
      for i := 0 to |more|
        invariant NoDuplicates(all)
        invariant forall t :: t in all <==> t in keys || t in more[..i]
      {
        assert more[..i + 1] == more[..i] + [more[i]];
        if more[i] !in all {
          all := all + [more[i]];
        }
      }
      assert more[..|more|] == more;
    }

    method LoadCursors(conn: string) returns (state: map<string, string>)
      ensures forall k :: k in state <==> (conn, k) in cursors
      ensures forall k :: k in state ==> state[k] == cursors[(conn, k)]
    {
      state := map[];
      var todo := cursors.Keys;
      while todo != {}
        invariant todo <= cursors.Keys
        invariant forall k :: k in state <==> (conn, k) in cursors && (conn, k) !in todo
        invariant forall k :: k in state ==> state[k] == cursors[(conn, k)]
      {
        var c :| c in todo;
        if c.0 == conn {
          state := state[c.1 := cursors[c]];
        }
        todo := todo - {c};
      }
    }

    /** Upserts the pairs of `state` in one transaction; other cursors stay. */
    method SaveCursors(conn: string, state: map<string, string>, fails: bool) returns (ok: bool)
      modifies this`cursors
      ensures ok <==> state == map[] || !fails
      ensures !ok ==> cursors == old(cursors)
      ensures ok ==> forall c, k :: (c, k) in cursors <==> (c, k) in old(cursors) || (c == conn && k in state)
      ensures ok ==> forall c, k :: (c, k) in cursors ==>
                cursors[(c, k)] == if c == conn && k in state then state[k] else old(cursors)[(c, k)]
    {
      if state == map[] {
        return true;
      }
      var pending := cursors;
      var todo := state.Keys;
      while todo != {}
        invariant todo <= state.Keys
        invariant forall c, k :: (c, k) in pending <==> (c, k) in cursors || (c == conn && k in state && k !in todo)
        invariant forall c, k :: (c, k) in pending ==>
                    pending[(c, k)] == if c == conn && k in state && k !in todo then state[k] else cursors[(c, k)]
      {
        var k :| k in todo;
        pending := pending[(conn, k) := state[k]];
        todo := todo - {k};
      }
      if fails {
        return false;
      }
      cursors := pending;
      return true;
    }

    /** The sync log is append-only; a failed insert is dropped. */
    method WriteSyncLog(entry: SyncLogEntry, fails: bool)
      modifies this`syncLog
      ensures syncLog == if fails then old(syncLog) else old(syncLog) + [entry]
    {
      if !fails {
        syncLog := syncLog + [entry];
      }
    }
  }
}
