/** Items that leave a complete sweep, by the roles on their latest snapshot; and PRs that one GitHub sweep finds and the next misses. */
module LeavingSweep {
  import opened Model
  import opened EventLog
  import opened Reaping
  import opened Visibility
  import opened Engine
  import opened EngineRuns
  import P = Protocol
  import Hub = GitHub
  import HubSweep = GitHubSweep
  import HubRuns = GitHubRuns
  import HubSafety = GitHubSafety
  import HubCalls = GitHubCalls
  import EndToEnd

  /** The item's latest fact is an open snapshot with these facts. */
  predicate LatestOpenIs(rows: seq<Row>, k: ItemKey, pl: Payload) {
    var f := LatestFact(rows, k);
    f.Some? && f.value.eventType == ItemObserved && f.value.body == Snapshot(pl) && pl.state == Open
  }

  /**
   What a complete sweep that misses an item makes of its open latest snapshot. With a role on it
   the item is removed, whatever ResolveOpen answers. Without one it is removed if ResolveOpen
   answers without listing it, and its fact stays if the call fails or lists it.
   */
  predicate LeaverDecided(rows: seq<Row>, rows': seq<Row>, k: ItemKey, pl: Payload, open: Option<set<string>>) {
    if pl.myRoles != [] || (open.Some? && k.nativeID !in open.value) then LatestIsRemoval(rows', k) && !Visible(rows', k)
    else LatestFact(rows', k) == LatestFact(rows, k) && Visible(rows', k)
  }

  lemma MissedIsDecided(rows: seq<Row>, conn: string, events: seq<Event>, open: Option<set<string>>, removals: seq<Event>,
                        at: Time, nid: string, pl: Payload)
    requires LogInv(rows) && ProviderEvents(events) && IsReap(rows, conn, events, open, removals)
    requires nid !in Swept(events) && LatestOpenIs(rows, Item(conn, nid), pl)
    ensures LeaverDecided(rows, CompletePersist(rows, conn, events, removals, at), Item(conn, nid), pl, open)
  {
    Exit(rows, conn, events, open, removals, at, nid);
  }

  /** Over every run of the protocol. */
  lemma RolesDecide(run: seq<P.State>, steps: seq<P.Step>, n: nat, nid: string, pl: Payload)
    requires P.IsRun(run, steps) && n < |steps| && steps[n].WriteComplete? && nid !in Swept(steps[n].poll.events)
    requires LatestOpenIs(run[n].rows, Item(steps[n].conn, nid), pl)
    ensures LeaverDecided(run[n].rows, run[n + 1].rows, Item(steps[n].conn, nid), pl, steps[n].open)
  {
    P.AtLeastOnce(run, steps, n);
    assert P.Moves(run, steps, n);
    MissedIsDecided(run[n].rows, steps[n].conn, steps[n].poll.events, steps[n].open, steps[n].removals, steps[n].at, nid, pl);
  }

  /** The turn wrote a complete sweep. */
  predicate WritesSweep(t: Turn) {
    Written(t.cycle.end) && ResultOf(t.cycle.env).complete
  }

  /** And for every cycle of an engine run that wrote one. */
  lemma EngineRolesDecide(turns: seq<Turn>, n: nat, nid: string, pl: Payload)
    requires IsEngineRun(turns) && n < |turns| && WritesSweep(turns[n])
    requires nid !in Swept(ResultOf(turns[n].cycle.env).events)
    requires LatestOpenIs(turns[n].cycle.before.rows, Item(turns[n].conn, nid), pl)
    ensures var t := turns[n];
            LeaverDecided(t.cycle.before.rows, t.cycle.after.rows, Item(t.conn, nid), pl, AnswerSet(t.cycle.env.stillOpen))
  {
    var t := turns[n];
    assert TurnAt(turns, n);
    EngineLogInv(turns, n);
    MissedIsDecided(t.cycle.before.rows, t.conn, ResultOf(t.cycle.env).events, AnswerSet(t.cycle.env.stillOpen),
                    t.cycle.removals, t.cycle.env.now, nid, pl);
  }

  // ---- what a sweep that finds a PR leaves ----

  /** The item's latest fact is an open snapshot with a role. */
  predicate HeldWithRole(rows: seq<Row>, k: ItemKey) {
    var f := LatestFact(rows, k);
    f.Some? && f.value.eventType == ItemObserved && f.value.body.Snapshot? && f.value.body.facts.state == Open
    && f.value.body.facts.myRoles != []
  }

  predicate RoledSnapshot(e: Event) {
    e.body.Snapshot? && e.body.facts.state == Open && e.body.facts.myRoles != []
  }

  /** The item is swept, and each of its snapshots is open and carries a role. */
  predicate SweptRoled(events: seq<Event>, nid: string) {
    nid in Swept(events) && forall e :: e in events && e.eventType == ItemObserved && e.nativeID == nid ==> RoledSnapshot(e)
  }

  /**
   After a complete sweep that saw the item open under a role, its latest fact carries a role,
   unless the log knew the sweep's snapshot already, below a later one that carries none or is
   not open.
   */
  lemma SweepLeavesRole(rows: seq<Row>, conn: string, events: seq<Event>, open: Option<set<string>>, removals: seq<Event>,
                        at: Time, nid: string)
    requires LogInv(rows) && ProviderEvents(events) && IsReap(rows, conn, events, open, removals)
    requires SweptRoled(events, nid)
    ensures HeldWithRole(CompletePersist(rows, conn, events, removals, at), Item(conn, nid)) <==>
            || HeldWithRole(rows, Item(conn, nid)) || LatestIsRemoval(rows, Item(conn, nid))
            || !AllRepeated(rows, conn, events, nid)
    ensures !LatestIsRemoval(rows, Item(conn, nid)) && AllRepeated(rows, conn, events, nid) ==>
              LatestFact(CompletePersist(rows, conn, events, removals, at), Item(conn, nid)) == LatestFact(rows, Item(conn, nid))
  {
    var k := Item(conn, nid);
    if LatestIsRemoval(rows, k) || !AllRepeated(rows, conn, events, nid) {
      var e := SweptBecomesLatest(rows, conn, events, open, removals, at, nid);
    } else {
      SwallowedChangesNothing(rows, conn, events, open, removals, at, nid);
    }
  }

  /** Under a new key, or after a removal, one of the swept snapshots becomes the item's latest fact. */
  lemma SweptBecomesLatest(rows: seq<Row>, conn: string, events: seq<Event>, open: Option<set<string>>, removals: seq<Event>,
                           at: Time, nid: string) returns (e: Event)
    requires LogInv(rows) && ProviderEvents(events) && IsReap(rows, conn, events, open, removals)
    requires nid in Swept(events) && (LatestIsRemoval(rows, Item(conn, nid)) || !AllRepeated(rows, conn, events, nid))
    ensures e in events && e.eventType == ItemObserved && e.nativeID == nid
    ensures var f := LatestFact(CompletePersist(rows, conn, events, removals, at), Item(conn, nid));
            f.Some? && f.value.eventType == ItemObserved && f.value.body == e.body
  {
    var x := NewKey(rows, conn, events, nid);
    var s := NewFactLands(rows, conn, SaltAll(rows, conn, events), at, Item(conn, nid), x);
    SweptNotRemoved(rows, conn, events, open, removals, at, nid);
    e := SaltedOrigin(rows, conn, events, s);
  }

  /** A batch with a new fact of the item leaves one of the batch's facts as its latest. */
  lemma NewFactLands(rows: seq<Row>, conn: string, batch: seq<Event>, at: Time, k: ItemKey, x: Event) returns (s: Event)
    requires x in batch && FactOf(x, conn, k) && !Stored(rows, conn, x)
    ensures s in batch && FactOf(s, conn, k)
    ensures LatestFact(InsertAll(rows, conn, batch, at), k).Some? && RowFrom(LatestFact(InsertAll(rows, conn, batch, at), k).value, conn, s)
  {
    LatestFactAfter(rows, conn, batch, at, k);
    s :| s in batch && FactOf(s, conn, k) && RowFrom(LatestFact(InsertAll(rows, conn, batch, at), k).value, conn, s);
  }

  lemma NewKey(rows: seq<Row>, conn: string, events: seq<Event>, nid: string) returns (x: Event)
    requires LogInv(rows) && ProviderEvents(events)
    requires nid in Swept(events) && (LatestIsRemoval(rows, Item(conn, nid)) || !AllRepeated(rows, conn, events, nid))
    ensures x in SaltAll(rows, conn, events) && FactOf(x, conn, Item(conn, nid)) && !Stored(rows, conn, x)
  {
    var e: Event;
    if LatestIsRemoval(rows, Item(conn, nid)) {
      e :| e in events && e.eventType == ItemObserved && e.nativeID == nid;
      SaltIsFresh(rows, conn, e);
    } else {
      e :| e in events && e.eventType == ItemObserved && e.nativeID == nid && !Stored(rows, conn, e);
    }
    SaltedMember(rows, conn, events, e);
    x := Salt(rows, conn, e);
  }

  /** And where every key is stored and there was no removal, the item's latest fact is the one from before. */
  lemma SwallowedChangesNothing(rows: seq<Row>, conn: string, events: seq<Event>, open: Option<set<string>>, removals: seq<Event>,
                                at: Time, nid: string)
    requires LogInv(rows) && ProviderEvents(events) && IsReap(rows, conn, events, open, removals)
    requires nid in Swept(events) && !LatestIsRemoval(rows, Item(conn, nid)) && AllRepeated(rows, conn, events, nid)
    ensures LatestFact(CompletePersist(rows, conn, events, removals, at), Item(conn, nid)) == LatestFact(rows, Item(conn, nid))
  {
    var k, salted := Item(conn, nid), SaltAll(rows, conn, events);
    SweptNotRemoved(rows, conn, events, open, removals, at, nid);
    LatestFactAfter(rows, conn, salted, at, k);
    forall s | s in salted && FactOf(s, conn, k)
      ensures Stored(rows, conn, s)
    {
      var e := SaltedOrigin(rows, conn, events, s);
    }
  }

  // ---- a PR that one GitHub sweep finds and the next one misses ----

  /** A search sweep gives every snapshot the roles of the scopes that found it, so at least one. */
  lemma SweptHasRole(hits: seq<HubSweep.Hit>, e: Event)
    requires e in HubSweep.SweepRest(hits) && e.eventType == ItemObserved
    ensures RoledSnapshot(e)
  {
    var order := HubSweep.Order(hits);
    if e in HubSweep.ReviewSignals(hits) {
      HubSweep.SignalsOnly(hits, e);
    }
    HubSweep.OrderIsKept(hits);
    HubSweep.SweptLength(hits, order);
    var i :| 0 <= i < |order| && HubSweep.SweptEvents(hits, order)[i] == e;
    assert order[i] in order;
    var n :| 0 <= n < |hits| && HubSweep.IsKept(hits[n]) && hits[n].row.url == order[i];
    HubSweep.SweepAggregatesRoles(hits, i, hits[n].role);
    assert HubSweep.IsFoundUnder(hits[n], order[i], hits[n].role);
  }

  lemma EnrichedRoles(ev: Event, r: Option<Hub.Result>, cache: Hub.Cache)
    requires RoledSnapshot(ev)
    ensures RoledSnapshot(Hub.Enriched(ev, r, cache))
  {
    if Hub.Joinable(ev) {
      var pl, snap := ev.body.facts, Hub.Lookup(cache, ev.nativeID);
      if r.Some? && r.value.Enrichment? {
        HubRuns.JoinKeeps(pl, r.value, snap);
      } else if snap.Some? {
        HubRuns.CarryEnrichmentKeeps(pl, snap.value);
        HubRuns.CarryGateKeeps(Hub.CarryForwardEnrichment(pl, snap.value), snap.value);
      }
    }
  }

  /** The turn wrote a complete sweep that GitHub's provider made of these searches. */
  ghost predicate IsHubTurn(t: Turn, cache: Hub.Cache, call: HubCalls.Call, p: HubRuns.Poll, handle: string) {
    && WritesSweep(t) && EndToEnd.IsHubSweep(call, p, handle)
    && ResultOf(t.cycle.env).events == HubRuns.PollOutput(cache, p)
  }

  /** The search row's probe for the sole-approver role failed. */
  predicate FailedProbe(h: HubSweep.Hit) {
    h.row.isPull && h.role == SoleApprover && h.row.probe == HubSweep.ProbeFailed
  }

  /**
   A failed probe leaves a role unknown, so it never lets the sweep remove anything: the cycle
   adds no removal. A sweep without one is complete.
   */
  lemma FailedProbeNeverReaps(turns: seq<Turn>, n: nat, cache: Hub.Cache, call: HubCalls.Call, p: HubRuns.Poll, handle: string)
    requires IsEngineRun(turns) && n < |turns| && EndToEnd.IsHubSweep(call, p, handle)
    requires turns[n].cycle.env.poll.Polled? && ResultOf(turns[n].cycle.env).complete == p.complete
    ensures p.complete <==> forall i :: 0 <= i < |call.hits| ==> !FailedProbe(call.hits[i])
    ensures !p.complete ==> forall r :: r in RowsAt(turns, n + 1) && r !in RowsAt(turns, n) ==> r.eventType != ItemRemoved
  {
    assert TurnAt(turns, n);
    var t := turns[n];
    var events, rows := ResultOf(t.cycle.env).events, RowsAt(turns, n);
    assert forall i :: 0 <= i < |call.hits| ==> (FailedProbe(call.hits[i]) <==> HubSweep.Incomplete(call.hits[i]));
    if !p.complete && Written(t.cycle.end) {
      forall r | r in RowsAt(turns, n + 1) && r !in rows
        ensures r.eventType != ItemRemoved
      {
        InsertAllOrigin(rows, t.conn, events, t.cycle.env.now, r);
      }
    }
  }

  lemma FoundIsSweptRoled(cache: Hub.Cache, call: HubCalls.Call, p: HubRuns.Poll, handle: string, nid: string)
    requires EndToEnd.IsHubSweep(call, p, handle) && EndToEnd.HubLive(call, nid)
    ensures SweptRoled(HubRuns.PollOutput(cache, p), nid)
  {
    EndToEnd.HubOutputSwept(cache, call, p, handle, nid);
    HubSafety.JoinedVerdicts(p, call.forge, handle);
    forall e | e in HubRuns.PollOutput(cache, p) && e.eventType == ItemObserved && e.nativeID == nid
      ensures RoledSnapshot(e)
    {
      var i := HubRuns.OutputOrigin(cache, p, e);
      HubSafety.EnrichedSame(p.rest[i], Hub.ResultAt(p.results, i), cache);
      assert p.rest[i] in p.rest;
      SweptHasRole(call.hits, p.rest[i]);
      EnrichedRoles(p.rest[i], Hub.ResultAt(p.results, i), cache);
    }
  }

  /** From turn i up to j the connection writes no other sweep, and no poll that holds a snapshot of the item. */
  predicate NoNews(turns: seq<Turn>, conn: string, nid: string, i: nat, j: nat)
    requires i <= j <= |turns|
  {
    forall n :: i <= n < j && turns[n].conn == conn && Written(turns[n].cycle.end) ==>
                  !ResultOf(turns[n].cycle.env).complete && nid !in Swept(ResultOf(turns[n].cycle.env).events)
  }

  lemma TurnKeepsFact(turns: seq<Turn>, conn: string, nid: string, n: nat)
    requires IsEngineRun(turns) && n < |turns| && NoNews(turns, conn, nid, n, n + 1)
    ensures LatestFact(RowsAt(turns, n + 1), Item(conn, nid)) == LatestFact(RowsAt(turns, n), Item(conn, nid))
  {
    assert TurnAt(turns, n);
    var t := turns[n];
    if Written(t.cycle.end) {
      var rows, events, at := t.cycle.before.rows, ResultOf(t.cycle.env).events, t.cycle.env.now;
      var written := if ResultOf(t.cycle.env).complete then SaltAll(rows, t.conn, events) + t.cycle.removals else events;
      LatestFactUntouched(rows, t.conn, written, at, Item(conn, nid));
    }
  }

  lemma {:induction false} NoNewsKeepsFact(turns: seq<Turn>, conn: string, nid: string, i: nat, j: nat)
    requires IsEngineRun(turns) && i <= j <= |turns| && NoNews(turns, conn, nid, i, j)
    ensures LatestFact(RowsAt(turns, j), Item(conn, nid)) == LatestFact(RowsAt(turns, i), Item(conn, nid))
  {
    if i < j {
      NoNewsKeepsFact(turns, conn, nid, i, j - 1);
      TurnKeepsFact(turns, conn, nid, j - 1);
    }
  }

  /** After a turn whose sweep found the PR, either its latest fact has a role, or it is the one from before. */
  lemma FoundLeavesRole(turns: seq<Turn>, m: nat, cache: Hub.Cache, call: HubCalls.Call, p: HubRuns.Poll, handle: string, nid: string)
    requires IsEngineRun(turns) && m < |turns|
    requires IsHubTurn(turns[m], cache, call, p, handle) && EndToEnd.HubLive(call, nid)
    ensures var k, rows := Item(turns[m].conn, nid), RowsAt(turns, m);
            HeldWithRole(RowsAt(turns, m + 1), k) <==>
            HeldWithRole(rows, k) || LatestIsRemoval(rows, k) || !AllRepeated(rows, turns[m].conn, HubRuns.PollOutput(cache, p), nid)
    ensures var k, rows := Item(turns[m].conn, nid), RowsAt(turns, m);
            !HeldWithRole(RowsAt(turns, m + 1), k) ==> LatestFact(RowsAt(turns, m + 1), k) == LatestFact(rows, k)
  {
    var t := turns[m];
    assert TurnAt(turns, m);
    EngineLogInv(turns, m);
    FoundIsSweptRoled(cache, call, p, handle, nid);
    SweepLeavesRole(t.cycle.before.rows, t.conn, ResultOf(t.cycle.env).events, AnswerSet(t.cycle.env.stillOpen),
                    t.cycle.removals, t.cycle.env.now, nid);
  }

  /**
   A PR that one GitHub sweep found and the next one of the connection misses. It is removed
   whatever ResolveOpen answers if, before the first sweep, its latest fact was a removal or
   carried a role, or the log did not hold the first sweep's snapshot. Otherwise that sweep was
   swallowed as a duplicate below a later snapshot without role, and the PR stays if it was
   visible and ResolveOpen fails or lists it.
   */
  lemma FoundThenMissed(turns: seq<Turn>, m: nat, n: nat, cache: Hub.Cache, call: HubCalls.Call, p: HubRuns.Poll,
                        cache': Hub.Cache, call': HubCalls.Call, p': HubRuns.Poll, handle: string, nid: string)
    requires IsEngineRun(turns) && m < n < |turns| && turns[m].conn == turns[n].conn
    requires IsHubTurn(turns[m], cache, call, p, handle) && EndToEnd.HubLive(call, nid)
    requires IsHubTurn(turns[n], cache', call', p', handle) && !HubSweep.Found(call'.hits, nid)
    requires NoNews(turns, turns[m].conn, nid, m + 1, n)
    ensures var k, rows, rows', open := Item(turns[m].conn, nid), RowsAt(turns, m), RowsAt(turns, n + 1), turns[n].cycle.env.stillOpen;
            if HeldWithRole(rows, k) || LatestIsRemoval(rows, k) || !AllRepeated(rows, turns[m].conn, HubRuns.PollOutput(cache, p), nid)
            then LatestIsRemoval(rows', k) && !Visible(rows', k)
            else Visible(rows', k) <==> Visible(rows, k) && (open.None? || nid in open.value)
  {
    var t, k := turns[n], Item(turns[n].conn, nid);
    FoundLeavesRole(turns, m, cache, call, p, handle, nid);
    NoNewsKeepsFact(turns, t.conn, nid, m + 1, n);
    EndToEnd.HubOutputSwept(cache', call', p', handle, nid);
    assert TurnAt(turns, n);
    var f := LatestFact(RowsAt(turns, n), k);
    if f.Some? && IsOpen(f.value) {
      EngineRolesDecide(turns, n, nid, f.value.body.facts);
    } else {
      EngineReconcileDecides(turns, n, nid);
    }
  }

  function ThenSave(write: P.Step): seq<P.Step> {
    [write, P.Save(write.conn)]
  }

  /** A write of a poll without cursors, made where nothing is pending, that turns `rows` into `rows'`. */
  ghost predicate Turns(write: P.Step, rows: seq<Row>, rows': seq<Row>) {
    && (write.WritePartial? || write.WriteComplete?) && write.poll.cursors == map[]
    && P.Enabled(P.State(rows, map[], map[]), write)
    && P.Apply(P.State(rows, map[], map[]), write).rows == rows'
  }

  lemma WriteThenSave(run: seq<P.State>, steps: seq<P.Step>, write: P.Step, rows: seq<Row>, rows': seq<Row>) returns (run': seq<P.State>)
    requires P.IsRun(run, steps) && run[|steps|] == P.State(rows, map[], map[]) && Turns(write, rows, rows')
    ensures P.IsRun(run', steps + ThenSave(write)) && run'[|steps| + 2] == P.State(rows', map[], map[])
  {
    var mid, save := P.Apply(run[|steps|], write), P.Save(write.conn);
    RunAppend(run, steps, write);
    RunAppend(run + [mid], steps + [write], save);
    run' := run + [mid] + [P.Apply(mid, save)];
    assert steps + [write] + [save] == steps + ThenSave(write);
    assert mid.written == map[write.conn := write.poll];
  }

  lemma SweepTurns(conn: string, events: seq<Event>, at: Time, rows: seq<Row>, rows': seq<Row>)
    requires ProviderEvents(events) && IsReap(rows, conn, events, None, []) && CompletePersist(rows, conn, events, [], at) == rows'
    ensures Turns(P.WriteComplete(conn, P.Poll(events, map[]), None, [], at), rows, rows')
  {
  }

  lemma FeedTurns(conn: string, events: seq<Event>, at: Time, rows: seq<Row>, rows': seq<Row>)
    requires ProviderEvents(events) && InsertAll(rows, conn, events, at) == rows'
    ensures Turns(P.WritePartial(conn, P.Poll(events, map[]), at), rows, rows')
  {
  }

  lemma FourWrites(a: P.Step, b: P.Step, c: P.Step, d: P.Step, rows1: seq<Row>, rows2: seq<Row>, rows3: seq<Row>, rows4: seq<Row>)
      returns (run: seq<P.State>)
    requires Turns(a, [], rows1) && Turns(b, rows1, rows2) && Turns(c, rows2, rows3) && Turns(d, rows3, rows4)
    ensures P.IsRun(run, ThenSave(a) + ThenSave(b) + ThenSave(c) + ThenSave(d)) && run[8].rows == rows4
  {
    assert P.IsRun([P.START], []);
    var run2 := WriteThenSave([P.START], [], a, [], rows1);
    assert [] + ThenSave(a) == ThenSave(a);
    var run4 := WriteThenSave(run2, ThenSave(a), b, rows1, rows2);
    var run6 := WriteThenSave(run4, ThenSave(a) + ThenSave(b), c, rows2, rows3);
    run := WriteThenSave(run6, ThenSave(a) + ThenSave(b) + ThenSave(c), d, rows3, rows4);
  }

  /** A write of one event, new or stored. */
  lemma OneWritten(rows: seq<Row>, conn: string, e: Event, at: Time)
    ensures InsertAll(rows, conn, [e], at) == if Stored(rows, conn, e) then rows else rows + [Stamp(NextID(rows), conn, e, at)]
  {
    assert [e][..0] == [];
  }

  /** A sweep of one open item that was not removed, in a log of that item alone, salts and removes nothing. */
  lemma QuietSweep(rows: seq<Row>, conn: string, e: Event, at: Time)
    requires forall r :: r in rows ==> KeyOf(r) == Item(conn, e.nativeID) && r.eventType == ItemObserved
    requires e.eventType == ItemObserved
    ensures IsReap(rows, conn, [e], None, [])
    ensures CompletePersist(rows, conn, [e], [], at) == InsertAll(rows, conn, [e], at)
  {
    assert SaltAll(rows, conn, [e]) + [] == [e];
    assert Swept([e]) == {e.nativeID} by {
      assert e in [e];
    }
  }

  /** The log of the run, after its first and after each later write. */
  lemma SwallowingLog(conn: string, a: Event, b: Event, at: Time)
    requires a.objectType == b.objectType == MERGE_REQUEST && a.nativeID == b.nativeID && a.eventType == b.eventType == ItemObserved
    requires a.key != b.key && b.body.Snapshot? && b.body.facts.state == Open && b.body.facts.myRoles == []
    ensures var one := [Stamp(1, conn, a, at)];
            var two := one + [Stamp(2, conn, b, at)];
            && IsReap([], conn, [a], None, []) && CompletePersist([], conn, [a], [], at) == one
            && InsertAll(one, conn, [b], at) == two
            && IsReap(two, conn, [a], None, []) && CompletePersist(two, conn, [a], [], at) == two
            && IsReap(two, conn, [], None, []) && CompletePersist(two, conn, [], [], at) == two
            && LatestFact(two, Item(conn, b.nativeID)) == Some(Stamp(2, conn, b, at))
  {
    var one := [Stamp(1, conn, a, at)];
    var two := one + [Stamp(2, conn, b, at)];
    QuietSweep([], conn, a, at);
    OneWritten([], conn, a, at);
    assert !Stored(one, conn, b);
    OneWritten(one, conn, b, at);
    QuietSweep(two, conn, a, at);
    OneWritten(two, conn, a, at);
    assert SameKey(two[0], conn, a);
    LatestFactAppend(one, two[1], Item(conn, b.nativeID));
    MissingOnly(two, conn, b);
  }

  /** With ResolveOpen failing, a sweep of nothing removes nothing when the log holds one item, without role. */
  lemma MissingOnly(rows: seq<Row>, conn: string, b: Event)
    requires forall r :: r in rows ==> KeyOf(r) == Item(conn, b.nativeID)
    requires var f := LatestFact(rows, Item(conn, b.nativeID)); f.Some? && !HeldWithRole(rows, Item(conn, b.nativeID))
    ensures IsReap(rows, conn, [], None, [])
  {
    forall nid
      ensures !MustReap(rows, conn, Swept([]), None, nid)
    {
    }
  }

  /** The polls of a run in which a sweep is swallowed: one with a role, one without, the first again, and nothing. */
  function SwallowingSteps(conn: string, a: Event, b: Event, at: Time): seq<P.Step> {
    ThenSave(P.WriteComplete(conn, P.Poll([a], map[]), None, [], at))
    + ThenSave(P.WritePartial(conn, P.Poll([b], map[]), at))
    + ThenSave(P.WriteComplete(conn, P.Poll([a], map[]), None, [], at))
    + ThenSave(P.WriteComplete(conn, P.Poll([], map[]), None, [], at))
  }

  /**
   Such a PR exists, for any facts with a role and any without: a sweep brings the first, a
   notification the second, the next sweep repeats the first and is swallowed, and the sweep
   that then misses the PR leaves it visible when ResolveOpen fails, although the sweep before
   found it under a role.
   */
  lemma SwallowedSweepStays(conn: string, nid: string, f: Payload, g: Payload, at: Time) returns (run: seq<P.State>)
    requires f.state == Open && f.myRoles != [] && g.state == Open && g.myRoles == []
    ensures P.IsRun(run, SwallowingSteps(conn, Hub.ObservedEvent(nid, f), Hub.ObservedEvent(nid, g), at))
    ensures Visible(run[8].rows, Item(conn, nid))
  {
    var a, b := Hub.ObservedEvent(nid, f), Hub.ObservedEvent(nid, g);
    SwallowingLog(conn, a, b, at);
    var one := [Stamp(1, conn, a, at)];
    var two := one + [Stamp(2, conn, b, at)];
    var sweep, feed := P.WriteComplete(conn, P.Poll([a], map[]), None, [], at), P.WritePartial(conn, P.Poll([b], map[]), at);
    var missed := P.WriteComplete(conn, P.Poll([], map[]), None, [], at);
    SweepTurns(conn, [a], at, [], one);
    FeedTurns(conn, [b], at, one, two);
    SweepTurns(conn, [a], at, two, two);
    SweepTurns(conn, [], at, two, two);
    run := FourWrites(sweep, feed, sweep, missed, one, two, two, two);
  }
}
