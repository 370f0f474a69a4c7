/** What degraded polls write about a PR whose join last succeeded: nothing, for as long as its REST facts stay. */
module GitHubDegraded {
  import opened Model
  import opened EventLog
  import opened GitHub
  import opened GitHubRuns
  import opened GitHubProvider
  import opened GitHubSafety

  // ---- one item of a poll ----

  /** Event i is the poll's only snapshot of its item. */
  predicate OnlyAt(rest: seq<Event>, i: int) {
    && 0 <= i < |rest| && rest[i].eventType == ItemObserved
    && forall j :: 0 <= j < |rest| && j != i && rest[j].eventType == ItemObserved ==> rest[j].nativeID != rest[i].nativeID
  }

  /** The event is an open snapshot whose join succeeded. */
  predicate JoinedOpen(ev: Event, r: Option<Result>) {
    Joinable(ev) && ev.body.facts.state == Open && r.Some? && r.value.Enrichment?
  }

  lemma JoinedEvent(ev: Event, r: Option<Result>, cache: Cache)
    requires JoinedOpen(ev, r)
    ensures var pl := JoinPayload(ev.body.facts, r.value, Lookup(cache, ev.nativeID));
            Enriched(ev, r, cache) == ev.(body := Snapshot(pl), key := FactsKey(pl)) && pl.state == Open
  {
    JoinFields(ev.body.facts, r.value, Lookup(cache, ev.nativeID));
  }

  lemma DegradedEvent(ev: Event, snap: Payload, cache: Cache)
    requires Joinable(ev) && Lookup(cache, ev.nativeID) == Some(snap)
    ensures var pl := DegradedPayload(ev.body.facts, Some(snap));
            Enriched(ev, None, cache) == ev.(body := Snapshot(pl), key := FactsKey(pl)) && pl.state == ev.body.facts.state
  {
    EnrichmentFields(ev.body.facts, snap);
    CarryGateFields(CarryForwardEnrichment(ev.body.facts, snap), snap);
  }

  /** An item with no archived answer survives the join. */
  lemma NotArchived(p: Poll, i: int)
    requires OnlyAt(p.rest, i) && ResultAt(p.results, i) != Some(Archived)
    ensures p.rest[i].nativeID !in ArchivedIDs(p.rest, p.results)
  {
  }

  lemma {:induction false} SurvivorAt(events: seq<Event>, n: nat, results: map<int, Result>, cache: Cache, archived: set<string>, i: nat)
    requires i < n <= |events| && events[i].nativeID !in archived
    ensures Enriched(events[i], ResultAt(results, i), cache) in Survivors(events, n, results, cache, archived)
  {
    if i < n - 1 {
      SurvivorAt(events, n - 1, results, cache, archived, i);
    }
  }

  /** The poll's output holds the enriched snapshot, and no other snapshot of the item. */
  lemma OneSnapshot(cache: Cache, p: Poll, i: int)
    requires OnlyAt(p.rest, i) && ResultAt(p.results, i) != Some(Archived) && VerdictsAreSignals(p.results)
    ensures var e := Enriched(p.rest[i], ResultAt(p.results, i), cache);
            && e in PollOutput(cache, p)
            && forall x :: x in PollOutput(cache, p) && x.eventType == ItemObserved && x.nativeID == p.rest[i].nativeID ==> x == e
  {
    var out := PollOutput(cache, p);
    NotArchived(p, i);
    SurvivorAt(p.rest, |p.rest|, p.results, cache, ArchivedIDs(p.rest, p.results), i);
    forall x | x in out && x.eventType == ItemObserved && x.nativeID == p.rest[i].nativeID
      ensures x == Enriched(p.rest[i], ResultAt(p.results, i), cache)
    {
      var j := OutputOrigin(cache, p, x);
      EnrichedSame(p.rest[j], ResultAt(p.results, j), cache);
    }
  }

  /** The cache entry of an item whose snapshots in the poll are all open comes from the poll. */
  lemma {:induction false} CachedFromPoll(cache: Cache, events: seq<Event>, nid: string, e: Event)
    requires e in events && e.eventType == ItemObserved && e.body.Snapshot? && e.nativeID == nid && e.body.facts.state == Open
    requires forall x :: x in events && x.eventType == ItemObserved && x.nativeID == nid ==> x == e
    ensures Lookup(CacheAll(cache, events), nid) == Some(e.body.facts)
  {
    var init, last := events[..|events| - 1], events[|events| - 1];
    assert last in events && forall x :: x in events <==> x in init || x == last;
    if last != e {
      CachedFromPoll(cache, init, nid, e);
    }
  }

  /** After the poll the cache holds the item's enriched open snapshot. */
  lemma EntryAfter(cache: Cache, p: Poll, i: int)
    requires OnlyAt(p.rest, i) && ResultAt(p.results, i) != Some(Archived) && VerdictsAreSignals(p.results)
    requires var e := Enriched(p.rest[i], ResultAt(p.results, i), cache); e.body.Snapshot? && e.body.facts.state == Open
    ensures Lookup(NextCache(cache, p), p.rest[i].nativeID) == Some(Enriched(p.rest[i], ResultAt(p.results, i), cache).body.facts)
  {
    var out, e := PollOutput(cache, p), Enriched(p.rest[i], ResultAt(p.results, i), cache);
    OneSnapshot(cache, p, i);
    EnrichedSame(p.rest[i], ResultAt(p.results, i), cache);
    CachedFromPoll(cache - ArchivedIDs(p.rest, p.results), out, e.nativeID, e);
    assert e.nativeID in OpenIDs(out);
  }

  /** A poll without a snapshot of the item keeps its cache entry or drops it. */
  lemma EntryKept(cache: Cache, p: Poll, nid: string)
    requires SilentOn(p, nid) && VerdictsAreSignals(p.results) && nid in NextCache(cache, p)
    ensures Lookup(NextCache(cache, p), nid) == Lookup(cache, nid)
  {
    var base, out := cache - ArchivedIDs(p.rest, p.results), PollOutput(cache, p);
    CacheOrigin(base, out, nid);
    forall e | e in out && e.eventType == ItemObserved
      ensures e.nativeID != nid
    {
      var i := OutputOrigin(cache, p, e);
      EnrichedSame(p.rest[i], ResultAt(p.results, i), cache);
    }
  }

  predicate SilentOn(p: Poll, nid: string) {
    forall i :: 0 <= i < |p.rest| && p.rest[i].eventType == ItemObserved ==> p.rest[i].nativeID != nid
  }

  // ---- one degraded poll ----

  /** The poll reads the PR as before, and its join has no result for it: its batch failed, or its node was missing or null. */
  predicate ReadsDegraded(q: Poll, k: int, ev: Event) {
    OnlyAt(q.rest, k) && q.rest[k] == ev && ResultAt(q.results, k).None?
  }

  /**
   One degraded poll, per PR. When the last joined snapshot of an open PR is cached, a poll
   that reads the same REST facts without a result for it emits exactly that snapshot again,
   dedupe key included, if and only if the cache can rebuild it. Nothing is asked of the
   other items of either poll.
   */
  lemma OneRepeats(cache: Cache, p: Poll, i: int, q: Poll, k: int)
    requires OnlyAt(p.rest, i) && JoinedOpen(p.rest[i], ResultAt(p.results, i)) && VerdictsAreSignals(p.results)
    requires ReadsDegraded(q, k, p.rest[i]) && VerdictsAreSignals(q.results)
    ensures var ev, joined := p.rest[i], Enriched(p.rest[i], ResultAt(p.results, i), cache);
            var degraded := Enriched(ev, None, NextCache(cache, p));
            && degraded in PollOutput(NextCache(cache, p), q)
            && (degraded == joined <==> Rebuildable(ev.body.facts, ResultAt(p.results, i).value))
            && (degraded.key == joined.key <==> degraded == joined)
  {
    var ev, r := p.rest[i], ResultAt(p.results, i).value;
    var pl := JoinPayload(ev.body.facts, r, Lookup(cache, ev.nativeID));
    JoinedEvent(ev, Some(r), cache);
    EntryAfter(cache, p, i);
    DegradedEvent(ev, pl, NextCache(cache, p));
    DegradedFixedPoint(ev.body.facts, r, Lookup(cache, ev.nativeID));
    OneSnapshot(NextCache(cache, p), q, k);
  }

  // ---- any number of degraded polls ----

  /** From `caches[0]` on, every poll failed outright, said nothing about the PR, or read it degraded. */
  ghost predicate IsDegradedStretch(caches: seq<Cache>, polls: seq<Option<Poll>>, ev: Event) {
    |caches| == |polls| + 1 && forall i :: 0 <= i < |polls| ==> DegradedAt(caches, polls, ev, i)
  }

  ghost predicate DegradedAt(caches: seq<Cache>, polls: seq<Option<Poll>>, ev: Event, i: int)
    requires 0 <= i < |polls| && |caches| == |polls| + 1
  {
    match polls[i]
    case None => caches[i + 1] == caches[i]
    case Some(q) =>
      && VerdictsAreSignals(q.results) && caches[i + 1] == NextCache(caches[i], q)
      && (SilentOn(q, ev.nativeID) || exists k :: ReadsDegraded(q, k, ev))
  }

  /** The cached joined payload is what a degraded read of the PR rebuilds. */
  predicate IsFixed(ev: Event, pl: Payload) {
    Joinable(ev) && ev.body.facts.state == Open && pl.state == Open && DegradedPayload(ev.body.facts, Some(pl)) == pl
  }

  /** While the entry stays cached it stays what it was. */
  lemma {:induction false} StretchKeepsEntry(caches: seq<Cache>, polls: seq<Option<Poll>>, ev: Event, pl: Payload, m: nat)
    requires IsDegradedStretch(caches, polls, ev) && m < |caches| && IsFixed(ev, pl)
    requires Lookup(caches[0], ev.nativeID) == Some(pl) && forall i :: 0 <= i <= m ==> ev.nativeID in caches[i]
    ensures Lookup(caches[m], ev.nativeID) == Some(pl)
  {
    if m > 0 {
      StretchKeepsEntry(caches, polls, ev, pl, m - 1);
      assert DegradedAt(caches, polls, ev, m - 1);
      if polls[m - 1].Some? {
        StepKeepsEntry(caches[m - 1], polls[m - 1].value, ev, pl);
      }
    }
  }

  lemma StepKeepsEntry(cache: Cache, q: Poll, ev: Event, pl: Payload)
    requires IsFixed(ev, pl) && Lookup(cache, ev.nativeID) == Some(pl) && VerdictsAreSignals(q.results)
    requires SilentOn(q, ev.nativeID) || exists k :: ReadsDegraded(q, k, ev)
    requires ev.nativeID in NextCache(cache, q)
    ensures Lookup(NextCache(cache, q), ev.nativeID) == Some(pl)
  {
    if SilentOn(q, ev.nativeID) {
      EntryKept(cache, q, ev.nativeID);
    } else {
      var k :| ReadsDegraded(q, k, ev);
      DegradedEvent(ev, pl, cache);
      EntryAfter(cache, q, k);
    }
  }

  /** An event of the item in a degraded poll's output is the cached snapshot again, or comes from REST as it is. */
  lemma DegradedOutput(cache: Cache, q: Poll, forge: Forge, handle: string, k: int, ev: Event, pl: Payload, e: Event)
    requires IsFixed(ev, pl) && Lookup(cache, ev.nativeID) == Some(pl)
    requires ReadsDegraded(q, k, ev) && IsJoinedPoll(q, forge, handle)
    requires e in PollOutput(cache, q) && e.nativeID == ev.nativeID
    ensures e == ev.(body := Snapshot(pl), key := FactsKey(pl)) || (e in q.rest && e.eventType != ItemObserved)
  {
    JoinedVerdicts(q, forge, handle);
    if e.eventType == ItemObserved {
      DegradedEvent(ev, pl, cache);
      OneSnapshot(cache, q, k);
    } else {
      SignalIsRest(cache, q, forge, handle, k, e);
    }
  }

  /** The join adds no signal of an item that it has no result for. */
  lemma SignalIsRest(cache: Cache, q: Poll, forge: Forge, handle: string, k: int, e: Event)
    requires OnlyAt(q.rest, k) && ResultAt(q.results, k).None? && IsJoinedPoll(q, forge, handle)
    requires e in PollOutput(cache, q) && e.nativeID == q.rest[k].nativeID && e.eventType != ItemObserved
    ensures e in q.rest
  {
    var archived := ArchivedIDs(q.rest, q.results);
    if e in Survivors(q.rest, |q.rest|, q.results, cache, archived) {
      SurvivorOrigin(q.rest, |q.rest|, q.results, cache, archived, e);
      var i :| 0 <= i < |q.rest| && q.rest[i].nativeID !in archived && e == Enriched(q.rest[i], ResultAt(q.results, i), cache);
      EnrichedSame(q.rest[i], ResultAt(q.results, i), cache);
    } else {
      var x := VerdictItem(q.rest, |q.rest|, q.results, e);
      VerdictHasItemID(q, forge, handle, x, e);
    }
  }

  lemma {:induction false} VerdictItem(events: seq<Event>, n: nat, results: map<int, Result>, e: Event) returns (x: int)
    requires n <= |events| && e in Verdicts(events, n, results)
    ensures 0 <= x < n && Joinable(events[x]) && x in results && results[x].Enrichment? && e in results[x].verdicts
  {
    if e in Verdicts(events, n - 1, results) {
      x := VerdictItem(events, n - 1, results, e);
    } else {
      x := n - 1;
    }
  }

  lemma VerdictHasItemID(q: Poll, forge: Forge, handle: string, x: int, e: Event)
    requires IsJoinedPoll(q, forge, handle) && 0 <= x < |q.rest| && x in q.results && q.results[x].Enrichment? && e in q.results[x].verdicts
    ensures e.nativeID == q.rest[x].nativeID
  {
    var items := ItemsOf(q.rest);
    var i := ItemOfResult(items, q.results, forge, BATCH_SIZE, handle, x);
    ItemsAreListed(q.rest);
    ItemHasID(items, q.rest, i);
    VerdictsCarryID(items[i], forge.node(i).pull.reviews, e);
  }

  lemma {:induction false} VerdictsCarryID(it: PrItem, reviews: seq<Review>, e: Event)
    requires e in VerdictsOf(it, reviews)
    ensures e.nativeID == it.nativeID
  {
    if e in VerdictsOf(it, reviews[..|reviews| - 1]) {
      VerdictsCarryID(it, reviews[..|reviews| - 1], e);
    }
  }

  /**
   Degraded polls store nothing, per PR. Once the joined snapshot of a PR is stored, then
   over any number of polls that read the same REST facts of it without a result, mixed with
   failed polls and polls that do not mention it, and for as long as its entry stays cached:
   every event of the PR that a poll emits is stored already, unless it is a signal that
   REST itself brings for the first time. Nothing is asked of other PRs.
   */
  lemma DegradedPollsStoreNothing(cache: Cache, p: Poll, i: int, caches: seq<Cache>, polls: seq<Option<Poll>>, m: nat,
                                  forge: Forge, handle: string, rows: seq<Row>, conn: string, e: Event)
    requires OnlyAt(p.rest, i) && JoinedOpen(p.rest[i], ResultAt(p.results, i)) && VerdictsAreSignals(p.results)
    requires Rebuildable(p.rest[i].body.facts, ResultAt(p.results, i).value)
    requires IsDegradedStretch(caches, polls, p.rest[i]) && caches[0] == NextCache(cache, p)
    requires m < |polls| && (forall j :: 0 <= j <= m ==> p.rest[i].nativeID in caches[j])
    requires polls[m].Some? && IsJoinedPoll(polls[m].value, forge, handle) && !SilentOn(polls[m].value, p.rest[i].nativeID)
    requires Stored(rows, conn, Enriched(p.rest[i], ResultAt(p.results, i), cache))
    requires e in PollOutput(caches[m], polls[m].value) && e.nativeID == p.rest[i].nativeID
    ensures Stored(rows, conn, e) || (e in polls[m].value.rest && e.eventType != ItemObserved)
  {
    var ev, r := p.rest[i], ResultAt(p.results, i).value;
    var pl := JoinPayload(ev.body.facts, r, Lookup(cache, ev.nativeID));
    JoinedEvent(ev, Some(r), cache);
    EntryAfter(cache, p, i);
    DegradedFixedPoint(ev.body.facts, r, Lookup(cache, ev.nativeID));
    StretchKeepsEntry(caches, polls, ev, pl, m);
    assert DegradedAt(caches, polls, ev, m);
    var k :| ReadsDegraded(polls[m].value, k, ev);
    DegradedOutput(caches[m], polls[m].value, forge, handle, k, ev, pl, e);
  }

  /** So the poll leaves the item's facts in the log alone. */
  lemma DegradedPollsKeepFacts(cache: Cache, p: Poll, i: int, caches: seq<Cache>, polls: seq<Option<Poll>>, m: nat,
                               forge: Forge, handle: string, rows: seq<Row>, conn: string, at: Time)
    requires OnlyAt(p.rest, i) && JoinedOpen(p.rest[i], ResultAt(p.results, i)) && VerdictsAreSignals(p.results)
    requires Rebuildable(p.rest[i].body.facts, ResultAt(p.results, i).value)
    requires IsDegradedStretch(caches, polls, p.rest[i]) && caches[0] == NextCache(cache, p)
    requires m < |polls| && (forall j :: 0 <= j <= m ==> p.rest[i].nativeID in caches[j])
    requires polls[m].Some? && IsJoinedPoll(polls[m].value, forge, handle) && !SilentOn(polls[m].value, p.rest[i].nativeID)
    requires Stored(rows, conn, Enriched(p.rest[i], ResultAt(p.results, i), cache))
    ensures forall r :: r in InsertAll(rows, conn, PollOutput(caches[m], polls[m].value), at) && r !in rows ==>
              !(r.eventType == ItemObserved && r.conn == conn && r.nativeID == p.rest[i].nativeID)
  {
    var out := PollOutput(caches[m], polls[m].value);
    forall r | r in InsertAll(rows, conn, out, at) && r !in rows
      ensures !(r.eventType == ItemObserved && r.conn == conn && r.nativeID == p.rest[i].nativeID)
    {
      InsertAllOrigin(rows, conn, out, at, r);
      var e :| e in out && RowFrom(r, conn, e) && !Stored(rows, conn, e);
      if e.nativeID == p.rest[i].nativeID && e.eventType == ItemObserved {
        DegradedPollsStoreNothing(cache, p, i, caches, polls, m, forge, handle, rows, conn, e);
      }
    }
  }

  // ---- the whole poll ----

  /** Every snapshot of the poll is of another item, and was joined rebuildably. */
  predicate AllRebuildable(p: Poll) {
    forall i :: 0 <= i < |p.rest| && p.rest[i].eventType == ItemObserved ==>
                  && OnlyAt(p.rest, i) && JoinedOpen(p.rest[i], ResultAt(p.results, i))
                  && Rebuildable(p.rest[i].body.facts, ResultAt(p.results, i).value)
  }

  /**
   When that holds of every PR of a poll, a poll with the same REST events whose join wholly
   fails inserts nothing at all.
   */
  lemma DegradedStoresNothing(rows: seq<Row>, conn: string, cache: Cache, p: Poll, complete: bool, at: Time)
    requires AllRebuildable(p) && VerdictsAreSignals(p.results)
    requires forall e :: e in PollOutput(cache, p) ==> Stored(rows, conn, e)
    ensures InsertAll(rows, conn, PollOutput(NextCache(cache, p), Poll(p.rest, map[], complete)), at) == rows
  {
    var failed := Poll(p.rest, map[], complete);
    var cache' := NextCache(cache, p);
    forall e | e in PollOutput(cache', failed)
      ensures Stored(rows, conn, e)
    {
      NoVerdicts(p.rest, |p.rest|);
      SurvivorOrigin(p.rest, |p.rest|, map[], cache', ArchivedIDs(p.rest, map[]), e);
      var i :| 0 <= i < |p.rest| && e == Enriched(p.rest[i], ResultAt(map[], i), cache');
      RepeatedInOutput(cache, p, i, failed);
    }
    InsertAllStored(rows, conn, PollOutput(cache', failed), at);
  }

  lemma RepeatedInOutput(cache: Cache, p: Poll, i: int, failed: Poll)
    requires AllRebuildable(p) && VerdictsAreSignals(p.results) && 0 <= i < |p.rest| && failed.rest == p.rest && failed.results == map[]
    ensures Enriched(p.rest[i], None, NextCache(cache, p)) in PollOutput(cache, p)
  {
    if p.rest[i].eventType == ItemObserved {
      OneRepeats(cache, p, i, failed, i);
      OneSnapshot(cache, p, i);
    } else {
      NoneArchived(p);
      SurvivorAt(p.rest, |p.rest|, p.results, cache, ArchivedIDs(p.rest, p.results), i);
    }
  }

  lemma NoneArchived(p: Poll)
    requires AllRebuildable(p)
    ensures ArchivedIDs(p.rest, p.results) == {}
  {
    assert forall i :: 0 <= i < |p.rest| && Joinable(p.rest[i]) ==> p.rest[i].eventType == ItemObserved;
  }

  lemma {:induction false} NoVerdicts(events: seq<Event>, n: nat)
    requires n <= |events|
    ensures Verdicts(events, n, map[]) == []
  {
    if n > 0 {
      NoVerdicts(events, n - 1);
    }
  }
}
