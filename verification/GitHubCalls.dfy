/** Runs of the GitHub provider's own calls are cache runs, and what its cache holds after each. */
module GitHubCalls {
  import opened Model
  import opened Reaping
  import opened GitHub
  import opened GitHubSweep
  import opened GitHubRuns
  import opened GitHubProvider
  import opened GitHubSafety

  /** One call of the provider, with what the forge answers. */
  datatype Call = Sweeps(hits: seq<Hit>, forge: Forge) | Polls(feed: seq<Notification>, forge: Forge)

  function RestOf(call: Call): seq<Event> {
    match call
    case Sweeps(hits, _) => SweepRest(hits)
    case Polls(feed, _) => FeedRest(feed)
  }

  ghost predicate IsComplete(call: Call) {
    call.Sweeps? && forall i :: 0 <= i < |call.hits| ==> !Incomplete(call.hits[i])
  }

  /** What Reconcile and FastPoll promise about the cache; no poll comes of a rate-limited call. */
  ghost predicate IsCall(call: Call, handle: string, cache: Cache, poll: Option<Poll>, cache': Cache) {
    match poll
    case None => cache' == cache
    case Some(p) =>
      && p.rest == RestOf(call) && p.complete == IsComplete(call) && IsJoinedPoll(p, call.forge, handle)
      && cache' == NextCache(cache, p)
  }

  ghost predicate IsCallRun(caches: seq<Cache>, polls: seq<Option<Poll>>, calls: seq<Call>, handle: string) {
    && |caches| == |polls| + 1 == |calls| + 1
    && caches[0] == map[]
    && forall i :: 0 <= i < |calls| ==> CallAt(caches, polls, calls, handle, i)
  }

  ghost predicate CallAt(caches: seq<Cache>, polls: seq<Option<Poll>>, calls: seq<Call>, handle: string, i: int)
    requires 0 <= i < |calls| && |caches| == |polls| + 1 == |calls| + 1
  {
    IsCall(calls[i], handle, caches[i], polls[i], caches[i + 1])
  }

  lemma RestFromRest(call: Call)
    ensures FromRest(RestOf(call))
  {
    forall e | e in RestOf(call) && e.eventType == ItemObserved && e.body.Snapshot?
      ensures exists f :: e.body.facts == RestPayload(f)
    {
      match call {
        case Sweeps(hits, _) => SweepFromRest(hits, e);
        case Polls(feed, _) => FeedFromRest(feed, e);
      }
    }
  }

  /** Every run of the provider's calls is a run of the cache, so the laws of cache runs hold of the provider. */
  lemma CallsAreCacheRun(caches: seq<Cache>, polls: seq<Option<Poll>>, calls: seq<Call>, handle: string)
    requires IsCallRun(caches, polls, calls, handle)
    ensures IsCacheRun(caches, polls)
  {
    forall i | 0 <= i < |polls|
      ensures StepsAt(caches, polls, i)
    {
      assert CallAt(caches, polls, calls, handle, i);
      if polls[i].Some? {
        RestFromRest(calls[i]);
        JoinedVerdicts(polls[i].value, calls[i].forge, handle);
      }
    }
  }

  /** Gate stability, for the provider: over any run of sweeps and notification polls, whatever batches failed. */
  lemma ProviderGateStable(caches: seq<Cache>, polls: seq<Option<Poll>>, calls: seq<Call>, handle: string, nid: string, i: nat, j: nat)
    requires IsCallRun(caches, polls, calls, handle) && i <= j < |caches| && Parseable(nid)
    requires StaysCached(caches, nid, i, j) && Known(caches[i][nid].gate)
    ensures Known(caches[j][nid].gate)
  {
    CallsAreCacheRun(caches, polls, calls, handle);
    GateStable(caches, polls, nid, i, j);
  }

  // ---- what the engine may take from REST ----

  lemma {:induction false} ReviewSignalsAreProvider(hits: seq<Hit>)
    ensures ProviderEvents(ReviewSignals(hits))
  {
    if hits != [] {
      ReviewSignalsAreProvider(hits[..|hits| - 1]);
    }
  }

  lemma {:induction false} SweptAreProvider(hits: seq<Hit>, urls: seq<string>)
    ensures ProviderEvents(SweptEvents(hits, urls))
  {
    if urls != [] {
      SweptAreProvider(hits, urls[..|urls| - 1]);
    }
  }

  lemma {:induction false} FeedIsProvider(feed: seq<Notification>)
    ensures ProviderEvents(FeedRest(feed))
  {
    if feed != [] {
      FeedIsProvider(feed[..|feed| - 1]);
    }
  }

  /** Both calls hand the join snapshots and signals under provider keys only. */
  lemma RestIsProvider(call: Call)
    ensures ProviderEvents(RestOf(call))
  {
    match call {
      case Sweeps(hits, _) =>
        ReviewSignalsAreProvider(hits);
        SweptAreProvider(hits, Order(hits));
      case Polls(feed, _) =>
        FeedIsProvider(feed);
    }
  }

  // ---- what the cache holds after a poll ----

  predicate IsRead(e: Event, nid: string) {
    e.eventType == ItemObserved && e.body.Snapshot? && e.nativeID == nid
  }

  /** Event i is the last readable snapshot of its item. */
  predicate IsLastRead(events: seq<Event>, i: int, nid: string) {
    && 0 <= i < |events| && IsRead(events[i], nid)
    && forall j :: i < j < |events| ==> !IsRead(events[j], nid)
  }

  /** The last snapshot of an item decides: stored when it is open, evicted when it is not. */
  lemma {:induction false} LastSnapshotDecides(cache: Cache, events: seq<Event>, i: int, nid: string)
    requires IsLastRead(events, i, nid)
    ensures Lookup(CacheAll(cache, events), nid) == if events[i].body.facts.state == Open then Some(events[i].body.facts) else None
  {
    var n := |events| - 1;
    if i < n {
      LastSnapshotDecides(cache, events[..n], i, nid);
    }
  }

  /** And an item that the poll did not read keeps its entry. */
  lemma {:induction false} UnreadStays(cache: Cache, events: seq<Event>, nid: string)
    requires forall j :: 0 <= j < |events| ==> !IsRead(events[j], nid)
    ensures Lookup(CacheAll(cache, events), nid) == Lookup(cache, nid)
  {
    if events != [] {
      UnreadStays(cache, events[..|events| - 1], nid);
    }
  }

  lemma {:induction false} LastReadExists(events: seq<Event>, nid: string) returns (i: int)
    requires exists j :: 0 <= j < |events| && IsRead(events[j], nid)
    ensures IsLastRead(events, i, nid)
  {
    var n := |events| - 1;
    if IsRead(events[n], nid) {
      i := n;
    } else {
      i := LastReadExists(events[..n], nid);
    }
  }

  /** After caching and pruning a complete sweep the cache holds exactly the items whose last snapshot is open. */
  lemma SweepDecidesCache(cache: Cache, events: seq<Event>, nid: string)
    ensures nid in Pruned(CacheAll(cache, events), events, true) <==>
            exists i :: IsLastRead(events, i, nid) && events[i].body.facts.state == Open
  {
    if nid in OpenIDs(events) {
      var e :| e in events && e.eventType == ItemObserved && e.body.Snapshot? && e.body.facts.state == Open && e.nativeID == nid;
      var j :| 0 <= j < |events| && events[j] == e;
      assert IsRead(events[j], nid);
      var i := LastReadExists(events, nid);
      LastSnapshotDecides(cache, events, i, nid);
      OneLastRead(events, i, nid);
    }
  }

  lemma OneLastRead(events: seq<Event>, i: int, nid: string)
    requires IsLastRead(events, i, nid)
    ensures forall j :: IsLastRead(events, j, nid) ==> j == i
  {
  }

  /** With one snapshot per item, as a sweep brings them, the cache's keys are exactly the sweep's open items. */
  lemma CacheIsSweep(cache: Cache, events: seq<Event>)
    requires forall i, j, nid :: 0 <= i < |events| && 0 <= j < |events| && IsRead(events[i], nid) && IsRead(events[j], nid) ==> i == j
    ensures Pruned(CacheAll(cache, events), events, true).Keys == OpenIDs(events)
  {
    var pruned := Pruned(CacheAll(cache, events), events, true);
    forall nid | nid in OpenIDs(events)
      ensures nid in pruned
    {
      var e :| e in events && e.eventType == ItemObserved && e.body.Snapshot? && e.body.facts.state == Open && e.nativeID == nid;
      var i :| 0 <= i < |events| && events[i] == e;
      assert IsRead(events[i], nid);
      assert IsLastRead(events, i, nid);
      SweepDecidesCache(cache, events, nid);
    }
  }
}
