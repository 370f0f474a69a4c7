/** What the GitLab join cannot do, and how long a gate lasts. */
module GitLabSafety {
  import opened Model
  import opened Reaping
  import opened JoinOrder
  import opened GitLabVerdicts
  import opened GitLab
  import opened GitLabProvider

  // ---- the output keeps the input ----

  lemma EnrichedSame(ev: Event, r: Option<Mr>, cache: Cache, handle: string)
    ensures SameEvent(Enriched(ev, r, cache, handle), ev)
  {
  }

  /** No drop, no reorder, whatever batches failed. */
  lemma {:induction false} SurvivorsInOrder(events: seq<Event>, n: nat, results: map<int, Mr>, cache: Cache, archived: set<string>, handle: string)
    requires n <= |events|
    ensures InOrder(Survivors(events, n, results, cache, archived, handle), Unarchived(events, n, archived))
  {
    if n > 0 {
      SurvivorsInOrder(events, n - 1, results, cache, archived, handle);
      EnrichedSame(events[n - 1], ResultAt(results, n - 1), cache, handle);
    }
  }

  /** The swept set of the output is that of the REST sweep without the archived items, also when it passes through. */
  lemma SweptByJoin(cache: Cache, p: Poll, baselines: map<string, Verdicts>, forge: Forge, handle: string)
    requires IsJoinedPoll(p, baselines, forge)
    ensures Swept(PollOutput(cache, p, handle)) == Swept(p.rest) - ArchivedIDs(p.rest, p.results)
  {
    var archived := ArchivedIDs(p.rest, p.results);
    if PassesThrough(p.results, p.degraded) {
      assert archived == {};
      assert Swept(p.rest) - {} == Swept(p.rest);
    } else {
      JoinedVerdicts(p, baselines, forge);
      SurvivorsInOrder(p.rest, |p.rest|, p.results, cache - p.gone, archived, handle);
      KeptSweep(p.rest, Survivors(p.rest, |p.rest|, p.results, cache - p.gone, archived, handle), p.verdicts, archived);
    }
  }

  /** The forge answered that the item's project is archived. */
  ghost predicate SaidArchived(rest: seq<Event>, forge: Forge, nid: string) {
    exists n :: IsItemOf(ItemsOf(rest), n, rest, nid) && ArchivedAnswer(forge, n)
  }

  ghost predicate IsItemOf(items: seq<int>, n: int, rest: seq<Event>, nid: string) {
    0 <= n < |items| && 0 <= items[n] < |rest| && rest[items[n]].nativeID == nid
  }

  predicate ArchivedAnswer(forge: Forge, n: int) {
    n >= 0 && BatchAnswered(forge, BATCH_SIZE, n) && forge.node(n).Some? && forge.node(n).value.archived
  }

  lemma ArchivedWasSaid(p: Poll, baselines: map<string, Verdicts>, forge: Forge, nid: string)
    requires IsJoinedPoll(p, baselines, forge) && nid in ArchivedIDs(p.rest, p.results)
    ensures SaidArchived(p.rest, forge, nid)
  {
    var items := ItemsOf(p.rest);
    var x :| 0 <= x < |p.rest| && Joinable(p.rest[x]) && x in p.results && p.results[x].archived && p.rest[x].nativeID == nid;
    var n := ItemOfResult(items, p.results, forge, BATCH_SIZE, x);
    assert IsItemOf(items, n, p.rest, nid) && ArchivedAnswer(forge, n);
  }

  lemma ItemOfResult(items: seq<int>, results: map<int, Mr>, forge: Forge, size: nat, x: int) returns (n: nat)
    requires size > 0 && IsPerItemJoin(results, items, |items|, forge, size) && x in results
    ensures n < |items| && items[n] == x && BatchAnswered(forge, size, n) && forge.node(n) == Some(results[x])
  {
    assert items[..|items|] == items;
    n :| 0 <= n < |items| && items[n] == x;
    assert HoldsResult(results, items, n, forge, size);
  }

  /**
   A GraphQL failure never causes a removal: after a complete sweep an item is removed only
   if the REST sweep missed it, or the forge answered that its project is archived.
   */
  lemma FailureNeverReaps(rows: seq<Row>, conn: string, cache: Cache, p: Poll, baselines: map<string, Verdicts>, forge: Forge,
                          handle: string, open: Option<set<string>>, removals: seq<Event>, i: nat)
    requires IsJoinedPoll(p, baselines, forge)
    requires IsReap(rows, conn, PollOutput(cache, p, handle), open, removals) && i < |removals|
    ensures removals[i].nativeID !in Swept(p.rest) || SaidArchived(p.rest, forge, removals[i].nativeID)
  {
    SweptByJoin(cache, p, baselines, forge, handle);
    if removals[i].nativeID in Swept(p.rest) {
      ArchivedWasSaid(p, baselines, forge, removals[i].nativeID);
    }
  }

  /** Batching at any two sizes agrees on every merge request that both answered. */
  lemma BatchSizeIrrelevant(items: seq<int>, forge: Forge, size: nat, size': nat, results: map<int, Mr>, results': map<int, Mr>, x: int)
    requires size > 0 && size' > 0 && Ascending(items)
    requires IsPerItemJoin(results, items, |items|, forge, size) && IsPerItemJoin(results', items, |items|, forge, size')
    requires x in results && x in results'
    ensures results[x] == results'[x]
  {
    var m := ItemOfResult(items, results, forge, size, x);
    var n := ItemOfResult(items, results', forge, size', x);
    assert m == n;
  }

  // ---- gates ----

  /** The gate is what the merge status kept as its detail says, as in every REST row. */
  predicate GateConsistent(pl: Payload) {
    pl.gate == MergeGate(pl.gateDetail)
  }

  predicate IsSnapshot(e: Event, nid: string) {
    e.eventType == ItemObserved && e.body.Snapshot? && e.nativeID == nid
  }

  ghost predicate FromRest(rest: seq<Event>) {
    forall e, nid :: e in rest && IsSnapshot(e, nid) ==> GateConsistent(e.body.facts)
  }

  ghost predicate CacheOK(cache: Cache) {
    forall nid :: nid in cache ==> GateConsistent(cache[nid]) && cache[nid].state == Open
  }

  /** The joined payload keeps draft, state and consistency, and a gate that the read knew. */
  predicate KeepsGate(g: Payload, pl: Payload) {
    && g.draft == pl.draft && g.state == pl.state
    && (GateConsistent(pl) ==> GateConsistent(g))
    && (pl.gate != Unknown ==> g.gate == pl.gate)
  }

  predicate SameGateRead(a: Payload, b: Payload) {
    a.draft == b.draft && a.state == b.state && a.gate == b.gate && a.gateDetail == b.gateDetail
  }

  lemma AppliedGate(pl: Payload, mr: Mr, handle: string)
    ensures SameGateRead(ApplyGraphQL(pl, mr, handle), pl)
  {
  }

  lemma FilledGate(pl: Payload, dms: MergeDetail)
    ensures KeepsGate(GateFromJoin(pl, dms), pl)
  {
    if pl.gate != Unknown || MergeGate(dms) == Unknown {
      assert GateFromJoin(pl, dms) == pl;
    } else {
      assert GateFromJoin(pl, dms) ==
             pl.(gate := MergeGate(dms), gateDetail := dms, policyDenied := IsPolicyDenied(dms),
                 unresolvedDiscussions := dms == DiscussionsNotResolved);
    }
  }

  lemma CarriedEnrichment(pl: Payload, snap: Payload)
    ensures SameGateRead(CarryForwardEnrichment(pl, snap), pl)
  {
    if pl.draft {
      assert CarryForwardEnrichment(pl, snap) == pl.(reviewDecision := snap.reviewDecision);
    } else {
      var reviewed := pl.(reviewDecision := snap.reviewDecision);
      assert CarryForwardEnrichment(pl, snap) ==
             reviewed.(approvalsCount := snap.approvalsCount, myReviewState := snap.myReviewState,
                       needsApproval := pl.needsApproval || snap.needsApproval,
                       failingChecks := pl.failingChecks || snap.failingChecks,
                       checksRunning := pl.checksRunning || snap.checksRunning,
                       needsRebase := pl.needsRebase || snap.needsRebase);
    }
  }

  lemma JoinedGate(pl: Payload, r: Option<Mr>, snap: Option<Payload>, handle: string)
    ensures KeepsGate(JoinedPayload(pl, r, snap, handle), pl)
  {
    if r.Some? {
      var applied := ApplyGraphQL(pl, r.value, handle);
      AppliedGate(pl, r.value, handle);
      FilledGate(applied, r.value.dms);
      assert JoinedPayload(pl, r, snap, handle) == GateFromJoin(applied, r.value.dms);
    } else if snap.Some? {
      CarriedEnrichment(pl, snap.value);
      assert JoinedPayload(pl, r, snap, handle) == CarryForwardEnrichment(pl, snap.value);
    }
  }

  lemma CarriedGate(pl: Payload, snap: Payload)
    ensures var g := CarryForwardGate(pl, snap);
            && g.draft == pl.draft && g.state == pl.state
            && (GateConsistent(pl) && GateConsistent(snap) ==> GateConsistent(g))
            && (pl.gate != Unknown ==> g.gate == pl.gate)
            && (pl.gate == Unknown && !pl.draft && pl.state == Open && Known(snap.gate) ==> g.gate == snap.gate)
  {
  }

  /** Enriching keeps draft and state, keeps consistency, and never trades a known gate for an unknown one. */
  lemma EnrichedGate(pl: Payload, r: Option<Mr>, snap: Option<Payload>, handle: string)
    requires GateConsistent(pl) && (snap.Some? ==> GateConsistent(snap.value))
    ensures var g := EnrichedPayload(pl, r, snap, handle);
            && KeepsGate(g, pl) && GateConsistent(g)
            && (snap.Some? && Known(snap.value.gate) && !pl.draft && pl.state == Open ==> Known(g.gate))
  {
    var joined := JoinedPayload(pl, r, snap, handle);
    JoinedGate(pl, r, snap, handle);
    if snap.Some? {
      assert EnrichedPayload(pl, r, snap, handle) == CarryForwardGate(joined, snap.value);
      CarriedGate(joined, snap.value);
    } else {
      assert EnrichedPayload(pl, r, snap, handle) == joined;
    }
  }

  /** What a poll makes of event i of its REST half when that one is not archived. */
  function EmittedAt(cache: Cache, p: Poll, handle: string, i: int): Event
    requires 0 <= i < |p.rest|
  {
    if PassesThrough(p.results, p.degraded) then p.rest[i]
    else Enriched(p.rest[i], ResultAt(p.results, i), cache - p.gone, handle)
  }

  /**
   When a gate survives a read that does not know it. The snapshot that a poll emits for an
   open non-draft merge request with a known cached gate has a known gate itself if and only
   if the read had one, or the sweep did not pass through.
   */
  lemma GateSurvives(cache: Cache, p: Poll, handle: string, i: int)
    requires CacheOK(cache) && FromRest(p.rest)
    requires 0 <= i < |p.rest| && Joinable(p.rest[i]) && !(i in p.results && p.results[i].archived)
    requires var ev := p.rest[i];
             && ev.nativeID in cache && ev.nativeID !in p.gone && Known(cache[ev.nativeID].gate)
             && ev.body.facts.state == Open && !ev.body.facts.draft
    ensures Known(EmittedAt(cache, p, handle, i).body.facts.gate) <==>
            Known(p.rest[i].body.facts.gate) || !PassesThrough(p.results, p.degraded)
  {
    var ev := p.rest[i];
    assert IsSnapshot(ev, ev.nativeID) && ev in p.rest;
    if !PassesThrough(p.results, p.degraded) {
      EnrichedGate(ev.body.facts, ResultAt(p.results, i), Lookup(cache - p.gone, ev.nativeID), handle);
    }
  }

  // ---- gates over runs ----

  ghost predicate IsCacheRun(caches: seq<Cache>, polls: seq<Poll>, handle: string) {
    && |caches| == |polls| + 1
    && caches[0] == map[]
    && forall i :: 0 <= i < |polls| ==> StepsAt(caches, polls, handle, i)
  }

  ghost predicate StepsAt(caches: seq<Cache>, polls: seq<Poll>, handle: string, i: int)
    requires 0 <= i < |polls| && |caches| == |polls| + 1
  {
    IsCacheStep(caches[i], polls[i], handle, caches[i + 1])
  }

  ghost predicate IsCacheStep(cache: Cache, p: Poll, handle: string, cache': Cache) {
    FromRest(p.rest) && (forall e :: e in p.verdicts ==> e.eventType.Signal?) && cache' == NextCache(cache, p, handle)
  }

  lemma {:induction false} SurvivorOrigin(events: seq<Event>, n: nat, results: map<int, Mr>, cache: Cache, archived: set<string>, handle: string, e: Event)
    requires n <= |events| && e in Survivors(events, n, results, cache, archived, handle)
    ensures exists i :: 0 <= i < n && events[i].nativeID !in archived && e == Enriched(events[i], ResultAt(results, i), cache, handle)
  {
    if n > 0 && e in Survivors(events, n - 1, results, cache, archived, handle) {
      SurvivorOrigin(events, n - 1, results, cache, archived, handle, e);
    }
  }

  lemma OutputOrigin(cache: Cache, p: Poll, handle: string, e: Event) returns (i: int)
    requires forall v :: v in p.verdicts ==> v.eventType.Signal?
    requires e in PollOutput(cache, p, handle) && e.eventType == ItemObserved
    ensures 0 <= i < |p.rest| && e == EmittedAt(cache, p, handle, i) && p.rest[i].nativeID !in ArchivedIDs(p.rest, p.results)
  {
    var archived := ArchivedIDs(p.rest, p.results);
    if PassesThrough(p.results, p.degraded) {
      i :| 0 <= i < |p.rest| && p.rest[i] == e;
    } else {
      SurvivorOrigin(p.rest, |p.rest|, p.results, cache - p.gone, archived, handle, e);
      i :| 0 <= i < |p.rest| && p.rest[i].nativeID !in archived
           && e == Enriched(p.rest[i], ResultAt(p.results, i), cache - p.gone, handle);
    }
  }

  /** The poll emits a snapshot of the item with the cache's new payload, or left the cache's old one. */
  lemma {:induction false} CacheOrigin(cache: Cache, events: seq<Event>, nid: string)
    requires nid in CacheAll(cache, events)
    ensures || (nid in cache && CacheAll(cache, events)[nid] == cache[nid])
            || exists e :: e in events && IsSnapshot(e, nid) && e.body.facts.state == Open
                           && e.body.facts == CacheAll(cache, events)[nid]
  {
    if events != [] {
      var init, last := events[..|events| - 1], events[|events| - 1];
      assert last in events && forall e :: e in init ==> e in events;
      if nid in CacheAll(cache, init) {
        CacheOrigin(cache, init, nid);
      }
      if last.eventType == ItemObserved && last.body.Snapshot? && last.body.facts.state == Open {
        assert IsSnapshot(last, last.nativeID);
      }
    }
  }

  /** What one poll emits has consistent gates; an unknown one where the cache knew one was read and passed through. */
  lemma OutputGates(cache: Cache, p: Poll, handle: string, nid: string, e: Event)
    requires CacheOK(cache) && IsCacheStep(cache, p, handle, NextCache(cache, p, handle))
    requires e in PollOutput(cache, p, handle) && IsSnapshot(e, nid)
    ensures GateConsistent(e.body.facts)
    ensures nid in cache && nid !in p.gone && Known(cache[nid].gate) && Parseable(nid)
            && e.body.facts.state == Open && !e.body.facts.draft && !Known(e.body.facts.gate)
            ==> PassesThrough(p.results, p.degraded) && e in p.rest
  {
    var i := OutputOrigin(cache, p, handle, e);
    var ev := p.rest[i];
    assert ev in p.rest;
    EnrichedSame(ev, ResultAt(p.results, i), cache - p.gone, handle);
    if PassesThrough(p.results, p.degraded) {
      assert IsSnapshot(ev, nid);
    } else {
      NotArchivedAt(p, i);
      assert IsSnapshot(ev, nid);
      EnrichedGate(ev.body.facts, ResultAt(p.results, i), Lookup(cache - p.gone, nid), handle);
    }
  }

  lemma NotArchivedAt(p: Poll, i: int)
    requires 0 <= i < |p.rest| && p.rest[i].nativeID !in ArchivedIDs(p.rest, p.results)
    ensures Joinable(p.rest[i]) && i in p.results ==> !p.results[i].archived
  {
  }

  lemma {:induction false} RunCacheOK(caches: seq<Cache>, polls: seq<Poll>, handle: string, n: nat)
    requires IsCacheRun(caches, polls, handle) && n < |caches|
    ensures CacheOK(caches[n])
  {
    if n > 0 {
      RunCacheOK(caches, polls, handle, n - 1);
      assert StepsAt(caches, polls, handle, n - 1);
      OneStepCacheOK(caches[n - 1], polls[n - 1], handle, caches[n]);
    }
  }

  lemma OneStepCacheOK(cache: Cache, p: Poll, handle: string, cache': Cache)
    requires CacheOK(cache) && IsCacheStep(cache, p, handle, cache')
    ensures CacheOK(cache')
  {
    StepCacheOK(cache, p, handle);
  }

  lemma StepCacheOK(cache: Cache, p: Poll, handle: string)
    requires CacheOK(cache) && IsCacheStep(cache, p, handle, NextCache(cache, p, handle))
    ensures CacheOK(NextCache(cache, p, handle))
  {
    var base, out := cache - p.gone - ArchivedIDs(p.rest, p.results), PollOutput(cache, p, handle);
    forall nid | nid in NextCache(cache, p, handle)
      ensures GateConsistent(NextCache(cache, p, handle)[nid]) && NextCache(cache, p, handle)[nid].state == Open
    {
      CacheOrigin(base, out, nid);
      if !(nid in base && CacheAll(base, out)[nid] == base[nid]) {
        var e :| e in out && IsSnapshot(e, nid) && e.body.facts.state == Open && e.body.facts == CacheAll(base, out)[nid];
        OutputGates(cache, p, handle, nid, e);
      }
    }
  }

  /** The item stays cached and no draft, and no todo reports it closed. */
  ghost predicate StaysCached(caches: seq<Cache>, polls: seq<Poll>, nid: string, i: nat, j: nat)
    requires i <= j < |caches| && j <= |polls|
  {
    && (forall m :: i <= m <= j ==> nid in caches[m] && !caches[m][nid].draft)
    && (forall m :: i <= m < j ==> nid !in polls[m].gone)
  }

  /** No poll both passes through and reads the item without knowing its gate. */
  ghost predicate NeverPassedUnknown(polls: seq<Poll>, nid: string, i: nat, j: nat)
    requires i <= j <= |polls|
  {
    forall m :: i <= m < j ==> !PassesUnknown(polls[m], nid)
  }

  ghost predicate PassesUnknown(p: Poll, nid: string) {
    PassesThrough(p.results, p.degraded) && exists e :: e in p.rest && IsSnapshot(e, nid) && e.body.facts.state == Open && !Known(e.body.facts.gate)
  }

  /**
   Gate stability over runs. While a merge request with a parseable id stays cached, open and
   no draft, a known gate stays known under any mix of failed batches, null nodes and
   evictions of other items, unless a poll passes an unknown read through.
   */
  lemma {:induction false} GateStable(caches: seq<Cache>, polls: seq<Poll>, handle: string, nid: string, i: nat, j: nat)
    requires IsCacheRun(caches, polls, handle) && i <= j < |caches| && Parseable(nid)
    requires StaysCached(caches, polls, nid, i, j) && NeverPassedUnknown(polls, nid, i, j)
    requires Known(caches[i][nid].gate)
    ensures Known(caches[j][nid].gate)
  {
    if i < j {
      GateStable(caches, polls, handle, nid, i, j - 1);
      RunStepKeepsGate(caches, polls, handle, nid, j - 1);
    }
  }

  /** So over such a stretch a gate that was ready or blocked once is one of the two ever after. */
  lemma SettledStays(caches: seq<Cache>, polls: seq<Poll>, handle: string, nid: string, i: nat, j: nat)
    requires IsCacheRun(caches, polls, handle) && i <= j < |caches| && Parseable(nid)
    requires StaysCached(caches, polls, nid, i, j) && NeverPassedUnknown(polls, nid, i, j)
    requires caches[i][nid].gate in {Ready, Blocked}
    ensures caches[j][nid].gate in {Ready, Blocked}
  {
    GateStable(caches, polls, handle, nid, i, j);
    RunCacheOK(caches, polls, handle, j);
    assert GateConsistent(caches[j][nid]);
  }

  lemma RunStepKeepsGate(caches: seq<Cache>, polls: seq<Poll>, handle: string, nid: string, n: nat)
    requires IsCacheRun(caches, polls, handle) && n < |polls| && Parseable(nid)
    requires nid in caches[n] && nid !in polls[n].gone && Known(caches[n][nid].gate)
    requires nid in caches[n + 1] && !caches[n + 1][nid].draft && !PassesUnknown(polls[n], nid)
    ensures Known(caches[n + 1][nid].gate)
  {
    RunCacheOK(caches, polls, handle, n);
    assert StepsAt(caches, polls, handle, n);
    StepKeepsGate(caches[n], polls[n], handle, nid);
  }

  lemma StepKeepsGate(cache: Cache, p: Poll, handle: string, nid: string)
    requires CacheOK(cache) && IsCacheStep(cache, p, handle, NextCache(cache, p, handle)) && Parseable(nid)
    requires nid in cache && nid !in p.gone && Known(cache[nid].gate)
    requires nid in NextCache(cache, p, handle) && !NextCache(cache, p, handle)[nid].draft
    requires !PassesUnknown(p, nid)
    ensures Known(NextCache(cache, p, handle)[nid].gate)
  {
    var base, out := cache - p.gone - ArchivedIDs(p.rest, p.results), PollOutput(cache, p, handle);
    CacheOrigin(base, out, nid);
    if !(nid in base && CacheAll(base, out)[nid] == base[nid]) {
      var e :| e in out && IsSnapshot(e, nid) && e.body.facts.state == Open && e.body.facts == CacheAll(base, out)[nid];
      OutputGates(cache, p, handle, nid, e);
    }
  }
}
