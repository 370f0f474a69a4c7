/** Laws of the GitHub join and of its snapshot cache over runs of polls. */
module GitHubRuns {
  import opened Model
  import opened GitHub

  /** A poll whose join went through: the REST events, the join's results, and whether it was a complete sweep. */
  datatype Poll = Poll(rest: seq<Event>, results: map<int, Result>, complete: bool)

  function PollOutput(cache: Cache, p: Poll): seq<Event> {
    JoinOutput(p.rest, p.results, cache)
  }

  function NextCache(cache: Cache, p: Poll): Cache {
    var out := PollOutput(cache, p);
    Pruned(CacheAll(cache - ArchivedIDs(p.rest, p.results), out), out, p.complete)
  }

  /** A run of the cache from empty; a poll that failed or was rate limited leaves it as it is. */
  ghost predicate IsCacheRun(caches: seq<Cache>, polls: seq<Option<Poll>>) {
    && |caches| == |polls| + 1
    && caches[0] == map[]
    && forall i :: 0 <= i < |polls| ==> StepsAt(caches, polls, i)
  }

  ghost predicate StepsAt(caches: seq<Cache>, polls: seq<Option<Poll>>, i: int)
    requires 0 <= i < |polls| && |caches| == |polls| + 1
  {
    IsCacheStep(caches[i], polls[i], caches[i + 1])
  }

  ghost predicate IsCacheStep(cache: Cache, poll: Option<Poll>, cache': Cache) {
    match poll
    case None => cache' == cache
    case Some(p) => FromRest(p.rest) && VerdictsAreSignals(p.results) && cache' == NextCache(cache, p)
  }

  /** Every snapshot of the poll was built from REST facts. */
  ghost predicate FromRest(rest: seq<Event>) {
    forall e :: e in rest && e.eventType == ItemObserved && e.body.Snapshot? ==> exists f :: e.body.facts == RestPayload(f)
  }

  /** The join appends signals, never snapshots. */
  ghost predicate VerdictsAreSignals(results: map<int, Result>) {
    forall i :: i in results && results[i].Enrichment? ==> forall e :: e in results[i].verdicts ==> e.eventType.Signal?
  }

  // ---- the gate agrees with its detail ----

  /** Gate and markers are what GitHub's mergeable_state value, kept as the detail, says. */
  predicate GateConsistent(pl: Payload) {
    && pl.gate == MergeGate(pl.gateDetail)
    && pl.failingChecks == (pl.gateDetail == Unstable)
    && pl.mergeConflict == (pl.gateDetail == Dirty)
    && pl.needsRebase == (pl.gateDetail == Behind)
  }

  /** Consistency is that re-applying the detail changes nothing. */
  lemma ConsistentIsApplied(pl: Payload)
    ensures GateConsistent(pl) <==> pl == ApplyMergeState(pl, pl.gateDetail)
  {
  }

  lemma RestConsistent(f: RestFacts)
    ensures GateConsistent(RestPayload(f))
  {
  }

  /** The fields that no step of the join touches. */
  predicate SameItem(a: Payload, b: Payload) {
    a.state == b.state && a.draft == b.draft && a.myRoles == b.myRoles
  }

  predicate SameGate(a: Payload, b: Payload) {
    && a.gate == b.gate && a.gateDetail == b.gateDetail
    && a.failingChecks == b.failingChecks && a.mergeConflict == b.mergeConflict && a.needsRebase == b.needsRebase
  }

  lemma CarryEnrichmentKeeps(pl: Payload, snap: Payload)
    ensures SameItem(CarryForwardEnrichment(pl, snap), pl) && SameGate(CarryForwardEnrichment(pl, snap), pl)
  {
  }

  /** The read takes its gate from the cached snapshot. */
  predicate TakesGate(pl: Payload, snap: Payload) {
    pl.gate == Unknown && !pl.draft && pl.state == Open && Known(snap.gate)
  }

  lemma CarryGateKeeps(pl: Payload, snap: Payload)
    ensures SameItem(CarryForwardGate(pl, snap), pl)
    ensures SameGate(CarryForwardGate(pl, snap), pl) || SameGate(CarryForwardGate(pl, snap), snap)
    ensures Known(snap.gate) && pl.state == Open && !pl.draft && (pl.gate == Unknown || Known(pl.gate)) ==>
              Known(CarryForwardGate(pl, snap).gate)
  {
    if TakesGate(pl, snap) {
      assert SameGate(CarryForwardGate(pl, snap), snap);
    } else {
      assert CarryForwardGate(pl, snap) == pl;
    }
  }

  lemma FilledFields(pl: Payload, mergeState: MergeDetail)
    ensures var filled := Filled(pl, mergeState);
            && SameItem(filled, pl) && SameRestFields(filled, pl) && SameJoinFields(filled, pl)
            && (GateConsistent(pl) ==> GateConsistent(filled))
            && (pl.gate != Unknown || MergeGate(mergeState) == Unknown ==> filled == pl)
            && (pl.gate == Unknown && MergeGate(mergeState) != Unknown ==> filled.gate == MergeGate(mergeState))
  {
    if pl.gate == Unknown && MergeGate(mergeState) != Unknown {
      assert Filled(pl, mergeState) == ApplyMergeState(pl, mergeState);
    } else {
      assert Filled(pl, mergeState) == pl;
    }
  }

  lemma GateFromJoinKeeps(pl: Payload, mergeState: MergeDetail, snap: Option<Payload>)
    ensures SameItem(GateFromJoin(pl, mergeState, snap), pl)
    ensures GateConsistent(pl) && (snap.Some? ==> GateConsistent(snap.value)) ==>
              GateConsistent(GateFromJoin(pl, mergeState, snap))
    ensures GateConsistent(pl) && snap.Some? && Known(snap.value.gate) && pl.state == Open && !pl.draft ==>
              Known(GateFromJoin(pl, mergeState, snap).gate)
  {
    var filled := Filled(pl, mergeState);
    FilledFields(pl, mergeState);
    if snap.Some? {
      CarryGateKeeps(filled, snap.value);
    }
  }

  lemma JoinKeeps(pl: Payload, r: Result, snap: Option<Payload>)
    requires r.Enrichment?
    ensures SameItem(JoinPayload(pl, r, snap), pl)
    ensures SameGate(JoinPayload(pl, r, snap), GateFromJoin(pl, r.mergeState, snap))
  {
    GateFromJoinKeeps(pl, r.mergeState, snap);
  }

  /** Enriching keeps the item's state, its consistency, and a gate that the cached snapshot knew. */
  lemma EnrichedKeeps(pl: Payload, r: Option<Result>, snap: Option<Payload>)
    requires GateConsistent(pl) && (snap.Some? ==> GateConsistent(snap.value))
    ensures var e := EnrichedPayload(pl, r, snap);
            && SameItem(e, pl)
            && GateConsistent(e)
            && (snap.Some? && Known(snap.value.gate) && pl.state == Open && !pl.draft ==> Known(e.gate))
  {
    if r.Some? && r.value.Enrichment? {
      JoinKeeps(pl, r.value, snap);
      GateFromJoinKeeps(pl, r.value.mergeState, snap);
    } else if snap.Some? {
      CarryEnrichmentKeeps(pl, snap.value);
      CarryGateKeeps(CarryForwardEnrichment(pl, snap.value), snap.value);
    }
  }

  // ---- one poll ----

  /** Every open snapshot that the cache and the poll hold has a consistent gate. */
  ghost predicate CacheOK(cache: Cache) {
    forall nid :: nid in cache ==> GateConsistent(cache[nid]) && cache[nid].state == Open
  }

  /** An output snapshot is the enrichment of an input snapshot of the same item, which was not archived. */
  lemma {:induction false} SurvivorOrigin(events: seq<Event>, n: nat, results: map<int, Result>, cache: Cache, archived: set<string>, e: Event)
    requires n <= |events| && e in Survivors(events, n, results, cache, archived)
    ensures exists i :: 0 <= i < n && events[i].nativeID !in archived && e == Enriched(events[i], ResultAt(results, i), cache)
  {
    if n > 0 && e in Survivors(events, n - 1, results, cache, archived) {
      SurvivorOrigin(events, n - 1, results, cache, archived, e);
    }
  }

  lemma {:induction false} VerdictOrigin(events: seq<Event>, n: nat, results: map<int, Result>, e: Event)
    requires n <= |events| && VerdictsAreSignals(results) && e in Verdicts(events, n, results)
    ensures e.eventType.Signal?
  {
    if n > 0 && e in Verdicts(events, n - 1, results) {
      VerdictOrigin(events, n - 1, results, e);
    }
  }

  lemma OutputOrigin(cache: Cache, p: Poll, e: Event) returns (i: int)
    requires VerdictsAreSignals(p.results) && e in PollOutput(cache, p) && e.eventType == ItemObserved
    ensures 0 <= i < |p.rest| && p.rest[i].nativeID !in ArchivedIDs(p.rest, p.results)
    ensures e == Enriched(p.rest[i], ResultAt(p.results, i), cache)
  {
    var archived := ArchivedIDs(p.rest, p.results);
    if e !in Survivors(p.rest, |p.rest|, p.results, cache, archived) {
      VerdictOrigin(p.rest, |p.rest|, p.results, e);
    }
    SurvivorOrigin(p.rest, |p.rest|, p.results, cache, archived, e);
    i :| 0 <= i < |p.rest| && p.rest[i].nativeID !in archived && e == Enriched(p.rest[i], ResultAt(p.results, i), cache);
  }

  /** What the poll emits has consistent gates, and known ones where the cache knew one. */
  lemma OutputGates(cache: Cache, p: Poll, e: Event)
    requires CacheOK(cache) && FromRest(p.rest) && VerdictsAreSignals(p.results)
    requires e in PollOutput(cache, p) && e.eventType == ItemObserved && e.body.Snapshot?
    ensures GateConsistent(e.body.facts)
    ensures && e.nativeID in cache && Known(cache[e.nativeID].gate) && Parseable(e.nativeID)
            && e.body.facts.state == Open && !e.body.facts.draft
            ==> Known(e.body.facts.gate)
  {
    var i := OutputOrigin(cache, p, e);
    var ev, r := p.rest[i], ResultAt(p.results, i);
    assert ev in p.rest && ev.nativeID == e.nativeID && ev.eventType == ItemObserved && ev.body.Snapshot?;
    var f :| ev.body.facts == RestPayload(f);
    RestConsistent(f);
    var snap := Lookup(cache, ev.nativeID);
    EnrichedKeeps(ev.body.facts, r, snap);
    assert Joinable(ev) && r == Some(Archived) ==> ev.nativeID in ArchivedIDs(p.rest, p.results);
  }

  /** An entry of the cache is old, or the payload of an open snapshot of the poll. */
  lemma {:induction false} CacheOrigin(cache: Cache, events: seq<Event>, nid: string)
    requires nid in CacheAll(cache, events)
    ensures || (nid in cache && CacheAll(cache, events)[nid] == cache[nid])
            || exists e :: e in events && e.eventType == ItemObserved && e.nativeID == nid && e.body.Snapshot?
                           && e.body.facts.state == Open && e.body.facts == CacheAll(cache, events)[nid]
  {
    if events != [] {
      var init, last := events[..|events| - 1], events[|events| - 1];
      assert last in events && forall e :: e in init ==> e in events;
      if nid in CacheAll(cache, init) {
        CacheOrigin(cache, init, nid);
      }
    }
  }

  lemma PollKeepsCacheOK(cache: Cache, p: Poll)
    requires CacheOK(cache) && FromRest(p.rest) && VerdictsAreSignals(p.results)
    ensures CacheOK(NextCache(cache, p))
  {
    var out := PollOutput(cache, p);
    var base := cache - ArchivedIDs(p.rest, p.results);
    forall nid | nid in NextCache(cache, p)
      ensures GateConsistent(NextCache(cache, p)[nid]) && NextCache(cache, p)[nid].state == Open
    {
      CacheOrigin(base, out, nid);
      if !(nid in base && CacheAll(base, out)[nid] == base[nid]) {
        var e :| e in out && e.eventType == ItemObserved && e.nativeID == nid && e.body.Snapshot?
                 && e.body.facts.state == Open && e.body.facts == CacheAll(base, out)[nid];
        OutputGates(cache, p, e);
      }
    }
  }

  /** One poll keeps a known gate of an item that stays cached, open and no draft. */
  lemma PollKeepsGate(cache: Cache, p: Poll, nid: string)
    requires CacheOK(cache) && FromRest(p.rest) && VerdictsAreSignals(p.results) && Parseable(nid)
    requires nid in cache && Known(cache[nid].gate)
    requires nid in NextCache(cache, p) && !NextCache(cache, p)[nid].draft
    ensures Known(NextCache(cache, p)[nid].gate)
  {
    var out := PollOutput(cache, p);
    var base := cache - ArchivedIDs(p.rest, p.results);
    CacheOrigin(base, out, nid);
    if !(nid in base && CacheAll(base, out)[nid] == base[nid]) {
      var e :| e in out && e.eventType == ItemObserved && e.nativeID == nid && e.body.Snapshot?
               && e.body.facts.state == Open && e.body.facts == CacheAll(base, out)[nid];
      OutputGates(cache, p, e);
    }
  }

  // ---- runs ----

  lemma {:induction false} RunCacheOK(caches: seq<Cache>, polls: seq<Option<Poll>>, n: nat)
    requires IsCacheRun(caches, polls) && n < |caches|
    ensures CacheOK(caches[n])
  {
    if n > 0 {
      RunCacheOK(caches, polls, n - 1);
      assert StepsAt(caches, polls, n - 1);
      if polls[n - 1].Some? {
        PollKeepsCacheOK(caches[n - 1], polls[n - 1].value);
      }
    }
  }

  /** The item stays cached and no draft from poll i to poll j. */
  ghost predicate StaysCached(caches: seq<Cache>, nid: string, i: nat, j: nat)
    requires i <= j < |caches|
  {
    forall m :: i <= m <= j ==> nid in caches[m] && !caches[m][nid].draft
  }

  /**
   Gate stability. While a PR with a parseable id stays cached and no draft, a gate that was
   known once is known ever after, under any mix of failures.
   */
  lemma {:induction false} GateStable(caches: seq<Cache>, polls: seq<Option<Poll>>, nid: string, i: nat, j: nat)
    requires IsCacheRun(caches, polls) && i <= j < |caches| && Parseable(nid)
    requires StaysCached(caches, nid, i, j) && Known(caches[i][nid].gate)
    ensures Known(caches[j][nid].gate)
  {
    if i < j {
      GateStable(caches, polls, nid, i, j - 1);
      RunKeepsGate(caches, polls, nid, j - 1);
    }
  }

  lemma RunKeepsGate(caches: seq<Cache>, polls: seq<Option<Poll>>, nid: string, n: nat)
    requires IsCacheRun(caches, polls) && n < |polls| && Parseable(nid)
    requires nid in caches[n] && Known(caches[n][nid].gate) && nid in caches[n + 1] && !caches[n + 1][nid].draft
    ensures Known(caches[n + 1][nid].gate)
  {
    RunCacheOK(caches, polls, n);
    assert StepsAt(caches, polls, n);
    StepKeepsGate(caches[n], polls[n], caches[n + 1], nid);
  }

  lemma StepKeepsGate(cache: Cache, poll: Option<Poll>, cache': Cache, nid: string)
    requires IsCacheStep(cache, poll, cache') && CacheOK(cache) && Parseable(nid)
    requires nid in cache && Known(cache[nid].gate) && nid in cache' && !cache'[nid].draft
    ensures Known(cache'[nid].gate)
  {
    if poll.Some? {
      PollKeepsGate(cache, poll.value, nid);
    }
  }

  /** So over such a stretch a gate that was ready or blocked once is one of the two ever after. */
  lemma SettledStays(caches: seq<Cache>, polls: seq<Option<Poll>>, nid: string, i: nat, j: nat)
    requires IsCacheRun(caches, polls) && i <= j < |caches| && Parseable(nid)
    requires StaysCached(caches, nid, i, j) && caches[i][nid].gate in {Ready, Blocked}
    ensures caches[j][nid].gate in {Ready, Blocked}
  {
    GateStable(caches, polls, nid, i, j);
    RunCacheOK(caches, polls, j);
    assert GateConsistent(caches[j][nid]);
  }

  /** In every run, each cached or emitted payload's gate and markers are what its detail says, whatever was carried over. */
  lemma GatesMatchDetail(caches: seq<Cache>, polls: seq<Option<Poll>>, j: nat, pl: Payload)
    requires IsCacheRun(caches, polls) && j < |caches|
    requires || (exists nid :: nid in caches[j] && caches[j][nid] == pl)
             || (j < |polls| && polls[j].Some?
                 && exists e :: e in PollOutput(caches[j], polls[j].value) && e.eventType == ItemObserved && e.body == Snapshot(pl))
    ensures pl == ApplyMergeState(pl, pl.gateDetail)
  {
    RunCacheOK(caches, polls, j);
    ConsistentIsApplied(pl);
    if !(exists nid :: nid in caches[j] && caches[j][nid] == pl) {
      var e :| e in PollOutput(caches[j], polls[j].value) && e.eventType == ItemObserved && e.body == Snapshot(pl);
      assert StepsAt(caches, polls, j);
      OutputGates(caches[j], polls[j].value, e);
    }
  }

  /** And every open non-draft snapshot of it that a poll of that stretch emits has a known gate. */
  lemma EmittedGatesStable(caches: seq<Cache>, polls: seq<Option<Poll>>, nid: string, i: nat, j: nat, e: Event)
    requires IsCacheRun(caches, polls) && i <= j < |polls| && Parseable(nid)
    requires StaysCached(caches, nid, i, j) && Known(caches[i][nid].gate)
    requires polls[j].Some? && e in PollOutput(caches[j], polls[j].value) && e.nativeID == nid
    requires e.eventType == ItemObserved && e.body.Snapshot? && e.body.facts.state == Open && !e.body.facts.draft
    ensures Known(e.body.facts.gate)
  {
    GateStable(caches, polls, nid, i, j);
    RunCacheOK(caches, polls, j);
    assert StepsAt(caches, polls, j);
    OutputGates(caches[j], polls[j].value, e);
  }

  // ---- the degraded fixed point ----

  /** When rebuilding the last joined payload from the cache succeeds. */
  predicate Rebuildable(pl: Payload, r: Result)
    requires r.Enrichment?
  {
    && (pl.sourceBranch == "" || pl.sourceBranch == r.sourceBranch)
    && (pl.targetBranch == "" || pl.targetBranch == r.targetBranch)
    && (pl.draft ==>
          && pl.myReviewState == r.myReviewState
          && pl.autoMergeArmed == r.autoMergeArmed
          && !pl.needsApproval
          && !(pl.gate == Unknown && MergeGate(r.mergeState) != Unknown))
  }

  /** The fields that only the join sets. */
  predicate SameJoinFields(a: Payload, b: Payload) {
    && a.reviewDecision == b.reviewDecision && a.sourceBranch == b.sourceBranch && a.targetBranch == b.targetBranch
    && a.approvalsCount == b.approvalsCount && a.myReviewState == b.myReviewState
    && a.autoMergeArmed == b.autoMergeArmed && a.needsApproval == b.needsApproval
  }

  /** The fields that REST alone sets. */
  predicate SameRestFields(a: Payload, b: Payload) {
    && a.title == b.title && a.url == b.url && a.repo == b.repo && a.state == b.state && a.draft == b.draft
    && a.author == b.author && a.myRoles == b.myRoles && a.unresolvedDiscussions == b.unresolvedDiscussions
    && a.policyDenied == b.policyDenied && a.checksRunning == b.checksRunning
    && a.providerUpdatedAt == b.providerUpdatedAt && a.ticketKeys == b.ticketKeys && a.labels == b.labels
  }

  lemma FieldsDecide(a: Payload, b: Payload)
    ensures a == b <==> SameRestFields(a, b) && SameGate(a, b) && SameJoinFields(a, b)
  {
  }

  lemma CarryGateFields(pl: Payload, snap: Payload)
    ensures SameRestFields(CarryForwardGate(pl, snap), pl)
    ensures SameJoinFields(CarryForwardGate(pl, snap), pl)
  {
    if !TakesGate(pl, snap) {
      assert CarryForwardGate(pl, snap) == pl;
    }
  }

  lemma GateFields(pl: Payload, mergeState: MergeDetail, snap: Option<Payload>)
    ensures SameRestFields(GateFromJoin(pl, mergeState, snap), pl) && SameJoinFields(GateFromJoin(pl, mergeState, snap), pl)
  {
    var filled := Filled(pl, mergeState);
    FilledFields(pl, mergeState);
    if snap.Some? {
      CarryGateFields(filled, snap.value);
    }
  }

  lemma JoinFields(pl: Payload, r: Result, snap: Option<Payload>)
    requires r.Enrichment?
    ensures var joined := JoinPayload(pl, r, snap);
            && SameRestFields(joined, pl)
            && joined.reviewDecision == ReviewDecision(r.decision)
            && joined.sourceBranch == r.sourceBranch && joined.targetBranch == r.targetBranch
            && joined.myReviewState == r.myReviewState && joined.autoMergeArmed == r.autoMergeArmed
            && (pl.draft ==> !joined.needsApproval && joined.approvalsCount == pl.approvalsCount)
  {
    GateFields(pl, r.mergeState, snap);
  }

  lemma EnrichmentFields(pl: Payload, snap: Payload)
    ensures var e := CarryForwardEnrichment(pl, snap);
            && SameRestFields(e, pl)
            && e.reviewDecision == snap.reviewDecision
            && e.sourceBranch == (if pl.sourceBranch == "" then snap.sourceBranch else pl.sourceBranch)
            && e.targetBranch == (if pl.targetBranch == "" then snap.targetBranch else pl.targetBranch)
            && var from := if pl.draft then pl else snap;
               && e.approvalsCount == from.approvalsCount && e.myReviewState == from.myReviewState
               && e.autoMergeArmed == from.autoMergeArmed && e.needsApproval == from.needsApproval
  {
  }

  /** The gate that the cache gives back, compared with the gate that the join had found. */
  lemma GateRebuilt(pl: Payload, r: Result, previous: Option<Payload>)
    requires r.Enrichment? && pl.state == Open
    ensures var joined := JoinPayload(pl, r, previous);
            SameGate(CarryForwardGate(CarryForwardEnrichment(pl, joined), joined), joined) <==>
            !(pl.draft && pl.gate == Unknown && MergeGate(r.mergeState) != Unknown)
  {
    var joined := JoinPayload(pl, r, previous);
    var g := GateFromJoin(pl, r.mergeState, previous);
    JoinKeeps(pl, r, previous);
    GateFromJoinCases(pl, r.mergeState, previous);
    CarryEnrichmentKeeps(pl, joined);
    CarryGateCases(CarryForwardEnrichment(pl, joined), joined);
  }

  lemma CarryGateCases(pl: Payload, snap: Payload)
    ensures SameGate(CarryForwardGate(pl, snap),
                     if pl.gate == Unknown && !pl.draft && pl.state == Open && Known(snap.gate) then snap else pl)
  {
  }

  lemma GateFromJoinCases(pl: Payload, mergeState: MergeDetail, snap: Option<Payload>)
    ensures var g := GateFromJoin(pl, mergeState, snap);
            && (pl.gate != Unknown ==> SameGate(g, pl))
            && (pl.gate == Unknown && !Known(g.gate) ==> SameGate(g, pl) && MergeGate(mergeState) == Unknown)
            && (pl.draft && pl.gate == Unknown && MergeGate(mergeState) == Unknown ==> SameGate(g, pl))
            && (pl.gate == Unknown && MergeGate(mergeState) != Unknown ==> Known(g.gate))
  {
    var filled := Filled(pl, mergeState);
    FilledFields(pl, mergeState);
    if snap.Some? {
      CarryGateCases(filled, snap.value);
    }
  }

  /**
   Degraded fixed point. For an open PR with unchanged REST facts, a join without result
   rebuilds from the cache exactly the payload of the last successful join if and only if its
   REST branches are empty or agree with the join's, and, on a draft, the join had nothing to
   say that a draft does not carry.
   */
  lemma DegradedFixedPoint(pl: Payload, r: Result, previous: Option<Payload>)
    requires r.Enrichment? && pl.state == Open
    ensures var joined := JoinPayload(pl, r, previous);
            DegradedPayload(pl, Some(joined)) == joined <==> Rebuildable(pl, r)
  {
    var joined := JoinPayload(pl, r, previous);
    var enriched := CarryForwardEnrichment(pl, joined);
    var rebuilt := CarryForwardGate(enriched, joined);
    GateRebuilt(pl, r, previous);
    JoinFields(pl, r, previous);
    EnrichmentFields(pl, joined);
    CarryGateFields(enriched, joined);
    FieldsDecide(rebuilt, joined);
  }
}
