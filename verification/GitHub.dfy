/**
 The GitHub provider: REST payloads, the batched GraphQL join that enriches them, and the
 snapshot cache that carries enrichment and gates over failed reads.
 */
module GitHub {
  import opened Model

  // ---- merge state ----

  function MergeGate(mergeableState: MergeDetail): Gate {
    match mergeableState
    case Clean => Ready
    case HasHooks => Ready
    case BlockedDetail => Blocked
    case Dirty => Blocked
    case Behind => Blocked
    case Unstable => Ready
    case _ => Unknown
  }

  /** The gate and the three markers that GitHub reports through one mergeable_state value. */
  function ApplyMergeState(pl: Payload, state: MergeDetail): Payload {
    pl.(gate := MergeGate(state),
        gateDetail := state,
        failingChecks := state == Unstable,
        mergeConflict := state == Dirty,
        needsRebase := state == Behind)
  }

  predicate Known(g: Gate) {
    g != Unknown && g != OtherGate("")
  }

  // ---- REST payloads ----

  /** What a search row or a pull detail says about a PR; mergeableState is None on a search row. */
  datatype RestFacts = RestFacts(
    title: string,
    url: string,
    repo: string,
    state: ItemState,
    draft: bool,
    author: string,
    roles: seq<Role>,
    mergeableState: Option<MergeDetail>,
    updatedAt: Option<Time>,
    ticketKeys: seq<string>,
    labels: seq<string>,
    sourceBranch: string,
    targetBranch: string)

  /** observedFromPull and observedFromSearch: the join's fields are unset, approvals unknown. */
  function RestPayload(f: RestFacts): Payload {
    var pl := Payload(f.title, f.url, f.repo, f.state, f.draft, f.author, f.roles, NoVerdict, NoVerdict,
                      Unknown, NO_DETAIL, false, false, false, false, false, false, false, false, -1,
                      f.updatedAt, f.ticketKeys, f.labels, f.sourceBranch, f.targetBranch);
    if f.mergeableState.Some? then ApplyMergeState(pl, f.mergeableState.value) else pl
  }

  function ObservedEvent(nid: string, pl: Payload): Event {
    Event(MERGE_REQUEST, nid, ItemObserved, pl.providerUpdatedAt, pl.author, FactsKey(pl), Snapshot(pl))
  }

  // ---- the GraphQL answer ----

  datatype Decision = DecisionApproved | DecisionChangesRequested | DecisionReviewRequired | DecisionOther

  datatype ReviewState = ReviewApproved | ReviewChangesRequested | ReviewCommented | ReviewOther

  /** A latest review; `at` is its submission time when that parses. */
  datatype Review = Review(state: ReviewState, login: string, submittedAt: string, at: Option<Time>)

  datatype Pull = Pull(
    decision: Decision,
    mergeState: MergeDetail,
    headRef: string,
    baseRef: string,
    reviews: seq<Review>,
    autoMerge: bool)

  /** An aliased node: missing, null or malformed; of an archived repository; without a PR; or a PR. */
  datatype Node = NoNode | ArchivedNode | NullPull | PullNode(pull: Pull)

  datatype Status = Answered | FailedBatch | RateLimitedBatch

  /** What the forge would answer: the node of each item, and the fate of the batch that starts at an index. */
  datatype Forge = Forge(node: int -> Node, batch: int -> Status)

  datatype PrItem = PrItem(evIdx: int, nativeID: string, draft: bool)

  datatype Result = Archived | Enrichment(
    decision: Decision,
    mergeState: MergeDetail,
    approvalsCount: nat,
    autoMergeArmed: bool,
    myReviewState: Verdict,
    sourceBranch: string,
    targetBranch: string,
    verdicts: seq<Event>)

  function ReviewDecision(d: Decision): Verdict {
    match d
    case DecisionChangesRequested => ChangesRequested
    case DecisionApproved => Approved
    case DecisionReviewRequired => ReviewRequired
    case DecisionOther => NoVerdict
  }

  function MyReviewState(s: ReviewState): Verdict {
    match s
    case ReviewApproved => Approved
    case ReviewChangesRequested => ChangesRequested
    case ReviewCommented => Reviewed
    case ReviewOther => NoVerdict
  }

  /** The approving reviews among the first n. */
  function Approvals(reviews: seq<Review>): nat {
    if reviews == [] then 0
    else Approvals(reviews[..|reviews| - 1]) + if reviews[|reviews| - 1].state == ReviewApproved then 1 else 0
  }

  /** The verdict of my last review, or none. */
  function Mine(reviews: seq<Review>, handle: string): Verdict {
    if reviews == [] then NoVerdict
    else if reviews[|reviews| - 1].login == handle then MyReviewState(reviews[|reviews| - 1].state)
    else Mine(reviews[..|reviews| - 1], handle)
  }

  /** A verdict with a provider timestamp on a PR that is no draft ranks the item. */
  function VerdictOf(it: PrItem, r: Review): seq<Event> {
    if it.draft || r.submittedAt == "" || r.at.None? then []
    else match r.state
      case ReviewApproved =>
        [Event(MERGE_REQUEST, it.nativeID, Signal(ApprovedSignal), r.at, r.login,
               TextKey("signal.approved:review:" + r.login + ":" + r.submittedAt), Opaque)]
      case ReviewChangesRequested =>
        [Event(MERGE_REQUEST, it.nativeID, Signal(ChangesRequestedSignal), r.at, r.login,
               TextKey("signal.changes_requested:review:" + r.login + ":" + r.submittedAt), Opaque)]
      case _ => []
  }

  function VerdictsOf(it: PrItem, reviews: seq<Review>): seq<Event> {
    if reviews == [] then []
    else VerdictsOf(it, reviews[..|reviews| - 1]) + VerdictOf(it, reviews[|reviews| - 1])
  }

  /** The item's result for a node; None when the node is missing or null. */
  function ResultFor(it: PrItem, node: Node, handle: string): Option<Result> {
    match node
    case NoNode => None
    case ArchivedNode => Some(Archived)
    case NullPull => None
    case PullNode(pr) =>
      Some(Enrichment(pr.decision, pr.mergeState, Approvals(pr.reviews), pr.autoMerge,
                      Mine(pr.reviews, handle), pr.headRef, pr.baseRef, VerdictsOf(it, pr.reviews)))
  }

  /** The batch of item i answered. */
  predicate BatchAnswered(forge: Forge, size: nat, i: nat)
    requires size > 0
  {
    forge.batch(i / size * size) == Answered
  }

  /** The join of one item on its own: its result when its batch answered with a usable node. */
  function PerItem(items: seq<PrItem>, i: nat, forge: Forge, size: nat, handle: string): Option<Result>
    requires i < |items| && size > 0
  {
    if BatchAnswered(forge, size, i) then ResultFor(items[i], forge.node(i), handle) else None
  }

  predicate DistinctIndices(items: seq<PrItem>) {
    forall i, j :: 0 <= i < j < |items| ==> items[i].evIdx != items[j].evIdx
  }

  /** `results` holds the per-item join of the items below n, and nothing else. */
  ghost predicate IsPerItemJoin(results: map<int, Result>, items: seq<PrItem>, n: nat, forge: Forge, size: nat, handle: string)
    requires n <= |items| && size > 0
  {
    && (forall x :: x in results ==> HasItem(items, n, x))
    && (forall i :: 0 <= i < n ==> HoldsResult(results, items, i, forge, size, handle))
  }

  /** One of the first n items belongs to event x. */
  predicate HasItem(items: seq<PrItem>, n: nat, x: int)
    requires n <= |items|
  {
    exists i :: 0 <= i < n && items[i].evIdx == x
  }

  predicate HoldsResult(results: map<int, Result>, items: seq<PrItem>, i: nat, forge: Forge, size: nat, handle: string)
    requires i < |items| && size > 0
  {
    match PerItem(items, i, forge, size, handle)
    case Some(r) => items[i].evIdx in results && results[items[i].evIdx] == r
    case None => items[i].evIdx !in results
  }

  /** Every result is the per-item join of some item. */
  lemma ItemOfResult(items: seq<PrItem>, results: map<int, Result>, forge: Forge, size: nat, handle: string, x: int) returns (i: nat)
    requires size > 0 && IsPerItemJoin(results, items, |items|, forge, size, handle) && x in results
    ensures i < |items| && items[i].evIdx == x && PerItem(items, i, forge, size, handle) == Some(results[x])
  {
    assert HasItem(items, |items|, x);
    i :| 0 <= i < |items| && items[i].evIdx == x;
    assert HoldsResult(results, items, i, forge, size, handle);
  }

  // ---- carrying forward ----

  /** The GraphQL-only fields of a prior snapshot, for a read whose batch failed. */
  function CarryForwardEnrichment(pl: Payload, snap: Payload): Payload {
    var pl1 := pl.(reviewDecision := snap.reviewDecision,
                   sourceBranch := if pl.sourceBranch == "" then snap.sourceBranch else pl.sourceBranch,
                   targetBranch := if pl.targetBranch == "" then snap.targetBranch else pl.targetBranch);
    if pl1.draft then pl1
    else pl1.(approvalsCount := snap.approvalsCount,
              myReviewState := snap.myReviewState,
              autoMergeArmed := snap.autoMergeArmed,
              needsApproval := snap.needsApproval)
  }

  /** The last known gate, with its detail and markers, for an open non-draft read that has none. */
  function CarryForwardGate(pl: Payload, snap: Payload): Payload {
    if pl.gate != Unknown || pl.draft || pl.state != Open || !Known(snap.gate) then pl
    else pl.(gate := snap.gate,
             gateDetail := snap.gateDetail,
             failingChecks := snap.failingChecks,
             mergeConflict := snap.mergeConflict,
             needsRebase := snap.needsRebase)
  }

  /** An unknown gate takes the join's merge state when that one is known. */
  function Filled(pl: Payload, mergeState: MergeDetail): Payload {
    if pl.gate == Unknown && MergeGate(mergeState) != Unknown then ApplyMergeState(pl, mergeState) else pl
  }

  function GateFromJoin(pl: Payload, mergeState: MergeDetail, snap: Option<Payload>): Payload {
    if snap.Some? then CarryForwardGate(Filled(pl, mergeState), snap.value) else Filled(pl, mergeState)
  }

  /** The payload after a successful join of its item. */
  function JoinPayload(pl: Payload, r: Result, snap: Option<Payload>): Payload
    requires r.Enrichment?
  {
    var g := GateFromJoin(pl, r.mergeState, snap);
    g.(needsApproval := r.decision == DecisionReviewRequired && !g.draft && g.gate == Blocked,
       reviewDecision := ReviewDecision(r.decision),
       approvalsCount := if g.draft then g.approvalsCount else r.approvalsCount,
       autoMergeArmed := r.autoMergeArmed,
       myReviewState := r.myReviewState,
       sourceBranch := r.sourceBranch,
       targetBranch := r.targetBranch)
  }

  /** The payload after a join that has no result for its item. */
  function DegradedPayload(pl: Payload, snap: Option<Payload>): Payload {
    if snap.Some? then CarryForwardGate(CarryForwardEnrichment(pl, snap.value), snap.value) else pl
  }

  function EnrichedPayload(pl: Payload, r: Option<Result>, snap: Option<Payload>): Payload {
    match r
    case Some(Enrichment(_, _, _, _, _, _, _, _)) => JoinPayload(pl, r.value, snap)
    case _ => DegradedPayload(pl, snap)
  }

  // ---- the join as a whole ----

  /** owner/repo#number, split at the last '#'. */
  predicate Parseable(nid: string) {
    var h := LastIndex(nid, '#', |nid|);
    0 <= h < |nid| - 1 && AllDigits(nid, h + 1, |nid|) && LastIndex(nid, '/', h) >= 0
  }

  predicate Joinable(ev: Event) {
    ev.eventType == ItemObserved && ev.body.Snapshot? && Parseable(ev.nativeID)
  }

  /** The join's items: the joinable events of a sweep, by their place in it. */
  function ItemsOf(events: seq<Event>): seq<PrItem> {
    if events == [] then []
    else
      var init, ev := events[..|events| - 1], events[|events| - 1];
      ItemsOf(init) + if Joinable(ev) then [PrItem(|init|, ev.nativeID, ev.body.facts.draft)] else []
  }

  type Cache = map<string, Payload>

  function Lookup(cache: Cache, nid: string): Option<Payload> {
    if nid in cache then Some(cache[nid]) else None
  }

  /** A read without result and without cached snapshot is left alone, key included. */
  function Enriched(ev: Event, r: Option<Result>, cache: Cache): Event {
    var snap := Lookup(cache, ev.nativeID);
    if !Joinable(ev) || r == Some(Archived) || (r.None? && snap.None?) then ev
    else
      var pl := EnrichedPayload(ev.body.facts, r, snap);
      ev.(body := Snapshot(pl), key := FactsKey(pl))
  }

  /** The items whose repository the forge declared archived. */
  function ArchivedIDs(events: seq<Event>, results: map<int, Result>): set<string> {
    set i | 0 <= i < |events| && Joinable(events[i]) && i in results && results[i] == Archived :: events[i].nativeID
  }

  function ResultAt(results: map<int, Result>, i: int): Option<Result> {
    if i in results then Some(results[i]) else None
  }

  /** The first n input events in order, enriched, without those of archived items. */
  function Survivors(events: seq<Event>, n: nat, results: map<int, Result>, cache: Cache, archived: set<string>): seq<Event>
    requires n <= |events|
  {
    if n == 0 then []
    else
      Survivors(events, n - 1, results, cache, archived)
      + if events[n - 1].nativeID in archived then [] else [Enriched(events[n - 1], ResultAt(results, n - 1), cache)]
  }

  function VerdictsOne(ev: Event, r: Option<Result>): seq<Event> {
    if Joinable(ev) && r.Some? && r.value.Enrichment? && ev.body.facts.state == Open then r.value.verdicts else []
  }

  /** The verdict signals of the open items among the first n events. */
  function Verdicts(events: seq<Event>, n: nat, results: map<int, Result>): seq<Event>
    requires n <= |events|
  {
    if n == 0 then []
    else
      Verdicts(events, n - 1, results)
      + VerdictsOne(events[n - 1], ResultAt(results, n - 1))
  }

  function JoinOutput(events: seq<Event>, results: map<int, Result>, cache: Cache): seq<Event> {
    Survivors(events, |events|, results, cache, ArchivedIDs(events, results)) + Verdicts(events, |events|, results)
  }

  // ---- the cache ----

  /** cacheOpenSnapshots: an open snapshot is stored, any other one evicts its item. */
  function CacheOne(cache: Cache, ev: Event): Cache {
    if ev.eventType != ItemObserved || !ev.body.Snapshot? then cache
    else if ev.body.facts.state == Open then cache[ev.nativeID := ev.body.facts]
    else cache - {ev.nativeID}
  }

  function CacheAll(cache: Cache, events: seq<Event>): Cache {
    if events == [] then cache else CacheOne(CacheAll(cache, events[..|events| - 1]), events[|events| - 1])
  }

  /** The items of which the sweep holds an open snapshot. */
  function OpenIDs(events: seq<Event>): set<string> {
    set e | e in events && e.eventType == ItemObserved && e.body.Snapshot? && e.body.facts.state == Open :: e.nativeID
  }

  function Pruned(cache: Cache, events: seq<Event>, complete: bool): Cache {
    if complete then map nid | nid in cache && nid in OpenIDs(events) :: cache[nid] else cache
  }
}
