/**
 The GitLab provider's GraphQL join: batches, carry-forward, archived projects, and the
 verdict signals that ride behind the sweep.
 */
module GitLab {
  import opened Model
  import opened Collections
  import opened GitLabVerdicts

  const BATCH_SIZE: nat := 8

  function MergeGate(status: MergeDetail): Gate {
    match status
    case Mergeable => Ready
    case Unchecked => Unknown
    case Checking => Unknown
    case Preparing => Unknown
    case ApprovalsSyncing => Unknown
    case CIStillRunning => Unknown
    case DraftStatus => Unknown
    case OtherDetail(text) => if text == "" then Unknown else Blocked
    case _ => Blocked
  }

  predicate Known(g: Gate) {
    g != Unknown && g != OtherGate("")
  }

  predicate IsPolicyDenied(status: MergeDetail) {
    status == PoliciesDenied || status == SecurityPolicyViolations
  }

  datatype Pipeline = NoPipeline | RedPipeline | RunningPipeline | OtherPipeline

  datatype MrReviewState = MrApproved | MrReviewed | MrRequestedChanges | MrPending

  datatype MrReviewer = MrReviewer(username: string, state: MrReviewState)

  /** The joined merge request; `archived` is hoisted from its project. */
  datatype Mr = Mr(
    archived: bool,
    approved: bool,
    shouldRebase: bool,
    dms: MergeDetail,
    pipeline: Pipeline,
    approvedCount: int,
    approvedBy: seq<string>,
    reviewers: seq<MrReviewer>)

  function VerdictsIn(mr: Mr): VerdictNode {
    VerdictNode(mr.approvedBy,
                seq(|mr.reviewers|, i requires 0 <= i < |mr.reviewers| =>
                  ReviewerNode(mr.reviewers[i].username, mr.reviewers[i].state == MrRequestedChanges)))
  }

  /** My own entry among the reviewers, when it is a submitted review. */
  function MyReview(reviewers: seq<MrReviewer>, handle: string): Verdict {
    if reviewers == [] then NoVerdict
    else if reviewers[0].username != handle then MyReview(reviewers[1..], handle)
    else match reviewers[0].state
      case MrRequestedChanges => ChangesRequested
      case MrReviewed => Reviewed
      case MrApproved => Approved
      case MrPending => NoVerdict
  }

  predicate AnyRequestedChanges(reviewers: seq<MrReviewer>) {
    exists i :: 0 <= i < |reviewers| && reviewers[i].state == MrRequestedChanges
  }

  function ApplyGraphQL(pl: Payload, mr: Mr, handle: string): Payload {
    var pl1 := if pl.draft then pl
               else pl.(needsApproval := !mr.approved,
                        needsRebase := mr.shouldRebase,
                        failingChecks := mr.pipeline == RedPipeline,
                        checksRunning := mr.pipeline == RunningPipeline,
                        approvalsCount := mr.approvedCount,
                        myReviewState := if handle in mr.approvedBy then Approved else MyReview(mr.reviewers, handle));
    pl1.(mergeConflict := mr.dms == Conflict && !mr.shouldRebase,
         reviewDecision := if AnyRequestedChanges(mr.reviewers) then ChangesRequested else NoVerdict)
  }

  /** A transient REST gate takes the join's own status when that one is known. */
  function GateFromJoin(pl: Payload, dms: MergeDetail): Payload {
    if pl.gate != Unknown || MergeGate(dms) == Unknown then pl
    else pl.(gate := MergeGate(dms),
             gateDetail := dms,
             policyDenied := IsPolicyDenied(dms),
             unresolvedDiscussions := dms == DiscussionsNotResolved)
  }

  function CarryForwardEnrichment(pl: Payload, snap: Payload): Payload {
    var pl1 := pl.(reviewDecision := snap.reviewDecision);
    if pl.draft then pl1
    else pl1.(approvalsCount := snap.approvalsCount,
              myReviewState := snap.myReviewState,
              needsApproval := pl.needsApproval || snap.needsApproval,
              failingChecks := pl.failingChecks || snap.failingChecks,
              checksRunning := pl.checksRunning || snap.checksRunning,
              needsRebase := pl.needsRebase || snap.needsRebase)
  }

  function CarryForwardGate(pl: Payload, snap: Payload): Payload {
    if pl.gate != Unknown || pl.draft || pl.state != Open || !Known(snap.gate) then pl
    else pl.(gate := snap.gate,
             gateDetail := snap.gateDetail,
             mergeConflict := snap.mergeConflict,
             policyDenied := snap.policyDenied,
             unresolvedDiscussions := snap.unresolvedDiscussions)
  }

  type Cache = map<string, Payload>

  function Lookup(cache: Cache, nid: string): Option<Payload> {
    if nid in cache then Some(cache[nid]) else None
  }

  function JoinedPayload(pl: Payload, r: Option<Mr>, snap: Option<Payload>, handle: string): Payload {
    if r.Some? then GateFromJoin(ApplyGraphQL(pl, r.value, handle), r.value.dms)
    else if snap.Some? then CarryForwardEnrichment(pl, snap.value)
    else pl
  }

  function EnrichedPayload(pl: Payload, r: Option<Mr>, snap: Option<Payload>, handle: string): Payload {
    var joined := JoinedPayload(pl, r, snap, handle);
    if snap.Some? then CarryForwardGate(joined, snap.value) else joined
  }

  // ---- the join of a sweep ----

  /** The characters from one place to another are a decimal integer with an optional sign. */
  predicate IsInt(s: string, from: nat, to: nat)
    requires from <= to <= |s|
  {
    var first := if from < to && (s[from] == '-' || s[from] == '+') then from + 1 else from;
    first < to && AllDigits(s, first, to)
  }

  /** group/project!iid, split at the last '!', whose path is no bare number. */
  predicate Parseable(nid: string) {
    var b := LastIndex(nid, '!', |nid|);
    0 <= b < |nid| - 1 && IsInt(nid, b + 1, |nid|) && !IsInt(nid, 0, b)
  }

  predicate Joinable(ev: Event) {
    ev.eventType == ItemObserved && ev.body.Snapshot? && Parseable(ev.nativeID)
  }

  /** The answers: each item's node, None when it is missing or null, and whether the batch that starts at an index failed. */
  datatype Forge = Forge(node: int -> Option<Mr>, batchFails: int -> bool, notes: int -> Option<seq<Note>>)

  predicate BatchAnswered(forge: Forge, size: nat, i: nat)
    requires size > 0
  {
    !forge.batchFails(i / size * size)
  }

  /** The items of a sweep: the places of its joinable events. */
  function ItemsOf(events: seq<Event>): seq<int> {
    if events == [] then []
    else ItemsOf(events[..|events| - 1]) + if Joinable(events[|events| - 1]) then [|events| - 1] else []
  }

  /** They are exactly the joinable events, in order. */
  ghost predicate IsItemList(items: seq<int>, events: seq<Event>) {
    && Ascending(items)
    && (forall n :: 0 <= n < |items| ==> IsItem(items, events, n))
    && (forall i :: 0 <= i < |events| ==> IsListed(items, events, i))
  }

  ghost predicate Ascending(items: seq<int>) {
    forall m, n :: 0 <= m < n < |items| ==> items[m] < items[n]
  }

  predicate IsItem(items: seq<int>, events: seq<Event>, n: int)
    requires 0 <= n < |items|
  {
    0 <= items[n] < |events| && Joinable(events[items[n]])
  }

  predicate IsListed(items: seq<int>, events: seq<Event>, i: int)
    requires 0 <= i < |events|
  {
    Joinable(events[i]) ==> i in items
  }

  lemma {:induction false} ItemsAreListed(events: seq<Event>)
    ensures IsItemList(ItemsOf(events), events)
  {
    if events != [] {
      var init := events[..|events| - 1];
      ItemsAreListed(init);
      ItemStep(ItemsOf(init), init, events[|events| - 1]);
      assert events == init + [events[|events| - 1]];
    }
  }

  lemma ItemStep(items: seq<int>, events: seq<Event>, ev: Event)
    requires IsItemList(items, events)
    ensures IsItemList(items + if Joinable(ev) then [|events|] else [], events + [ev])
  {
    var items' := items + if Joinable(ev) then [|events|] else [];
    var events' := events + [ev];
    assert !Joinable(ev) ==> items' == items;
    forall n | 0 <= n < |items'|
      ensures IsItem(items', events', n)
    {
      if n < |items| {
        assert IsItem(items, events, n);
      }
    }
    forall i | 0 <= i < |events'|
      ensures IsListed(items', events', i)
    {
      if i < |events| {
        assert IsListed(items, events, i) && events'[i] == events[i];
      } else if Joinable(ev) {
        assert items'[|items|] == i;
      }
    }
    assert Ascending(items') by {
      forall m | 0 <= m < |items|
        ensures items[m] < |events|
      {
        assert IsItem(items, events, m);
      }
    }
  }

  /** The result of item n on its own. */
  function PerItem(n: nat, forge: Forge, size: nat): Option<Mr>
    requires size > 0
  {
    if BatchAnswered(forge, size, n) then forge.node(n) else None
  }

  ghost predicate IsPerItemJoin(results: map<int, Mr>, items: seq<int>, upTo: nat, forge: Forge, size: nat)
    requires upTo <= |items| && size > 0
  {
    && (forall x :: x in results ==> x in items[..upTo])
    && (forall n :: 0 <= n < upTo ==> HoldsResult(results, items, n, forge, size))
  }

  predicate HoldsResult(results: map<int, Mr>, items: seq<int>, n: nat, forge: Forge, size: nat)
    requires n < |items| && size > 0
  {
    match PerItem(n, forge, size)
    case Some(mr) => items[n] in results && results[items[n]] == mr
    case None => items[n] !in results
  }

  function ResultAt(results: map<int, Mr>, i: int): Option<Mr> {
    if i in results then Some(results[i]) else None
  }

  function ArchivedIDs(events: seq<Event>, results: map<int, Mr>): set<string> {
    set i | 0 <= i < |events| && Joinable(events[i]) && i in results && results[i].archived :: events[i].nativeID
  }

  function Enriched(ev: Event, r: Option<Mr>, cache: Cache, handle: string): Event {
    if !Joinable(ev) || (r.Some? && r.value.archived) then ev
    else
      var pl := EnrichedPayload(ev.body.facts, r, Lookup(cache, ev.nativeID), handle);
      ev.(body := Snapshot(pl), key := FactsKey(pl))
  }

  function Survivors(events: seq<Event>, n: nat, results: map<int, Mr>, cache: Cache, archived: set<string>, handle: string): seq<Event>
    requires n <= |events|
  {
    if n == 0 then []
    else
      Survivors(events, n - 1, results, cache, archived, handle)
      + if events[n - 1].nativeID in archived then [] else [Enriched(events[n - 1], ResultAt(results, n - 1), cache, handle)]
  }

  /** No node came back although no batch failed: the sweep passes through untouched. */
  predicate PassesThrough(results: map<int, Mr>, degraded: bool) {
    results == map[] && !degraded
  }

  function JoinOutput(events: seq<Event>, results: map<int, Mr>, degraded: bool, cache: Cache, handle: string,
                      verdicts: seq<Event>): seq<Event> {
    if PassesThrough(results, degraded) then events
    else Survivors(events, |events|, results, cache, ArchivedIDs(events, results), handle) + verdicts
  }

  // ---- the cache ----

  /** cacheOpenSnapshots: an open snapshot is stored; unlike GitHub's, a closed one evicts nothing. */
  function CacheAll(cache: Cache, events: seq<Event>): Cache {
    if events == [] then cache
    else
      var before, ev := CacheAll(cache, events[..|events| - 1]), events[|events| - 1];
      if ev.eventType == ItemObserved && ev.body.Snapshot? && ev.body.facts.state == Open then before[ev.nativeID := ev.body.facts]
      else before
  }

  /** The event makes a verdict step: joined, not archived, open. */
  predicate StepsVerdicts(ev: Event, r: Option<Mr>) {
    Joinable(ev) && r.Some? && !r.value.archived && ev.body.facts.state == Open
  }

  /** The verdict baselines after the steps of the first n events; `notes` answers the fetch of event i. */
  ghost function BaselinesAfter(baselines: map<string, Verdicts>, events: seq<Event>, n: nat, results: map<int, Mr>,
                                notes: int -> Option<seq<Note>>): map<string, Verdicts>
    requires n <= |events|
  {
    if n == 0 then baselines
    else
      var before := BaselinesAfter(baselines, events, n - 1, results, notes);
      var ev := events[n - 1];
      if !StepsVerdicts(ev, ResultAt(results, n - 1)) || ev.body.facts.draft then before
      else
        before[ev.nativeID := NextBaseline(BaselineIn(before, ev.nativeID), CurrentOf(VerdictsIn(results[n - 1])), notes(n - 1))]
  }

  function BaselineIn(baselines: map<string, Verdicts>, nid: string): Option<Verdicts> {
    if nid in baselines then Some(baselines[nid]) else None
  }

  /** The signals of one event's verdict step; none without a step. */
  ghost predicate IsStepEmission(signals: seq<Event>, ev: Event, r: Option<Mr>, baselines: map<string, Verdicts>,
                                 notes: Option<seq<Note>>)
  {
    if !StepsVerdicts(ev, r) || ev.body.facts.draft then signals == []
    else IsEmission(signals, ev.nativeID, BaselineIn(baselines, ev.nativeID), CurrentOf(VerdictsIn(r.value)), notes)
  }

  /** The signals of the verdict steps of the first n events, step after step. */
  ghost predicate AreEmissions(verdicts: seq<Event>, baselines: map<string, Verdicts>, events: seq<Event>, n: nat,
                               results: map<int, Mr>, notes: int -> Option<seq<Note>>)
    requires n <= |events|
  {
    exists parts: seq<seq<Event>> :: SplitBySteps(parts, verdicts, baselines, events, n, results, notes)
  }

  ghost predicate SplitBySteps(parts: seq<seq<Event>>, verdicts: seq<Event>, baselines: map<string, Verdicts>, events: seq<Event>,
                               n: nat, results: map<int, Mr>, notes: int -> Option<seq<Note>>)
    requires n <= |events|
  {
    && |parts| == n && Flat(parts) == verdicts
    && forall i :: 0 <= i < n ==> IsPartOf(parts[i], baselines, events, i, results, notes)
  }

  ghost predicate IsPartOf(part: seq<Event>, baselines: map<string, Verdicts>, events: seq<Event>, i: int,
                           results: map<int, Mr>, notes: int -> Option<seq<Note>>)
    requires 0 <= i < |events|
  {
    IsStepEmission(part, events[i], ResultAt(results, i), BaselinesAfter(baselines, events, i, results, notes), notes(i))
  }

  /** The verdict signals of a join, and the baselines it leaves; one that passes through does nothing. */
  ghost predicate AreVerdicts(verdicts: seq<Event>, baselines: map<string, Verdicts>, events: seq<Event>,
                              results: map<int, Mr>, degraded: bool, notes: int -> Option<seq<Note>>)
  {
    if PassesThrough(results, degraded) then verdicts == []
    else AreEmissions(verdicts, baselines, events, |events|, results, notes)
  }

  ghost function NextBaselines(baselines: map<string, Verdicts>, events: seq<Event>, results: map<int, Mr>, degraded: bool,
                               notes: int -> Option<seq<Note>>): map<string, Verdicts>
  {
    if PassesThrough(results, degraded) then baselines
    else BaselinesAfter(baselines, events, |events|, results, notes)
  }

  /** The verdict set of a node. */
  ghost function CurrentOf(node: VerdictNode): Verdicts {
    map a | a in (set x | x in node.approvedBy) + (set r | r in node.reviewers && r.requestedChanges :: r.username)
      :: if ReviewerNode(a, true) in node.reviewers then ChangesRequested else Approved
  }

  lemma CurrentIsSet(current: Verdicts, node: VerdictNode)
    requires IsCurrentSet(current, node)
    ensures current == CurrentOf(node)
  {
    forall a
      ensures a in current <==> a in CurrentOf(node)
    {
      assert (exists r :: r in node.reviewers && r.requestedChanges && r.username == a) <==> ReviewerNode(a, true) in node.reviewers;
    }
  }
}
