/** When a degraded GitLab poll repeats the last joined one, and what it adds when it does not. */
module GitLabDegraded {
  import opened Model
  import opened GitLab

  // ---- the parts of a payload ----

  /** What the join may write, apart from the gate. */
  datatype ReviewFacts = ReviewFacts(decision: Verdict, mine: Verdict, approvals: int, needsApproval: bool,
                                     needsRebase: bool, failingChecks: bool, checksRunning: bool)

  /** The gate, and the markers that are read from the same status. */
  datatype GateFacts = GateFacts(gate: Gate, detail: MergeDetail, conflict: bool, policyDenied: bool, unresolved: bool)

  function ReviewPart(pl: Payload): ReviewFacts {
    ReviewFacts(pl.reviewDecision, pl.myReviewState, pl.approvalsCount, pl.needsApproval, pl.needsRebase, pl.failingChecks,
                pl.checksRunning)
  }

  function GatePart(pl: Payload): GateFacts {
    GateFacts(pl.gate, pl.gateDetail, pl.mergeConflict, pl.policyDenied, pl.unresolvedDiscussions)
  }

  /** The fields that the join and the carrying forward leave to REST. */
  predicate SameRest(a: Payload, b: Payload) {
    && a.title == b.title && a.url == b.url && a.repo == b.repo && a.state == b.state && a.draft == b.draft
    && a.author == b.author && a.myRoles == b.myRoles && a.autoMergeArmed == b.autoMergeArmed
    && a.providerUpdatedAt == b.providerUpdatedAt && a.ticketKeys == b.ticketKeys && a.labels == b.labels
    && a.sourceBranch == b.sourceBranch && a.targetBranch == b.targetBranch
  }

  lemma PartsDecide(a: Payload, b: Payload)
    ensures a == b <==> SameRest(a, b) && ReviewPart(a) == ReviewPart(b) && GatePart(a) == GatePart(b)
  {
  }

  function WithGate(pl: Payload, g: GateFacts): Payload {
    pl.(gate := g.gate, gateDetail := g.detail, mergeConflict := g.conflict, policyDenied := g.policyDenied,
        unresolvedDiscussions := g.unresolved)
  }

  function WithReview(pl: Payload, rv: ReviewFacts): Payload {
    pl.(reviewDecision := rv.decision, myReviewState := rv.mine, approvalsCount := rv.approvals,
        needsApproval := rv.needsApproval, needsRebase := rv.needsRebase, failingChecks := rv.failingChecks,
        checksRunning := rv.checksRunning)
  }

  // ---- what the join does to each part ----

  /** The join's own verdict on conflicts: a rebase that is due outranks it. */
  predicate JoinConflict(mr: Mr) {
    mr.dms == Conflict && !mr.shouldRebase
  }

  function Decision(mr: Mr): Verdict {
    if AnyRequestedChanges(mr.reviewers) then ChangesRequested else NoVerdict
  }

  function AppliedReview(rv: ReviewFacts, draft: bool, mr: Mr, handle: string): ReviewFacts {
    if draft then rv.(decision := Decision(mr))
    else ReviewFacts(Decision(mr), if handle in mr.approvedBy then Approved else MyReview(mr.reviewers, handle), mr.approvedCount,
                     !mr.approved, mr.shouldRebase, mr.pipeline == RedPipeline, mr.pipeline == RunningPipeline)
  }

  function CarriedReview(rv: ReviewFacts, draft: bool, snap: ReviewFacts): ReviewFacts {
    if draft then rv.(decision := snap.decision)
    else ReviewFacts(snap.decision, snap.mine, snap.approvals, rv.needsApproval || snap.needsApproval,
                     rv.needsRebase || snap.needsRebase, rv.failingChecks || snap.failingChecks,
                     rv.checksRunning || snap.checksRunning)
  }

  function FilledGateFacts(g: GateFacts, mr: Mr): GateFacts {
    if g.gate != Unknown || MergeGate(mr.dms) == Unknown then g.(conflict := JoinConflict(mr))
    else GateFacts(MergeGate(mr.dms), mr.dms, JoinConflict(mr), IsPolicyDenied(mr.dms), mr.dms == DiscussionsNotResolved)
  }

  function CarriedGateFacts(g: GateFacts, live: bool, snap: GateFacts): GateFacts {
    if g.gate == Unknown && live && Known(snap.gate) then snap else g
  }

  predicate Live(pl: Payload) {
    !pl.draft && pl.state == Open
  }

  lemma ApplyParts(pl: Payload, mr: Mr, handle: string)
    ensures ApplyGraphQL(pl, mr, handle) ==
            WithGate(WithReview(pl, AppliedReview(ReviewPart(pl), pl.draft, mr, handle)), GatePart(pl).(conflict := JoinConflict(mr)))
  {
  }

  lemma FillParts(pl: Payload, mr: Mr)
    requires pl.mergeConflict == JoinConflict(mr)
    ensures GateFromJoin(pl, mr.dms) == WithGate(pl, FilledGateFacts(GatePart(pl), mr))
  {
    if pl.gate != Unknown || MergeGate(mr.dms) == Unknown {
      assert FilledGateFacts(GatePart(pl), mr) == GatePart(pl);
    } else {
      assert FilledGateFacts(GatePart(pl), mr) ==
             GateFacts(MergeGate(mr.dms), mr.dms, pl.mergeConflict, IsPolicyDenied(mr.dms), mr.dms == DiscussionsNotResolved);
    }
  }

  lemma EnrichmentParts(pl: Payload, snap: Payload)
    ensures CarryForwardEnrichment(pl, snap) == WithReview(pl, CarriedReview(ReviewPart(pl), pl.draft, ReviewPart(snap)))
  {
  }

  lemma OwnGate(pl: Payload)
    ensures WithGate(pl, GatePart(pl)) == pl
  {
  }

  lemma CarryGateParts(pl: Payload, snap: Payload)
    ensures CarryForwardGate(pl, snap) == WithGate(pl, CarriedGateFacts(GatePart(pl), Live(pl), GatePart(snap)))
  {
    if pl.gate == Unknown && Live(pl) && Known(snap.gate) {
      TakenGate(pl, snap);
    } else {
      OwnGate(pl);
    }
  }

  lemma TakenGate(pl: Payload, snap: Payload)
    requires pl.gate == Unknown && Live(pl) && Known(snap.gate)
    ensures CarryForwardGate(pl, snap) == WithGate(pl, GatePart(snap))
  {
  }

  /** The gate that the join and the cache make of a read's. */
  function JoinedGateFacts(pl: Payload, mr: Mr, previous: Option<Payload>): GateFacts {
    var filled := FilledGateFacts(GatePart(pl), mr);
    if previous.Some? then CarriedGateFacts(filled, Live(pl), GatePart(previous.value)) else filled
  }

  lemma FilledParts(pl: Payload, mr: Mr, handle: string)
    ensures var f := GateFromJoin(ApplyGraphQL(pl, mr, handle), mr.dms);
            && SameRest(f, pl) && ReviewPart(f) == AppliedReview(ReviewPart(pl), pl.draft, mr, handle)
            && GatePart(f) == FilledGateFacts(GatePart(pl), mr)
  {
    var applied := ApplyGraphQL(pl, mr, handle);
    ApplyParts(pl, mr, handle);
    assert applied.mergeConflict == GatePart(applied).conflict;
    FillParts(applied, mr);
  }

  /** The joined payload, part by part. */
  lemma JoinedParts(pl: Payload, mr: Mr, previous: Option<Payload>, handle: string)
    ensures var joined := EnrichedPayload(pl, Some(mr), previous, handle);
            && SameRest(joined, pl) && ReviewPart(joined) == AppliedReview(ReviewPart(pl), pl.draft, mr, handle)
            && GatePart(joined) == JoinedGateFacts(pl, mr, previous)
  {
    var filled := GateFromJoin(ApplyGraphQL(pl, mr, handle), mr.dms);
    FilledParts(pl, mr, handle);
    if previous.Some? {
      CarryGateParts(filled, previous.value);
      assert EnrichedPayload(pl, Some(mr), previous, handle) == CarryForwardGate(filled, previous.value);
    } else {
      assert EnrichedPayload(pl, Some(mr), previous, handle) == filled;
    }
  }

  /** The payload of a join without result, part by part. */
  lemma DegradedParts(pl: Payload, snap: Payload, handle: string)
    ensures var d := EnrichedPayload(pl, None, Some(snap), handle);
            && SameRest(d, pl) && ReviewPart(d) == CarriedReview(ReviewPart(pl), pl.draft, ReviewPart(snap))
            && GatePart(d) == CarriedGateFacts(GatePart(pl), Live(pl), GatePart(snap))
  {
    var carried := CarryForwardEnrichment(pl, snap);
    EnrichmentParts(pl, snap);
    CarryGateParts(carried, snap);
    assert EnrichedPayload(pl, None, Some(snap), handle) == CarryForwardGate(carried, snap);
  }

  // ---- the degraded fixed point ----

  /** The joined payload takes its gate from the join or the cache, REST having none. */
  predicate GateFilled(pl: Payload, mr: Mr, previous: Option<Payload>) {
    pl.gate == Unknown && (MergeGate(mr.dms) != Unknown || (previous.Some? && Known(previous.value.gate)))
  }

  /** REST raises no marker that the join takes down. */
  predicate RaisesNothing(pl: Payload, mr: Mr) {
    && (pl.needsApproval ==> !mr.approved)
    && (pl.needsRebase ==> mr.shouldRebase)
    && (pl.failingChecks ==> mr.pipeline == RedPipeline)
    && (pl.checksRunning ==> mr.pipeline == RunningPipeline)
  }

  predicate GateRebuildable(pl: Payload, mr: Mr, previous: Option<Payload>) {
    if pl.draft then pl.mergeConflict == JoinConflict(mr) && !(pl.gate == Unknown && MergeGate(mr.dms) != Unknown)
    else GateFilled(pl, mr, previous) || pl.mergeConflict == JoinConflict(mr)
  }

  /** When rebuilding the last joined payload from the cache succeeds. */
  predicate Rebuildable(pl: Payload, mr: Mr, previous: Option<Payload>) {
    (pl.draft || RaisesNothing(pl, mr)) && GateRebuildable(pl, mr, previous)
  }

  lemma ReviewRepeats(pl: Payload, mr: Mr, handle: string)
    ensures var joined := AppliedReview(ReviewPart(pl), pl.draft, mr, handle);
            CarriedReview(ReviewPart(pl), pl.draft, joined) == joined <==> pl.draft || RaisesNothing(pl, mr)
  {
  }

  lemma GateRepeats(pl: Payload, mr: Mr, previous: Option<Payload>)
    requires pl.state == Open
    ensures var joined := JoinedGateFacts(pl, mr, previous);
            CarriedGateFacts(GatePart(pl), Live(pl), joined) == joined <==> GateRebuildable(pl, mr, previous)
  {
  }

  /**
   The degraded fixed point. For an open merge request with unchanged REST facts, a join
   without result rebuilds from the cache exactly the payload of the last successful join if
   and only if REST raises no marker that the join takes down, and either the gate was filled
   in or REST agrees with the join about conflicts; on a draft the gate must not have been
   filled. Because flags are carried by OR, a marker that only REST raises comes back.
   */
  lemma DegradedFixedPoint(pl: Payload, mr: Mr, previous: Option<Payload>, handle: string)
    requires pl.state == Open
    ensures var joined := EnrichedPayload(pl, Some(mr), previous, handle);
            EnrichedPayload(pl, None, Some(joined), handle) == joined <==> Rebuildable(pl, mr, previous)
  {
    var joined := EnrichedPayload(pl, Some(mr), previous, handle);
    JoinedParts(pl, mr, previous, handle);
    DegradedParts(pl, joined, handle);
    ReviewRepeats(pl, mr, handle);
    GateRepeats(pl, mr, previous);
    PartsDecide(EnrichedPayload(pl, None, Some(joined), handle), joined);
  }

  /** The gate fields of a list row, all read from its merge status, and the fields that only the join knows. */
  predicate IsListRow(pl: Payload) {
    var dms := pl.gateDetail;
    && pl.gate == MergeGate(dms) && pl.mergeConflict == (dms == Conflict) && pl.policyDenied == IsPolicyDenied(dms)
    && pl.needsApproval == (dms == NotApproved) && pl.needsRebase == (dms == NeedRebase)
    && pl.failingChecks == (dms == CIMustPass) && !pl.checksRunning
    && (pl.unresolvedDiscussions ==> pl.gate == Blocked)
    && pl.approvalsCount == -1 && pl.reviewDecision == NoVerdict && pl.myReviewState == NoVerdict
  }

  function LaggingRow(): Payload {
    Payload([], [], [], Open, false, [], [], NoVerdict, NoVerdict, Blocked, NotApproved,
            false, false, false, true, false, false, false, false, -1, None, [], [], [], [])
  }

  function ApprovedMr(): Mr {
    Mr(false, true, false, Mergeable, NoPipeline, 1, [], [])
  }

  /**
   It can fail. A list row whose status still says that approval is missing, joined with a node
   that has it: the join takes the marker down, and the next poll, degraded, raises it again
   although nothing changed at the forge.
   */
  lemma MarkerComesBack(handle: string)
    ensures var joined := EnrichedPayload(LaggingRow(), Some(ApprovedMr()), None, handle);
            var degraded := EnrichedPayload(LaggingRow(), None, Some(joined), handle);
            && IsListRow(LaggingRow()) && LaggingRow().state == Open && !LaggingRow().draft
            && !joined.needsApproval && degraded.needsApproval
  {
    var row, mr := LaggingRow(), ApprovedMr();
    var joined := EnrichedPayload(row, Some(mr), None, handle);
    JoinedParts(row, mr, None, handle);
    assert joined.needsApproval == ReviewPart(joined).needsApproval;
    DegradedParts(row, joined, handle);
    assert EnrichedPayload(row, None, Some(joined), handle).needsApproval
        == ReviewPart(EnrichedPayload(row, None, Some(joined), handle)).needsApproval;
  }

  // ---- markers ----

  /** Consecutive reads of one merge request, no draft, whose joins all came without result. */
  ghost predicate IsDegradedChain(snaps: seq<Payload>, rest: seq<Payload>, handle: string) {
    && |snaps| == |rest| + 1
    && forall i :: 0 <= i < |rest| ==> DegradesAt(snaps, rest, handle, i)
  }

  ghost predicate DegradesAt(snaps: seq<Payload>, rest: seq<Payload>, handle: string, i: int)
    requires 0 <= i < |rest| && |snaps| == |rest| + 1
  {
    !rest[i].draft && snaps[i + 1] == EnrichedPayload(rest[i], None, Some(snaps[i]), handle)
  }

  datatype Marker = NeedsApproval | NeedsRebase | FailingChecks | ChecksRunning

  predicate Raises(pl: Payload, m: Marker) {
    match m
    case NeedsApproval => pl.needsApproval
    case NeedsRebase => pl.needsRebase
    case FailingChecks => pl.failingChecks
    case ChecksRunning => pl.checksRunning
  }

  lemma DegradedMarker(pl: Payload, snap: Payload, handle: string, m: Marker)
    requires !pl.draft
    ensures Raises(EnrichedPayload(pl, None, Some(snap), handle), m) <==> Raises(pl, m) || Raises(snap, m)
  {
    var d := EnrichedPayload(pl, None, Some(snap), handle);
    DegradedParts(pl, snap, handle);
    assert ReviewPart(d) == ReviewFacts(d.reviewDecision, d.myReviewState, d.approvalsCount, d.needsApproval, d.needsRebase,
                                        d.failingChecks, d.checksRunning);
  }

  /**
   A known-bad marker is never cleared while the join fails, and none is invented: after any
   number of degraded polls it is up if and only if it was up before them or some read raised it.
   */
  lemma {:induction false} MarkersNeverCleared(snaps: seq<Payload>, rest: seq<Payload>, handle: string, n: nat, m: Marker)
    requires IsDegradedChain(snaps, rest, handle) && n <= |rest|
    ensures Raises(snaps[n], m) <==> Raises(snaps[0], m) || exists i :: 0 <= i < n && Raises(rest[i], m)
  {
    if n > 0 {
      MarkersNeverCleared(snaps, rest, handle, n - 1, m);
      assert DegradesAt(snaps, rest, handle, n - 1);
      DegradedMarker(rest[n - 1], snaps[n - 1], handle, m);
    }
  }

  lemma ConflictFromCache(pl: Payload, mr: Mr, previous: Option<Payload>)
    requires Live(pl) && mr.shouldRebase
    ensures JoinedGateFacts(pl, mr, previous).conflict <==>
            && pl.gate == Unknown && MergeGate(mr.dms) == Unknown
            && previous.Some? && Known(previous.value.gate) && previous.value.mergeConflict
  {
  }

  /**
   When a joined merge request is marked both in conflict and due for a rebase: exactly when a
   rebase is due, neither REST nor the join has a gate, and the cached one brings the conflict.
   */
  lemma ConflictAndRebase(pl: Payload, mr: Mr, previous: Option<Payload>, handle: string)
    requires pl.state == Open && !pl.draft
    ensures var joined := EnrichedPayload(pl, Some(mr), previous, handle);
            joined.mergeConflict && joined.needsRebase <==>
            && mr.shouldRebase && pl.gate == Unknown && MergeGate(mr.dms) == Unknown
            && previous.Some? && Known(previous.value.gate) && previous.value.mergeConflict
  {
    var joined := EnrichedPayload(pl, Some(mr), previous, handle);
    JoinedParts(pl, mr, previous, handle);
    if mr.shouldRebase {
      ConflictFromCache(pl, mr, previous);
    }
    assert joined.mergeConflict == GatePart(joined).conflict && joined.needsRebase == ReviewPart(joined).needsRebase;
  }
}
