/** What a pull request shows once the join has read it: from GitHub's answer to the cached facts and the chips. */
module GitHubEffects {
  import opened Model
  import opened States
  import opened FoldView
  import opened GitHub
  import opened GitHubRuns
  import opened GitHubProvider
  import opened GitHubSafety
  import opened GitHubDegraded
  import opened NativeIDs
  import opened StateLaws

  // ---- the reviews of an answer ----

  /** The places of the approving reviews. */
  function Approving(reviews: seq<Review>): set<int> {
    set i | 0 <= i < |reviews| && reviews[i].state == ReviewApproved
  }

  lemma {:induction false} ApprovalsAreCounted(reviews: seq<Review>)
    ensures Approvals(reviews) == |Approving(reviews)|
  {
    if reviews != [] {
      var n := |reviews| - 1;
      ApprovalsAreCounted(reviews[..n]);
      assert Approving(reviews) == Approving(reviews[..n]) + if reviews[n].state == ReviewApproved then {n} else {};
    }
  }

  /** Review i is the last one that I wrote. */
  predicate IsMyLast(reviews: seq<Review>, handle: string, i: int) {
    0 <= i < |reviews| && reviews[i].login == handle && forall j :: i < j < |reviews| ==> reviews[j].login != handle
  }

  /** My review state is what my last review says, whatever I or others wrote before. */
  lemma {:induction false} MyLastReviewCounts(reviews: seq<Review>, handle: string, i: int)
    requires IsMyLast(reviews, handle, i)
    ensures reviews[i].state == ReviewApproved ==> Mine(reviews, handle) == Approved
    ensures reviews[i].state == ReviewChangesRequested ==> Mine(reviews, handle) == ChangesRequested
    ensures reviews[i].state == ReviewCommented ==> Mine(reviews, handle) == Reviewed
    ensures reviews[i].state == ReviewOther ==> Mine(reviews, handle) == NoVerdict
  {
    if i < |reviews| - 1 {
      MyLastReviewCounts(reviews[..|reviews| - 1], handle, i);
    }
  }

  lemma {:induction false} NoReviewOfMine(reviews: seq<Review>, handle: string)
    requires forall j :: 0 <= j < |reviews| ==> reviews[j].login != handle
    ensures Mine(reviews, handle) == NoVerdict
  {
    if reviews != [] {
      NoReviewOfMine(reviews[..|reviews| - 1], handle);
    }
  }

  /** The review is a verdict with a time that parses. */
  predicate Reports(r: Review) {
    (r.state == ReviewApproved || r.state == ReviewChangesRequested) && r.submittedAt != "" && r.at.Some?
  }

  /** The signal of a verdict: its kind, its reviewer and the time of the review. */
  predicate IsVerdictOf(e: Event, nid: string, r: Review) {
    && e.objectType == MERGE_REQUEST && e.nativeID == nid && e.actor == r.login && e.occurredAt == r.at && e.body == Opaque
    && e.eventType == Signal(if r.state == ReviewApproved then ApprovedSignal else ChangesRequestedSignal)
    && e.key.TextKey?
  }

  /** A draft reports no verdict; on any other PR each dated verdict has its signal. */
  lemma {:induction false} VerdictIsReported(it: PrItem, reviews: seq<Review>, i: nat)
    requires i < |reviews| && Reports(reviews[i]) && !it.draft
    ensures exists e :: e in VerdictsOf(it, reviews) && IsVerdictOf(e, it.nativeID, reviews[i])
  {
    var n := |reviews| - 1;
    if i < n {
      VerdictIsReported(it, reviews[..n], i);
      var e :| e in VerdictsOf(it, reviews[..n]) && IsVerdictOf(e, it.nativeID, reviews[i]);
      assert e in VerdictsOf(it, reviews);
    } else {
      LastVerdict(it, reviews[n]);
      assert VerdictOf(it, reviews[n])[0] in VerdictsOf(it, reviews);
    }
  }

  /** And every signal reports a dated verdict of a PR that is no draft. */
  lemma {:induction false} ReportIsVerdict(it: PrItem, reviews: seq<Review>, e: Event) returns (i: nat)
    requires e in VerdictsOf(it, reviews)
    ensures !it.draft && i < |reviews| && Reports(reviews[i]) && IsVerdictOf(e, it.nativeID, reviews[i])
  {
    var n := |reviews| - 1;
    if e in VerdictsOf(it, reviews[..n]) {
      i := ReportIsVerdict(it, reviews[..n], e);
    } else {
      LastVerdict(it, reviews[n]);
      i := n;
    }
  }

  lemma LastVerdict(it: PrItem, r: Review)
    ensures if it.draft || !Reports(r) then VerdictOf(it, r) == []
            else |VerdictOf(it, r)| == 1 && IsVerdictOf(VerdictOf(it, r)[0], it.nativeID, r)
  {
  }

  /** Two verdicts of one reviewer have different keys unless they agree in kind and time, so neither hides the other. */
  lemma VerdictKeysDiffer(it: PrItem, r: Review, s: Review)
    requires !it.draft && Reports(r) && Reports(s) && r.login == s.login
    requires r.state != s.state || r.submittedAt != s.submittedAt
    ensures |VerdictOf(it, r)| == |VerdictOf(it, s)| == 1 && VerdictOf(it, r)[0].key != VerdictOf(it, s)[0].key
  {
    if r.state == s.state {
      var prefix := if r.state == ReviewApproved then "signal.approved:review:" else "signal.changes_requested:review:";
      var before := prefix + r.login + ":";
      assert VerdictOf(it, r)[0].key == TextKey(before + r.submittedAt) && VerdictOf(it, s)[0].key == TextKey(before + s.submittedAt);
      assert (before + r.submittedAt)[|before|..] == r.submittedAt && (before + s.submittedAt)[|before|..] == s.submittedAt;
    } else {
      KindsDiffer(r.login, r.submittedAt, s.submittedAt);
    }
  }

  lemma KindsDiffer(login: string, a: string, b: string)
    ensures "signal.approved:review:" + login + ":" + a != "signal.changes_requested:review:" + login + ":" + b
    ensures "signal.approved:review:" + login + ":" + b != "signal.changes_requested:review:" + login + ":" + a
  {
    assert forall x, y :: ("signal.approved:review:" + login + ":" + x)[7] != ("signal.changes_requested:review:" + login + ":" + y)[7];
  }

  // ---- one payload ----

  /** What a search row says of an open PR that is ready for review. */
  predicate IsSearchRow(f: RestFacts) {
    f.state == Open && !f.draft && f.mergeableState == None
  }

  /** The gate of a merge state that GitHub's answers name. */
  ghost predicate GateNamed(pl: Payload, state: MergeDetail) {
    && (state in {Clean, HasHooks, Unstable} ==> pl.gate == Ready)
    && (state in {BlockedDetail, Dirty, Behind} ==> pl.gate == Blocked)
    && pl.gateDetail == state
    && (pl.failingChecks <==> state == Unstable)
    && (pl.mergeConflict <==> state == Dirty)
    && (pl.needsRebase <==> state == Behind)
  }

  /** The merge states from which GitHub's gate can be told. */
  predicate IsNamed(state: MergeDetail) {
    state in {Clean, HasHooks, Unstable, BlockedDetail, Dirty, Behind}
  }

  lemma FilledGate(f: RestFacts, state: MergeDetail, snap: Option<Payload>)
    requires IsSearchRow(f)
    ensures IsNamed(state) ==> GateNamed(GateFromJoin(RestPayload(f), state, snap), state)
    ensures !IsNamed(state) ==>
              GateFromJoin(RestPayload(f), state, snap) == if snap.Some? then CarryForwardGate(RestPayload(f), snap.value) else RestPayload(f)
  {
    var pl := RestPayload(f);
    if IsNamed(state) {
      assert Filled(pl, state) == ApplyMergeState(pl, state);
    } else {
      assert Filled(pl, state) == pl;
    }
  }

  /** The join of a search row: the gate and its markers as the answer's merge state names them. */
  lemma JoinNamesGate(f: RestFacts, r: Result, snap: Option<Payload>)
    requires r.Enrichment? && IsSearchRow(f) && IsNamed(r.mergeState)
    ensures GateNamed(JoinPayload(RestPayload(f), r, snap), r.mergeState)
  {
    FilledGate(f, r.mergeState, snap);
    JoinKeeps(RestPayload(f), r, snap);
  }

  /**
   A merge state that names no gate leaves a search row without gate, detail and markers, unless
   the cache knows the PR as ready or blocked, and then the gate, its detail and its markers are
   the cached ones.
   */
  lemma JoinLeavesGateUnknown(f: RestFacts, r: Result, snap: Option<Payload>)
    requires r.Enrichment? && IsSearchRow(f) && !IsNamed(r.mergeState)
    requires snap.Some? ==> snap.value.gate in {Ready, Blocked, Unknown}
    ensures var pl := JoinPayload(RestPayload(f), r, snap);
            if snap.Some? && snap.value.gate != Unknown then SameGate(pl, snap.value)
            else pl.gate == Unknown && pl.gateDetail == OtherDetail("") && !pl.failingChecks && !pl.mergeConflict && !pl.needsRebase
  {
    FilledGate(f, r.mergeState, snap);
    JoinKeeps(RestPayload(f), r, snap);
    if snap.Some? {
      CarryGateCases(RestPayload(f), snap.value);
    }
  }

  /** The answer's fields that the join stores as they are, or by name. */
  ghost predicate AnswerStored(pl: Payload, f: RestFacts, r: Result)
    requires r.Enrichment?
  {
    && pl.state == f.state && pl.draft == f.draft && pl.myRoles == f.roles && pl.providerUpdatedAt == f.updatedAt
    && pl.author == f.author && pl.ticketKeys == f.ticketKeys
    && pl.approvalsCount == r.approvalsCount
    && pl.autoMergeArmed == r.autoMergeArmed
    && pl.myReviewState == r.myReviewState
    && pl.sourceBranch == r.sourceBranch && pl.targetBranch == r.targetBranch
    && (r.decision == DecisionApproved ==> pl.reviewDecision == Approved)
    && (r.decision == DecisionChangesRequested ==> pl.reviewDecision == ChangesRequested)
    && (r.decision == DecisionReviewRequired ==> pl.reviewDecision == ReviewRequired)
    && (r.decision == DecisionOther ==> pl.reviewDecision == NoVerdict)
    && (pl.needsApproval <==> r.decision == DecisionReviewRequired && pl.gate == Blocked)
  }

  lemma RestKeeps(f: RestFacts)
    requires IsSearchRow(f)
    ensures var pl := RestPayload(f);
            && pl.state == f.state && pl.draft == f.draft && pl.myRoles == f.roles && pl.providerUpdatedAt == f.updatedAt
            && pl.author == f.author && pl.ticketKeys == f.ticketKeys
            && pl.gate == Unknown && pl.approvalsCount == -1 && !pl.checksRunning
  {
  }

  lemma JoinStoresAnswer(f: RestFacts, r: Result, snap: Option<Payload>)
    requires r.Enrichment? && IsSearchRow(f)
    ensures AnswerStored(JoinPayload(RestPayload(f), r, snap), f, r)
    ensures !JoinPayload(RestPayload(f), r, snap).checksRunning
  {
    RestKeeps(f);
    JoinFields(RestPayload(f), r, snap);
    GateFields(RestPayload(f), r.mergeState, snap);
  }

  // ---- a whole poll ----

  /**
   The poll reads one open PR, ready for review, from a search row, under an id that GitHub
   gives; and wherever it stands among the join's items, its batch of thirty answers with this
   pull request.
   */
  ghost predicate ReadsPull(p: Poll, i: int, f: RestFacts, forge: Forge, pr: Pull, owner: string, name: string, number: string) {
    && OnlyAt(p.rest, i) && IsSearchRow(f) && IsNumber(number)
    && p.rest[i].nativeID == PullID(owner, name, number) && p.rest[i].body == Snapshot(RestPayload(f))
    && forall n :: 0 <= n < |ItemsOf(p.rest)| && ItemsOf(p.rest)[n].evIdx == i ==>
                     forge.batch(n / 30 * 30) == Answered && forge.node(n) == PullNode(pr)
  }

  lemma AnswerIsJoined(p: Poll, i: int, f: RestFacts, forge: Forge, handle: string, pr: Pull, owner: string, name: string, number: string)
    requires IsJoinedPoll(p, forge, handle) && ReadsPull(p, i, f, forge, pr, owner, name, number)
    ensures Joinable(p.rest[i])
    ensures ResultAt(p.results, i) == ResultFor(PrItem(i, PullID(owner, name, number), false), PullNode(pr), handle)
  {
    var items := ItemsOf(p.rest);
    PullIDsParse(owner, name, number);
    RestKeeps(f);
    ItemsAreListed(p.rest);
    assert IsListed(items, p.rest, i);
    var n :| 0 <= n < |items| && items[n].evIdx == i;
    assert IsItem(items, p.rest, n);
    assert HoldsResult(p.results, items, n, forge, BATCH_SIZE, handle);
  }

  predicate IsShot(e: Event, nid: string, pl: Payload) {
    e.eventType == ItemObserved && e.nativeID == nid && e.body == Snapshot(pl) && e.key == FactsKey(pl)
  }

  /** What the poll emits and caches of the PR: the answer under the row, one snapshot of it. */
  ghost predicate Achieves(cache: Cache, p: Poll, nid: string, f: RestFacts, r: Result, pl: Payload)
    requires r.Enrichment?
  {
    && (exists e :: e in PollOutput(cache, p) && IsShot(e, nid, pl))
    && (forall e :: e in PollOutput(cache, p) && e.eventType == ItemObserved && e.nativeID == nid ==> IsShot(e, nid, pl))
    && nid in NextCache(cache, p) && NextCache(cache, p)[nid] == pl
    && AnswerStored(pl, f, r)
    && (IsNamed(r.mergeState) ==> GateNamed(pl, r.mergeState))
  }

  /**
   What the join is for. Whatever else a poll holds and whatever else fails in it, a PR whose
   batch answers is emitted and cached with the answer's review decision, approvals, my review,
   auto-merge and branches, and with the gate that its merge state names.
   */
  lemma JoinAchieves(cache: Cache, p: Poll, i: int, f: RestFacts, forge: Forge, handle: string, pr: Pull,
                     owner: string, name: string, number: string) returns (pl: Payload)
    requires IsJoinedPoll(p, forge, handle) && ReadsPull(p, i, f, forge, pr, owner, name, number)
    ensures var r := ResultFor(PrItem(i, PullID(owner, name, number), false), PullNode(pr), handle).value;
            Achieves(cache, p, PullID(owner, name, number), f, r, pl)
    ensures IsNamed(pr.mergeState) ==> GateNamed(pl, pr.mergeState)
    ensures pl.approvalsCount == |Approving(pr.reviews)| && pl.autoMergeArmed == pr.autoMerge && !pl.checksRunning
  {
    var nid := PullID(owner, name, number);
    var r := ResultFor(PrItem(i, nid, false), PullNode(pr), handle).value;
    AnswerIsJoined(p, i, f, forge, handle, pr, owner, name, number);
    JoinedVerdicts(p, forge, handle);
    RestKeeps(f);
    JoinedEvent(p.rest[i], Some(r), cache);
    OneSnapshot(cache, p, i);
    EntryAfter(cache, p, i);
    pl := JoinPayload(RestPayload(f), r, Lookup(cache, nid));
    JoinStoresAnswer(f, r, Lookup(cache, nid));
    ApprovalsAreCounted(pr.reviews);
    if IsNamed(pr.mergeState) {
      JoinNamesGate(f, r, Lookup(cache, nid));
    }
  }

  // ---- and the chips ----

  /**
   What my own PR shows after such a poll: ready on a clean merge state, blocked on a dirty
   one, and likewise for the other merge states; changes_requested exactly when the reviewers
   asked for changes, and the auto-merge chip exactly when it is armed.
   */
  lemma OwnPullShows(cache: Cache, p: Poll, i: int, f: RestFacts, forge: Forge, handle: string, pr: Pull,
                     owner: string, name: string, number: string, hasMention: bool)
    requires IsJoinedPoll(p, forge, handle) && ReadsPull(p, i, f, forge, pr, owner, name, number)
    requires Author in f.roles && Reviewer !in f.roles && IsNamed(pr.mergeState)
    ensures var nid := PullID(owner, name, number);
            && nid in NextCache(cache, p)
            && var states := StatesOf(NextCache(cache, p)[nid], hasMention);
               && (ReadyToMergeState in states <==> pr.mergeState in {Clean, HasHooks, Unstable})
               && (BlockedState in states <==> pr.mergeState in {BlockedDetail, Dirty, Behind})
               && CheckingState !in states
               && (ChangesRequestedState in states <==> pr.decision == DecisionChangesRequested)
               && (AutoMergeArmedState in states <==> pr.autoMerge)
  {
    var pl := JoinAchieves(cache, p, i, f, forge, handle, pr, owner, name, number);
    OwnChips(pl, hasMention);
  }

  /**
   What a PR that I review shows after such a poll: that my review is owed, or once my last
   review is a submitted one that it is done, which mutes the row.
   */
  lemma ReviewedPullShows(cache: Cache, p: Poll, i: int, f: RestFacts, forge: Forge, handle: string, pr: Pull,
                          owner: string, name: string, number: string, hasMention: bool, mine: int)
    requires IsJoinedPoll(p, forge, handle) && ReadsPull(p, i, f, forge, pr, owner, name, number)
    requires Reviewer in f.roles && Author !in f.roles && SoleApprover !in f.roles && IsMyLast(pr.reviews, handle, mine)
    ensures var nid := PullID(owner, name, number);
            && nid in NextCache(cache, p)
            && var states := StatesOf(NextCache(cache, p)[nid], hasMention);
               && (ReviewSubmittedState in states <==> pr.reviews[mine].state != ReviewOther)
               && (ReviewRequestedState in states <==> pr.reviews[mine].state == ReviewOther)
               && (ChangesRequestedState in states <==> pr.reviews[mine].state == ReviewChangesRequested)
               && (IsMuted(NextCache(cache, p)[nid]) <==> pr.reviews[mine].state != ReviewOther)
  {
    var pl := JoinAchieves(cache, p, i, f, forge, handle, pr, owner, name, number);
    MyLastReviewCounts(pr.reviews, handle, mine);
    ReviewerChips(pl, hasMention);
  }

  /** And a PR that I have not reviewed shows that I owe one. */
  lemma UnreviewedPullShows(cache: Cache, p: Poll, i: int, f: RestFacts, forge: Forge, handle: string, pr: Pull,
                            owner: string, name: string, number: string, hasMention: bool)
    requires IsJoinedPoll(p, forge, handle) && ReadsPull(p, i, f, forge, pr, owner, name, number)
    requires Reviewer in f.roles && Author !in f.roles && SoleApprover !in f.roles
    requires forall j :: 0 <= j < |pr.reviews| ==> pr.reviews[j].login != handle
    ensures var nid := PullID(owner, name, number);
            && nid in NextCache(cache, p)
            && ReviewRequestedState in StatesOf(NextCache(cache, p)[nid], hasMention) && !IsMuted(NextCache(cache, p)[nid])
  {
    var pl := JoinAchieves(cache, p, i, f, forge, handle, pr, owner, name, number);
    NoReviewOfMine(pr.reviews, handle);
    ReviewerChips(pl, hasMention);
  }

  // ---- verdict signals ----

  lemma {:induction false} VerdictsHold(events: seq<Event>, n: nat, results: map<int, Result>, i: nat, e: Event)
    requires i < n <= |events| && e in VerdictsOne(events[i], ResultAt(results, i))
    ensures e in Verdicts(events, n, results)
  {
    if i < n - 1 {
      VerdictsHold(events, n - 1, results, i, e);
    }
  }

  lemma {:induction false} VerdictFrom(events: seq<Event>, n: nat, results: map<int, Result>, e: Event) returns (i: nat)
    requires n <= |events| && e in Verdicts(events, n, results)
    ensures i < n && e in VerdictsOne(events[i], ResultAt(results, i))
  {
    if e in Verdicts(events, n - 1, results) {
      i := VerdictFrom(events, n - 1, results, e);
    } else {
      i := n - 1;
    }
  }

  /** A poll reports each dated verdict on a PR that it reads, with the reviewer and the time of the review. */
  lemma ReviewIsReported(cache: Cache, p: Poll, i: int, f: RestFacts, forge: Forge, handle: string, pr: Pull,
                         owner: string, name: string, number: string, v: nat)
    requires IsJoinedPoll(p, forge, handle) && ReadsPull(p, i, f, forge, pr, owner, name, number)
    requires v < |pr.reviews| && Reports(pr.reviews[v])
    ensures exists e :: e in PollOutput(cache, p) && IsVerdictOf(e, PullID(owner, name, number), pr.reviews[v])
  {
    var it := PrItem(i, PullID(owner, name, number), false);
    AnswerIsJoined(p, i, f, forge, handle, pr, owner, name, number);
    VerdictIsReported(it, pr.reviews, v);
    RestKeeps(f);
    var e :| e in VerdictsOf(it, pr.reviews) && IsVerdictOf(e, it.nativeID, pr.reviews[v]);
    VerdictsHold(p.rest, |p.rest|, p.results, i, e);
  }

  /** The join reports nothing of a PR that is closed or a draft. */
  lemma ClosedAndDraftsAreSilent(cache: Cache, p: Poll, i: int, forge: Forge, handle: string, e: Event)
    requires IsJoinedPoll(p, forge, handle) && OnlyAt(p.rest, i) && p.rest[i].body.Snapshot?
    requires p.rest[i].body.facts.state != Open || p.rest[i].body.facts.draft
    requires e in Verdicts(p.rest, |p.rest|, p.results)
    ensures e.nativeID != p.rest[i].nativeID
  {
    var x := VerdictFrom(p.rest, |p.rest|, p.results, e);
    VerdictHasItemID(p, forge, handle, x, e);
    if x == i {
      var items := ItemsOf(p.rest);
      var n := ItemOfResult(items, p.results, forge, BATCH_SIZE, handle, x);
      ItemsAreListed(p.rest);
      assert IsItem(items, p.rest, n);
      var r := ReportIsVerdict(items[n], forge.node(n).pull.reviews, e);
    }
  }
}
