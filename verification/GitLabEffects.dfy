/** What a merge request shows once the join has read it: from GitLab's answer to the cached facts, the chips and the signals. */
module GitLabEffects {
  import opened Model
  import opened States
  import opened FoldView
  import opened GitLabVerdicts
  import opened GitLab
  import opened GitLabRefresh
  import opened GitLabProvider
  import opened GitLabSafety
  import opened GitLabDegraded
  import opened NativeIDs
  import opened StateLaws

  // ---- one payload ----

  /** The statuses from which GitLab's gate cannot be told yet; a missing one is the empty text. */
  predicate IsTransient(status: MergeDetail) {
    status in {Unchecked, Checking, Preparing, ApprovalsSyncing, CIStillRunning, DraftStatus, OtherDetail([])}
  }

  /** The gate and the markers that a status names: only `mergeable` is ready, and any other settled status blocks. */
  predicate StatusNamed(pl: Payload, status: MergeDetail) {
    && (status == Mergeable ==> pl.gate == Ready)
    && (status != Mergeable && !IsTransient(status) ==> pl.gate == Blocked)
    && pl.gateDetail == status
    && (pl.policyDenied <==> status in {PoliciesDenied, SecurityPolicyViolations})
    && (pl.unresolvedDiscussions <==> status == DiscussionsNotResolved)
  }

  /** My first entry among the reviewers. */
  predicate IsMyEntry(reviewers: seq<MrReviewer>, handle: string, i: int) {
    && 0 <= i < |reviewers| && reviewers[i].username == handle
    && forall j :: 0 <= j < i ==> reviewers[j].username != handle
  }

  lemma {:induction false} MyEntryCounts(reviewers: seq<MrReviewer>, handle: string, i: int)
    requires IsMyEntry(reviewers, handle, i)
    ensures reviewers[i].state == MrApproved ==> MyReview(reviewers, handle) == Approved
    ensures reviewers[i].state == MrRequestedChanges ==> MyReview(reviewers, handle) == ChangesRequested
    ensures reviewers[i].state == MrReviewed ==> MyReview(reviewers, handle) == Reviewed
    ensures reviewers[i].state == MrPending ==> MyReview(reviewers, handle) == NoVerdict
  {
    if i > 0 {
      MyEntryCounts(reviewers[1..], handle, i - 1);
    }
  }

  lemma {:induction false} NoEntryOfMine(reviewers: seq<MrReviewer>, handle: string)
    requires forall j :: 0 <= j < |reviewers| ==> reviewers[j].username != handle
    ensures MyReview(reviewers, handle) == NoVerdict
  {
    if reviewers != [] {
      NoEntryOfMine(reviewers[1..], handle);
    }
  }

  /** What the join stores of an answer about a merge request that is no draft. */
  ghost predicate AnswerStored(pl: Payload, row: Payload, mr: Mr, handle: string) {
    && pl.state == row.state && pl.draft == row.draft && pl.myRoles == row.myRoles && pl.autoMergeArmed == row.autoMergeArmed
    && pl.providerUpdatedAt == row.providerUpdatedAt && pl.ticketKeys == row.ticketKeys
    && pl.approvalsCount == mr.approvedCount
    && (pl.needsApproval <==> !mr.approved)
    && (pl.needsRebase <==> mr.shouldRebase)
    && (pl.failingChecks <==> mr.pipeline == RedPipeline)
    && (pl.checksRunning <==> mr.pipeline == RunningPipeline)
    && pl.reviewDecision == (if exists i :: 0 <= i < |mr.reviewers| && mr.reviewers[i].state == MrRequestedChanges
                             then ChangesRequested else NoVerdict)
    && (handle in mr.approvedBy ==> pl.myReviewState == Approved)
    && (handle !in mr.approvedBy ==> pl.myReviewState == MyReview(mr.reviewers, handle))
  }

  lemma JoinStoresAnswer(row: Payload, mr: Mr, snap: Option<Payload>, handle: string)
    requires !row.draft
    ensures AnswerStored(EnrichedPayload(row, Some(mr), snap, handle), row, mr, handle)
  {
    JoinedParts(row, mr, snap, handle);
    assert ReviewPart(EnrichedPayload(row, Some(mr), snap, handle)) == AppliedReview(ReviewPart(row), false, mr, handle);
  }

  /** A settled status fills the gate of a row that has none; the conflict marker is the join's own, unless a rebase is due. */
  lemma JoinNamesGate(row: Payload, mr: Mr, snap: Option<Payload>, handle: string)
    requires row.gate == Unknown && !IsTransient(mr.dms)
    ensures var pl := EnrichedPayload(row, Some(mr), snap, handle);
            StatusNamed(pl, mr.dms) && (pl.mergeConflict <==> mr.dms == Conflict && !mr.shouldRebase)
  {
    JoinedParts(row, mr, snap, handle);
    assert GatePart(EnrichedPayload(row, Some(mr), snap, handle)) ==
           GateFacts(MergeGate(mr.dms), mr.dms, JoinConflict(mr), IsPolicyDenied(mr.dms), mr.dms == DiscussionsNotResolved);
  }

  /**
   A transient one leaves it unknown, with the row's detail and markers, unless the cache knows
   an open merge request that is no draft as ready or blocked.
   */
  lemma JoinLeavesGateUnknown(row: Payload, mr: Mr, snap: Option<Payload>, handle: string)
    requires row.gate == Unknown && IsTransient(mr.dms)
    requires snap.Some? ==> snap.value.gate in {Ready, Blocked, Unknown}
    ensures var pl := EnrichedPayload(row, Some(mr), snap, handle);
            if snap.Some? && row.state == Open && !row.draft && snap.value.gate != Unknown then GatePart(pl) == GatePart(snap.value)
            else GatePart(pl) == GatePart(row).(conflict := mr.dms == Conflict && !mr.shouldRebase)
  {
    JoinedParts(row, mr, snap, handle);
    TransientFillsNothing(GatePart(row), mr);
  }

  lemma TransientFillsNothing(g: GateFacts, mr: Mr)
    requires IsTransient(mr.dms)
    ensures FilledGateFacts(g, mr) == g.(conflict := mr.dms == Conflict && !mr.shouldRebase)
  {
  }

  /** And a gate that REST knows is not the join's to change. */
  lemma JoinKeepsRestGate(row: Payload, mr: Mr, snap: Option<Payload>, handle: string)
    requires row.gate != Unknown
    ensures var pl := EnrichedPayload(row, Some(mr), snap, handle);
            && pl.gate == row.gate && pl.gateDetail == row.gateDetail
            && pl.policyDenied == row.policyDenied && pl.unresolvedDiscussions == row.unresolvedDiscussions
            && (pl.mergeConflict <==> mr.dms == Conflict && !mr.shouldRebase)
  {
    JoinedParts(row, mr, snap, handle);
    assert GatePart(EnrichedPayload(row, Some(mr), snap, handle)) == GatePart(row).(conflict := JoinConflict(mr));
  }

  // ---- a whole poll ----

  /** Event i is the poll's only snapshot of its item. */
  predicate OnlyAt(rest: seq<Event>, i: int) {
    && 0 <= i < |rest| && rest[i].eventType == ItemObserved
    && forall j :: 0 <= j < |rest| && j != i && rest[j].eventType == ItemObserved ==> rest[j].nativeID != rest[i].nativeID
  }

  /**
   The poll reads one open merge request that is no draft, under an id that GitLab gives; and
   wherever it stands among the join's items, its batch of eight answers with this node.
   */
  ghost predicate ReadsMr(p: Poll, i: int, row: Payload, forge: Forge, mr: Mr, path: string, number: string) {
    && OnlyAt(p.rest, i) && row.state == Open && !row.draft && !IsSigned(path) && IsNumber(number) && !mr.archived
    && p.rest[i].nativeID == MergeRequestID(path, number) && p.rest[i].body == Snapshot(row)
    && p.rest[i].nativeID !in p.gone
    && forall n :: 0 <= n < |ItemsOf(p.rest)| && ItemsOf(p.rest)[n] == i ==>
                     !forge.batchFails(n / 8 * 8) && forge.node(n) == Some(mr)
  }

  lemma AnswerIsJoined(p: Poll, baselines: map<string, Verdicts>, i: int, row: Payload, forge: Forge, mr: Mr, path: string, number: string)
    requires IsJoinedPoll(p, baselines, forge) && ReadsMr(p, i, row, forge, mr, path, number)
    ensures Joinable(p.rest[i]) && ResultAt(p.results, i) == Some(mr)
  {
    var items := ItemsOf(p.rest);
    MergeRequestIDsParse(path, number);
    ItemsAreListed(p.rest);
    assert IsListed(items, p.rest, i);
    var n :| 0 <= n < |items| && items[n] == i;
    assert HoldsResult(p.results, items, n, forge, BATCH_SIZE);
  }

  lemma {:induction false} SurvivorAt(events: seq<Event>, n: nat, results: map<int, Mr>, cache: Cache, archived: set<string>,
                                      handle: string, i: nat)
    requires i < n <= |events| && events[i].nativeID !in archived
    ensures Enriched(events[i], ResultAt(results, i), cache, handle) in Survivors(events, n, results, cache, archived, handle)
  {
    if i < n - 1 {
      SurvivorAt(events, n - 1, results, cache, archived, handle, i);
    }
  }

  lemma {:induction false} CachedFromPoll(cache: Cache, events: seq<Event>, e: Event)
    requires e in events && e.eventType == ItemObserved && e.body.Snapshot? && e.body.facts.state == Open
    requires forall x :: x in events && x.eventType == ItemObserved && x.nativeID == e.nativeID ==> x == e
    ensures Lookup(CacheAll(cache, events), e.nativeID) == Some(e.body.facts)
  {
    var init, last := events[..|events| - 1], events[|events| - 1];
    assert last in events && forall x :: x in events <==> x in init || x == last;
    if last != e {
      CachedFromPoll(cache, init, e);
    }
  }

  predicate IsShotOf(e: Event, nid: string, pl: Payload) {
    e.eventType == ItemObserved && e.nativeID == nid && e.body == Snapshot(pl) && e.key == FactsKey(pl)
  }

  /** The poll emits one snapshot of the item, with these facts, and caches them. */
  ghost predicate EmitsAndCaches(cache: Cache, p: Poll, handle: string, nid: string, pl: Payload) {
    && (exists e :: e in PollOutput(cache, p, handle) && IsShotOf(e, nid, pl))
    && (forall e :: e in PollOutput(cache, p, handle) && e.eventType == ItemObserved && e.nativeID == nid ==> IsShotOf(e, nid, pl))
    && nid in Kept(cache, p, handle) && Kept(cache, p, handle)[nid] == pl
  }

  lemma JoinedIsEmitted(cache: Cache, p: Poll, baselines: map<string, Verdicts>, i: int, row: Payload, forge: Forge, handle: string, mr: Mr,
                        path: string, number: string)
    requires IsJoinedPoll(p, baselines, forge) && ReadsMr(p, i, row, forge, mr, path, number)
    ensures EmitsAndCaches(cache, p, handle, MergeRequestID(path, number),
                           EnrichedPayload(row, Some(mr), Lookup(cache - p.gone, MergeRequestID(path, number)), handle))
  {
    var nid, out := MergeRequestID(path, number), PollOutput(cache, p, handle);
    var archived := ArchivedIDs(p.rest, p.results);
    AnswerIsJoined(p, baselines, i, row, forge, mr, path, number);
    JoinedVerdicts(p, baselines, forge);
    assert nid !in archived;
    var e := Enriched(p.rest[i], Some(mr), cache - p.gone, handle);
    SurvivorAt(p.rest, |p.rest|, p.results, cache - p.gone, archived, handle, i);
    assert e in out;
    forall x | x in out && x.eventType == ItemObserved && x.nativeID == nid
      ensures x == e
    {
      var j := OutputOrigin(cache, p, handle, x);
      EnrichedSame(p.rest[j], ResultAt(p.results, j), cache - p.gone, handle);
    }
    JoinStoresAnswer(row, mr, Lookup(cache - p.gone, nid), handle);
    CachedFromPoll(cache - p.gone - archived, out, e);
  }

  /**
   What the join is for. Whatever else a poll holds and whatever else fails in it, a merge
   request whose batch answers is emitted and cached with the answer's approvals, decision, my
   review and markers; and where REST knew no gate, with the one that the answer's status names.
   */
  lemma JoinAchieves(cache: Cache, p: Poll, baselines: map<string, Verdicts>, i: int, row: Payload, forge: Forge, handle: string, mr: Mr,
                     path: string, number: string) returns (pl: Payload)
    requires IsJoinedPoll(p, baselines, forge) && ReadsMr(p, i, row, forge, mr, path, number)
    ensures EmitsAndCaches(cache, p, handle, MergeRequestID(path, number), pl)
    ensures AnswerStored(pl, row, mr, handle)
    ensures row.gate == Unknown && !IsTransient(mr.dms) ==> StatusNamed(pl, mr.dms)
    ensures row.gate != Unknown ==> pl.gate == row.gate && pl.gateDetail == row.gateDetail
  {
    var snap := Lookup(cache - p.gone, MergeRequestID(path, number));
    pl := EnrichedPayload(row, Some(mr), snap, handle);
    JoinedIsEmitted(cache, p, baselines, i, row, forge, handle, mr, path, number);
    JoinStoresAnswer(row, mr, snap, handle);
    if row.gate != Unknown {
      JoinKeepsRestGate(row, mr, snap, handle);
    } else if !IsTransient(mr.dms) {
      JoinNamesGate(row, mr, snap, handle);
    }
  }

  // ---- and the chips ----

  /** What my own merge request shows after such a poll, REST's list row having no gate of its own. */
  lemma OwnMergeRequestShows(cache: Cache, p: Poll, baselines: map<string, Verdicts>, i: int, row: Payload, forge: Forge, handle: string,
                             mr: Mr, path: string, number: string, hasMention: bool)
    requires IsJoinedPoll(p, baselines, forge) && ReadsMr(p, i, row, forge, mr, path, number)
    requires Author in row.myRoles && Reviewer !in row.myRoles && row.gate == Unknown && !IsTransient(mr.dms)
    ensures var nid := MergeRequestID(path, number);
            && nid in Kept(cache, p, handle)
            && var states := StatesOf(Kept(cache, p, handle)[nid], hasMention);
               && (ReadyToMergeState in states <==> mr.dms == Mergeable)
               && (BlockedState in states <==> mr.dms != Mergeable)
               && CheckingState !in states
               && (ChangesRequestedState in states <==>
                     exists k :: 0 <= k < |mr.reviewers| && mr.reviewers[k].state == MrRequestedChanges)
               && (ChecksRunningState in states <==> mr.pipeline == RunningPipeline)
  {
    var pl := JoinAchieves(cache, p, baselines, i, row, forge, handle, mr, path, number);
    OwnChips(pl, hasMention);
  }

  /** What a merge request that I review shows: done once I approved it or my entry says that I reviewed it. */
  lemma ReviewedMergeRequestShows(cache: Cache, p: Poll, baselines: map<string, Verdicts>, i: int, row: Payload, forge: Forge, handle: string,
                                  mr: Mr, path: string, number: string, hasMention: bool, mine: int)
    requires IsJoinedPoll(p, baselines, forge) && ReadsMr(p, i, row, forge, mr, path, number)
    requires Reviewer in row.myRoles && Author !in row.myRoles && SoleApprover !in row.myRoles && IsMyEntry(mr.reviewers, handle, mine)
    ensures var nid := MergeRequestID(path, number);
            var done := handle in mr.approvedBy || mr.reviewers[mine].state != MrPending;
            && nid in Kept(cache, p, handle)
            && var states := StatesOf(Kept(cache, p, handle)[nid], hasMention);
               && (ReviewSubmittedState in states <==> done)
               && (ReviewRequestedState in states <==> !done)
               && (ChangesRequestedState in states <==> handle !in mr.approvedBy && mr.reviewers[mine].state == MrRequestedChanges)
               && (IsMuted(Kept(cache, p, handle)[nid]) <==> done)
  {
    var pl := JoinAchieves(cache, p, baselines, i, row, forge, handle, mr, path, number);
    MyEntryCounts(mr.reviewers, handle, mine);
    ReviewerChips(pl, hasMention);
  }

  // ---- verdict signals ----

  predicate RequestsChanges(node: VerdictNode, actor: string) {
    ReviewerNode(actor, true) in node.reviewers
  }

  /** The note is the first system note of the actor with this body. */
  predicate IsFirstNote(notes: seq<Note>, i: int, actor: string, body: NoteBody) {
    && 0 <= i < |notes| && notes[i].system && notes[i].author == actor && notes[i].body == body
    && forall j :: 0 <= j < i ==> !(notes[j].system && notes[j].author == actor && notes[j].body == body)
  }

  lemma {:induction false} FirstNoteMatches(notes: seq<Note>, i: int, actor: string, v: Verdict)
    requires v in {Approved, ChangesRequested}
    requires IsFirstNote(notes, i, actor, if v == Approved then ApprovedNote else RequestedChangesNote)
    ensures FirstMatch(notes, actor, v) == Some(notes[i])
  {
    if i > 0 {
      FirstNoteMatches(notes[1..], i - 1, actor, v);
    }
  }

  /**
   An approval that appears between two reads is reported as one, by its actor, at the time of
   the actor's newest system note that says so; other people's notes and comments do not count.
   */
  lemma NewApprovalIsReported(nid: string, before: VerdictNode, after: VerdictNode, notes: seq<Note>, actor: string, i: int)
    requires actor !in before.approvedBy || RequestsChanges(before, actor)
    requires actor in after.approvedBy && !RequestsChanges(after, actor)
    requires IsFirstNote(notes, i, actor, ApprovedNote) && notes[i].createdAt.Some?
    ensures SignalFor(nid, Some(CurrentOf(before)), CurrentOf(after), Some(notes), actor) ==
            Some(Event(MERGE_REQUEST, nid, Signal(ApprovedSignal), notes[i].createdAt, actor,
                       TextKey("signal.approved:note:" + notes[i].id), Opaque))
  {
    FirstNoteMatches(notes, i, actor, Approved);
    assert CurrentOf(after)[actor] == Approved;
    assert actor in CurrentOf(before) ==> CurrentOf(before)[actor] == ChangesRequested;
  }

  /** Likewise a request for changes, which outweighs an approval that stands beside it. */
  lemma NewRequestIsReported(nid: string, before: VerdictNode, after: VerdictNode, notes: seq<Note>, actor: string, i: int)
    requires !RequestsChanges(before, actor) && RequestsChanges(after, actor)
    requires IsFirstNote(notes, i, actor, RequestedChangesNote) && notes[i].createdAt.Some?
    ensures SignalFor(nid, Some(CurrentOf(before)), CurrentOf(after), Some(notes), actor) ==
            Some(Event(MERGE_REQUEST, nid, Signal(ChangesRequestedSignal), notes[i].createdAt, actor,
                       TextKey("signal.changes_requested:note:" + notes[i].id), Opaque))
  {
    FirstNoteMatches(notes, i, actor, ChangesRequested);
    assert CurrentOf(after)[actor] == ChangesRequested;
    assert actor in CurrentOf(before) ==> CurrentOf(before)[actor] == Approved;
  }

  /** The baseline of an item moves only with its own events. */
  lemma {:induction false} BaselineUntouched(baselines: map<string, Verdicts>, events: seq<Event>, n: nat, results: map<int, Mr>,
                                             notes: int -> Option<seq<Note>>, nid: string)
    requires n <= |events| && forall j :: 0 <= j < n && events[j].eventType == ItemObserved ==> events[j].nativeID != nid
    ensures BaselineIn(BaselinesAfter(baselines, events, n, results, notes), nid) == BaselineIn(baselines, nid)
  {
    if n > 0 {
      BaselineUntouched(baselines, events, n - 1, results, notes, nid);
    }
  }

  /** The reviewers' verdicts of an answer. */
  function VerdictNow(mr: Mr, actor: string): Verdict {
    if ReviewerNode(actor, true) in VerdictsIn(mr).reviewers then ChangesRequested
    else if actor in mr.approvedBy then Approved else NoVerdict
  }

  /**
   A poll reports a verdict that is new: one that the last reading of the merge request, kept as
   its baseline, did not hold, once a system note of the actor that parses says so.
   */
  lemma VerdictIsReported(cache: Cache, p: Poll, baselines: map<string, Verdicts>, i: int, row: Payload, forge: Forge, handle: string,
                          mr: Mr, path: string, number: string, actor: string, n: int)
    requires IsJoinedPoll(p, baselines, forge) && ReadsMr(p, i, row, forge, mr, path, number)
    requires var nid := MergeRequestID(path, number);
             nid in baselines && (actor in baselines[nid] ==> baselines[nid][actor] != VerdictNow(mr, actor))
    requires VerdictNow(mr, actor) != NoVerdict && forge.notes(i).Some?
    requires IsFirstNote(forge.notes(i).value, n, actor, if VerdictNow(mr, actor) == Approved then ApprovedNote else RequestedChangesNote)
    requires forge.notes(i).value[n].createdAt.Some?
    ensures exists e :: e in PollOutput(cache, p, handle) && e.nativeID == MergeRequestID(path, number) && e.actor == actor
                        && e.eventType == Signal(if VerdictNow(mr, actor) == Approved then ApprovedSignal else ChangesRequestedSignal)
                        && e.occurredAt == forge.notes(i).value[n].createdAt
  {
    var nid, notes := MergeRequestID(path, number), forge.notes(i).value;
    AnswerIsJoined(p, baselines, i, row, forge, mr, path, number);
    BaselineUntouched(baselines, p.rest, i, p.results, forge.notes, nid);
    FirstNoteMatches(notes, n, actor, VerdictNow(mr, actor));
    assert CurrentOf(VerdictsIn(mr))[actor] == VerdictNow(mr, actor);
    var e := StepSignal(baselines, p.rest, i, p.results, forge.notes, actor).value;
    PollReportsVerdicts(cache, p, baselines, forge, handle, e);
  }

  /** The join reports nothing of a merge request that is closed or a draft. */
  lemma ClosedAndDraftsAreSilent(p: Poll, baselines: map<string, Verdicts>, i: int, forge: Forge, e: Event)
    requires IsJoinedPoll(p, baselines, forge) && OnlyAt(p.rest, i) && p.rest[i].body.Snapshot?
    requires p.rest[i].body.facts.state != Open || p.rest[i].body.facts.draft
    requires e in p.verdicts
    ensures e.nativeID != p.rest[i].nativeID
  {
    PollReportsVerdicts(map[], p, baselines, forge, [], e);
  }

  // ---- failures ----

  /** When every batch fails, a read that knows no gate still shows the one that the cache knows. */
  lemma FailedJoinKeepsGate(cache: Cache, p: Poll, handle: string, i: int)
    requires p.results == map[] && p.degraded && 0 <= i < |p.rest| && Joinable(p.rest[i])
    requires var pl := p.rest[i].body.facts; pl.gate == Unknown && pl.state == Open && !pl.draft
    requires var nid := p.rest[i].nativeID; nid in cache && nid !in p.gone && cache[nid].gate in {Ready, Blocked}
    ensures exists e :: e in PollOutput(cache, p, handle) && e.eventType == ItemObserved && e.nativeID == p.rest[i].nativeID
                        && e.body.Snapshot? && GatePart(e.body.facts) == GatePart(cache[p.rest[i].nativeID])
  {
    var e := Enriched(p.rest[i], None, cache - p.gone, handle);
    SurvivorAt(p.rest, |p.rest|, p.results, cache - p.gone, ArchivedIDs(p.rest, p.results), handle, i);
    DegradedParts(p.rest[i].body.facts, cache[p.rest[i].nativeID], handle);
    assert e in PollOutput(cache, p, handle);
  }

  /** When none fails and yet no node comes back, the sweep is left alone. */
  lemma EmptyJoinChangesNothing(cache: Cache, p: Poll, baselines: map<string, Verdicts>, forge: Forge, handle: string)
    requires IsJoinedPoll(p, baselines, forge) && p.results == map[] && !p.degraded
    ensures PollOutput(cache, p, handle) == p.rest && p.verdicts == [] && Joined(p, baselines, forge) == baselines
  {
  }

  // ---- the cache and the refresh ----

  lemma EnrichedState(ev: Event, r: Option<Mr>, cache: Cache, handle: string)
    requires ev.body.Snapshot?
    ensures Enriched(ev, r, cache, handle).body.Snapshot? && Enriched(ev, r, cache, handle).body.facts.state == ev.body.facts.state
  {
    var pl, snap := ev.body.facts, Lookup(cache, ev.nativeID);
    if r.Some? {
      JoinedParts(pl, r.value, snap, handle);
    } else if snap.Some? {
      DegradedParts(pl, snap.value, handle);
    }
  }

  lemma {:induction false} TodoSnapshot(todos: seq<Todo>, e: Event) returns (t: Todo)
    requires e in TodoRest(todos) && e.eventType == ItemObserved
    ensures t in todos && e == SnapshotEvent(t.nativeID, t.facts)
  {
    var k := |todos| - 1;
    if e in TodoRest(todos[..k]) {
      t := TodoSnapshot(todos[..k], e);
    } else {
      t := todos[k];
    }
  }

  /** A merge request that the todos found merged or closed, and never open, is out of the cache after the poll. */
  lemma ClosedTodoEvicts(cache: Cache, p: Poll, baselines: map<string, Verdicts>, forge: Forge, handle: string, todos: seq<Todo>, nid: string)
    requires IsJoinedPoll(p, baselines, forge) && p.rest == TodoRest(todos) && p.gone == Gone(todos)
    requires (exists t :: t in todos && t.nativeID == nid) && forall t :: t in todos && t.nativeID == nid ==> t.facts.state != Open
    ensures nid !in NextCache(cache, p, handle)
  {
    var base, out := cache - p.gone - ArchivedIDs(p.rest, p.results), PollOutput(cache, p, handle);
    JoinedVerdicts(p, baselines, forge);
    if nid in CacheAll(base, out) {
      CacheOrigin(base, out, nid);
      var e :| e in out && IsSnapshot(e, nid) && e.body.facts.state == Open && e.body.facts == CacheAll(base, out)[nid];
      var i := OutputOrigin(cache, p, handle, e);
      EnrichedSame(p.rest[i], ResultAt(p.results, i), cache - p.gone, handle);
      var t := TodoSnapshot(todos, p.rest[i]);
      EnrichedState(p.rest[i], ResultAt(p.results, i), cache - p.gone, handle);
    }
  }

  /** The refresh reads each cached merge request that the poll did not emit once, and no other. */
  lemma RefreshReads(r: Refresh, cache: Cache, events: seq<Event>, baselines: map<string, Verdicts>, forge: Forge, path: string, number: string)
    requires IsRefresh(r, cache, Covered(events), baselines, forge) && IsNumber(number) && !IsSigned(path)
    ensures (exists i :: 0 <= i < |r.cached| && r.cached[i].nativeID == MergeRequestID(path, number)) <==>
            && MergeRequestID(path, number) in cache
            && forall e :: e in events && e.eventType == ItemObserved ==> e.nativeID != MergeRequestID(path, number)
    ensures forall i, j :: 0 <= i < j < |r.cached| ==> r.cached[i].nativeID != r.cached[j].nativeID
  {
    var nid := MergeRequestID(path, number);
    MergeRequestIDsParse(path, number);
    assert nid !in Covered(events) <==> forall e :: e in events && e.eventType == ItemObserved ==> e.nativeID != nid;
    if i :| 0 <= i < |r.cached| && r.cached[i].nativeID == nid {
      assert IsCachedEvent(r.cached[i], cache, Covered(events));
    }
    if Refreshable(cache, Covered(events), nid) {
      assert ListsItem(r.cached, nid);
    }
  }

  // ---- todos ----

  /** The signal of a todo: on its merge request, by its author, at the time of the todo. */
  predicate IsTodoSignal(e: Event, t: Todo, kind: SignalKind) {
    && e.objectType == MERGE_REQUEST && e.nativeID == t.nativeID && e.eventType == Signal(kind) && e.occurredAt == t.at
    && e.actor == t.author && e.key.TextKey? && e.body == Opaque
  }

  ghost predicate Brings(events: seq<Event>, t: Todo) {
    && (exists e :: e in events && IsShotOf(e, t.nativeID, t.facts))
    && (t.action in {MentionedTodo, DirectlyAddressed} ==> exists e :: e in events && IsTodoSignal(e, t, Mentioned))
    && (t.action == ReviewRequestedTodo ==> exists e :: e in events && IsTodoSignal(e, t, ReviewRequestedSignal))
    && (t.action == ReviewSubmittedTodo ==> exists e :: e in events && IsTodoSignal(e, t, ReviewSubmittedSignal))
    && (t.action == AssignedTodo ==> exists e :: e in events && IsTodoSignal(e, t, Assigned))
    && (t.action == BuildFailed ==> exists e :: e in events && IsTodoSignal(e, t, CIFailed))
  }

  lemma OwnEvents(t: Todo)
    ensures Brings(TodoEvents(t), t)
    ensures t.action == OtherAction ==> forall e :: e in TodoEvents(t) ==> e.eventType == ItemObserved
  {
    var shot, sigs := SnapshotEvent(t.nativeID, t.facts), TodoSignal(t);
    assert ([shot] + sigs)[0] == shot && IsShotOf(shot, t.nativeID, t.facts);
    if t.action != OtherAction {
      assert sigs[0] in [shot] + sigs;
      assert IsTodoSignal(sigs[0], t, sigs[0].eventType.kind);
    }
  }

  lemma BringsMore(events: seq<Event>, more: seq<Event>, t: Todo)
    requires Brings(events, t) && forall e :: e in events ==> e in more
    ensures Brings(more, t)
  {
  }

  /** Every todo brings its merge request's snapshot and the signal of its action. */
  lemma {:induction false} TodoBrings(todos: seq<Todo>, i: nat)
    requires i < |todos|
    ensures Brings(TodoRest(todos), todos[i])
  {
    var k := |todos| - 1;
    if i < k {
      TodoBrings(todos[..k], i);
      BringsMore(TodoRest(todos[..k]), TodoRest(todos), todos[i]);
    } else {
      OwnEvents(todos[k]);
      BringsMore(TodoEvents(todos[k]), TodoRest(todos), todos[k]);
    }
  }
}
