/**
 What the attention fold shows, defined on the set of an item's rows: no order of reading,
 no loop and no sort. FoldMethods computes it; FoldLaws says what follows.
 */
module FoldView {
  import opened Model
  import opened States

  /** What the fold is called with, and the item-id digest, taken as injective. */
  datatype Config = Config(now: Time, staleThreshold: int, oldThreshold: int, digest: ItemKey -> nat)

  /** A key of the Since map: an attention state or a marker. */
  datatype Tag =
    | StateTag(s: SignalState)
    | DraftTag
    | FailingChecksTag
    | MergeConflictTag
    | NeedsRebaseTag
    | NeedsApprovalTag
    | UnresolvedDiscussionsTag
    | PolicyDeniedTag

  const MARKERS: seq<Tag> := [
    DraftTag,
    FailingChecksTag,
    MergeConflictTag,
    NeedsRebaseTag,
    NeedsApprovalTag,
    UnresolvedDiscussionsTag,
    PolicyDeniedTag]

  datatype WorkItem = WorkItem(
    id: nat,
    key: ItemKey,
    title: string,
    url: string,
    repo: string,
    author: string,
    draft: bool,
    states: seq<SignalState>,
    muted: bool,
    flagged: bool,
    stale: bool,
    isOld: bool,
    updatedAt: Time,
    signalCounts: map<SignalKind, nat>,
    failingChecks: bool,
    mergeConflict: bool,
    needsRebase: bool,
    needsApproval: bool,
    unresolvedDiscussions: bool,
    policyDenied: bool,
    approvalsCount: int,
    myReviewState: Verdict,
    myRoles: seq<Role>,
    gateDetail: MergeDetail,
    flaggedAt: Option<Time>,
    since: map<Tag, Time>,
    ticketKeys: seq<string>,
    labels: seq<string>,
    sourceBranch: string,
    targetBranch: string)

  predicate DistinctIDs(rows: seq<Row>) {
    && (forall i :: 0 <= i < |rows| ==> 0 < rows[i].id)
    && (forall i, j :: 0 <= i < j < |rows| ==> rows[i].id != rows[j].id)
  }

  predicate IsObserved(r: Row) { r.eventType == ItemObserved }

  predicate IsRemoval(r: Row) { r.eventType == ItemRemoved }

  predicate IsSignal(r: Row) { r.eventType.Signal? }

  predicate IsMention(r: Row) { r.eventType == Signal(Mentioned) }

  /** coalesce(occurred_at, observed_at). */
  function SignalTime(r: Row): Time {
    if r.occurredAt.Some? then r.occurredAt.value else r.observedAt
  }

  /** provider_updated_at when it parses, else observed_at. */
  function SnapshotTime(facts: Payload, observedAt: Time): Time {
    if facts.providerUpdatedAt.Some? then facts.providerUpdatedAt.value else observedAt
  }

  // ---- selections from a set of rows ----

  /** The row with the greatest id. */
  ghost predicate IsNewest(r: Row, rows: set<Row>) {
    r in rows && forall s :: s in rows ==> s.id <= r.id
  }

  ghost predicate IsOldest(r: Row, rows: set<Row>) {
    r in rows && forall s :: s in rows ==> r.id <= s.id
  }

  ghost function Newest(rows: set<Row>): Option<Row> {
    if exists r :: IsNewest(r, rows) then
      var r :| IsNewest(r, rows); Some(r)
    else None
  }

  ghost function ObservedOf(rows: set<Row>): set<Row> {
    set r | r in rows && IsObserved(r)
  }

  /** The newest snapshot, unless a removal came after it. */
  ghost predicate IsCurrent(r: Row, rows: set<Row>) {
    IsNewest(r, ObservedOf(rows)) && forall s :: s in rows && IsRemoval(s) ==> s.id <= r.id
  }

  // ---- the ranking clock ----

  /** The clock counts this signal; the age guard leaves ci_failed out. */
  predicate Counts(r: Row, excludeCIFailed: bool) {
    IsSignal(r) && !(excludeCIFailed && r.eventType == Signal(CIFailed))
  }

  ghost function SignalTimes(rows: set<Row>, excludeCIFailed: bool): set<Time> {
    set r | r in rows && Counts(r, excludeCIFailed) :: SignalTime(r)
  }

  /** The latest of the times, or 0 when none of them is after the zero time. */
  ghost predicate IsLatestTime(t: Time, times: set<Time>) {
    && (forall x :: x in times ==> x <= t)
    && (t == ZERO_TIME || t in times)
    && t >= ZERO_TIME
  }

  ghost predicate IsClock(t: Time, rows: set<Row>, facts: Payload, observedAt: Time, excludeCIFailed: bool) {
    exists latest :: IsLatestTime(latest, SignalTimes(rows, excludeCIFailed))
                     && t == if latest != ZERO_TIME then latest else SnapshotTime(facts, observedAt)
  }

  /** The clock that ranks the item, with the guard against broken builds applied. */
  ghost predicate IsRankingTime(t: Time, rows: set<Row>, facts: Payload, observedAt: Time, cfg: Config) {
    if cfg.oldThreshold > 0 then
      exists base ::
        && IsClock(base, rows, facts, observedAt, true)
        && if cfg.now - base > cfg.oldThreshold then t == base else IsClock(t, rows, facts, observedAt, false)
    else IsClock(t, rows, facts, observedAt, false)
  }

  predicate IsOld(updatedAt: Time, cfg: Config) {
    cfg.oldThreshold > 0 && cfg.now - updatedAt > cfg.oldThreshold
  }

  predicate IsStale(updatedAt: Time, cfg: Config) {
    !IsOld(updatedAt, cfg) && cfg.staleThreshold > 0 && cfg.now - updatedAt > cfg.staleThreshold
  }

  predicate IsMuted(f: Payload) {
    && Reviewer in f.myRoles
    && Author !in f.myRoles
    && SoleApprover !in f.myRoles
    && ReviewIsDone(f.myReviewState)
  }

  // ---- signal counts ----

  ghost function OfKind(rows: set<Row>, kind: SignalKind): set<Row> {
    set r | r in rows && r.eventType == Signal(kind)
  }

  /** The signal types that occur more than once, with how often they do. */
  ghost predicate IsSignalCounts(counts: map<SignalKind, nat>, rows: set<Row>) {
    forall kind ::
      && (kind in counts <==> |OfKind(rows, kind)| > 1)
      && (kind in counts ==> counts[kind] == |OfKind(rows, kind)|)
  }

  // ---- onsets ----

  /** The tag's condition on one snapshot; the mention state is driven by signals instead. */
  predicate Holds(tag: Tag, f: Payload) {
    match tag
    case StateTag(s) => Matches(s, f, RolesSet(f), false)
    case DraftTag => f.draft
    case FailingChecksTag => f.failingChecks
    case MergeConflictTag => f.mergeConflict
    case NeedsRebaseTag => f.needsRebase
    case NeedsApprovalTag => f.needsApproval
    case UnresolvedDiscussionsTag => f.unresolvedDiscussions
    case PolicyDeniedTag => f.policyDenied
  }

  predicate HoldsIn(tag: Tag, r: Row) {
    r.body.Snapshot? && Holds(tag, r.body.facts)
  }

  /** The readable snapshots that have the tag. */
  ghost function Having(observed: set<Row>, tag: Tag): set<Row> {
    set r | r in observed && HoldsIn(tag, r)
  }

  /** Rows from which on every row of `observed` is one of `holds`. */
  ghost function RunIn(observed: set<Row>, holds: set<Row>): set<Row> {
    set r | r in observed && forall s :: s in observed && s.id >= r.id ==> s in holds
  }

  /** The latest unbroken run: snapshots from which on every snapshot is readable and has the tag. */
  ghost function Run(observed: set<Row>, tag: Tag): set<Row> {
    RunIn(observed, Having(observed, tag))
  }

  /** The time of the oldest snapshot in the run; 0 when the run is empty. */
  ghost predicate IsOnset(t: Time, observed: set<Row>, tag: Tag) {
    if Run(observed, tag) == {} then t == ZERO_TIME
    else exists r :: IsOldest(r, Run(observed, tag)) && r.body.Snapshot? && t == SnapshotTime(r.body.facts, r.observedAt)
  }

  /** The tags that the item carries now. */
  predicate Active(tag: Tag, f: Payload, hasMention: bool) {
    if tag == StateTag(MentionedState) then hasMention else Holds(tag, f)
  }

  /** The tag has an onset entry exactly when it is active and its onset is not the zero time. */
  ghost predicate SinceEntry(since: map<Tag, Time>, tag: Tag, observed: set<Row>, f: Payload, hasMention: bool, mention: Time) {
    if tag == StateTag(MentionedState) then
      && (tag in since <==> hasMention && mention != ZERO_TIME)
      && (tag in since ==> since[tag] == mention)
    else
      && (tag in since <==> Active(tag, f, hasMention) && !IsOnset(ZERO_TIME, observed, tag))
      && (tag in since ==> IsOnset(since[tag], observed, tag))
  }

  /** The Since map; `mention` is the first mention's time. */
  ghost predicate IsSince(since: map<Tag, Time>, observed: set<Row>, f: Payload, hasMention: bool, mention: Time) {
    forall tag :: SinceEntry(since, tag, observed, f, hasMention, mention)
  }

  /** The scan for the earliest mention, newest row last. */
  function EarliestMention(rows: seq<Row>): Time {
    if rows == [] then ZERO_TIME
    else
      var r, before := rows[|rows| - 1], EarliestMention(rows[..|rows| - 1]);
      if IsMention(r) && (before == ZERO_TIME || SignalTime(r) < before) then SignalTime(r) else before
  }

  ghost predicate HasMention(rows: set<Row>) {
    exists r :: r in rows && IsMention(r)
  }

  // ---- the view of one item and of the list ----

  /** The item is shown: its newest snapshot is current, readable and open. */
  ghost predicate Shown(rows: set<Row>) {
    exists r :: IsCurrent(r, rows) && IsOpen(r)
  }

  ghost predicate IsView(it: WorkItem, k: ItemKey, rows: set<Row>, mention: Time, cfg: Config) {
    exists r :: IsCurrent(r, rows) && IsOpen(r) && ShowsFacts(it, k, r.body.facts, cfg)
                && it.states == StatesOf(r.body.facts, HasMention(rows))
                && IsRankingTime(it.updatedAt, rows, r.body.facts, r.observedAt, cfg)
                && IsSignalCounts(it.signalCounts, rows)
                && IsSince(it.since, ObservedOf(rows), r.body.facts, HasMention(rows), mention)
  }

  /** The fields that come from the facts, the key and the clock alone. */
  predicate ShowsFacts(it: WorkItem, k: ItemKey, f: Payload, cfg: Config) {
    && it.id == cfg.digest(k)
    && it.key == k
    && it.title == f.title && it.url == f.url && it.repo == f.repo && it.author == f.author && it.draft == f.draft
    && it.muted == IsMuted(f)
    && !it.flagged && it.flaggedAt == None
    && it.stale == IsStale(it.updatedAt, cfg) && it.isOld == IsOld(it.updatedAt, cfg)
    && it.failingChecks == f.failingChecks && it.mergeConflict == f.mergeConflict && it.needsRebase == f.needsRebase
    && it.needsApproval == f.needsApproval && it.unresolvedDiscussions == f.unresolvedDiscussions
    && it.policyDenied == f.policyDenied
    && it.approvalsCount == f.approvalsCount && it.myReviewState == f.myReviewState && it.myRoles == f.myRoles
    && it.gateDetail == f.gateDetail && it.ticketKeys == f.ticketKeys && it.labels == f.labels
    && it.sourceBranch == f.sourceBranch && it.targetBranch == f.targetBranch
  }

  function Keys(rows: seq<Row>): set<ItemKey> {
    set r | r in rows :: KeyOf(r)
  }

  function RowsOf(rows: seq<Row>, k: ItemKey): set<Row> {
    set r | r in rows && KeyOf(r) == k
  }

  /** The item's rows in the order of the log. */
  function Group(rows: seq<Row>, k: ItemKey): seq<Row> {
    if rows == [] then []
    else Group(rows[..|rows| - 1], k) + if KeyOf(rows[|rows| - 1]) == k then [rows[|rows| - 1]] else []
  }

  ghost predicate InjectiveOn(digest: ItemKey -> nat, keys: set<ItemKey>) {
    forall k, l :: k in keys && l in keys && digest(k) == digest(l) ==> k == l
  }

  /** Most recent first, then the smaller id. */
  predicate Before(a: WorkItem, b: WorkItem) {
    a.updatedAt > b.updatedAt || (a.updatedAt == b.updatedAt && a.id < b.id)
  }

  /** The list holds the view of every shown item, each once, by recency and then id. */
  ghost predicate IsFold(items: seq<WorkItem>, rows: seq<Row>, cfg: Config) {
    && (forall i, j :: 0 <= i < j < |items| ==> Before(items[i], items[j]))
    && (forall i :: 0 <= i < |items| ==>
          && items[i].key in Keys(rows)
          && IsView(items[i], items[i].key, RowsOf(rows, items[i].key), EarliestMention(Group(rows, items[i].key)), cfg))
    && (forall k :: k in Keys(rows) && Shown(RowsOf(rows, k)) ==> exists i :: 0 <= i < |items| && items[i].key == k)
  }

  // ---- the view is determined ----

  predicate IDsIdentify(rows: set<Row>) {
    forall r, s :: r in rows && s in rows && r.id == s.id ==> r == s
  }

  lemma OnsetUnique(t: Time, u: Time, observed: set<Row>, tag: Tag)
    requires IDsIdentify(observed) && IsOnset(t, observed, tag) && IsOnset(u, observed, tag)
    ensures t == u
  {
    var run := Run(observed, tag);
    if run != {} {
      var r :| IsOldest(r, run) && r.body.Snapshot? && t == SnapshotTime(r.body.facts, r.observedAt);
      var s :| IsOldest(s, run) && s.body.Snapshot? && u == SnapshotTime(s.body.facts, s.observedAt);
      assert r in observed && s in observed && r.id == s.id;
    }
  }
}
