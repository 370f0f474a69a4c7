/**
 The readers of the log agree: the fold, LatestItemFacts and AllOpenTicketKeys have one
 notion of an item's latest fact. And what the onsets in the list mean.
 */
module FoldReaders {
  import opened Model
  import opened EventLog
  import opened States
  import opened FoldView
  import opened FoldLaws
  import opened Storage

  // ---- the latest fact ----

  /** The fold's current snapshot of an item is its latest fact, when that is a snapshot. */
  lemma CurrentIsLatestFact(log: seq<Row>, k: ItemKey, r: Row)
    requires Ordered(log)
    ensures IsCurrent(r, RowsOf(log, k)) <==> LatestFact(log, k) == Some(r) && IsObserved(r)
  {
    LatestFactIsNewest(log, k);
    var rows := RowsOf(log, k);
    if IsCurrent(r, rows) {
      assert r in ObservedOf(rows);
      var f := LatestFact(log, k).value;
      assert f in rows;
      if IsObserved(f) {
        assert f in ObservedOf(rows);
      } else {
        assert IsRemoval(f);
      }
      SameIDSameRow(log, r, f);
    }
    if LatestFact(log, k) == Some(r) && IsObserved(r) {
      assert r in ObservedOf(rows);
    }
  }

  /** An item is shown by the fold exactly when its latest fact is a readable open snapshot. */
  lemma ShownIffVisible(log: seq<Row>, k: ItemKey)
    requires Ordered(log)
    ensures Shown(RowsOf(log, k)) <==> Visible(log, k)
    ensures Visible(log, k) ==> k in Keys(log)
  {
    if Shown(RowsOf(log, k)) {
      var r :| IsCurrent(r, RowsOf(log, k)) && IsOpen(r);
      CurrentIsLatestFact(log, k, r);
    }
    if Visible(log, k) {
      CurrentIsLatestFact(log, k, LatestFact(log, k).value);
      assert LatestFact(log, k).value in log;
    }
  }

  /**
   Agreement. The list over the whole log holds an item exactly when the item's latest fact
   is a readable open snapshot, and shows the ticket keys of that snapshot.
   */
  lemma FoldAgreesWithLatestFact(items: seq<WorkItem>, log: seq<Row>, cfg: Config, k: ItemKey)
    requires Ordered(log) && IsFold(items, log, cfg)
    ensures (exists it :: it in items && it.key == k) <==> Visible(log, k)
    ensures forall it :: it in items && it.key == k ==>
              Visible(log, k) && ShowsFacts(it, k, LatestFact(log, k).value.body.facts, cfg)
  {
    ShownIffVisible(log, k);
    if Visible(log, k) {
      var it := FoldHolds(items, log, cfg, k);
    }
    forall it | it in items && it.key == k
      ensures Visible(log, k) && ShowsFacts(it, k, LatestFact(log, k).value.body.facts, cfg)
    {
      var r := ViewCurrent(it, k, RowsOf(log, k), EarliestMention(Group(log, k)), cfg);
      CurrentIsLatestFact(log, k, r);
    }
  }

  /** The item shows these facts, none of them altered, and nothing is flagged. */
  predicate ListsFacts(it: WorkItem, pl: Payload) {
    && it.title == pl.title && it.url == pl.url && it.repo == pl.repo && it.author == pl.author && it.draft == pl.draft
    && it.gateDetail == pl.gateDetail && it.approvalsCount == pl.approvalsCount && it.myReviewState == pl.myReviewState
    && it.myRoles == pl.myRoles && it.ticketKeys == pl.ticketKeys && it.labels == pl.labels
    && it.sourceBranch == pl.sourceBranch && it.targetBranch == pl.targetBranch
    && it.failingChecks == pl.failingChecks && it.mergeConflict == pl.mergeConflict && it.needsRebase == pl.needsRebase
    && it.needsApproval == pl.needsApproval && it.unresolvedDiscussions == pl.unresolvedDiscussions
    && it.policyDenied == pl.policyDenied && it.muted == IsMuted(pl) && !it.flagged
  }

  /** An item whose latest fact is an open snapshot is in the list once, with the facts and the chips of that snapshot. */
  lemma LatestSnapshotIsListed(items: seq<WorkItem>, log: seq<Row>, cfg: Config, k: ItemKey, pl: Payload) returns (it: WorkItem)
    requires Ordered(log) && IsFold(items, log, cfg)
    requires var f := LatestFact(log, k); f.Some? && f.value.eventType == ItemObserved && f.value.body == Snapshot(pl) && pl.state == Open
    ensures it in items && it.key == k && ListsFacts(it, pl)
    ensures forall x :: x in items && x.key == k ==> x == it
    ensures it.states == StatesOf(pl, exists r :: r in RowsOf(log, k) && r.eventType == Signal(Mentioned))
  {
    var rows, mention := RowsOf(log, k), EarliestMention(Group(log, k));
    ShownIffVisible(log, k);
    it := FoldHolds(items, log, cfg, k);
    var r := ViewCurrent(it, k, rows, mention, cfg);
    CurrentIsLatestFact(log, k, r);
    RowsIdentified(log, k);
    forall x | x in items && x.key == k
      ensures x == it
    {
      ViewUnique(x, it, k, rows, mention, cfg);
    }
    assert HasMention(rows) <==> exists r :: r in rows && r.eventType == Signal(Mentioned) by {
      assert forall r :: IsMention(r) <==> r.eventType == Signal(Mentioned);
    }
  }

  /** A key of an open item whose payload decodes for AllOpenTicketKeys and for nobody else. */
  ghost predicate HalfReadKey(log: seq<Row>, t: string) {
    exists k :: HalfReads(LatestFact(log, k), t)
  }

  predicate HalfReads(f: Option<Row>, t: string) {
    f.Some? && f.value.eventType == ItemObserved && f.value.body.Head? && f.value.body.state == Open && t in f.value.body.ticketKeys
  }

  /**
   Ticket keys. AllOpenTicketKeys returns the union of the keys in the list over the whole
   log, plus those of open snapshots of which only state and ticket keys decode.
   */
  lemma TicketKeysAgree(items: seq<WorkItem>, log: seq<Row>, cfg: Config, t: string)
    requires Ordered(log) && IsFold(items, log, cfg)
    ensures OpenTicketKey(log, t) <==> (exists it :: it in items && t in it.ticketKeys) || HalfReadKey(log, t)
  {
    if OpenTicketKey(log, t) {
      var k :| LatestFact(log, k).Some? && t in OpenKeys(LatestFact(log, k).value);
      FoldAgreesWithLatestFact(items, log, cfg, k);
    }
    if HalfReadKey(log, t) {
      var k :| HalfReads(LatestFact(log, k), t);
      assert t in OpenKeys(LatestFact(log, k).value);
    }
    if exists it :: it in items && t in it.ticketKeys {
      var it :| it in items && t in it.ticketKeys;
      FoldAgreesWithLatestFact(items, log, cfg, it.key);
      assert t in OpenKeys(LatestFact(log, it.key).value);
    }
  }

  // ---- onsets ----

  /** The item's snapshots and mentions all carry times. */
  ghost predicate TimesAreSet(rows: set<Row>, mention: Time) {
    && (forall r :: r in ObservedOf(rows) && r.body.Snapshot? ==> SnapshotTime(r.body.facts, r.observedAt) != ZERO_TIME)
    && (HasMention(rows) ==> mention != ZERO_TIME)
  }

  /** A tag on the current snapshot has a run, and so an onset that is some snapshot's time. */
  lemma ActiveHasOnset(r: Row, rows: set<Row>, tag: Tag)
    requires IsCurrent(r, rows) && HoldsIn(tag, r) && IDsIdentify(rows)
    requires forall s :: s in ObservedOf(rows) && s.body.Snapshot? ==> SnapshotTime(s.body.facts, s.observedAt) != ZERO_TIME
    ensures !IsOnset(ZERO_TIME, ObservedOf(rows), tag)
  {
    var observed := ObservedOf(rows);
    forall s | s in observed && s.id >= r.id
      ensures HoldsIn(tag, s)
    {
      assert s.id <= r.id;
      assert s == r;
    }
    assert r in Run(observed, tag);
  }

  /** The item carries the tag: as one of its states, or as a set marker. */
  predicate Carries(it: WorkItem, tag: Tag) {
    match tag
    case StateTag(s) => s in it.states
    case DraftTag => it.draft
    case FailingChecksTag => it.failingChecks
    case MergeConflictTag => it.mergeConflict
    case NeedsRebaseTag => it.needsRebase
    case NeedsApprovalTag => it.needsApproval
    case UnresolvedDiscussionsTag => it.unresolvedDiscussions
    case PolicyDeniedTag => it.policyDenied
  }

  lemma CarriesActive(it: WorkItem, k: ItemKey, f: Payload, hasMention: bool, cfg: Config, tag: Tag)
    requires ShowsFacts(it, k, f, cfg) && it.states == StatesOf(f, hasMention)
    ensures Carries(it, tag) <==> Active(tag, f, hasMention)
  {
    StatesAreTheMatches(f, hasMention, |PRECEDENCE|);
  }

  /** Since has exactly one entry per active state and per set marker. */
  lemma SinceIsExact(it: WorkItem, k: ItemKey, rows: set<Row>, mention: Time, cfg: Config, tag: Tag)
    requires IsView(it, k, rows, mention, cfg) && IDsIdentify(rows) && TimesAreSet(rows, mention)
    ensures tag in it.since <==> Carries(it, tag)
  {
    var r := ViewCurrent(it, k, rows, mention, cfg);
    EntryIffActive(it.since, tag, r, rows, mention);
    CarriesActive(it, k, r.body.facts, HasMention(rows), cfg, tag);
  }

  lemma EntryIffActive(since: map<Tag, Time>, tag: Tag, r: Row, rows: set<Row>, mention: Time)
    requires IsCurrent(r, rows) && IsOpen(r) && IDsIdentify(rows) && TimesAreSet(rows, mention)
    requires IsSince(since, ObservedOf(rows), r.body.facts, HasMention(rows), mention)
    ensures tag in since <==> Active(tag, r.body.facts, HasMention(rows))
  {
    assert SinceEntry(since, tag, ObservedOf(rows), r.body.facts, HasMention(rows), mention);
    if tag != StateTag(MentionedState) && Holds(tag, r.body.facts) {
      ActiveHasOnset(r, rows, tag);
    }
  }

  /** The snapshot starts the latest unbroken run: all from it on are in `holds`, the one just before it is not. */
  ghost predicate StartsRun(r: Row, observed: set<Row>, holds: set<Row>) {
    && r in observed
    && (forall s :: s in observed && s.id >= r.id ==> s in holds)
    && (forall s :: s in observed && s.id < r.id && (forall x :: x in observed ==> x.id <= s.id || x.id >= r.id) ==> s !in holds)
  }

  /** Each entry but the mention's is the time of the snapshot that starts the latest unbroken run. */
  lemma OnsetStartsRun(it: WorkItem, k: ItemKey, rows: set<Row>, mention: Time, cfg: Config, tag: Tag)
    requires IsView(it, k, rows, mention, cfg) && IDsIdentify(rows)
    requires tag in it.since && tag != StateTag(MentionedState)
    ensures exists r :: StartsRun(r, ObservedOf(rows), Having(ObservedOf(rows), tag)) && r.body.Snapshot?
                        && it.since[tag] == SnapshotTime(r.body.facts, r.observedAt)
  {
    var c := ViewCurrent(it, k, rows, mention, cfg);
    var observed := ObservedOf(rows);
    assert SinceEntry(it.since, tag, observed, c.body.facts, HasMention(rows), mention);
    NonZeroOnsetStartsRun(it.since[tag], observed, tag);
  }

  lemma NonZeroOnsetStartsRun(t: Time, observed: set<Row>, tag: Tag)
    requires IDsIdentify(observed) && IsOnset(t, observed, tag) && !IsOnset(ZERO_TIME, observed, tag)
    ensures exists r :: StartsRun(r, observed, Having(observed, tag)) && r.body.Snapshot?
                        && t == SnapshotTime(r.body.facts, r.observedAt)
  {
    var r :| IsOldest(r, Run(observed, tag)) && r.body.Snapshot? && t == SnapshotTime(r.body.facts, r.observedAt);
    OldestStartsRun(r, observed, Having(observed, tag));
  }

  lemma OldestStartsRun(r: Row, observed: set<Row>, holds: set<Row>)
    requires IDsIdentify(observed) && IsOldest(r, RunIn(observed, holds))
    ensures StartsRun(r, observed, holds)
  {
    assert r in RunIn(observed, holds);
    forall s | s in observed && s.id < r.id && (forall x :: x in observed ==> x.id <= s.id || x.id >= r.id)
      ensures s !in holds
    {
      assert s !in RunIn(observed, holds);
      BeforeOldest(r, s, observed, holds);
    }
  }

  /** Of the snapshots from s on, the one that breaks the run is s itself when nothing lies between s and the run. */
  lemma BeforeOldest(r: Row, s: Row, observed: set<Row>, holds: set<Row>)
    requires IDsIdentify(observed) && r in RunIn(observed, holds) && s in observed && s !in RunIn(observed, holds)
    requires forall x :: x in observed ==> x.id <= s.id || x.id >= r.id
    ensures s !in holds
  {
    var y :| y in observed && y.id >= s.id && y !in holds;
    assert y.id < r.id;
    assert y == s;
  }
}
