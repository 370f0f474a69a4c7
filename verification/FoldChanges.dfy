/**
 How much a change of the log can change the list: deleting superseded snapshots touches
 only onsets, and broken builds do not move items that are old without them.
 */
module FoldChanges {
  import opened Model
  import opened States
  import opened FoldView
  import opened FoldMethods
  import opened FoldLaws

  function Kept(rows: seq<Row>, keep: Row -> bool): seq<Row> {
    if rows == [] then []
    else Kept(rows[..|rows| - 1], keep) + if keep(rows[|rows| - 1]) then [rows[|rows| - 1]] else []
  }

  lemma {:induction false} KeptMembers(rows: seq<Row>, keep: Row -> bool, r: Row)
    ensures r in Kept(rows, keep) <==> r in rows && keep(r)
  {
    if rows != [] {
      assert rows == rows[..|rows| - 1] + [rows[|rows| - 1]];
      KeptMembers(rows[..|rows| - 1], keep, r);
    }
  }

  lemma MentionStepInGroup(rows: seq<Row>, r: Row, k: ItemKey)
    ensures EarliestMention(Group(rows + [r], k)) ==
            var before := EarliestMention(Group(rows, k));
            if KeyOf(r) == k && IsMention(r) && (before == ZERO_TIME || SignalTime(r) < before) then SignalTime(r) else before
  {
    GroupStep(rows, r, k);
    assert (Group(rows, k) + [r])[..|Group(rows, k)|] == Group(rows, k);
    assert Group(rows, k) + [] == Group(rows, k);
  }

  /** Dropping rows that are no mentions does not disturb the scan for the earliest mention. */
  lemma {:induction false} KeptMentions(rows: seq<Row>, keep: Row -> bool, k: ItemKey)
    requires forall r :: r in rows && IsMention(r) ==> keep(r)
    ensures EarliestMention(Group(Kept(rows, keep), k)) == EarliestMention(Group(rows, k))
  {
    if rows != [] {
      var init, last := rows[..|rows| - 1], rows[|rows| - 1];
      assert rows == init + [last] && last in rows;
      KeptMentions(init, keep, k);
      MentionStepInGroup(init, last, k);
      if keep(last) {
        MentionStepInGroup(Kept(init, keep), last, k);
      } else {
        assert Kept(rows, keep) == Kept(init, keep);
      }
    }
  }

  // ---- compaction ----

  /** A snapshot that a newer snapshot of the same item supersedes. */
  ghost predicate IsSuperseded(r: Row, rows: seq<Row>) {
    IsObserved(r) && exists s :: s in rows && KeyOf(s) == KeyOf(r) && IsObserved(s) && s.id > r.id
  }

  function NoSince(it: WorkItem): WorkItem {
    it.(since := map[])
  }

  ghost predicate DropsSuperseded(rows: seq<Row>, keep: Row -> bool) {
    forall r :: r in rows && !keep(r) ==> IsSuperseded(r, rows)
  }

  /** What compaction leaves alone in one item's rows. */
  ghost predicate SameBut(rows: set<Row>, rows': set<Row>) {
    && rows' <= rows
    && (forall r :: r in rows && !IsObserved(r) ==> r in rows')
    && (forall r :: IsNewest(r, ObservedOf(rows)) ==> r in rows')
  }

  /** The item keeps its newest snapshot and every row that is not a snapshot. */
  lemma CompactedRows(rows: seq<Row>, keep: Row -> bool, k: ItemKey)
    requires DropsSuperseded(rows, keep)
    ensures SameBut(RowsOf(rows, k), RowsOf(Kept(rows, keep), k))
  {
    forall r
      ensures r in RowsOf(Kept(rows, keep), k) <==> r in RowsOf(rows, k) && keep(r)
    {
      KeptMembers(rows, keep, r);
    }
    forall r | r in ObservedOf(RowsOf(rows, k)) && !keep(r)
      ensures !IsNewest(r, ObservedOf(RowsOf(rows, k)))
    {
      var s :| s in rows && KeyOf(s) == KeyOf(r) && IsObserved(s) && s.id > r.id;
      assert s in ObservedOf(RowsOf(rows, k));
    }
  }

  lemma {:induction false} NewestExists(rows: set<Row>) returns (r: Row)
    requires rows != {}
    ensures IsNewest(r, rows)
    decreases |rows|
  {
    var x :| x in rows;
    var rest := rows - {x};
    if rest == {} {
      assert rows == {x};
      r := x;
    } else {
      r := NewestExists(rest);
      assert forall s :: s in rows ==> s == x || s in rest;
      if x.id > r.id {
        r := x;
      }
    }
  }

  lemma CurrentSurvives(r: Row, rows: set<Row>, rows': set<Row>)
    requires SameBut(rows, rows')
    ensures IsCurrent(r, rows) ==> IsCurrent(r, rows')
    ensures IDsIdentify(rows) && IsCurrent(r, rows') ==> IsCurrent(r, rows)
  {
    if IDsIdentify(rows) && IsCurrent(r, rows') {
      assert r in ObservedOf(rows);
      var n := NewestExists(ObservedOf(rows));
      assert n in rows && n in ObservedOf(rows');
      assert n.id == r.id;
    }
  }

  lemma SameSignals(rows: set<Row>, rows': set<Row>)
    requires SameBut(rows, rows')
    ensures forall b :: SignalTimes(rows, b) == SignalTimes(rows', b)
    ensures forall kind :: OfKind(rows, kind) == OfKind(rows', kind)
    ensures HasMention(rows) <==> HasMention(rows')
  {
    forall b
      ensures SignalTimes(rows, b) == SignalTimes(rows', b)
    {
      assert forall r :: r in rows && Counts(r, b) <==> r in rows' && Counts(r, b);
    }
    forall kind
      ensures OfKind(rows, kind) == OfKind(rows', kind)
    {
      assert forall r :: r in rows && r.eventType == Signal(kind) <==> r in rows' && r.eventType == Signal(kind);
    }
  }

  lemma RankingTimeDecided(t: Time, rows: set<Row>, rows': set<Row>, f: Payload, observedAt: Time, cfg: Config)
    requires forall b :: SignalTimes(rows, b) == SignalTimes(rows', b)
    requires IsRankingTime(t, rows, f, observedAt, cfg)
    ensures IsRankingTime(t, rows', f, observedAt, cfg)
  {
    forall u, b
      ensures IsClock(u, rows, f, observedAt, b) <==> IsClock(u, rows', f, observedAt, b)
    {
      ClockDecided(u, rows, rows', f, observedAt, b);
    }
  }

  /** Compaction leaves every field of the item but its onsets. */
  lemma CompactedView(a: WorkItem, b: WorkItem, k: ItemKey, rows: set<Row>, rows': set<Row>, mention: Time, cfg: Config)
    requires IDsIdentify(rows) && SameBut(rows, rows')
    requires IsView(a, k, rows, mention, cfg) && IsView(b, k, rows', mention, cfg)
    ensures NoSince(a) == NoSince(b)
  {
    var r := ViewCurrent(a, k, rows, mention, cfg);
    var s := ViewCurrent(b, k, rows', mention, cfg);
    CurrentSurvives(s, rows, rows');
    CurrentUnique(r, s, rows);
    SameButParts(a, b, k, r, rows, rows', cfg);
  }

  /** The parts of two views that depend on the current snapshot and the signals agree. */
  lemma SameButParts(a: WorkItem, b: WorkItem, k: ItemKey, r: Row, rows: set<Row>, rows': set<Row>, cfg: Config)
    requires SameBut(rows, rows') && r.body.Snapshot?
    requires ShowsFacts(a, k, r.body.facts, cfg) && ShowsFacts(b, k, r.body.facts, cfg)
    requires a.states == StatesOf(r.body.facts, HasMention(rows)) && b.states == StatesOf(r.body.facts, HasMention(rows'))
    requires IsRankingTime(a.updatedAt, rows, r.body.facts, r.observedAt, cfg)
    requires IsRankingTime(b.updatedAt, rows', r.body.facts, r.observedAt, cfg)
    requires IsSignalCounts(a.signalCounts, rows) && IsSignalCounts(b.signalCounts, rows')
    ensures NoSince(a) == NoSince(b)
  {
    SameSignals(rows, rows');
    RankingTimeDecided(a.updatedAt, rows, rows', r.body.facts, r.observedAt, cfg);
    RankingTimeUnique(a.updatedAt, b.updatedAt, rows', r.body.facts, r.observedAt, cfg);
    CountsUnique(a.signalCounts, b.signalCounts, rows);
    FactsDetermine(a, b, k, r.body.facts, cfg);
  }

  /**
   Compaction. Deleting any superseded snapshots leaves the same items in the same order,
   and changes none of their fields but Since.
   */
  lemma CompactionKeepsList(log: seq<Row>, keep: Row -> bool, items: seq<WorkItem>, items': seq<WorkItem>, cfg: Config)
    requires DistinctIDs(log) && DropsSuperseded(log, keep)
    requires IsFold(items, log, cfg) && IsFold(items', Kept(log, keep), cfg)
    ensures Stripped(items, NoSince) == Stripped(items', NoSince)
  {
    var log' := Kept(log, keep);
    forall k
      ensures (k in Keys(log) && Shown(RowsOf(log, k))) <==> (k in Keys(log') && Shown(RowsOf(log', k)))
    {
      CompactedShown(log, keep, k);
    }
    forall k, a, b |
      && IsView(a, k, RowsOf(log, k), EarliestMention(Group(log, k)), cfg)
      && IsView(b, k, RowsOf(log', k), EarliestMention(Group(log', k)), cfg)
      ensures NoSince(a) == NoSince(b)
    {
      CompactedRows(log, keep, k);
      RowsIdentified(log, k);
      KeptMentions(log, keep, k);
      CompactedView(a, b, k, RowsOf(log, k), RowsOf(log', k), EarliestMention(Group(log, k)), cfg);
    }
    SameViewsSameList(items, items', log, log', cfg, NoSince);
  }

  lemma ShownKey(log: seq<Row>, k: ItemKey)
    requires Shown(RowsOf(log, k))
    ensures k in Keys(log)
  {
    var r :| IsCurrent(r, RowsOf(log, k)) && IsOpen(r);
    assert r in RowsOf(log, k);
  }

  lemma CompactedShown(log: seq<Row>, keep: Row -> bool, k: ItemKey)
    requires DistinctIDs(log) && DropsSuperseded(log, keep)
    ensures var log' := Kept(log, keep);
            (k in Keys(log) && Shown(RowsOf(log, k))) <==> (k in Keys(log') && Shown(RowsOf(log', k)))
  {
    var log' := Kept(log, keep);
    CompactedRows(log, keep, k);
    RowsIdentified(log, k);
    if Shown(RowsOf(log, k)) {
      var r :| IsCurrent(r, RowsOf(log, k)) && IsOpen(r);
      CurrentSurvives(r, RowsOf(log, k), RowsOf(log', k));
      ShownKey(log', k);
    }
    if Shown(RowsOf(log', k)) {
      var r :| IsCurrent(r, RowsOf(log', k)) && IsOpen(r);
      CurrentSurvives(r, RowsOf(log, k), RowsOf(log', k));
      ShownKey(log, k);
    }
  }

  // ---- broken builds ----

  predicate NotCIFailed(r: Row) {
    r.eventType != Signal(CIFailed)
  }

  function NoCounts(it: WorkItem): WorkItem {
    it.(signalCounts := map[])
  }

  /** The item is old on its activity without ci_failed. */
  ghost predicate OldWithoutCI(rows: set<Row>, cfg: Config) {
    exists r, base :: IsCurrent(r, rows) && r.body.Snapshot? && cfg.oldThreshold > 0
                      && IsClock(base, rows, r.body.facts, r.observedAt, true)
                      && cfg.now - base > cfg.oldThreshold
  }

  /** The two sets of rows agree on everything but ci_failed signals. */
  ghost predicate SameButCI(rows: set<Row>, rows': set<Row>) {
    forall r :: NotCIFailed(r) ==> (r in rows <==> r in rows')
  }

  lemma SameButCICurrent(r: Row, rows: set<Row>, rows': set<Row>)
    requires SameButCI(rows, rows') && IsCurrent(r, rows)
    ensures IsCurrent(r, rows')
  {
    assert ObservedOf(rows) == ObservedOf(rows') by {
      assert forall x :: IsObserved(x) ==> (x in rows <==> x in rows');
    }
    forall s | s in rows' && IsRemoval(s)
      ensures s.id <= r.id
    {
      assert s in rows;
    }
  }

  lemma SameButCITimes(rows: set<Row>, rows': set<Row>)
    requires SameButCI(rows, rows')
    ensures SignalTimes(rows, true) == SignalTimes(rows', true)
    ensures HasMention(rows) <==> HasMention(rows')
    ensures ObservedOf(rows) == ObservedOf(rows')
  {
    assert forall r :: Counts(r, true) ==> NotCIFailed(r);
    assert forall r :: r in rows && Counts(r, true) <==> r in rows' && Counts(r, true);
    assert forall r :: IsMention(r) || IsObserved(r) ==> NotCIFailed(r);
    assert HasMention(rows) ==> HasMention(rows') by {
      if HasMention(rows) {
        var r :| r in rows && IsMention(r);
        assert r in rows';
      }
    }
    assert HasMention(rows') ==> HasMention(rows) by {
      if HasMention(rows') {
        var r :| r in rows' && IsMention(r);
        assert r in rows;
      }
    }
  }

  /** An item that is old without ci_failed is ranked by that clock alone. */
  lemma OldClock(t: Time, r: Row, rows: set<Row>, cfg: Config) returns (base: Time)
    requires IDsIdentify(rows) && OldWithoutCI(rows, cfg) && IsCurrent(r, rows) && r.body.Snapshot?
    requires IsRankingTime(t, rows, r.body.facts, r.observedAt, cfg)
    ensures t == base && IsClock(base, rows, r.body.facts, r.observedAt, true)
    ensures cfg.oldThreshold > 0 && cfg.now - base > cfg.oldThreshold
  {
    var s;
    s, base :| IsCurrent(s, rows) && s.body.Snapshot? && cfg.oldThreshold > 0
               && IsClock(base, rows, s.body.facts, s.observedAt, true) && cfg.now - base > cfg.oldThreshold;
    CurrentUnique(r, s, rows);
    var b :| IsClock(b, rows, r.body.facts, r.observedAt, true)
             && if cfg.now - b > cfg.oldThreshold then t == b else IsClock(t, rows, r.body.facts, r.observedAt, false);
    ClockUnique(b, base, rows, r.body.facts, r.observedAt, true);
  }

  lemma OldCarriesOver(rows: set<Row>, rows': set<Row>, cfg: Config)
    requires SameButCI(rows, rows') && OldWithoutCI(rows, cfg)
    ensures OldWithoutCI(rows', cfg)
  {
    var r, base :| IsCurrent(r, rows) && r.body.Snapshot? && cfg.oldThreshold > 0
                   && IsClock(base, rows, r.body.facts, r.observedAt, true) && cfg.now - base > cfg.oldThreshold;
    SameButCICurrent(r, rows, rows');
    SameButCITimes(rows, rows');
    ClockDecided(base, rows, rows', r.body.facts, r.observedAt, true);
  }

  /** Adding or deleting ci_failed signals changes of an old item nothing but its counts. */
  lemma OldItemUnmoved(a: WorkItem, b: WorkItem, k: ItemKey, rows: set<Row>, rows': set<Row>, mention: Time, cfg: Config)
    requires IDsIdentify(rows) && IDsIdentify(rows') && SameButCI(rows, rows') && OldWithoutCI(rows, cfg)
    requires IsView(a, k, rows, mention, cfg) && IsView(b, k, rows', mention, cfg)
    ensures NoCounts(a) == NoCounts(b)
    ensures a.updatedAt == b.updatedAt && a.isOld && b.isOld && !a.stale && !b.stale
  {
    var r := ViewCurrent(a, k, rows, mention, cfg);
    var s := ViewCurrent(b, k, rows', mention, cfg);
    SameButCICurrent(r, rows, rows');
    CurrentUnique(r, s, rows');
    SameButCITimes(rows, rows');
    OldCarriesOver(rows, rows', cfg);
    OldClocksAgree(a.updatedAt, b.updatedAt, r, rows, rows', cfg);
    OldParts(a, b, k, r.body.facts, ObservedOf(rows), HasMention(rows), mention, cfg);
  }

  lemma OldParts(a: WorkItem, b: WorkItem, k: ItemKey, f: Payload, observed: set<Row>, hasMention: bool, mention: Time, cfg: Config)
    requires IDsIdentify(observed) && a.updatedAt == b.updatedAt && IsOld(a.updatedAt, cfg)
    requires ShowsFacts(a, k, f, cfg) && ShowsFacts(b, k, f, cfg)
    requires a.states == b.states == StatesOf(f, hasMention)
    requires IsSince(a.since, observed, f, hasMention, mention) && IsSince(b.since, observed, f, hasMention, mention)
    ensures NoCounts(a) == NoCounts(b)
    ensures a.isOld && b.isOld && !a.stale && !b.stale
  {
    SinceUnique(a.since, b.since, observed, f, hasMention, mention);
    FactsDetermine(a, b, k, f, cfg);
  }

  lemma OldClocksAgree(t: Time, u: Time, r: Row, rows: set<Row>, rows': set<Row>, cfg: Config)
    requires IDsIdentify(rows) && IDsIdentify(rows') && SignalTimes(rows, true) == SignalTimes(rows', true)
    requires OldWithoutCI(rows, cfg) && OldWithoutCI(rows', cfg)
    requires IsCurrent(r, rows) && IsCurrent(r, rows') && r.body.Snapshot?
    requires IsRankingTime(t, rows, r.body.facts, r.observedAt, cfg)
    requires IsRankingTime(u, rows', r.body.facts, r.observedAt, cfg)
    ensures t == u && IsOld(t, cfg)
  {
    var base := OldClock(t, r, rows, cfg);
    var base' := OldClock(u, r, rows', cfg);
    ClockDecided(base, rows, rows', r.body.facts, r.observedAt, true);
    ClockUnique(base, base', rows', r.body.facts, r.observedAt, true);
  }

  /**
   Broken builds never resurrect old work. Two logs that differ in ci_failed signals only,
   and only on items that are old without them, fold to the same items in the same order,
   with the same fields but the signal counts.
   */
  lemma BrokenBuildsDoNotResurrect(log: seq<Row>, log': seq<Row>, items: seq<WorkItem>, items': seq<WorkItem>, cfg: Config)
    requires DistinctIDs(log) && DistinctIDs(log') && Kept(log, NotCIFailed) == Kept(log', NotCIFailed)
    requires forall k :: OldWithoutCI(RowsOf(log, k), cfg) || RowsOf(log, k) == RowsOf(log', k)
    requires IsFold(items, log, cfg) && IsFold(items', log', cfg)
    ensures Stripped(items, NoCounts) == Stripped(items', NoCounts)
  {
    forall k
      ensures (k in Keys(log) && Shown(RowsOf(log, k))) <==> (k in Keys(log') && Shown(RowsOf(log', k)))
    {
      SameButCIRows(log, log', k);
      SameButCIShown(log, log', k);
      SameButCIShown(log', log, k);
    }
    forall k, a, b |
      && IsView(a, k, RowsOf(log, k), EarliestMention(Group(log, k)), cfg)
      && IsView(b, k, RowsOf(log', k), EarliestMention(Group(log', k)), cfg)
      ensures NoCounts(a) == NoCounts(b)
    {
      SameButCIRows(log, log', k);
      RowsIdentified(log, k);
      RowsIdentified(log', k);
      if OldWithoutCI(RowsOf(log, k), cfg) {
        OldItemUnmoved(a, b, k, RowsOf(log, k), RowsOf(log', k), EarliestMention(Group(log, k)), cfg);
      } else {
        ViewUnique(a, b, k, RowsOf(log, k), EarliestMention(Group(log, k)), cfg);
      }
    }
    SameViewsSameList(items, items', log, log', cfg, NoCounts);
  }

  lemma SameButCIRows(log: seq<Row>, log': seq<Row>, k: ItemKey)
    requires Kept(log, NotCIFailed) == Kept(log', NotCIFailed)
    ensures SameButCI(RowsOf(log, k), RowsOf(log', k))
    ensures EarliestMention(Group(log, k)) == EarliestMention(Group(log', k))
  {
    forall r | NotCIFailed(r)
      ensures r in RowsOf(log, k) <==> r in RowsOf(log', k)
    {
      KeptMembers(log, NotCIFailed, r);
      KeptMembers(log', NotCIFailed, r);
    }
    KeptMentions(log, NotCIFailed, k);
    KeptMentions(log', NotCIFailed, k);
  }

  lemma SameButCIShown(log: seq<Row>, log': seq<Row>, k: ItemKey)
    requires SameButCI(RowsOf(log, k), RowsOf(log', k))
    ensures Shown(RowsOf(log, k)) ==> Shown(RowsOf(log', k)) && k in Keys(log')
  {
    if Shown(RowsOf(log, k)) {
      var r :| IsCurrent(r, RowsOf(log, k)) && IsOpen(r);
      SameButCICurrent(r, RowsOf(log, k), RowsOf(log', k));
      ShownKey(log', k);
    }
  }
}
