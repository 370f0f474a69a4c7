/** What dates an item of the list, and its onsets: provider times first, poll times where there are none. */
module FoldClock {
  import opened Model
  import opened States
  import opened FoldView
  import opened FoldLaws
  import opened FoldReaders
  import opened EngineRuns
  import opened RowTimes

  // ---- the clock of one item ----

  ghost predicate NoSignals(rows: set<Row>) {
    forall r :: r in rows ==> !r.eventType.Signal?
  }

  lemma SilentClock(t: Time, rows: set<Row>, f: Payload, observedAt: Time, excludeCIFailed: bool)
    requires NoSignals(rows) && IsClock(t, rows, f, observedAt, excludeCIFailed)
    ensures t == match f.providerUpdatedAt case Some(at) => at case None => observedAt
  {
    assert SignalTimes(rows, excludeCIFailed) == {};
  }

  lemma SilentRankingTime(t: Time, rows: set<Row>, f: Payload, observedAt: Time, cfg: Config)
    requires NoSignals(rows) && IsRankingTime(t, rows, f, observedAt, cfg)
    ensures t == match f.providerUpdatedAt case Some(at) => at case None => observedAt
  {
    if cfg.oldThreshold > 0 {
      var base :| IsClock(base, rows, f, observedAt, true)
                  && if cfg.now - base > cfg.oldThreshold then t == base else IsClock(t, rows, f, observedAt, false);
      SilentClock(base, rows, f, observedAt, true);
      if cfg.now - base <= cfg.oldThreshold {
        SilentClock(t, rows, f, observedAt, false);
      }
    } else {
      SilentClock(t, rows, f, observedAt, false);
    }
  }

  /**
   An item without signals is dated by the provider's time on its current snapshot, and by the
   time of the poll that wrote it where there is none, under every configuration; and that
   time, the clock and the thresholds alone decide whether it is old or stale.
   */
  lemma SnapshotDates(it: WorkItem, k: ItemKey, rows: set<Row>, mention: Time, cfg: Config, r: Row)
    requires IDsIdentify(rows) && IsView(it, k, rows, mention, cfg) && NoSignals(rows)
    requires IsCurrent(r, rows) && r.body.Snapshot?
    ensures it.updatedAt == match r.body.facts.providerUpdatedAt case Some(at) => at case None => r.observedAt
    ensures it.isOld <==> cfg.oldThreshold > 0 && cfg.now > it.updatedAt + cfg.oldThreshold
    ensures it.stale <==> !it.isOld && cfg.staleThreshold > 0 && cfg.now > it.updatedAt + cfg.staleThreshold
  {
    var c := ViewCurrent(it, k, rows, mention, cfg);
    CurrentUnique(r, c, rows);
    SilentRankingTime(it.updatedAt, rows, r.body.facts, r.observedAt, cfg);
  }

  /** The time is that of a signal row: the provider's where it gave one, else the poll's. */
  predicate DatedAt(r: Row, t: Time) {
    r.occurredAt == Some(t) || (r.occurredAt == None && r.observedAt == t)
  }

  lemma SignalClock(t: Time, rows: set<Row>, f: Payload, observedAt: Time, excludeCIFailed: bool, s: Row, at: Time)
    requires IsClock(t, rows, f, observedAt, excludeCIFailed)
    requires s in rows && s.eventType.Signal? && DatedAt(s, at) && at > 0 && !(excludeCIFailed && s.eventType == Signal(CIFailed))
    requires forall x, u :: x in rows && x.eventType.Signal? && DatedAt(x, u) ==> u <= at
    ensures t == at
  {
    var times := SignalTimes(rows, excludeCIFailed);
    assert SignalTime(s) in times;
    forall u | u in times
      ensures u <= at
    {
      var x :| x in rows && Counts(x, excludeCIFailed) && SignalTime(x) == u;
      assert DatedAt(x, u);
    }
  }

  /**
   An item with signals is dated by the latest of them, however recent its snapshots; a
   ci_failed signal does so only where no age threshold guards against it.
   */
  lemma SignalDates(it: WorkItem, k: ItemKey, rows: set<Row>, mention: Time, cfg: Config, s: Row, at: Time)
    requires IsView(it, k, rows, mention, cfg)
    requires s in rows && s.eventType.Signal? && DatedAt(s, at) && at > 0
    requires forall x, u :: x in rows && x.eventType.Signal? && DatedAt(x, u) ==> u <= at
    requires cfg.oldThreshold <= 0 || s.eventType != Signal(CIFailed)
    ensures it.updatedAt == at
  {
    var c := ViewCurrent(it, k, rows, mention, cfg);
    var f, observedAt := c.body.facts, c.observedAt;
    if cfg.oldThreshold > 0 {
      var base :| IsClock(base, rows, f, observedAt, true)
                  && if cfg.now - base > cfg.oldThreshold then it.updatedAt == base else IsClock(it.updatedAt, rows, f, observedAt, false);
      SignalClock(base, rows, f, observedAt, true, s, at);
      if cfg.now - base <= cfg.oldThreshold {
        SignalClock(it.updatedAt, rows, f, observedAt, false, s, at);
      }
    } else {
      SignalClock(it.updatedAt, rows, f, observedAt, false, s, at);
    }
  }

  // ---- the list ----

  /** The item has no signals, and its current snapshot carries the provider's time t. */
  ghost predicate ProviderDated(log: seq<Row>, k: ItemKey, t: Time) {
    NoSignals(RowsOf(log, k)) && exists r :: IsCurrent(r, RowsOf(log, k)) && r.body.Snapshot? && r.body.facts.providerUpdatedAt == Some(t)
  }

  lemma ListedAt(items: seq<WorkItem>, log: seq<Row>, cfg: Config, i: nat, t: Time)
    requires DistinctIDs(log) && IsFold(items, log, cfg) && i < |items| && ProviderDated(log, items[i].key, t)
    ensures items[i].updatedAt == t
  {
    var k := items[i].key;
    var r :| IsCurrent(r, RowsOf(log, k)) && r.body.Snapshot? && r.body.facts.providerUpdatedAt == Some(t);
    RowsIdentified(log, k);
    SnapshotDates(items[i], k, RowsOf(log, k), EarliestMention(Group(log, k)), cfg, r);
  }

  /**
   Of two such items the one that the provider updated later is listed first, whenever either
   was polled; two that it updated at the same time are listed by their ids.
   */
  lemma ListedByProviderTime(items: seq<WorkItem>, log: seq<Row>, cfg: Config, i: nat, j: nat, t: Time, u: Time)
    requires DistinctIDs(log) && IsFold(items, log, cfg) && i < |items| && j < |items|
    requires ProviderDated(log, items[i].key, t) && ProviderDated(log, items[j].key, u)
    requires t > u || (t == u && cfg.digest(items[i].key) < cfg.digest(items[j].key))
    ensures i < j
  {
    ListedAt(items, log, cfg, i, t);
    ListedAt(items, log, cfg, j, u);
    var r := ViewCurrent(items[i], items[i].key, RowsOf(log, items[i].key), EarliestMention(Group(log, items[i].key)), cfg);
    var s := ViewCurrent(items[j], items[j].key, RowsOf(log, items[j].key), EarliestMention(Group(log, items[j].key)), cfg);
  }

  // ---- onsets ----

  /** Each onset but the mention's is the provider's time of the snapshot that starts the run, or the time of its poll. */
  lemma OnsetDates(it: WorkItem, k: ItemKey, rows: set<Row>, mention: Time, cfg: Config, tag: Tag) returns (r: Row)
    requires IsView(it, k, rows, mention, cfg) && IDsIdentify(rows)
    requires tag in it.since && tag != StateTag(MentionedState)
    ensures StartsRun(r, ObservedOf(rows), Having(ObservedOf(rows), tag)) && r.body.Snapshot?
    ensures it.since[tag] == match r.body.facts.providerUpdatedAt case Some(at) => at case None => r.observedAt
  {
    OnsetStartsRun(it, k, rows, mention, cfg, tag);
    r :| StartsRun(r, ObservedOf(rows), Having(ObservedOf(rows), tag)) && r.body.Snapshot?
         && it.since[tag] == SnapshotTime(r.body.facts, r.observedAt);
  }

  // ---- mentions and counts ----

  /** The mention chip shows exactly on an item that someone mentioned me on. */
  lemma MentionShows(it: WorkItem, k: ItemKey, rows: set<Row>, mention: Time, cfg: Config)
    requires IsView(it, k, rows, mention, cfg)
    ensures MentionedState in it.states <==> exists r :: r in rows && r.eventType == Signal(Mentioned)
  {
    var c := ViewCurrent(it, k, rows, mention, cfg);
    StatesAreTheMatches(c.body.facts, HasMention(rows), |PRECEDENCE|);
    if r :| r in rows && r.eventType == Signal(Mentioned) {
      assert IsMention(r);
    }
  }

  lemma {:induction false} EarliestIsMinimum(rows: seq<Row>)
    requires forall r, t :: r in rows && r.eventType == Signal(Mentioned) && DatedAt(r, t) ==> t != ZERO_TIME
    ensures (exists r :: r in rows && r.eventType == Signal(Mentioned)) ==>
              exists r :: r in rows && r.eventType == Signal(Mentioned) && DatedAt(r, EarliestMention(rows))
    ensures forall r, t :: r in rows && r.eventType == Signal(Mentioned) && DatedAt(r, t) ==> EarliestMention(rows) <= t
    ensures !(exists r :: r in rows && r.eventType == Signal(Mentioned)) ==> EarliestMention(rows) == ZERO_TIME
  {
    if rows != [] {
      var init, last := rows[..|rows| - 1], rows[|rows| - 1];
      assert forall r :: r in rows <==> r in init || r == last;
      EarliestIsMinimum(init);
      assert DatedAt(last, SignalTime(last));
      assert forall t :: DatedAt(last, t) ==> t == SignalTime(last);
    }
  }

  lemma {:induction false} GroupMembers(rows: seq<Row>, k: ItemKey)
    ensures forall r :: r in Group(rows, k) <==> r in RowsOf(rows, k)
  {
    if rows != [] {
      GroupMembers(rows[..|rows| - 1], k);
      assert forall r :: r in rows <==> r in rows[..|rows| - 1] || r == rows[|rows| - 1];
    }
  }

  /** The mention's onset is the time of the item's first mention, when every mention has a time. */
  lemma MentionDates(items: seq<WorkItem>, log: seq<Row>, cfg: Config, i: nat)
    requires IsFold(items, log, cfg) && i < |items|
    requires forall r, t :: r in RowsOf(log, items[i].key) && r.eventType == Signal(Mentioned) && DatedAt(r, t) ==> t != ZERO_TIME
    ensures var tag, rows := StateTag(MentionedState), RowsOf(log, items[i].key);
            && (tag in items[i].since <==> exists r :: r in rows && r.eventType == Signal(Mentioned))
            && (tag in items[i].since ==>
                  && (exists r :: r in rows && r.eventType == Signal(Mentioned) && DatedAt(r, items[i].since[tag]))
                  && forall r, t :: r in rows && r.eventType == Signal(Mentioned) && DatedAt(r, t) ==> items[i].since[tag] <= t)
  {
    var k := items[i].key;
    var rows, mention := RowsOf(log, k), EarliestMention(Group(log, k));
    GroupMembers(log, k);
    EarliestIsMinimum(Group(log, k));
    var c := ViewCurrent(items[i], k, rows, mention, cfg);
    assert SinceEntry(items[i].since, StateTag(MentionedState), ObservedOf(rows), c.body.facts, HasMention(rows), mention);
    assert HasMention(rows) <==> exists r :: r in rows && r.eventType == Signal(Mentioned) by {
      assert forall r :: IsMention(r) <==> r.eventType == Signal(Mentioned);
    }
  }

  lemma TwoElements<T>(of: set<T>)
    ensures |of| > 1 <==> exists r, s :: r in of && s in of && r != s
  {
    if r, s :| r in of && s in of && r != s {
      assert |of| == |{r, s}| + |of - {r, s}|;
    }
    if |of| > 1 {
      var r :| r in of;
      assert |of - {r}| == |of| - 1;
      var s :| s in of - {r};
    }
  }

  /** A kind of signal is counted exactly when the item has two of them. */
  lemma CountedIsRepeated(it: WorkItem, k: ItemKey, rows: set<Row>, mention: Time, cfg: Config, kind: SignalKind)
    requires IsView(it, k, rows, mention, cfg)
    ensures kind in it.signalCounts <==>
            exists r, s :: r in rows && s in rows && r != s && r.eventType == s.eventType == Signal(kind)
  {
    var c := ViewCurrent(it, k, rows, mention, cfg);
    TwoElements(OfKind(rows, kind));
    if r, s :| r in rows && s in rows && r != s && r.eventType == s.eventType == Signal(kind) {
      assert r in OfKind(rows, kind) && s in OfKind(rows, kind);
    }
  }

  // ---- over engine runs ----

  /**
   From poll to list. After any engine run, an item without signals whose current snapshot the
   provider left undated is dated by the clock of the cycle that wrote that snapshot.
   */
  lemma PollTimeDates(turns: seq<Turn>, n: nat, items: seq<WorkItem>, cfg: Config, i: nat, r: Row) returns (m: nat)
    requires IsEngineRun(turns) && n <= |turns| && IsFold(items, RowsAt(turns, n), cfg) && i < |items|
    requires NoSignals(RowsOf(RowsAt(turns, n), items[i].key))
    requires IsCurrent(r, RowsOf(RowsAt(turns, n), items[i].key)) && r.body.Snapshot? && r.body.facts.providerUpdatedAt == None
    ensures m < n && turns[m].conn == items[i].key.conn && r !in RowsAt(turns, m) && r in RowsAt(turns, m + 1)
    ensures items[i].updatedAt == turns[m].cycle.env.now
  {
    EngineLogInv(turns, n);
    assert r in RowsAt(turns, n);
    m := WriterOf(turns, n, r);
    ListedAtPoll(items, RowsAt(turns, n), cfg, i, r);
  }

  lemma ListedAtPoll(items: seq<WorkItem>, log: seq<Row>, cfg: Config, i: nat, r: Row)
    requires DistinctIDs(log) && IsFold(items, log, cfg) && i < |items| && NoSignals(RowsOf(log, items[i].key))
    requires IsCurrent(r, RowsOf(log, items[i].key)) && r.body.Snapshot? && r.body.facts.providerUpdatedAt == None
    ensures items[i].updatedAt == r.observedAt
  {
    var k := items[i].key;
    RowsIdentified(log, k);
    SnapshotDates(items[i], k, RowsOf(log, k), EarliestMention(Group(log, k)), cfg, r);
  }
}
