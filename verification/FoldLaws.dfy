/** What follows from the view: the fold is determined, and independent of the order of its rows. */
module FoldLaws {
  import opened Model
  import opened States
  import opened FoldView

  // ---- the view of one item is determined ----

  lemma CurrentUnique(r: Row, s: Row, rows: set<Row>)
    requires IDsIdentify(rows) && IsCurrent(r, rows) && IsCurrent(s, rows)
    ensures r == s
  {
    assert r in ObservedOf(rows) && s in ObservedOf(rows);
  }

  lemma ClockUnique(t: Time, u: Time, rows: set<Row>, f: Payload, observedAt: Time, excludeCIFailed: bool)
    requires IsClock(t, rows, f, observedAt, excludeCIFailed) && IsClock(u, rows, f, observedAt, excludeCIFailed)
    ensures t == u
  {
    var times := SignalTimes(rows, excludeCIFailed);
    var a :| IsLatestTime(a, times) && t == if a != ZERO_TIME then a else SnapshotTime(f, observedAt);
    var b :| IsLatestTime(b, times) && u == if b != ZERO_TIME then b else SnapshotTime(f, observedAt);
  }

  lemma RankingTimeUnique(t: Time, u: Time, rows: set<Row>, f: Payload, observedAt: Time, cfg: Config)
    requires IsRankingTime(t, rows, f, observedAt, cfg) && IsRankingTime(u, rows, f, observedAt, cfg)
    ensures t == u
  {
    if cfg.oldThreshold > 0 {
      var a :| IsClock(a, rows, f, observedAt, true)
               && if cfg.now - a > cfg.oldThreshold then t == a else IsClock(t, rows, f, observedAt, false);
      var b :| IsClock(b, rows, f, observedAt, true)
               && if cfg.now - b > cfg.oldThreshold then u == b else IsClock(u, rows, f, observedAt, false);
      ClockUnique(a, b, rows, f, observedAt, true);
      if cfg.now - a <= cfg.oldThreshold {
        ClockUnique(t, u, rows, f, observedAt, false);
      }
    } else {
      ClockUnique(t, u, rows, f, observedAt, false);
    }
  }

  lemma SinceEntryUnique(a: map<Tag, Time>, b: map<Tag, Time>, observed: set<Row>, f: Payload, hasMention: bool,
                         mention: Time, tag: Tag)
    requires IDsIdentify(observed)
    requires IsSince(a, observed, f, hasMention, mention) && IsSince(b, observed, f, hasMention, mention)
    ensures tag in a <==> tag in b
    ensures tag in a ==> a[tag] == b[tag]
  {
    assert SinceEntry(a, tag, observed, f, hasMention, mention) && SinceEntry(b, tag, observed, f, hasMention, mention);
    if tag != StateTag(MentionedState) && tag in a && tag in b {
      OnsetUnique(a[tag], b[tag], observed, tag);
    }
  }

  lemma SinceUnique(a: map<Tag, Time>, b: map<Tag, Time>, observed: set<Row>, f: Payload, hasMention: bool, mention: Time)
    requires IDsIdentify(observed)
    requires IsSince(a, observed, f, hasMention, mention) && IsSince(b, observed, f, hasMention, mention)
    ensures a == b
  {
    forall tag
      ensures tag in a <==> tag in b
      ensures tag in a ==> a[tag] == b[tag]
    {
      SinceEntryUnique(a, b, observed, f, hasMention, mention, tag);
    }
  }

  lemma CountsUnique(a: map<SignalKind, nat>, b: map<SignalKind, nat>, rows: set<Row>)
    requires IsSignalCounts(a, rows) && IsSignalCounts(b, rows)
    ensures a == b
  {
    assert forall kind :: kind in a <==> kind in b;
  }

  lemma FactsDetermine(a: WorkItem, b: WorkItem, k: ItemKey, f: Payload, cfg: Config)
    requires ShowsFacts(a, k, f, cfg) && ShowsFacts(b, k, f, cfg)
    requires a.states == b.states && a.updatedAt == b.updatedAt
    ensures a == b.(signalCounts := a.signalCounts, since := a.since)
  {
  }

  /** The snapshot that a view shows. */
  lemma ViewCurrent(it: WorkItem, k: ItemKey, rows: set<Row>, mention: Time, cfg: Config) returns (r: Row)
    requires IsView(it, k, rows, mention, cfg)
    ensures IsCurrent(r, rows) && IsOpen(r) && ShowsFacts(it, k, r.body.facts, cfg)
    ensures it.states == StatesOf(r.body.facts, HasMention(rows))
    ensures IsRankingTime(it.updatedAt, rows, r.body.facts, r.observedAt, cfg)
    ensures IsSignalCounts(it.signalCounts, rows)
    ensures IsSince(it.since, ObservedOf(rows), r.body.facts, HasMention(rows), mention)
  {
    r :| IsCurrent(r, rows) && IsOpen(r) && ShowsFacts(it, k, r.body.facts, cfg)
         && it.states == StatesOf(r.body.facts, HasMention(rows))
         && IsRankingTime(it.updatedAt, rows, r.body.facts, r.observedAt, cfg)
         && IsSignalCounts(it.signalCounts, rows)
         && IsSince(it.since, ObservedOf(rows), r.body.facts, HasMention(rows), mention);
  }

  /** One item has one view. */
  lemma ViewUnique(a: WorkItem, b: WorkItem, k: ItemKey, rows: set<Row>, mention: Time, cfg: Config)
    requires IDsIdentify(rows)
    requires IsView(a, k, rows, mention, cfg) && IsView(b, k, rows, mention, cfg)
    ensures a == b
  {
    var r := ViewCurrent(a, k, rows, mention, cfg);
    var s := ViewCurrent(b, k, rows, mention, cfg);
    CurrentUnique(r, s, rows);
    RankingTimeUnique(a.updatedAt, b.updatedAt, rows, r.body.facts, r.observedAt, cfg);
    CountsUnique(a.signalCounts, b.signalCounts, rows);
    SinceUnique(a.since, b.since, ObservedOf(rows), r.body.facts, HasMention(rows), mention);
    FactsDetermine(a, b, k, r.body.facts, cfg);
  }

  // ---- a ranked list is determined by its elements ----

  ghost predicate IsRanked(items: seq<WorkItem>) {
    forall i, j :: 0 <= i < j < |items| ==> Before(items[i], items[j])
  }

  lemma EmptyTogether<T>(a: seq<T>, b: seq<T>)
    requires forall x :: x in a <==> x in b
    ensures a == [] <==> b == []
  {
    if a != [] {
      assert a[0] in b;
    }
    if b != [] {
      assert b[0] in a;
    }
  }

  /** Two ranked lists with the same elements are the same list. */
  lemma {:induction false} RankedUnique(a: seq<WorkItem>, b: seq<WorkItem>)
    requires IsRanked(a) && IsRanked(b) && forall it :: it in a <==> it in b
    ensures a == b
  {
    EmptyTogether(a, b);
    if a != [] {
      assert a[0] in b && |b| > 0 && b[0] in a;
      var i :| 0 <= i < |b| && b[i] == a[0];
      var j :| 0 <= j < |a| && a[j] == b[0];
      assert a[0] == b[0];
      TailElements(a);
      TailElements(b);
      RankedUnique(a[1..], b[1..]);
      assert a == [a[0]] + a[1..] && b == [b[0]] + b[1..];
    }
  }

  lemma TailElements(a: seq<WorkItem>)
    requires IsRanked(a) && a != []
    ensures forall it :: it in a[1..] <==> it in a && it != a[0]
  {
    forall it | it in a && it != a[0]
      ensures it in a[1..]
    {
      var i :| 0 <= i < |a| && a[i] == it;
      assert a[1..][i - 1] == it;
    }
    forall it | it in a[1..]
      ensures it in a && it != a[0]
    {
      var i :| 0 <= i < |a| - 1 && a[1..][i] == it;
      assert Before(a[0], a[i + 1]);
    }
  }

  lemma RowsIdentified(rows: seq<Row>, k: ItemKey)
    requires DistinctIDs(rows)
    ensures IDsIdentify(RowsOf(rows, k))
  {
    forall r, s | r in RowsOf(rows, k) && s in RowsOf(rows, k) && r.id == s.id
      ensures r == s
    {
      var i :| 0 <= i < |rows| && rows[i] == r;
      var j :| 0 <= j < |rows| && rows[j] == s;
    }
  }

  lemma ViewShown(it: WorkItem, k: ItemKey, rows: set<Row>, mention: Time, cfg: Config)
    requires IsView(it, k, rows, mention, cfg)
    ensures Shown(rows) && it.key == k
  {
    var r := ViewCurrent(it, k, rows, mention, cfg);
  }

  /** What strips from an item the fields that a change of the log may touch; never its rank. */
  ghost predicate KeepsRank(strip: WorkItem -> WorkItem) {
    forall it :: strip(it).updatedAt == it.updatedAt && strip(it).id == it.id && strip(it).key == it.key
  }

  function Stripped(items: seq<WorkItem>, strip: WorkItem -> WorkItem): seq<WorkItem> {
    seq(|items|, i requires 0 <= i < |items| => strip(items[i]))
  }

  /** The items of the two logs agree up to the stripped fields. */
  ghost predicate SameViews(log: seq<Row>, log': seq<Row>, cfg: Config, strip: WorkItem -> WorkItem) {
    && (forall k :: (k in Keys(log) && Shown(RowsOf(log, k))) <==> (k in Keys(log') && Shown(RowsOf(log', k))))
    && (forall k, a, b ::
          IsView(a, k, RowsOf(log, k), EarliestMention(Group(log, k)), cfg)
          && IsView(b, k, RowsOf(log', k), EarliestMention(Group(log', k)), cfg)
          ==> strip(a) == strip(b))
  }

  lemma FoldHolds(items: seq<WorkItem>, log: seq<Row>, cfg: Config, k: ItemKey) returns (it: WorkItem)
    requires IsFold(items, log, cfg) && k in Keys(log) && Shown(RowsOf(log, k))
    ensures it in items && it.key == k && IsView(it, k, RowsOf(log, k), EarliestMention(Group(log, k)), cfg)
  {
    var i :| 0 <= i < |items| && items[i].key == k;
    it := items[i];
  }

  lemma StrippedIncluded(items: seq<WorkItem>, items': seq<WorkItem>, log: seq<Row>, log': seq<Row>, cfg: Config,
                         strip: WorkItem -> WorkItem, x: WorkItem)
    requires IsFold(items, log, cfg) && IsFold(items', log', cfg) && SameViews(log, log', cfg, strip)
    requires x in Stripped(items, strip)
    ensures x in Stripped(items', strip)
  {
    var i :| 0 <= i < |items| && strip(items[i]) == x;
    var a := items[i];
    ViewShown(a, a.key, RowsOf(log, a.key), EarliestMention(Group(log, a.key)), cfg);
    var b := FoldHolds(items', log', cfg, a.key);
    var j :| 0 <= j < |items'| && items'[j] == b;
    assert Stripped(items', strip)[j] == strip(b) == x;
  }

  /** Logs whose items agree up to the stripped fields fold to lists that agree up to them, in order. */
  lemma SameViewsSameList(items: seq<WorkItem>, items': seq<WorkItem>, log: seq<Row>, log': seq<Row>, cfg: Config,
                          strip: WorkItem -> WorkItem)
    requires IsFold(items, log, cfg) && IsFold(items', log', cfg) && KeepsRank(strip)
    requires SameViews(log, log', cfg, strip)
    ensures Stripped(items, strip) == Stripped(items', strip)
  {
    AllIncluded(items, items', log, log', cfg, strip);
    SameViewsSymmetric(log, log', cfg, strip);
    AllIncluded(items', items, log', log, cfg, strip);
    StrippedRanked(items, strip);
    StrippedRanked(items', strip);
    RankedUnique(Stripped(items, strip), Stripped(items', strip));
  }

  lemma AllIncluded(items: seq<WorkItem>, items': seq<WorkItem>, log: seq<Row>, log': seq<Row>, cfg: Config,
                    strip: WorkItem -> WorkItem)
    requires IsFold(items, log, cfg) && IsFold(items', log', cfg) && SameViews(log, log', cfg, strip)
    ensures forall x :: x in Stripped(items, strip) ==> x in Stripped(items', strip)
  {
    forall x | x in Stripped(items, strip)
      ensures x in Stripped(items', strip)
    {
      StrippedIncluded(items, items', log, log', cfg, strip, x);
    }
  }

  lemma StrippedRanked(items: seq<WorkItem>, strip: WorkItem -> WorkItem)
    requires IsRanked(items) && KeepsRank(strip)
    ensures IsRanked(Stripped(items, strip))
  {
    forall i, j | 0 <= i < j < |items|
      ensures Before(strip(items[i]), strip(items[j]))
    {
      assert Before(items[i], items[j]);
    }
  }

  lemma SameViewsSymmetric(log: seq<Row>, log': seq<Row>, cfg: Config, strip: WorkItem -> WorkItem)
    requires SameViews(log, log', cfg, strip)
    ensures SameViews(log', log, cfg, strip)
  {
  }
}
