/**
 Order independence of the fold, and the one scan that breaks it: the earliest mention, when
 a mention carries the zero time.
 */
module FoldOrder {
  import opened Model
  import opened FoldView
  import opened FoldMethods
  import opened FoldLaws
  import opened States

  /** No mention has the zero time, or one lies before it, or none lies after it. */
  ghost predicate MentionOrderFree(rows: seq<Row>) {
    || (forall r :: r in rows && IsMention(r) ==> SignalTime(r) != ZERO_TIME)
    || (exists r :: r in rows && IsMention(r) && SignalTime(r) < ZERO_TIME)
    || (forall r :: r in rows && IsMention(r) ==> SignalTime(r) <= ZERO_TIME)
  }

  /** What the scan for the earliest mention can return. */
  lemma {:induction false} EarliestScan(rows: seq<Row>)
    ensures var e := EarliestMention(rows);
            && (e == ZERO_TIME || exists r :: r in rows && IsMention(r) && SignalTime(r) == e)
            && ((exists r :: r in rows && IsMention(r) && SignalTime(r) < ZERO_TIME)
                || (forall r :: r in rows && IsMention(r) ==> SignalTime(r) != ZERO_TIME) ==>
                  forall r :: r in rows && IsMention(r) ==> e <= SignalTime(r) && e != ZERO_TIME)
            && ((forall r :: r in rows && IsMention(r) ==> SignalTime(r) >= ZERO_TIME) ==> e >= ZERO_TIME)
  {
    if rows != [] {
      var init, last := rows[..|rows| - 1], rows[|rows| - 1];
      assert rows == init + [last];
      EarliestScan(init);
      assert forall r :: r in rows <==> r in init || r == last;
    }
  }

  /** Where the order does not matter, the same rows give the same earliest mention. */
  lemma EarliestDecided(a: seq<Row>, b: seq<Row>)
    requires MentionOrderFree(a) && forall r :: r in a <==> r in b
    ensures EarliestMention(a) == EarliestMention(b)
  {
    EarliestScan(a);
    EarliestScan(b);
    if exists r :: r in a && IsMention(r) {
      var r :| r in a && IsMention(r);
      assert r in b;
    }
  }

  /** The row at i moved to the end. */
  function MoveLast(rows: seq<Row>, i: nat): seq<Row>
    requires i < |rows|
  {
    rows[..i] + rows[i + 1..] + [rows[i]]
  }

  lemma MoveLastPermutes(rows: seq<Row>, i: nat)
    requires i < |rows|
    ensures multiset(MoveLast(rows, i)) == multiset(rows)
  {
    assert rows == rows[..i] + [rows[i]] + rows[i + 1..];
  }

  /** With no mention before the zero time, a last one at the zero time hides the onset and a later one shows it. */
  lemma LastMentionDecides(rows: seq<Row>, r: Row)
    requires IsMention(r) && SignalTime(r) >= ZERO_TIME
    requires forall x :: x in rows && IsMention(x) ==> SignalTime(x) >= ZERO_TIME
    ensures EarliestMention(rows + [r]) == ZERO_TIME <==> SignalTime(r) == ZERO_TIME
  {
    assert (rows + [r])[..|rows|] == rows;
    EarliestScan(rows);
  }

  /** The list shows a mention onset for the item exactly when the scan finds a time. */
  lemma MentionShown(items: seq<WorkItem>, log: seq<Row>, cfg: Config, k: ItemKey)
    requires IsFold(items, log, cfg) && k in Keys(log) && Shown(RowsOf(log, k))
    requires exists r :: r in log && KeyOf(r) == k && IsMention(r)
    ensures exists it :: it in items && it.key == k
    ensures forall it :: it in items && it.key == k ==>
              (StateTag(MentionedState) in it.since <==> EarliestMention(Group(log, k)) != ZERO_TIME)
  {
    var shown := FoldHolds(items, log, cfg, k);
    var m :| m in log && KeyOf(m) == k && IsMention(m);
    assert m in RowsOf(log, k);
    forall it | it in items && it.key == k
      ensures StateTag(MentionedState) in it.since <==> EarliestMention(Group(log, k)) != ZERO_TIME
    {
      var r := ViewCurrent(it, k, RowsOf(log, k), EarliestMention(Group(log, k)), cfg);
      assert SinceEntry(it.since, StateTag(MentionedState), ObservedOf(RowsOf(log, k)), r.body.facts,
                        HasMention(RowsOf(log, k)), EarliestMention(Group(log, k)));
    }
  }

  lemma SameRowsSameGroups(log: seq<Row>, log': seq<Row>, k: ItemKey)
    requires forall r :: r in log <==> r in log'
    ensures Keys(log) == Keys(log') && RowsOf(log, k) == RowsOf(log', k)
    ensures forall r :: r in Group(log, k) <==> r in Group(log', k)
  {
    forall r
      ensures r in Group(log, k) <==> r in Group(log', k)
    {
      GroupMembers(log, k, r);
      GroupMembers(log', k, r);
    }
  }

  /**
   Order independence. Two logs with the same rows fold to the same list, whatever the order
   of the rows, when no shown item's mentions are order-sensitive.
   */
  lemma OrderIndependent(items: seq<WorkItem>, items': seq<WorkItem>, log: seq<Row>, log': seq<Row>, cfg: Config)
    requires DistinctIDs(log) && DistinctIDs(log') && forall r :: r in log <==> r in log'
    requires forall k :: k in Keys(log) && Shown(RowsOf(log, k)) ==> MentionOrderFree(Group(log, k))
    requires IsFold(items, log, cfg) && IsFold(items', log', cfg)
    ensures items == items'
  {
    var id := (it: WorkItem) => it;
    forall k
      ensures RowsOf(log, k) == RowsOf(log', k) && Keys(log) == Keys(log')
    {
      SameRowsSameGroups(log, log', k);
    }
    forall k, a, b |
      && IsView(a, k, RowsOf(log, k), EarliestMention(Group(log, k)), cfg)
      && IsView(b, k, RowsOf(log', k), EarliestMention(Group(log', k)), cfg)
      ensures id(a) == id(b)
    {
      SameViewOfSameRows(a, b, log, log', k, cfg);
    }
    SameViewsSameList(items, items', log, log', cfg, id);
    assert Stripped(items, id) == items && Stripped(items', id) == items';
  }

  lemma SameViewOfSameRows(a: WorkItem, b: WorkItem, log: seq<Row>, log': seq<Row>, k: ItemKey, cfg: Config)
    requires DistinctIDs(log) && DistinctIDs(log') && forall r :: r in log <==> r in log'
    requires Shown(RowsOf(log, k)) && k in Keys(log) ==> MentionOrderFree(Group(log, k))
    requires IsView(a, k, RowsOf(log, k), EarliestMention(Group(log, k)), cfg)
    requires IsView(b, k, RowsOf(log', k), EarliestMention(Group(log', k)), cfg)
    ensures a == b
  {
    SameRowsSameGroups(log, log', k);
    var r := ViewCurrent(a, k, RowsOf(log, k), EarliestMention(Group(log, k)), cfg);
    assert r in RowsOf(log, k) && k in Keys(log);
    EarliestDecided(Group(log, k), Group(log', k));
    RowsIdentified(log, k);
    ViewUnique(a, b, k, RowsOf(log, k), EarliestMention(Group(log, k)), cfg);
  }

  /**
   The condition is exact: an order-sensitive item gives two orders of the log that no one
   list folds.
   */
  lemma OrderMatters(log: seq<Row>, cfg: Config, k: ItemKey) returns (p: seq<Row>, q: seq<Row>)
    requires k in Keys(log) && Shown(RowsOf(log, k)) && !MentionOrderFree(Group(log, k))
    ensures multiset(p) == multiset(log) && multiset(q) == multiset(log)
    ensures forall items :: IsFold(items, p, cfg) ==> !IsFold(items, q, cfg)
  {
    var zero :| zero in Group(log, k) && IsMention(zero) && SignalTime(zero) == ZERO_TIME;
    var late :| late in Group(log, k) && IsMention(late) && SignalTime(late) > ZERO_TIME;
    p := LastIs(log, k, zero);
    q := LastIs(log, k, late);
    forall items | IsFold(items, p, cfg)
      ensures !IsFold(items, q, cfg)
    {
      MentionShown(items, p, cfg, k);
      if IsFold(items, q, cfg) {
        MentionShown(items, q, cfg, k);
      }
    }
  }

  const SENSITIVE_ITEM := ItemKey([], MERGE_REQUEST, [])

  function SensitiveRow(id: int, eventType: EventType, at: Time, body: Body): Row {
    Row(id, [], MERGE_REQUEST, [], eventType, Some(at), [], TextKey([]), body, 1)
  }

  /** An open snapshot, a mention at the zero time and a later one. */
  function SensitiveLog(): seq<Row> {
    var facts := Payload([], [], [], Open, false, [], [], NoVerdict, NoVerdict, Unknown, NO_DETAIL,
                         false, false, false, false, false, false, false, false, 0, None, [], [], [], []);
    [SensitiveRow(1, ItemObserved, 1, Snapshot(facts)), SensitiveRow(2, Signal(Mentioned), ZERO_TIME, Opaque),
     SensitiveRow(3, Signal(Mentioned), 1, Opaque)]
  }

  lemma AllOneItem(log: seq<Row>, k: ItemKey)
    requires forall r :: r in log ==> KeyOf(r) == k
    ensures forall r :: r in Group(log, k) <==> r in log
    ensures forall r :: r in RowsOf(log, k) <==> r in log
  {
    forall r
      ensures r in Group(log, k) <==> r in log
    {
      GroupMembers(log, k, r);
    }
  }

  lemma SensitiveShown(rows: set<Row>)
    requires forall r :: r in rows <==> r in SensitiveLog()
    ensures Shown(rows)
  {
    var first := SensitiveLog()[0];
    assert first in SensitiveLog();
    assert IsCurrent(first, rows) && IsOpen(first);
  }

  lemma NotOrderFree(rows: seq<Row>)
    requires forall r :: r in rows <==> r in SensitiveLog()
    ensures !MentionOrderFree(rows)
  {
    var zero, late := SensitiveLog()[1], SensitiveLog()[2];
    assert zero in SensitiveLog() && late in SensitiveLog();
    assert IsMention(zero) && SignalTime(zero) == ZERO_TIME && IsMention(late) && SignalTime(late) > ZERO_TIME;
  }

  lemma SensitiveGroup()
    ensures SENSITIVE_ITEM in Keys(SensitiveLog()) && Shown(RowsOf(SensitiveLog(), SENSITIVE_ITEM))
    ensures !MentionOrderFree(Group(SensitiveLog(), SENSITIVE_ITEM))
  {
    AllOneItem(SensitiveLog(), SENSITIVE_ITEM);
    SensitiveShown(RowsOf(SensitiveLog(), SENSITIVE_ITEM));
    NotOrderFree(Group(SensitiveLog(), SENSITIVE_ITEM));
    assert SensitiveLog()[0] in SensitiveLog();
  }

  /**
   Such a log exists: three rows of one item, two orders of which have no list in common under
   any configuration. List reads the rows by ascending id, so only another caller of Fold can
   pass two orders of them.
   */
  lemma OrderCanMatter(cfg: Config) returns (p: seq<Row>, q: seq<Row>)
    ensures DistinctIDs(SensitiveLog()) && multiset(p) == multiset(SensitiveLog()) && multiset(q) == multiset(SensitiveLog())
    ensures forall items :: IsFold(items, p, cfg) ==> !IsFold(items, q, cfg)
  {
    SensitiveGroup();
    p, q := OrderMatters(SensitiveLog(), cfg, SENSITIVE_ITEM);
  }

  /** The log with one of the item's mentions moved to the end. */
  lemma LastIs(log: seq<Row>, k: ItemKey, m: Row) returns (p: seq<Row>)
    requires m in Group(log, k) && IsMention(m) && SignalTime(m) >= ZERO_TIME
    requires forall r :: r in Group(log, k) && IsMention(r) ==> SignalTime(r) >= ZERO_TIME
    ensures multiset(p) == multiset(log) && (forall r :: r in p <==> r in log)
    ensures Keys(p) == Keys(log) && RowsOf(p, k) == RowsOf(log, k)
    ensures m in p && KeyOf(m) == k
    ensures EarliestMention(Group(p, k)) == ZERO_TIME <==> SignalTime(m) == ZERO_TIME
  {
    GroupMembers(log, k, m);
    var i :| 0 <= i < |log| && log[i] == m;
    p := MoveLast(log, i);
    MoveLastPermutes(log, i);
    assert forall r :: r in p <==> r in multiset(p);
    assert forall r :: r in log <==> r in multiset(log);
    SameRowsSameGroups(log, p, k);
    var rest := log[..i] + log[i + 1..];
    GroupStep(rest, m, k);
    assert forall r :: r in Group(rest, k) ==> r in Group(p, k);
    LastMentionDecides(Group(rest, k), m);
  }
}
