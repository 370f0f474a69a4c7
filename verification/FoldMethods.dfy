/** The fold as it runs: one pass per item, a clock scan, a run scan, and two sorts in place. */
module FoldMethods {
  import opened Model
  import opened Collections
  import opened Sorting
  import opened States
  import opened FoldView

  function RowSet(rows: seq<Row>): set<Row> {
    set r | r in rows
  }

  /** What one pass over an item's rows collects. */
  datatype Scan = Scan(
    latest: Option<Row>,
    observed: seq<Row>,
    latestRemoved: int,
    signals: seq<Row>,
    mentions: seq<Row>)

  ghost predicate IsSelection(out: seq<Row>, rows: seq<Row>, wanted: Row -> bool) {
    DistinctIDs(out) && forall r :: r in out <==> r in rows && wanted(r)
  }

  ghost predicate IsLatestObserved(latest: Option<Row>, rows: seq<Row>) {
    if latest.Some? then latest.value in rows && IsObserved(latest.value) && forall r :: r in rows && IsObserved(r) ==> r.id <= latest.value.id
    else forall r :: r in rows ==> !IsObserved(r)
  }

  ghost predicate IsLatestRemoved(id: int, rows: seq<Row>) {
    && (forall r :: r in rows && IsRemoval(r) ==> r.id <= id)
    && (id == 0 || exists r :: r in rows && IsRemoval(r) && r.id == id)
  }

  ghost predicate IsScan(s: Scan, rows: seq<Row>) {
    && IsSelection(s.observed, rows, IsObserved)
    && IsSelection(s.signals, rows, IsSignal)
    && (forall r :: r in s.mentions <==> r in rows && IsMention(r))
    && EarliestMention(s.mentions) == EarliestMention(rows)
    && IsLatestObserved(s.latest, rows)
    && IsLatestRemoved(s.latestRemoved, rows)
  }

  lemma SelectionStep(out: seq<Row>, rows: seq<Row>, r: Row, wanted: Row -> bool)
    requires DistinctIDs(rows + [r]) && IsSelection(out, rows, wanted)
    ensures IsSelection(if wanted(r) then out + [r] else out, rows + [r], wanted)
  {
    assert (rows + [r])[|rows|] == r;
    forall x | x in rows
      ensures x.id != r.id && 0 < x.id
    {
      var i :| 0 <= i < |rows| && rows[i] == x;
      assert (rows + [r])[i] == x;
    }
    assert forall i :: 0 <= i < |out| ==> out[i] in out;
  }

  lemma LatestStep(latest: Option<Row>, removed: int, rows: seq<Row>, r: Row)
    requires IsLatestObserved(latest, rows) && IsLatestRemoved(removed, rows)
    ensures IsLatestObserved(if IsObserved(r) && (latest.None? || r.id > latest.value.id) then Some(r) else latest, rows + [r])
    ensures IsLatestRemoved(if IsRemoval(r) && r.id > removed then r.id else removed, rows + [r])
  {
    assert forall x :: x in rows + [r] <==> x in rows || x == r;
  }

  lemma DistinctPrefix(rows: seq<Row>, n: nat)
    requires DistinctIDs(rows) && n <= |rows|
    ensures DistinctIDs(rows[..n])
  {
  }

  /** The switch over one row. */
  method Visit(s: Scan, e: Row, ghost rows: seq<Row>) returns (s': Scan)
    requires DistinctIDs(rows + [e]) && IsScan(s, rows)
    ensures IsScan(s', rows + [e])
  {
    SelectionStep(s.observed, rows, e, IsObserved);
    SelectionStep(s.signals, rows, e, IsSignal);
    MentionStep(s.mentions, rows, e);
    LatestStep(s.latest, s.latestRemoved, rows, e);
    s' := s;
    if e.eventType == ItemObserved {
      s' := s'.(observed := s.observed + [e]);
      if s.latest.None? || e.id > s.latest.value.id {
        s' := s'.(latest := Some(e));
      }
    } else if e.eventType == ItemRemoved {
      if e.id > s.latestRemoved {
        s' := s'.(latestRemoved := e.id);
      }
    } else if e.eventType.Signal? {
      s' := s'.(signals := s.signals + [e]);
      if e.eventType == Signal(Mentioned) {
        s' := s'.(mentions := s.mentions + [e]);
      }
    }
  }

  method ScanItem(events: seq<Row>) returns (s: Scan)
    requires DistinctIDs(events)
    ensures IsScan(s, events)
  {
    s := Scan(None, [], 0, [], []);
    ghost var rows: seq<Row> := [];
    for n := 0 to |events|
      invariant rows == events[..n] && IsScan(s, rows)
    {
      DistinctPrefix(events, n + 1);
      assert events[..n + 1] == rows + [events[n]];
      s := Visit(s, events[n], rows);
      rows := rows + [events[n]];
    }
    assert rows == events;
  }

  lemma MentionStep(mentions: seq<Row>, rows: seq<Row>, r: Row)
    requires EarliestMention(mentions) == EarliestMention(rows)
    ensures EarliestMention(if IsMention(r) then mentions + [r] else mentions) == EarliestMention(rows + [r])
  {
    assert (rows + [r])[..|rows|] == rows;
    assert (mentions + [r])[..|mentions|] == mentions;
  }

  // ---- the clock and the counts ----

  method NewestSignalTime(signals: seq<Row>, facts: Payload, observedAt: Time, excludeCIFailed: bool) returns (t: Time)
    requires forall r :: r in signals ==> IsSignal(r)
    ensures IsClock(t, RowSet(signals), facts, observedAt, excludeCIFailed)
  {
    var newest := ZERO_TIME;
    for n := 0 to |signals|
      invariant IsLatestTime(newest, SignalTimes(RowSet(signals[..n]), excludeCIFailed))
    {
      var s := signals[n];
      ghost var times := SignalTimes(RowSet(signals[..n]), excludeCIFailed);
      assert forall r :: r in signals[..n + 1] <==> r in signals[..n] || r == s;
      if excludeCIFailed && s.eventType == Signal(CIFailed) {
        assert SignalTimes(RowSet(signals[..n + 1]), excludeCIFailed) == times;
        continue;
      }
      assert s in signals && Counts(s, excludeCIFailed);
      TimesStep(signals[..n], s, excludeCIFailed);
      assert signals[..n + 1] == signals[..n] + [s];
      if SignalTime(s) > newest {
        newest := SignalTime(s);
      }
    }
    assert signals[..|signals|] == signals;
    return if newest != ZERO_TIME then newest else SnapshotTime(facts, observedAt);
  }

  lemma TimesStep(rows: seq<Row>, r: Row, excludeCIFailed: bool)
    requires Counts(r, excludeCIFailed)
    ensures SignalTimes(RowSet(rows + [r]), excludeCIFailed) ==
            SignalTimes(RowSet(rows), excludeCIFailed) + {SignalTime(r)}
  {
    assert forall x :: x in rows + [r] <==> x in rows || x == r;
    assert RowSet(rows + [r]) == RowSet(rows) + {r};
  }

  /** Signals decide the clock, so the item's other rows may join them. */
  lemma ClockOfSignals(signals: seq<Row>, rows: seq<Row>, excludeCIFailed: bool)
    requires forall r :: r in signals <==> r in rows && IsSignal(r)
    ensures SignalTimes(RowSet(signals), excludeCIFailed) == SignalTimes(RowSet(rows), excludeCIFailed)
  {
    assert forall r :: r in RowSet(signals) && Counts(r, excludeCIFailed) <==> r in RowSet(rows) && Counts(r, excludeCIFailed);
  }

  lemma NewRow(rows: seq<Row>, r: Row)
    requires DistinctIDs(rows + [r])
    ensures r !in rows && RowSet(rows + [r]) == RowSet(rows) + {r}
  {
    assert (rows + [r])[|rows|] == r;
    forall i | 0 <= i < |rows|
      ensures rows[i] != r
    {
      assert (rows + [r])[i] == rows[i];
    }
  }

  lemma KindStep(rows: set<Row>, r: Row, kind: SignalKind)
    requires r !in rows
    ensures |OfKind(rows + {r}, kind)| == |OfKind(rows, kind)| + if r.eventType == Signal(kind) then 1 else 0
  {
    if r.eventType == Signal(kind) {
      assert OfKind(rows + {r}, kind) == OfKind(rows, kind) + {r};
    } else {
      assert OfKind(rows + {r}, kind) == OfKind(rows, kind);
    }
  }

  ghost predicate Counted(counts: map<SignalKind, nat>, rows: set<Row>) {
    forall kind :: CountsKind(counts, rows, kind)
  }

  ghost predicate CountsKind(counts: map<SignalKind, nat>, rows: set<Row>, kind: SignalKind) {
    (if kind in counts then counts[kind] else 0) == |OfKind(rows, kind)|
  }

  lemma CountStep(counts: map<SignalKind, nat>, rows: set<Row>, r: Row)
    requires Counted(counts, rows) && r !in rows && IsSignal(r)
    ensures Counted(counts[r.eventType.kind := 1 + if r.eventType.kind in counts then counts[r.eventType.kind] else 0], rows + {r})
  {
    var kind := r.eventType.kind;
    var counts' := counts[kind := 1 + if kind in counts then counts[kind] else 0];
    forall x
      ensures CountsKind(counts', rows + {r}, x)
    {
      assert CountsKind(counts, rows, x);
      KindStep(rows, r, x);
    }
  }

  method SignalCounts(signals: seq<Row>) returns (repeated: map<SignalKind, nat>)
    requires DistinctIDs(signals) && forall r :: r in signals ==> IsSignal(r)
    ensures IsSignalCounts(repeated, RowSet(signals))
  {
    var counts: map<SignalKind, nat> := map[];
    for n := 0 to |signals|
      invariant Counted(counts, RowSet(signals[..n]))
    {
      assert signals[n] in signals;
      var kind := signals[n].eventType.kind;
      assert signals[..n + 1] == signals[..n] + [signals[n]];
      NewRow(signals[..n], signals[n]);
      CountStep(counts, RowSet(signals[..n]), signals[n]);
      counts := counts[kind := 1 + if kind in counts then counts[kind] else 0];
    }
    assert signals[..|signals|] == signals;
    repeated := OnlyRepeated(counts);
    RepeatedAreCounts(repeated, counts, RowSet(signals));
  }

  lemma RepeatedAreCounts(repeated: map<SignalKind, nat>, counts: map<SignalKind, nat>, rows: set<Row>)
    requires Counted(counts, rows)
    requires forall kind :: kind in repeated <==> kind in counts && counts[kind] > 1
    requires forall kind :: kind in repeated ==> repeated[kind] == counts[kind]
    ensures IsSignalCounts(repeated, rows)
  {
    forall kind
      ensures kind in repeated <==> |OfKind(rows, kind)| > 1
      ensures kind in repeated ==> repeated[kind] == |OfKind(rows, kind)|
    {
      assert CountsKind(counts, rows, kind);
    }
  }

  method OnlyRepeated(counts: map<SignalKind, nat>) returns (repeated: map<SignalKind, nat>)
    ensures forall kind :: kind in repeated <==> kind in counts && counts[kind] > 1
    ensures forall kind :: kind in repeated ==> repeated[kind] == counts[kind]
  {
    repeated := map[];
    var kinds := Listing(counts.Keys);
    for n := 0 to |kinds|
      invariant forall kind :: kind in repeated <==> kind in kinds[..n] && counts[kind] > 1
      invariant forall kind :: kind in repeated ==> repeated[kind] == counts[kind]
    {
      assert kinds[..n + 1] == kinds[..n] + [kinds[n]];
      if counts[kinds[n]] > 1 {
        repeated := repeated[kinds[n] := counts[kinds[n]]];
      }
    }
    assert kinds[..|kinds|] == kinds;
  }

  // ---- onsets ----

  predicate NewerFirst(a: Row, b: Row) {
    a.id > b.id
  }

  ghost predicate IsDescending(rows: seq<Row>) {
    forall i, j :: 0 <= i < j < |rows| ==> rows[i].id > rows[j].id
  }

  /** The item's snapshots, newest first, sorted in place. */
  method SortNewestFirst(observed: seq<Row>) returns (desc: seq<Row>)
    requires DistinctIDs(observed)
    ensures IsDescending(desc)
    ensures RowSet(desc) == RowSet(observed)
  {
    var a := new Row[|observed|](i requires 0 <= i < |observed| => observed[i]);
    assert a[..] == observed;
    Sort(a, NewerFirst);
    desc := a[..];
    SortedKeeps(observed, NewerFirst);
    SortedIsSorted(observed, NewerFirst);
    PermutedDistinct(observed, desc, RowID);
    forall i, j | 0 <= i < j < |desc|
      ensures desc[i].id > desc[j].id
    {
      assert !NewerFirst(desc[j], desc[i]) && RowID(desc[i]) != RowID(desc[j]);
    }
  }

  function RowID(r: Row): int { r.id }

  method OnsetForCondition(desc: seq<Row>, tag: Tag) returns (onset: Time)
    requires IsDescending(desc)
    ensures IsOnset(onset, RowSet(desc), tag)
  {
    onset := ZERO_TIME;
    var n := 0;
    while n < |desc|
      invariant 0 <= n <= |desc|
      invariant forall i :: 0 <= i < n ==> HoldsIn(tag, desc[i])
      invariant onset == if n == 0 then ZERO_TIME else SnapshotTime(desc[n - 1].body.facts, desc[n - 1].observedAt)
    {
      if !desc[n].body.Snapshot? || !Holds(tag, desc[n].body.facts) {
        break;
      }
      onset := SnapshotTime(desc[n].body.facts, desc[n].observedAt);
      n := n + 1;
    }
    RunIsPrefix(desc, tag, n);
  }

  /** Sorted newest first, the latest unbroken run is the longest prefix that has the tag. */
  lemma RunIsPrefix(desc: seq<Row>, tag: Tag, n: nat)
    requires IsDescending(desc) && n <= |desc|
    requires forall i :: 0 <= i < n ==> HoldsIn(tag, desc[i])
    requires n < |desc| ==> !HoldsIn(tag, desc[n])
    ensures Run(RowSet(desc), tag) == set i | 0 <= i < n :: desc[i]
    ensures n > 0 ==> IsOldest(desc[n - 1], Run(RowSet(desc), tag))
  {
    PrefixRun(desc, Having(RowSet(desc), tag), n);
  }

  lemma PrefixRun(desc: seq<Row>, holds: set<Row>, n: nat)
    requires IsDescending(desc) && n <= |desc|
    requires forall i :: 0 <= i < n ==> desc[i] in holds
    requires n < |desc| ==> desc[n] !in holds
    ensures RunIn(RowSet(desc), holds) == set i | 0 <= i < n :: desc[i]
    ensures n > 0 ==> IsOldest(desc[n - 1], RunIn(RowSet(desc), holds))
  {
    forall i | 0 <= i < |desc|
      ensures desc[i] in RunIn(RowSet(desc), holds) <==> i < n
    {
      if i < n {
        forall s | s in desc && s.id >= desc[i].id
          ensures s in holds
        {
          var j :| 0 <= j < |desc| && desc[j] == s;
          assert j <= i;
        }
      } else {
        assert desc[n] in desc && desc[n].id >= desc[i].id;
      }
    }
  }

  /** The onset entry of one tag: its onset, or no entry when that is the zero time. */
  ghost predicate EntryIs(since: map<Tag, Time>, observed: set<Row>, tag: Tag) {
    && (tag in since <==> !IsOnset(ZERO_TIME, observed, tag))
    && (tag in since ==> IsOnset(since[tag], observed, tag))
  }

  /** Adds the onset entry of one active tag. */
  method AddOnset(since: map<Tag, Time>, desc: seq<Row>, tag: Tag) returns (since': map<Tag, Time>)
    requires IsDescending(desc) && tag !in since
    ensures EntryIs(since', RowSet(desc), tag)
    ensures forall x :: x != tag ==> (x in since' <==> x in since) && (x in since ==> since'[x] == since[x])
  {
    var onset := OnsetForCondition(desc, tag);
    if onset == ZERO_TIME {
      return since;
    }
    assert !IsOnset(ZERO_TIME, RowSet(desc), tag) by {
      if IsOnset(ZERO_TIME, RowSet(desc), tag) {
        OnsetUnique(onset, ZERO_TIME, RowSet(desc), tag);
      }
    }
    return since[tag := onset];
  }

  /** The map holds the onset entries of the tags in `done` and nothing else. */
  ghost predicate EntriesFor(since: map<Tag, Time>, observed: set<Row>, done: set<Tag>) {
    forall tag :: if tag in done then EntryIs(since, observed, tag) else tag !in since
  }

  /** The onset loop over the active states other than mentioned. */
  method StateOnsets(desc: seq<Row>, states: seq<SignalState>) returns (since: map<Tag, Time>, ghost done: set<Tag>)
    requires IsDescending(desc) && NoDuplicates(states)
    ensures EntriesFor(since, RowSet(desc), done)
    ensures forall tag :: tag in done <==> tag.StateTag? && tag.s in states && tag.s != MentionedState
  {
    since, done := map[], {};
    for n := 0 to |states|
      invariant EntriesFor(since, RowSet(desc), done)
      invariant forall tag :: tag in done <==> tag.StateTag? && tag.s in states[..n] && tag.s != MentionedState
    {
      assert states[..n + 1] == states[..n] + [states[n]];
      if states[n] != MentionedState {
        since := AddOnset(since, desc, StateTag(states[n]));
        done := done + {StateTag(states[n])};
      }
    }
    assert states[..|states|] == states;
  }

  /** The onset loop over the markers. */
  method MarkerOnsets(since0: map<Tag, Time>, desc: seq<Row>, f: Payload, markers: seq<Tag>, ghost done0: set<Tag>)
    returns (since: map<Tag, Time>, ghost done: set<Tag>)
    requires IsDescending(desc) && EntriesFor(since0, RowSet(desc), done0)
    requires NoDuplicates(markers) && forall m :: m in markers ==> m !in done0
    ensures EntriesFor(since, RowSet(desc), done)
    ensures forall tag :: tag in done <==> tag in done0 || (tag in markers && Holds(tag, f))
  {
    since, done := since0, done0;
    for n := 0 to |markers|
      invariant EntriesFor(since, RowSet(desc), done)
      invariant forall tag :: tag in done <==> tag in done0 || (tag in markers[..n] && Holds(tag, f))
    {
      assert markers[..n + 1] == markers[..n] + [markers[n]];
      assert markers[n] in markers;
      if Holds(markers[n], f) {
        since := AddOnset(since, desc, markers[n]);
        done := done + {markers[n]};
      }
    }
    assert markers[..|markers|] == markers;
  }

  /** The scan for the earliest mention. */
  method FirstMention(mentions: seq<Row>) returns (earliest: Time)
    requires forall r :: r in mentions ==> IsMention(r)
    ensures earliest == EarliestMention(mentions)
  {
    earliest := ZERO_TIME;
    for n := 0 to |mentions|
      invariant earliest == EarliestMention(mentions[..n])
    {
      assert mentions[..n + 1][..n] == mentions[..n];
      assert mentions[n] in mentions;
      if earliest == ZERO_TIME || SignalTime(mentions[n]) < earliest {
        earliest := SignalTime(mentions[n]);
      }
    }
    assert mentions[..|mentions|] == mentions;
  }

  method ComputeSince(desc: seq<Row>, states: seq<SignalState>, f: Payload, hasMention: bool, mentions: seq<Row>)
    returns (since: map<Tag, Time>)
    requires IsDescending(desc) && states == StatesOf(f, hasMention)
    requires hasMention <==> mentions != []
    requires forall r :: r in mentions ==> IsMention(r)
    ensures IsSince(since, RowSet(desc), f, hasMention, EarliestMention(mentions))
  {
    StatesAreTheMatches(f, hasMention, |PRECEDENCE|);
    assert forall m :: m in MARKERS ==> !m.StateTag?;
    var onsets, done := StateOnsets(desc, states);
    onsets, done := MarkerOnsets(onsets, desc, f, MARKERS, done);
    since := onsets;
    if hasMention {
      var earliest := FirstMention(mentions);
      if earliest != ZERO_TIME {
        since := since[StateTag(MentionedState) := earliest];
      }
    }
    forall tag
      ensures tag in done <==> tag != StateTag(MentionedState) && Active(tag, f, hasMention)
    {
      ActiveTags(tag, f, hasMention);
    }
    EntriesAreSince(onsets, since, RowSet(desc), done, f, hasMention, EarliestMention(mentions));
  }

  lemma ActiveTags(tag: Tag, f: Payload, hasMention: bool)
    ensures tag != StateTag(MentionedState) && Active(tag, f, hasMention) <==>
            || (tag.StateTag? && tag.s in StatesOf(f, hasMention) && tag.s != MentionedState)
            || (tag in MARKERS && Holds(tag, f))
  {
    StatesAreTheMatches(f, hasMention, |PRECEDENCE|);
    MarkersAreAll(tag);
  }

  /** Onset entries for the active tags, with the mention entry on top, make the Since map. */
  lemma EntriesAreSince(onsets: map<Tag, Time>, since: map<Tag, Time>, observed: set<Row>, done: set<Tag>, f: Payload,
                        hasMention: bool, mention: Time)
    requires EntriesFor(onsets, observed, done)
    requires forall tag :: tag in done <==> tag != StateTag(MentionedState) && Active(tag, f, hasMention)
    requires since == if hasMention && mention != ZERO_TIME then onsets[StateTag(MentionedState) := mention] else onsets
    ensures IsSince(since, observed, f, hasMention, mention)
  {
    forall tag
      ensures SinceEntry(since, tag, observed, f, hasMention, mention)
    {
      if tag in done {
        assert EntryIs(onsets, observed, tag);
      } else {
        assert tag !in onsets;
      }
    }
  }

  lemma MarkersAreAll(tag: Tag)
    ensures tag in MARKERS <==> !tag.StateTag?
  {
    match tag
    case StateTag(_) =>
    case DraftTag => assert MARKERS[0] == tag;
    case FailingChecksTag => assert MARKERS[1] == tag;
    case MergeConflictTag => assert MARKERS[2] == tag;
    case NeedsRebaseTag => assert MARKERS[3] == tag;
    case NeedsApprovalTag => assert MARKERS[4] == tag;
    case UnresolvedDiscussionsTag => assert MARKERS[5] == tag;
    case PolicyDeniedTag => assert MARKERS[6] == tag;
  }

  // ---- one item ----

  /** The scan decides whether the item is shown, and by which snapshot. */
  lemma ScanDecides(s: Scan, events: seq<Row>)
    requires IsScan(s, events) && DistinctIDs(events)
    ensures s.latest.Some? && s.latestRemoved <= s.latest.value.id <==> exists r :: IsCurrent(r, RowSet(events))
    ensures forall r :: IsCurrent(r, RowSet(events)) ==> s.latest == Some(r)
  {
    if s.latest.Some? {
      var l := s.latest.value;
      assert l in ObservedOf(RowSet(events));
      assert IsNewest(l, ObservedOf(RowSet(events)));
      if s.latestRemoved <= l.id {
        assert IsCurrent(l, RowSet(events));
      }
      forall r | IsCurrent(r, RowSet(events))
        ensures r == l
      {
        assert r in events && r.id == l.id;
      }
    }
  }

  /** The ranking clock: a broken build does not move an item that is old without it. */
  method Clock(signals: seq<Row>, facts: Payload, observedAt: Time, cfg: Config) returns (updatedAt: Time)
    requires forall r :: r in signals ==> IsSignal(r)
    ensures IsRankingTime(updatedAt, RowSet(signals), facts, observedAt, cfg)
  {
    updatedAt := NewestSignalTime(signals, facts, observedAt, false);
    if cfg.oldThreshold > 0 {
      var base := NewestSignalTime(signals, facts, observedAt, true);
      if cfg.now - base > cfg.oldThreshold {
        updatedAt := base;
      }
    }
  }

  lemma ClockDecided(t: Time, a: set<Row>, b: set<Row>, f: Payload, observedAt: Time, excludeCIFailed: bool)
    requires SignalTimes(a, excludeCIFailed) == SignalTimes(b, excludeCIFailed)
    ensures IsClock(t, a, f, observedAt, excludeCIFailed) <==> IsClock(t, b, f, observedAt, excludeCIFailed)
  {
  }

  /** The ranking clock and the counts depend on the signals alone. */
  lemma SignalsDecide(signals: seq<Row>, rows: seq<Row>, t: Time, f: Payload, observedAt: Time, cfg: Config)
    requires forall r :: r in signals <==> r in rows && IsSignal(r)
    ensures IsRankingTime(t, RowSet(signals), f, observedAt, cfg) ==> IsRankingTime(t, RowSet(rows), f, observedAt, cfg)
    ensures forall kind :: OfKind(RowSet(signals), kind) == OfKind(RowSet(rows), kind)
  {
    ClockOfSignals(signals, rows, true);
    ClockOfSignals(signals, rows, false);
    forall u, b
      ensures IsClock(u, RowSet(signals), f, observedAt, b) <==> IsClock(u, RowSet(rows), f, observedAt, b)
    {
      ClockDecided(u, RowSet(signals), RowSet(rows), f, observedAt, b);
    }
    forall kind
      ensures OfKind(RowSet(signals), kind) == OfKind(RowSet(rows), kind)
    {
      assert forall r :: r in RowSet(signals) && r.eventType == Signal(kind) <==> r in RowSet(rows) && r.eventType == Signal(kind);
    }
  }

  method FoldItem(k: ItemKey, events: seq<Row>, cfg: Config) returns (item: Option<WorkItem>)
    requires DistinctIDs(events)
    ensures item.Some? <==> Shown(RowSet(events))
    ensures item.Some? ==> IsView(item.value, k, RowSet(events), EarliestMention(events), cfg)
  {
    var s := ScanItem(events);
    ScanDecides(s, events);
    if s.latest.None? || s.latestRemoved > s.latest.value.id {
      return None;
    }
    var latest := s.latest.value;
    if !latest.body.Snapshot? || latest.body.facts.state != Open {
      return None;
    }
    var f := latest.body.facts;
    var it := BuildItem(k, s, f, latest.observedAt, cfg);
    ViewFromScan(it, k, s, events, cfg);
    return Some(it);
  }

  function Assemble(k: ItemKey, f: Payload, cfg: Config, states: seq<SignalState>, updatedAt: Time,
                    counts: map<SignalKind, nat>, since: map<Tag, Time>): (it: WorkItem)
    ensures ShowsFacts(it, k, f, cfg)
  {
    var idle := cfg.now - updatedAt;
    var isOld := cfg.oldThreshold > 0 && idle > cfg.oldThreshold;
    var stale := !isOld && cfg.staleThreshold > 0 && idle > cfg.staleThreshold;
    WorkItem(cfg.digest(k), k, f.title, f.url, f.repo, f.author, f.draft, states, IsMuted(f), false, stale, isOld,
             updatedAt, counts, f.failingChecks, f.mergeConflict, f.needsRebase, f.needsApproval,
             f.unresolvedDiscussions, f.policyDenied, f.approvalsCount, f.myReviewState, f.myRoles,
             f.gateDetail, None, since, f.ticketKeys, f.labels, f.sourceBranch, f.targetBranch)
  }

  method BuildItem(k: ItemKey, s: Scan, f: Payload, observedAt: Time, cfg: Config) returns (it: WorkItem)
    requires DistinctIDs(s.observed) && DistinctIDs(s.signals)
    requires forall r :: r in s.signals ==> IsSignal(r)
    requires forall r :: r in s.mentions ==> IsMention(r)
    ensures ShowsFacts(it, k, f, cfg)
    ensures it.states == StatesOf(f, s.mentions != [])
    ensures IsRankingTime(it.updatedAt, RowSet(s.signals), f, observedAt, cfg)
    ensures IsSignalCounts(it.signalCounts, RowSet(s.signals))
    ensures IsSince(it.since, RowSet(s.observed), f, s.mentions != [], EarliestMention(s.mentions))
  {
    var states := StatesFor(f, s.mentions != []);
    var updatedAt := Clock(s.signals, f, observedAt, cfg);
    var counts := SignalCounts(s.signals);
    var desc := SortNewestFirst(s.observed);
    var since := ComputeSince(desc, states, f, s.mentions != [], s.mentions);
    it := Assemble(k, f, cfg, states, updatedAt, counts, since);
  }

  lemma ViewFromScan(it: WorkItem, k: ItemKey, s: Scan, events: seq<Row>, cfg: Config)
    requires IsScan(s, events) && DistinctIDs(events) && s.latest.Some? && s.latestRemoved <= s.latest.value.id
    requires IsOpen(s.latest.value)
    requires var f := s.latest.value.body.facts;
             && ShowsFacts(it, k, f, cfg)
             && it.states == StatesOf(f, s.mentions != [])
             && IsRankingTime(it.updatedAt, RowSet(s.signals), f, s.latest.value.observedAt, cfg)
             && IsSignalCounts(it.signalCounts, RowSet(s.signals))
             && IsSince(it.since, RowSet(s.observed), f, s.mentions != [], EarliestMention(s.mentions))
    ensures IsView(it, k, RowSet(events), EarliestMention(events), cfg)
    ensures Shown(RowSet(events))
  {
    ScanDecides(s, events);
    SignalsDecide(s.signals, events, it.updatedAt, s.latest.value.body.facts, s.latest.value.observedAt, cfg);
    assert HasMention(RowSet(events)) <==> s.mentions != [] by {
      if s.mentions != [] {
        assert s.mentions[0] in s.mentions;
      }
    }
    assert RowSet(s.observed) == ObservedOf(RowSet(events));
    assert IsCurrent(s.latest.value, RowSet(events));
  }

  // ---- the list ----

  lemma GroupStep(rows: seq<Row>, e: Row, k: ItemKey)
    ensures Group(rows + [e], k) == Group(rows, k) + if KeyOf(e) == k then [e] else []
    ensures Keys(rows + [e]) == Keys(rows) + {KeyOf(e)}
  {
    assert (rows + [e])[..|rows|] == rows;
    assert forall r :: r in rows + [e] <==> r in rows || r == e;
  }

  lemma {:induction false} GroupMembers(rows: seq<Row>, k: ItemKey, r: Row)
    ensures r in Group(rows, k) <==> r in rows && KeyOf(r) == k
  {
    if rows != [] {
      var init, last := rows[..|rows| - 1], rows[|rows| - 1];
      assert rows == init + [last];
      GroupMembers(init, k, r);
    }
  }

  lemma {:induction false} GroupDistinct(rows: seq<Row>, k: ItemKey)
    requires DistinctIDs(rows)
    ensures DistinctIDs(Group(rows, k))
  {
    if rows != [] {
      var init, last := rows[..|rows| - 1], rows[|rows| - 1];
      assert rows == init + [last];
      GroupDistinct(init, k);
      forall i | 0 <= i < |Group(init, k)|
        ensures Group(init, k)[i].id != last.id
      {
        GroupMembers(init, k, Group(init, k)[i]);
        var j :| 0 <= j < |init| && init[j] == Group(init, k)[i];
        assert rows[j].id != last.id;
      }
    }
  }

  lemma GroupIsRows(rows: seq<Row>, k: ItemKey)
    requires DistinctIDs(rows)
    ensures RowSet(Group(rows, k)) == RowsOf(rows, k)
    ensures DistinctIDs(Group(rows, k))
  {
    GroupDistinct(rows, k);
    forall r {
      GroupMembers(rows, k, r);
    }
  }

  lemma NoGroup(rows: seq<Row>, k: ItemKey)
    requires k !in Keys(rows)
    ensures Group(rows, k) == []
  {
    if Group(rows, k) != [] {
      GroupMembers(rows, k, Group(rows, k)[0]);
    }
  }

  /** The first loop of Fold: rows by item, and the items in order of appearance. */
  method GroupRows(events: seq<Row>) returns (groups: map<ItemKey, seq<Row>>, order: seq<ItemKey>)
    ensures NoDuplicates(order) && forall k :: k in order <==> k in groups
    ensures groups.Keys == Keys(events) && forall k :: k in groups ==> groups[k] == Group(events, k)
  {
    groups, order := map[], [];
    for n := 0 to |events|
      invariant NoDuplicates(order) && forall k :: k in order <==> k in groups
      invariant groups.Keys == Keys(events[..n])
      invariant forall k :: k in groups ==> groups[k] == Group(events[..n], k)
    {
      var e := events[n];
      var k := KeyOf(e);
      assert events[..n + 1] == events[..n] + [e];
      forall x {
        GroupStep(events[..n], e, x);
      }
      if k !in groups {
        NoGroup(events[..n], k);
        order := order + [k];
        groups := groups[k := []];
      }
      groups := groups[k := groups[k] + [e]];
    }
    assert events[..|events|] == events;
  }

  function AgeBand(it: WorkItem): int {
    if it.isOld then 2 else if it.stale then 1 else 0
  }

  /** The comparator of sortItems: band, then recency, then id. */
  predicate Less(a: WorkItem, b: WorkItem) {
    if AgeBand(a) != AgeBand(b) then AgeBand(a) < AgeBand(b)
    else if a.updatedAt != b.updatedAt then a.updatedAt > b.updatedAt
    else a.id < b.id
  }

  predicate Aged(it: WorkItem, cfg: Config) {
    it.stale == IsStale(it.updatedAt, cfg) && it.isOld == IsOld(it.updatedAt, cfg)
  }

  /** The age band never changes the order by recency, whatever the thresholds. */
  lemma BandFollowsRecency(a: WorkItem, b: WorkItem, cfg: Config)
    requires Aged(a, cfg) && Aged(b, cfg)
    ensures Less(a, b) <==> Before(a, b)
  {
  }

  function ItemOf(it: WorkItem): ItemKey { it.key }

  method SortItems(items: array<WorkItem>)
    modifies items
    ensures items[..] == Sorted(old(items[..]), Less)
  {
    Sort(items, Less);
  }

  /** Sorted by the three keys, items of one fold are strictly ordered by recency and id. */
  lemma SortedIsRanked(items: seq<WorkItem>, cfg: Config)
    requires forall it :: it in items ==> Aged(it, cfg) && it.id == cfg.digest(it.key)
    requires DistinctBy(items, ItemOf)
    requires forall a, b :: a in items && b in items && cfg.digest(a.key) == cfg.digest(b.key) ==> a.key == b.key
    ensures var ranked := Sorted(items, Less);
            && (forall it :: it in ranked <==> it in items)
            && forall i, j :: 0 <= i < j < |ranked| ==> Before(ranked[i], ranked[j])
  {
    var ranked := Sorted(items, Less);
    SortedKeeps(items, Less);
    SortedIsSorted(items, Less);
    PermutedDistinct(items, ranked, ItemOf);
    assert forall it :: it in ranked <==> it in items;
    PairsAreRanked(ranked, cfg);
  }

  lemma PairsAreRanked(ranked: seq<WorkItem>, cfg: Config)
    requires IsSorted(ranked, Less) && DistinctBy(ranked, ItemOf)
    requires forall it :: it in ranked ==> Aged(it, cfg) && it.id == cfg.digest(it.key)
    requires forall a, b :: a in ranked && b in ranked && cfg.digest(a.key) == cfg.digest(b.key) ==> a.key == b.key
    ensures forall i, j :: 0 <= i < j < |ranked| ==> Before(ranked[i], ranked[j])
  {
    forall i, j | 0 <= i < j < |ranked|
      ensures Before(ranked[i], ranked[j])
    {
      assert ranked[i] in ranked && ranked[j] in ranked;
      PairIsRanked(ranked, i, j, cfg);
    }
  }

  lemma PairIsRanked(ranked: seq<WorkItem>, i: int, j: int, cfg: Config)
    requires IsSorted(ranked, Less) && DistinctBy(ranked, ItemOf) && 0 <= i < j < |ranked|
    requires var a, b := ranked[i], ranked[j];
             Aged(a, cfg) && Aged(b, cfg) && a.id == cfg.digest(a.key) && b.id == cfg.digest(b.key)
             && (a.id == b.id ==> a.key == b.key)
    ensures Before(ranked[i], ranked[j])
  {
    assert ItemOf(ranked[i]) != ItemOf(ranked[j]);
    assert !Less(ranked[j], ranked[i]);
    NotLessIsBefore(ranked[j], ranked[i], cfg);
  }

  lemma NotLessIsBefore(a: WorkItem, b: WorkItem, cfg: Config)
    requires Aged(a, cfg) && Aged(b, cfg) && a.id != b.id && !Less(a, b)
    ensures Before(b, a)
  {
    BandFollowsRecency(a, b, cfg);
  }

  lemma DistinctAppend(items: seq<WorkItem>, it: WorkItem)
    requires DistinctBy(items, ItemOf) && forall x :: x in items ==> x.key != it.key
    ensures DistinctBy(items + [it], ItemOf)
  {
    assert forall i :: 0 <= i < |items| ==> items[i] in items;
  }

  /** An item of the list: the view of the rows under its own key. */
  ghost predicate IsItem(it: WorkItem, rows: seq<Row>, cfg: Config) {
    && it.key in Keys(rows)
    && IsView(it, it.key, RowsOf(rows, it.key), EarliestMention(Group(rows, it.key)), cfg)
  }

  method FoldGroup(k: ItemKey, group: seq<Row>, ghost events: seq<Row>, cfg: Config) returns (item: Option<WorkItem>)
    requires DistinctIDs(events) && k in Keys(events) && group == Group(events, k)
    ensures item.Some? <==> Shown(RowsOf(events, k))
    ensures item.Some? ==> item.value.key == k && IsItem(item.value, events, cfg)
  {
    GroupIsRows(events, k);
    item := FoldItem(k, group, cfg);
  }

  /** What the second loop of Fold has collected for the keys handled so far. */
  ghost predicate Collected(items: seq<WorkItem>, done: seq<ItemKey>, events: seq<Row>, cfg: Config) {
    && DistinctBy(items, ItemOf)
    && (forall it :: it in items ==> it.key in done && IsItem(it, events, cfg))
    && (forall k :: k in done && Shown(RowsOf(events, k)) ==> exists it :: it in items && it.key == k)
  }

  lemma CollectedStep(items: seq<WorkItem>, done: seq<ItemKey>, k: ItemKey, item: Option<WorkItem>, events: seq<Row>, cfg: Config)
    requires Collected(items, done, events, cfg) && k !in done
    requires item.Some? <==> Shown(RowsOf(events, k))
    requires item.Some? ==> item.value.key == k && IsItem(item.value, events, cfg)
    ensures Collected(if item.Some? then items + [item.value] else items, done + [k], events, cfg)
  {
    if item.Some? {
      DistinctAppend(items, item.value);
      forall j | j in done + [k] && Shown(RowsOf(events, j))
        ensures exists it :: it in items + [item.value] && it.key == j
      {
        if j == k {
          assert item.value in items + [item.value];
        } else {
          KeyKept(items, item.value, j);
        }
      }
    }
  }

  lemma KeyKept(items: seq<WorkItem>, it: WorkItem, k: ItemKey)
    requires exists x :: x in items && x.key == k
    ensures exists x :: x in items + [it] && x.key == k
  {
    var x :| x in items && x.key == k;
    assert x in items + [it];
  }

  /** The second loop of Fold: the items shown, each once, in order of appearance. */
  method FoldItems(events: seq<Row>, cfg: Config) returns (items: seq<WorkItem>)
    requires DistinctIDs(events)
    ensures DistinctBy(items, ItemOf)
    ensures forall it :: it in items ==> IsItem(it, events, cfg)
    ensures forall k :: k in Keys(events) && Shown(RowsOf(events, k)) ==> exists it :: it in items && it.key == k
  {
    var groups, order := GroupRows(events);
    items := [];
    for n := 0 to |order|
      invariant Collected(items, order[..n], events, cfg)
    {
      var k := order[n];
      assert order[..n + 1] == order[..n] + [k] && k in order && k !in order[..n];
      var item := FoldGroup(k, groups[k], events, cfg);
      CollectedStep(items, order[..n], k, item, events, cfg);
      if item.Some? {
        items := items + [item.value];
      }
    }
    assert order[..|order|] == order;
  }

  lemma ItemsAged(items: seq<WorkItem>, events: seq<Row>, cfg: Config)
    requires InjectiveOn(cfg.digest, Keys(events)) && forall it :: it in items ==> IsItem(it, events, cfg)
    ensures forall it :: it in items ==> Aged(it, cfg) && it.id == cfg.digest(it.key)
    ensures forall a, b :: a in items && b in items && cfg.digest(a.key) == cfg.digest(b.key) ==> a.key == b.key
  {
  }

  /**
   Folds a log into its ranked list. The rows are those of the events table, so their ids
   are distinct and positive, whatever their order.
   */
  method Fold(events: seq<Row>, cfg: Config) returns (items: seq<WorkItem>)
    requires DistinctIDs(events) && InjectiveOn(cfg.digest, Keys(events))
    ensures IsFold(items, events, cfg)
  {
    var folded := FoldItems(events, cfg);
    var a := new WorkItem[|folded|](i requires 0 <= i < |folded| => folded[i]);
    assert a[..] == folded;
    SortItems(a);
    items := a[..];
    ItemsAged(folded, events, cfg);
    SortedIsRanked(folded, cfg);
    RankedIsFold(items, folded, events, cfg);
  }

  lemma RankedIsFold(items: seq<WorkItem>, folded: seq<WorkItem>, events: seq<Row>, cfg: Config)
    requires forall i, j :: 0 <= i < j < |items| ==> Before(items[i], items[j])
    requires forall it :: it in items <==> it in folded
    requires forall it :: it in folded ==> IsItem(it, events, cfg)
    requires forall k :: k in Keys(events) && Shown(RowsOf(events, k)) ==> exists it :: it in folded && it.key == k
    ensures IsFold(items, events, cfg)
  {
    forall i | 0 <= i < |items|
      ensures IsItem(items[i], events, cfg)
    {
      assert items[i] in folded;
    }
    forall k | k in Keys(events) && Shown(RowsOf(events, k))
      ensures exists i :: 0 <= i < |items| && items[i].key == k
    {
      var it :| it in folded && it.key == k;
      assert it in items;
    }
  }
}
