/**
 Runs of the event log and the cursors. Polls of any connections are written in any order;
 each connection writes its events before its cursors and may crash in between.
 */
module Protocol {
  import opened Model
  import opened EventLog
  import opened Reaping
  import opened Visibility

  type Cursors = map<string, string>

  /** What one successful poll hands to the engine. */
  datatype Poll = Poll(events: seq<Event>, cursors: Cursors)

  /** One row of sync_cursors, and the poll that wrote it. */
  datatype Saved = Saved(value: string, origin: Poll)

  /** `written` holds, per connection, a poll whose events are stored and whose cursors are not yet. */
  datatype State = State(
    rows: seq<Row>,
    cursors: map<(string, string), Saved>,
    written: map<string, Poll>)

  datatype Step =
    | WritePartial(conn: string, poll: Poll, at: Time)
    | WriteComplete(conn: string, poll: Poll, open: Option<set<string>>, removals: seq<Event>, at: Time)
    | Save(conn: string)
    | Crash(conn: string)
    | FailedPoll(conn: string)

  const START := State([], map[], map[])

  ghost predicate Enabled(s: State, step: Step) {
    match step
    case WritePartial(conn, poll, _) => conn !in s.written && ProviderEvents(poll.events)
    case WriteComplete(conn, poll, open, removals, _) =>
      && conn !in s.written
      && ProviderEvents(poll.events)
      && IsReap(s.rows, conn, poll.events, open, removals)
    case Save(conn) => conn in s.written
    case Crash(_) => true
    case FailedPoll(conn) => conn !in s.written
  }

  /** SaveCursors upserts: a key the poll does not carry keeps its old value. */
  function Upsert(cursors: map<(string, string), Saved>, conn: string, poll: Poll): map<(string, string), Saved> {
    cursors + map k | k in poll.cursors :: (conn, k) := Saved(poll.cursors[k], poll)
  }

  function Apply(s: State, step: Step): State
    requires step.Save? ==> step.conn in s.written
  {
    match step
    case WritePartial(conn, poll, at) =>
      s.(rows := InsertAll(s.rows, conn, poll.events, at), written := s.written[conn := poll])
    case WriteComplete(conn, poll, open, removals, at) =>
      s.(rows := CompletePersist(s.rows, conn, poll.events, removals, at), written := s.written[conn := poll])
    case Save(conn) =>
      s.(cursors := Upsert(s.cursors, conn, s.written[conn]), written := s.written - {conn})
    case Crash(conn) => s.(written := s.written - {conn})
    case FailedPoll(_) => s
  }

  /** A run from the empty database, newest state last. */
  ghost predicate IsRun(run: seq<State>, steps: seq<Step>) {
    && |run| == |steps| + 1
    && run[0] == START
    && forall i :: 0 <= i < |steps| ==> Moves(run, steps, i)
  }

  ghost predicate Moves(run: seq<State>, steps: seq<Step>, i: int)
    requires 0 <= i < |steps| && |run| == |steps| + 1
  {
    Enabled(run[i], steps[i]) && run[i + 1] == Apply(run[i], steps[i])
  }

  // ---- at least once ----

  /** The event's row is in the log, under its own key or a salted one. */
  ghost predicate Logged(rows: seq<Row>, conn: string, e: Event) {
    Stored(rows, conn, e) || exists id :: Stored(rows, conn, e.(key := Resurrect(e.key, id)))
  }

  ghost predicate AllLogged(rows: seq<Row>, conn: string, events: seq<Event>) {
    forall e :: e in events ==> Logged(rows, conn, e)
  }

  ghost predicate Inv(s: State) {
    && LogInv(s.rows)
    && (forall c :: c in s.written ==> AllLogged(s.rows, c, s.written[c].events))
    && (forall c, k :: (c, k) in s.cursors ==>
          var saved := s.cursors[(c, k)];
          && k in saved.origin.cursors
          && saved.origin.cursors[k] == saved.value
          && AllLogged(s.rows, c, saved.origin.events))
  }

  lemma AllLoggedMonotone(rows: seq<Row>, rows': seq<Row>, conn: string, events: seq<Event>)
    requires rows <= rows' && AllLogged(rows, conn, events)
    ensures AllLogged(rows', conn, events)
  {
    forall e | e in events
      ensures Logged(rows', conn, e)
    {
      if Stored(rows, conn, e) {
        StoredMonotone(rows, rows', conn, e);
      } else {
        var id :| Stored(rows, conn, e.(key := Resurrect(e.key, id)));
        StoredMonotone(rows, rows', conn, e.(key := Resurrect(e.key, id)));
      }
    }
  }

  lemma PartialLogs(rows: seq<Row>, conn: string, events: seq<Event>, at: Time)
    requires LogInv(rows) && ProviderEvents(events)
    ensures var rows' := InsertAll(rows, conn, events, at);
            LogInv(rows') && rows <= rows' && AllLogged(rows', conn, events)
  {
    BatchKeepsInv(rows, conn, events, at);
    InsertAllShape(rows, conn, events, at);
  }

  lemma CompleteLogs(rows: seq<Row>, conn: string, events: seq<Event>, open: Option<set<string>>,
                     removals: seq<Event>, at: Time)
    requires LogInv(rows) && ProviderEvents(events) && IsReap(rows, conn, events, open, removals)
    ensures var rows' := CompletePersist(rows, conn, events, removals, at);
            LogInv(rows') && rows <= rows' && AllLogged(rows', conn, events)
  {
    CompleteKeepsInv(rows, conn, events, open, removals, at);
    var all := SaltAll(rows, conn, events) + removals;
    InsertAllShape(rows, conn, all, at);
    SaltedLogged(rows, InsertAll(rows, conn, all, at), conn, events, all);
  }

  /** A salted event in the log counts as logged. */
  lemma SaltedLogged(rows: seq<Row>, rows': seq<Row>, conn: string, events: seq<Event>, all: seq<Event>)
    requires |all| >= |events| && forall i :: 0 <= i < |events| ==> all[i] == Salt(rows, conn, events[i])
    requires forall e :: e in all ==> Stored(rows', conn, e)
    ensures AllLogged(rows', conn, events)
  {
    forall e | e in events
      ensures Logged(rows', conn, e)
    {
      var i :| 0 <= i < |events| && events[i] == e;
      assert all[i] in all;
    }
  }

  lemma StepKeepsInv(s: State, step: Step)
    requires Inv(s) && Enabled(s, step)
    ensures Inv(Apply(s, step)) && s.rows <= Apply(s, step).rows
  {
    var s' := Apply(s, step);
    match step
    case WritePartial(conn, poll, at) =>
      PartialLogs(s.rows, conn, poll.events, at);
      LoggedSurvives(s, s'.rows);
    case WriteComplete(conn, poll, open, removals, at) =>
      CompleteLogs(s.rows, conn, poll.events, open, removals, at);
      LoggedSurvives(s, s'.rows);
    case Save(conn) =>
    case Crash(_) =>
    case FailedPoll(_) =>
  }

  lemma LoggedSurvives(s: State, rows: seq<Row>)
    requires Inv(s) && s.rows <= rows
    ensures forall c :: c in s.written ==> AllLogged(rows, c, s.written[c].events)
    ensures forall c, k :: (c, k) in s.cursors ==> AllLogged(rows, c, s.cursors[(c, k)].origin.events)
  {
    forall c | c in s.written
      ensures AllLogged(rows, c, s.written[c].events)
    {
      AllLoggedMonotone(s.rows, rows, c, s.written[c].events);
    }
    forall c, k | (c, k) in s.cursors
      ensures AllLogged(rows, c, s.cursors[(c, k)].origin.events)
    {
      AllLoggedMonotone(s.rows, rows, c, s.cursors[(c, k)].origin.events);
    }
  }

  /**
   At least once. At every point of every run, crashes included, each stored cursor was
   produced by a poll whose events are all in the log, and the log has never shrunk.
   */
  lemma {:induction false} AtLeastOnce(run: seq<State>, steps: seq<Step>, n: nat)
    requires IsRun(run, steps) && n < |run|
    ensures Inv(run[n])
    ensures forall i :: 0 <= i <= n ==> run[i].rows <= run[n].rows
    ensures forall c, k :: (c, k) in run[n].cursors ==>
              AllLogged(run[n].rows, c, run[n].cursors[(c, k)].origin.events)
  {
    if n > 0 {
      AtLeastOnce(run, steps, n - 1);
      assert Moves(run, steps, n - 1);
      StepKeepsInv(run[n - 1], steps[n - 1]);
    }
  }

  /** Replaying a FastPoll whose cursors were lost in a crash inserts nothing, whatever was written since. */
  lemma ReplayInsertsNothing(rows: seq<Row>, conn: string, events: seq<Event>, at: Time, later: seq<Row>, at': Time)
    requires LogInv(rows) && ProviderEvents(events)
    requires InsertAll(rows, conn, events, at) <= later
    ensures InsertAll(later, conn, events, at') == later
  {
    InsertAllShape(rows, conn, events, at);
    forall e | e in events
      ensures Stored(later, conn, e)
    {
      StoredMonotone(InsertAll(rows, conn, events, at), later, conn, e);
    }
    InsertAllStored(later, conn, events, at');
  }

  // ---- episodes ----

  /**
   Episodes. Between two removals of one item there is a snapshot of it: the later removal
   is keyed to it, and no other fact of the item lies between the two.
   */
  lemma Episodes(run: seq<State>, steps: seq<Step>, n: nat, i: int, j: int)
    requires IsRun(run, steps) && n < |run|
    requires var rows := run[n].rows;
             0 <= i < j < |rows| && rows[i].eventType == rows[j].eventType == ItemRemoved && KeyOf(rows[i]) == KeyOf(rows[j])
    ensures var rows := run[n].rows;
            exists m :: i < m < j && rows[m].eventType == ItemObserved && KeyOf(rows[m]) == KeyOf(rows[j])
                        && rows[j].key == RemovedKey(rows[m].id)
                        && forall x :: m < x < j && KeyOf(rows[x]) == KeyOf(rows[j]) ==> !IsFact(rows[x])
  {
    AtLeastOnce(run, steps, n);
    var rows := run[n].rows;
    assert RowInPlace(rows, j);
    var k := KeyOf(rows[j]);
    var f := LatestFact(rows[..j], k).value;
    var m :| 0 <= m < j && rows[m] == f;
    LatestFactIsNewest(rows[..j], k);
    assert rows[i] in rows[..j] && rows[i].id <= f.id;
    forall x | m < x < j && KeyOf(rows[x]) == k
      ensures !IsFact(rows[x])
    {
      assert rows[x] in rows[..j] && rows[m].id < rows[x].id;
    }
  }

  /** A salted snapshot comes after the removal it supersedes, which is of the same item. */
  lemma SaltFollowsRemoval(run: seq<State>, steps: seq<Step>, n: nat, j: int)
    requires IsRun(run, steps) && n < |run|
    requires 0 <= j < |run[n].rows| && run[n].rows[j].key.Resurrect?
    ensures var rows := run[n].rows;
            exists i :: 0 <= i < j && rows[i].eventType == ItemRemoved && KeyOf(rows[i]) == KeyOf(rows[j])
                        && rows[i].id == rows[j].key.removalID < rows[j].id
  {
    AtLeastOnce(run, steps, n);
    assert RowInPlace(run[n].rows, j);
  }

  // ---- what one poll decides ----

  /**
   In any run, a persisted complete reconcile decides the visibility of every item of its
   connection: a swept item by re-entry, an item that left the sweep by exit.
   */
  lemma ReconcileDecides(run: seq<State>, steps: seq<Step>, n: nat, nid: string)
    requires IsRun(run, steps) && n < |steps| && steps[n].WriteComplete?
    ensures var step, rows, rows' := steps[n], run[n].rows, run[n + 1].rows;
            var k, f := Item(step.conn, nid), LatestFact(rows, Item(step.conn, nid));
            && (nid !in Swept(step.poll.events) ==>
                  (Visible(rows', k) <==>
                     Visible(rows, k) && !IsOpenRoled(f.value) && (step.open.None? || nid in step.open.value)))
            && (SweptOpen(step.poll.events, nid) ==>
                  (Visible(rows', k) <==>
                     !(f.Some? && f.value.eventType == ItemObserved && !IsOpen(f.value)
                       && AllRepeated(rows, step.conn, step.poll.events, nid))))
  {
    AtLeastOnce(run, steps, n);
    var step := steps[n];
    assert Moves(run, steps, n);
    if nid !in Swept(step.poll.events) {
      Exit(run[n].rows, step.conn, step.poll.events, step.open, step.removals, step.at, nid);
    } else if SweptOpen(step.poll.events, nid) {
      Reentry(run[n].rows, step.conn, step.poll.events, step.open, step.removals, step.at, nid);
    }
  }

  /** In particular an item that an earlier sweep removed returns with the next sweep that sees it open. */
  lemma FalseReapHeals(run: seq<State>, steps: seq<Step>, n: nat, nid: string)
    requires IsRun(run, steps) && n < |steps| && steps[n].WriteComplete?
    requires LatestIsRemoval(run[n].rows, Item(steps[n].conn, nid)) && SweptOpen(steps[n].poll.events, nid)
    ensures Visible(run[n + 1].rows, Item(steps[n].conn, nid))
  {
    ReconcileDecides(run, steps, n, nid);
  }

  /** A poll without a complete sweep brings a hidden item back only by a snapshot under a new key. */
  lemma PartialDecides(run: seq<State>, steps: seq<Step>, n: nat, nid: string)
    requires IsRun(run, steps) && n < |steps| && steps[n].WritePartial?
    requires SweptOpen(steps[n].poll.events, nid)
    ensures var step, rows := steps[n], run[n].rows;
            Visible(run[n + 1].rows, Item(step.conn, nid)) <==>
            Visible(rows, Item(step.conn, nid)) || !AllRepeated(rows, step.conn, step.poll.events, nid)
  {
    assert Moves(run, steps, n);
    PlainVisible(run[n].rows, steps[n].conn, steps[n].poll.events, steps[n].at, nid);
  }

  /** The item's latest fact is the polled snapshot's own row. */
  predicate LatestIs(rows: seq<Row>, conn: string, e: Event) {
    var f := LatestFact(rows, ItemKey(conn, e.objectType, e.nativeID));
    f.Some? && SameKey(f.value, conn, e)
  }

  /** The latest fact is the polled snapshot exactly when its key is new or is the latest one's own. */
  lemma LatestEqualsPoll(rows: seq<Row>, conn: string, e: Event, at: Time)
    requires e.eventType == ItemObserved
    ensures LatestIs(Insert(rows, conn, e, at), conn, e) <==> !Stored(rows, conn, e) || LatestIs(rows, conn, e)
  {
    LatestFactAppend(rows, Stamp(NextID(rows), conn, e, at), ItemKey(conn, e.objectType, e.nativeID));
  }

  /** A, B, A: a poll that returns to an older snapshot is ignored, and the log keeps showing the middle one. */
  lemma AbaIsIgnored(rows: seq<Row>, conn: string, a: Event, b: Event, at: Time)
    requires a.eventType == b.eventType == ItemObserved && a.objectType == b.objectType && a.nativeID == b.nativeID
    requires a.key != b.key && !Stored(rows, conn, a) && !Stored(rows, conn, b)
    ensures var polled := Insert(Insert(Insert(rows, conn, a, at), conn, b, at), conn, a, at);
            var f := LatestFact(polled, ItemKey(conn, a.objectType, a.nativeID));
            f.Some? && RowFrom(f.value, conn, b)
  {
    var one := Insert(rows, conn, a, at);
    assert SameKey(one[|rows|], conn, a);
    assert !Stored(one, conn, b);
    var two := Insert(one, conn, b, at);
    assert two[|rows|] == one[|rows|] && Stored(two, conn, a);
    LatestFactAppend(one, Stamp(NextID(one), conn, b, at), ItemKey(conn, a.objectType, a.nativeID));
  }

  // ---- other connections ----

  /**
   What reap computes depends on the rows of its own connection: rows that other
   connections append between its read and its write change neither salts nor removals.
   */
  lemma {:induction false} OthersDoNotMatter(rows: seq<Row>, more: seq<Row>, conn: string, nid: string)
    requires forall r :: r in more ==> r.conn != conn
    ensures LatestFact(rows + more, Item(conn, nid)) == LatestFact(rows, Item(conn, nid))
  {
    if more == [] {
      assert rows + more == rows;
    } else {
      var init := more[..|more| - 1];
      OthersDoNotMatter(rows, init, conn, nid);
      assert more[|more| - 1] in more;
      assert rows + more == (rows + init) + [more[|more| - 1]];
      LatestFactAppend(rows + init, more[|more| - 1], Item(conn, nid));
    }
  }

  lemma ReapUnaffectedByOthers(rows: seq<Row>, more: seq<Row>, conn: string, events: seq<Event>,
                               open: Option<set<string>>, removals: seq<Event>)
    requires forall r :: r in more ==> r.conn != conn
    ensures SaltAll(rows + more, conn, events) == SaltAll(rows, conn, events)
    ensures IsReap(rows, conn, events, open, removals) ==> IsReap(rows + more, conn, events, open, removals)
  {
    forall nid
      ensures LatestFact(rows + more, Item(conn, nid)) == LatestFact(rows, Item(conn, nid))
    {
      OthersDoNotMatter(rows, more, conn, nid);
    }
    forall nid
      ensures MustReap(rows + more, conn, Swept(events), open, nid) <==> MustReap(rows, conn, Swept(events), open, nid)
    {
      OthersDoNotMatter(rows, more, conn, nid);
    }
  }
}
