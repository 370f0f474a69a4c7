/**
 Items that a sweep removed. On GitHub they stay hidden until REST sees them again; on GitLab
 the open-set refresh can bring them back, and this module says exactly when.
 */
module Resurrection {
  import opened Model
  import opened EventLog
  import opened Reaping
  import opened Visibility
  import P = Protocol
  import HubRuns = GitHubRuns
  import HubProvider = GitHubProvider
  import HubSafety = GitHubSafety
  import Hub = GitHub
  import opened GitLab
  import opened GitLabRefresh
  import opened GitLabProvider
  import opened GitLabSafety
  import opened GitLabCalls

  // ---- the log ----

  predicate Writes(step: P.Step, conn: string) {
    (step.WritePartial? || step.WriteComplete?) && step.conn == conn
  }

  /** No poll of the connection that is written from step i up to j holds a snapshot of the item. */
  ghost predicate NeverSeen(steps: seq<P.Step>, conn: string, nid: string, i: nat, j: nat)
    requires i <= j <= |steps|
  {
    forall n :: i <= n < j && Writes(steps[n], conn) ==> nid !in Swept(steps[n].poll.events)
  }

  lemma UnseenFact(rows: seq<Row>, conn': string, events: seq<Event>, at: Time, conn: string, nid: string)
    requires forall e :: e in events ==> e.eventType != ItemRemoved
    requires conn' == conn ==> nid !in Swept(events)
    ensures LatestFact(InsertAll(rows, conn', events, at), Item(conn, nid)) == LatestFact(rows, Item(conn, nid))
  {
    LatestFactUntouched(rows, conn', events, at, Item(conn, nid));
  }

  lemma StepKeepsRemoved(s: P.State, step: P.Step, conn: string, nid: string)
    requires P.Inv(s) && P.Enabled(s, step) && LatestIsRemoval(s.rows, Item(conn, nid))
    requires Writes(step, conn) ==> nid !in Swept(step.poll.events)
    ensures LatestIsRemoval(P.Apply(s, step).rows, Item(conn, nid))
  {
    match step
    case WritePartial(c, poll, at) =>
      UnseenFact(s.rows, c, poll.events, at, conn, nid);
    case WriteComplete(c, poll, open, removals, at) =>
      if c == conn {
        Exit(s.rows, c, poll.events, open, removals, at, nid);
      } else {
        LatestFactUntouched(s.rows, c, SaltAll(s.rows, c, poll.events) + removals, at, Item(conn, nid));
      }
    case Save(_) =>
    case Crash(_) =>
    case FailedPoll(_) =>
  }

  lemma RunKeepsRemoved(run: seq<P.State>, steps: seq<P.Step>, conn: string, nid: string, n: nat)
    requires P.IsRun(run, steps) && n < |steps| && LatestIsRemoval(run[n].rows, Item(conn, nid))
    requires Writes(steps[n], conn) ==> nid !in Swept(steps[n].poll.events)
    ensures LatestIsRemoval(run[n + 1].rows, Item(conn, nid))
  {
    P.AtLeastOnce(run, steps, n);
    assert P.Moves(run, steps, n);
    StepKeepsRemoved(run[n], steps[n], conn, nid);
  }

  /** A removed item stays removed for as long as no written poll of its connection holds a snapshot of it. */
  lemma {:induction false} UnseenStaysRemoved(run: seq<P.State>, steps: seq<P.Step>, conn: string, nid: string, i: nat, j: nat)
    requires P.IsRun(run, steps) && i <= j < |run| && NeverSeen(steps, conn, nid, i, j)
    requires LatestIsRemoval(run[i].rows, Item(conn, nid))
    ensures LatestIsRemoval(run[j].rows, Item(conn, nid)) && !Visible(run[j].rows, Item(conn, nid))
  {
    if i < j {
      UnseenStaysRemoved(run, steps, conn, nid, i, j - 1);
      RunKeepsRemoved(run, steps, conn, nid, j - 1);
    }
  }

  // ---- GitHub ----

  /** The written polls of the connection are GitHub's, and REST sees the item in none of them. */
  ghost predicate HubUnseen(steps: seq<P.Step>, caches: seq<Hub.Cache>, polls: seq<HubRuns.Poll>, forges: seq<Hub.Forge>,
                            handle: string, conn: string, nid: string, i: nat, j: nat)
    requires i <= j <= |steps| && |caches| == |polls| == |forges| == |steps|
  {
    forall n :: i <= n < j && Writes(steps[n], conn) ==>
      && steps[n].poll.events == HubRuns.PollOutput(caches[n], polls[n])
      && HubProvider.IsJoinedPoll(polls[n], forges[n], handle) && nid !in Swept(polls[n].rest)
  }

  /** On GitHub a removed PR stays hidden until REST sees it again, whatever the joins answer. */
  lemma HubStaysHidden(run: seq<P.State>, steps: seq<P.Step>, caches: seq<Hub.Cache>, polls: seq<HubRuns.Poll>,
                       forges: seq<Hub.Forge>, handle: string, conn: string, nid: string, i: nat, j: nat)
    requires P.IsRun(run, steps) && i <= j < |run| && |caches| == |polls| == |forges| == |steps|
    requires HubUnseen(steps, caches, polls, forges, handle, conn, nid, i, j)
    requires LatestIsRemoval(run[i].rows, Item(conn, nid))
    ensures !Visible(run[j].rows, Item(conn, nid))
  {
    forall n | i <= n < j && Writes(steps[n], conn)
      ensures nid !in Swept(steps[n].poll.events)
    {
      HubSafety.JoinedVerdicts(polls[n], forges[n], handle);
      HubSafety.SweptByJoin(caches[n], polls[n]);
    }
    UnseenStaysRemoved(run, steps, conn, nid, i, j);
  }

  // ---- GitLab's cache is never pruned ----

  lemma {:induction false} CacheAllKeeps(cache: Cache, events: seq<Event>, nid: string)
    requires nid in cache
    ensures nid in CacheAll(cache, events)
  {
    if events != [] {
      CacheAllKeeps(cache, events[..|events| - 1], nid);
    }
  }

  lemma {:induction false} CacheAllUnseen(cache: Cache, events: seq<Event>, nid: string)
    requires nid !in Swept(events)
    ensures Lookup(CacheAll(cache, events), nid) == Lookup(cache, nid)
  {
    if events != [] {
      var init, last := events[..|events| - 1], events[|events| - 1];
      assert forall e :: e in init ==> e in events;
      CacheAllUnseen(cache, init, nid);
      assert last in events;
    }
  }

  /** A poll drops the item: a todo found it closed, or its project is archived. */
  predicate Drops(p: Poll, nid: string) {
    nid in p.gone || nid in p.lost || nid in ArchivedIDs(p.rest, p.results)
  }

  ghost predicate NeverDrops(calls: seq<Call>, nid: string, i: nat, j: nat)
    requires i <= j <= |calls|
  {
    forall n :: i <= n < j ==> !Drops(calls[n].poll, nid)
  }

  /** A cached merge request stays cached, merged and removed or not, until a poll drops it: no sweep evicts what it misses. */
  lemma {:induction false} CachedStays(states: seq<Memory>, calls: seq<Call>, handle: string, nid: string, i: nat, j: nat)
    requires IsCallRun(states, calls, handle) && i <= j < |states| && nid in states[i].cache
    requires NeverDrops(calls, nid, i, j)
    ensures nid in states[j].cache
  {
    if i < j {
      CachedStays(states, calls, handle, nid, i, j - 1);
      RunKeepsCached(states, calls, handle, nid, j - 1);
    }
  }

  lemma RunKeepsCached(states: seq<Memory>, calls: seq<Call>, handle: string, nid: string, n: nat)
    requires IsCallRun(states, calls, handle) && n < |calls| && nid in states[n].cache && !Drops(calls[n].poll, nid)
    ensures nid in states[n + 1].cache
  {
    assert CallAt(states, calls, handle, n);
    CallKeepsCached(states[n], calls[n], handle, states[n + 1], nid);
  }

  lemma CallKeepsCached(m: Memory, call: Call, handle: string, m': Memory, nid: string)
    requires IsCall(m, call, handle, m') && nid in m.cache && !Drops(call.poll, nid)
    ensures nid in m'.cache
  {
    CacheAllKeeps(m.cache - call.poll.gone - ArchivedIDs(call.poll.rest, call.poll.results), PollOutput(m.cache, call.poll, handle), nid);
  }

  // ---- what the refresh brings back ----

  /** Place i of the refresh answers for the item. */
  predicate AnswersFor(r: Refresh, i: int, nid: string) {
    0 <= i < |r.cached| && r.cached[i].nativeID == nid && Answered(r.results, i)
  }

  /** The refresh answers for the item, and the facts it makes of the cached ones are new to the log. */
  ghost predicate Resurrects(rows: seq<Row>, conn: string, cache: Cache, r: Refresh, handle: string, nid: string) {
    nid in cache && exists i :: AnswersFor(r, i, nid) && BringsNew(rows, conn, cache, r, i, handle, nid)
  }

  predicate BringsNew(rows: seq<Row>, conn: string, cache: Cache, r: Refresh, i: int, handle: string, nid: string)
    requires AnswersFor(r, i, nid) && nid in cache
  {
    !Stored(rows, conn, SnapshotEvent(nid, ApplyGraphQL(cache[nid], r.results[i], handle)))
  }

  /** For an item that REST did not see, the refresh reads the cache as the poll found it. */
  lemma RefreshReads(m: Memory, call: Call, handle: string, m': Memory, nid: string)
    requires IsCall(m, call, handle, m') && nid !in Swept(call.poll.rest)
    ensures forall i :: 0 <= i < |call.refresh.cached| && call.refresh.cached[i].nativeID == nid ==>
              nid in m.cache && call.refresh.cached[i] == SnapshotEvent(nid, m.cache[nid])
    ensures IsRefreshOf(call.refresh, call.poll, m.cache, m.baselines, call.forge, call.refreshForge, handle) ==>
              (ListsItem(call.refresh.cached, nid) <==> nid in m.cache && nid !in call.poll.gone && Parseable(nid))
  {
    var p := call.poll;
    var out := PollOutput(m.cache, p, handle);
    SweptByJoin(m.cache, p, m.baselines, call.forge, handle);
    assert nid !in Swept(out);
    CacheAllUnseen(m.cache - p.gone - ArchivedIDs(p.rest, p.results), out, nid);
    if nid in ArchivedIDs(p.rest, p.results) {
      ArchivedIsSwept(p, nid);
    }
    assert Lookup(Kept(m.cache, p, handle), nid) == Lookup(m.cache - p.gone, nid);
    assert Covered(out) == Swept(out);
  }

  lemma ArchivedIsSwept(p: Poll, nid: string)
    requires nid in ArchivedIDs(p.rest, p.results)
    ensures nid in Swept(p.rest)
  {
    var i :| 0 <= i < |p.rest| && Joinable(p.rest[i]) && i in p.results && p.results[i].archived && p.rest[i].nativeID == nid;
    assert p.rest[i] in p.rest;
  }

  /** The refresh's events: snapshots of the answered items, and verdict signals. */
  lemma CallEvents(m: Memory, call: Call, handle: string, m': Memory, e: Event)
    requires IsCall(m, call, handle, m')
    ensures e in RefreshOutput(call.refresh, handle) ==> IsShot(call.refresh, handle, e) || IsVerdictEvent(e)
    ensures IsShot(call.refresh, handle, e) ==> e in RefreshOutput(call.refresh, handle)
  {
    if call.refresh != NO_REFRESH {
      var p := call.poll;
      RefreshEvents(call.refresh, Kept(m.cache, p, handle), Covered(PollOutput(m.cache, p, handle)), Between(m, call),
                    call.refreshForge, handle, e);
    }
  }

  /** The refresh's snapshot of an item that REST did not see. */
  lemma RefreshedItem(m: Memory, call: Call, handle: string, m': Memory, nid: string, i: int)
    requires IsCall(m, call, handle, m') && nid !in Swept(call.poll.rest) && AnswersFor(call.refresh, i, nid)
    ensures nid in m.cache
    ensures var e := SnapshotEvent(nid, ApplyGraphQL(m.cache[nid], call.refresh.results[i], handle));
            && RefreshEvent(call.refresh.cached[i], call.refresh.results[i], handle) == e
            && e in RefreshOutput(call.refresh, handle) && e.body.facts.state == m.cache[nid].state
  {
    RefreshReads(m, call, handle, m', nid);
    var e := RefreshEvent(call.refresh.cached[i], call.refresh.results[i], handle);
    assert ShotAt(call.refresh, i, handle, e);
    CallEvents(m, call, handle, m', e);
    RefreshKeepsItem(m.cache[nid], call.refresh.results[i], handle);
  }

  lemma ShotIsOf(r: Refresh, i: int, handle: string, e: Event)
    requires ShotAt(r, i, handle, e)
    ensures AnswersFor(r, i, e.nativeID)
  {
  }

  lemma IsSwept(events: seq<Event>, e: Event)
    requires e in events && e.eventType == ItemObserved
    ensures e.nativeID in Swept(events)
  {
  }

  /** A snapshot of such an item in the poll's output is one that the refresh made. */
  lemma OnlyRefreshed(m: Memory, call: Call, handle: string, m': Memory, nid: string, e: Event)
    requires IsCall(m, call, handle, m') && nid !in Swept(call.poll.rest)
    requires e in CallOutput(m.cache, call, handle) && e.eventType == ItemObserved && e.nativeID == nid
    ensures IsShot(call.refresh, handle, e)
  {
    SweptByJoin(m.cache, call.poll, m.baselines, call.forge, handle);
    if e in PollOutput(m.cache, call.poll, handle) {
      IsSwept(PollOutput(m.cache, call.poll, handle), e);
    }
    CallEvents(m, call, handle, m', e);
  }

  /** In the output such an item is unswept, or swept as open with only the refreshed keys. */
  lemma RefreshSweeps(rows: seq<Row>, conn: string, m: Memory, call: Call, handle: string, m': Memory, nid: string)
    requires IsCall(m, call, handle, m') && AllOpen(m.cache) && nid !in Swept(call.poll.rest)
    ensures var out := CallOutput(m.cache, call, handle);
            && (nid in Swept(out) ==> SweptOpen(out, nid))
            && (Resurrects(rows, conn, m.cache, call.refresh, handle, nid) <==>
                nid in Swept(out) && !AllRepeated(rows, conn, out, nid))
  {
    var out := CallOutput(m.cache, call, handle);
    forall e | e in out && e.eventType == ItemObserved && e.nativeID == nid
      ensures e.body.Snapshot? && e.body.facts.state == Open
      ensures !Stored(rows, conn, e) ==> Resurrects(rows, conn, m.cache, call.refresh, handle, nid)
    {
      OnlyRefreshed(m, call, handle, m', nid, e);
      var i :| ShotAt(call.refresh, i, handle, e);
      ShotIsOf(call.refresh, i, handle, e);
      RefreshedItem(m, call, handle, m', nid, i);
    }
    if Resurrects(rows, conn, m.cache, call.refresh, handle, nid) {
      var i :| AnswersFor(call.refresh, i, nid) && BringsNew(rows, conn, m.cache, call.refresh, i, handle, nid);
      RefreshedItem(m, call, handle, m', nid, i);
      var e := SnapshotEvent(nid, ApplyGraphQL(m.cache[nid], call.refresh.results[i], handle));
      assert e in out && e.eventType == ItemObserved && e.nativeID == nid;
    }
  }

  /**
   GitLab's exact condition. When a notification poll is written, a merge request that was
   removed and that REST does not see in this poll comes back if and only if the open-set
   refresh answers for it and what it makes of the cached facts is new to the log; and the
   refresh asks about it if and only if it is still cached under a parseable id and no todo
   found it closed.
   */
  lemma RefreshDecides(run: seq<P.State>, steps: seq<P.Step>, n: nat, states: seq<Memory>, calls: seq<Call>, c: nat,
                       handle: string, nid: string)
    requires P.IsRun(run, steps) && n < |steps| && steps[n].WritePartial?
    requires IsCallRun(states, calls, handle) && c < |calls|
    requires steps[n].poll.events == CallOutput(states[c].cache, calls[c], handle)
    requires nid !in Swept(calls[c].poll.rest) && LatestIsRemoval(run[n].rows, Item(steps[n].conn, nid))
    ensures Visible(run[n + 1].rows, Item(steps[n].conn, nid)) <==>
            Resurrects(run[n].rows, steps[n].conn, states[c].cache, calls[c].refresh, handle, nid)
    ensures IsRefreshOf(calls[c].refresh, calls[c].poll, states[c].cache, states[c].baselines, calls[c].forge,
                        calls[c].refreshForge, handle) ==>
              (ListsItem(calls[c].refresh.cached, nid) <==>
               nid in states[c].cache && nid !in calls[c].poll.gone && Parseable(nid))
  {
    assert CallAt(states, calls, handle, c);
    assert P.Moves(run, steps, n);
    CachedIsOpen(states, calls, handle, c);
    RefreshReads(states[c], calls[c], handle, states[c + 1], nid);
    RefreshSweeps(run[n].rows, steps[n].conn, states[c], calls[c], handle, states[c + 1], nid);
    WriteDecides(run[n].rows, steps[n].conn, steps[n].poll.events, steps[n].at, nid);
  }

  /** What a plain write leaves of a removed item that it does not hold, or holds as open. */
  lemma WriteDecides(rows: seq<Row>, conn: string, events: seq<Event>, at: Time, nid: string)
    requires ProviderEvents(events) && LatestIsRemoval(rows, Item(conn, nid)) && (nid in Swept(events) ==> SweptOpen(events, nid))
    ensures Visible(InsertAll(rows, conn, events, at), Item(conn, nid)) <==> nid in Swept(events) && !AllRepeated(rows, conn, events, nid)
  {
    if nid in Swept(events) {
      PlainVisible(rows, conn, events, at, nid);
    } else {
      UnseenFact(rows, conn, events, at, conn, nid);
    }
  }

  lemma CachedIsOpen(states: seq<Memory>, calls: seq<Call>, handle: string, c: nat)
    requires IsCallRun(states, calls, handle) && c < |states|
    ensures AllOpen(states[c].cache)
  {
    CallsAreCacheRun(states, calls, handle);
    RunCacheOK(Caches(states), PollsOf(calls), handle, c);
    assert Caches(states)[c] == states[c].cache;
  }

  lemma RepeatedKeepsRemoved(rows: seq<Row>, conn: string, events: seq<Event>, at: Time, nid: string)
    requires ProviderEvents(events) && LatestIsRemoval(rows, Item(conn, nid)) && AllRepeated(rows, conn, events, nid)
    ensures LatestIsRemoval(InsertAll(rows, conn, events, at), Item(conn, nid))
  {
    LatestFactAfter(rows, conn, events, at, Item(conn, nid));
  }

  /** Step n writes poll `of` of the provider, a sweep has no refresh, REST does not see the item, and no refresh resurrects it. */
  ghost predicate LabQuiet(run: seq<P.State>, steps: seq<P.Step>, states: seq<Memory>, calls: seq<Call>, of: nat, handle: string,
                           nid: string, n: nat)
    requires n < |steps| && |run| == |steps| + 1 && |states| == |calls| + 1 && (steps[n].WritePartial? || steps[n].WriteComplete?)
  {
    && of < |calls| && steps[n].poll.events == CallOutput(states[of].cache, calls[of], handle)
    && (steps[n].WriteComplete? ==> calls[of].refresh == NO_REFRESH)
    && nid !in Swept(calls[of].poll.rest)
    && !Resurrects(run[n].rows, steps[n].conn, states[of].cache, calls[of].refresh, handle, nid)
  }

  lemma QuietKeepsRemoved(run: seq<P.State>, steps: seq<P.Step>, states: seq<Memory>, calls: seq<Call>, of: nat, handle: string,
                          nid: string, n: nat)
    requires P.IsRun(run, steps) && IsCallRun(states, calls, handle) && n < |steps|
    requires steps[n].WritePartial? || steps[n].WriteComplete?
    requires LabQuiet(run, steps, states, calls, of, handle, nid, n) && LatestIsRemoval(run[n].rows, Item(steps[n].conn, nid))
    ensures LatestIsRemoval(run[n + 1].rows, Item(steps[n].conn, nid))
  {
    assert CallAt(states, calls, handle, of) && P.Moves(run, steps, n);
    CachedIsOpen(states, calls, handle, of);
    RefreshSweeps(run[n].rows, steps[n].conn, states[of], calls[of], handle, states[of + 1], nid);
    if nid !in Swept(steps[n].poll.events) {
      RunKeepsRemoved(run, steps, steps[n].conn, nid, n);
    } else {
      assert steps[n].WritePartial? by { NoRefreshSweepsNothing(states[of], calls[of], handle, states[of + 1], nid); }
      RepeatedKeepsRemoved(run[n].rows, steps[n].conn, steps[n].poll.events, steps[n].at, nid);
    }
  }

  lemma NoRefreshSweepsNothing(m: Memory, call: Call, handle: string, m': Memory, nid: string)
    requires IsCall(m, call, handle, m') && nid !in Swept(call.poll.rest)
    ensures call.refresh == NO_REFRESH ==> nid !in Swept(CallOutput(m.cache, call, handle))
  {
    SweptByJoin(m.cache, call.poll, m.baselines, call.forge, handle);
    assert call.refresh == NO_REFRESH ==> CallOutput(m.cache, call, handle) == PollOutput(m.cache, call.poll, handle);
  }

  /** On GitLab a removed merge request stays hidden until REST sees it or a refresh resurrects it; `of` names the poll of each write. */
  lemma {:induction false} LabStaysHidden(run: seq<P.State>, steps: seq<P.Step>, states: seq<Memory>, calls: seq<Call>, of: seq<nat>,
                                          handle: string, conn: string, nid: string, i: nat, j: nat)
    requires P.IsRun(run, steps) && IsCallRun(states, calls, handle) && i <= j < |run| && |of| == |steps|
    requires forall n :: i <= n < j && Writes(steps[n], conn) ==> LabQuiet(run, steps, states, calls, of[n], handle, nid, n)
    requires LatestIsRemoval(run[i].rows, Item(conn, nid))
    ensures LatestIsRemoval(run[j].rows, Item(conn, nid)) && !Visible(run[j].rows, Item(conn, nid))
  {
    if i < j {
      LabStaysHidden(run, steps, states, calls, of, handle, conn, nid, i, j - 1);
      if Writes(steps[j - 1], conn) {
        QuietKeepsRemoved(run, steps, states, calls, of[j - 1], handle, nid, j - 1);
      } else {
        RunKeepsRemoved(run, steps, conn, nid, j - 1);
      }
    }
  }
}
