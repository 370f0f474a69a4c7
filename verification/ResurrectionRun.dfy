/** A GitLab run in which a merged, removed merge request comes back although REST never sees it again. */
module ResurrectionRun {
  import opened Model
  import opened EventLog
  import opened Reaping
  import opened Collections
  import P = Protocol
  import EngineRuns
  import opened GitLabVerdicts
  import opened GitLab
  import opened GitLabRefresh
  import opened GitLabProvider
  import opened GitLabSafety
  import opened GitLabDegraded
  import opened GitLabCalls
  import opened Resurrection

  // ---- the provider's three polls ----

  /** After the merge a pipeline runs. */
  function RunningMr(): Mr {
    ApprovedMr().(pipeline := RunningPipeline)
  }

  function EmptyPoll(): Poll {
    Poll([], map[], false, [], {}, {})
  }

  function Reread(handle: string): Refresh {
    Refresh([SnapshotEvent(LOST_ID, ReadyPayload(handle))], map[0 := RunningMr()], false, [[]])
  }

  /** A sweep that finds the merge request, one that finds nothing, and a notification poll without todos. */
  function MergedCalls(handle: string): seq<Call> {
    [LosingCalls()[0], Call(EmptyPoll(), Answering(None), NO_REFRESH, Answering(None)),
     Call(EmptyPoll(), Answering(None), Reread(handle), Answering(Some(RunningMr())))]
  }

  function Remembered(handle: string): Memory {
    Memory(map[LOST_ID := ReadyPayload(handle)], map[LOST_ID := map[]])
  }

  function MergedStates(handle: string): seq<Memory> {
    [Memory(map[], map[]), Remembered(handle), Remembered(handle), Remembered(handle)]
  }

  lemma EmptyJoin(m: Memory, handle: string)
    ensures var p, forge := EmptyPoll(), Answering(None);
            && FromRest(p.rest) && IsJoinedPoll(p, m.baselines, forge) && Joined(p, m.baselines, forge) == m.baselines
            && PollOutput(m.cache, p, handle) == [] && Kept(m.cache, p, handle) == m.cache && NextCache(m.cache, p, handle) == m.cache
  {
    var p := EmptyPoll();
    assert ItemsOf(p.rest) == [] && ArchivedIDs(p.rest, p.results) == {};
    assert m.cache - {} - {} == m.cache;
  }

  lemma EmptySweep(m: Memory, handle: string)
    ensures IsCall(m, Call(EmptyPoll(), Answering(None), NO_REFRESH, Answering(None)), handle, m)
  {
    EmptyJoin(m, handle);
  }

  /** The cached snapshot is the one item of the refresh. */
  lemma RereadsOne(handle: string)
    ensures var cached, cache := Reread(handle).cached, Remembered(handle).cache;
            && Joinable(cached[0]) && ItemsOf(cached) == [0] && IsOpenList(cached, cache, {})
  {
    var cached, cache := Reread(handle).cached, Remembered(handle).cache;
    LostIdParses();
    ReadyIsKnown(handle);
    assert cached[..0] == [] && ItemsOf(cached[..0]) == [];
    assert cached[0].nativeID == LOST_ID && IsCachedEvent(cached[0], cache, {});
  }

  /** The merge request has no verdicts, so the step reports nothing and keeps the baseline. */
  lemma RereadStep(handle: string)
    ensures var ev, r, b := Reread(handle).cached[0], Some(RunningMr()), Remembered(handle).baselines;
            IsStepEmission([], ev, r, b, None) && BaselineStep(b, ev, r, None) == b
  {
    assert CurrentOf(VerdictsIn(RunningMr())) == map[];
    var none: Verdicts := map[];
    assert Evicted(none, none) == none;
  }

  lemma RereadSplits(handle: string)
    ensures var r, b, notes := Reread(handle), Remembered(handle).baselines, Answering(Some(RunningMr())).notes;
            && SplitBySteps(r.parts, Flat(r.parts), b, r.cached, 1, r.results, notes)
            && BaselinesAfter(b, r.cached, 1, r.results, notes) == b
  {
    var r, b, notes := Reread(handle), Remembered(handle).baselines, Answering(Some(RunningMr())).notes;
    RereadStep(handle);
    BaselinesStep(b, r.cached, 0, r.results, notes);
    assert BaselinesAfter(b, r.cached, 0, r.results, notes) == b;
    assert 0 in r.results;
    assert IsPartOf(r.parts[0], b, r.cached, 0, r.results, notes);
  }

  lemma Rereads(handle: string)
    ensures var r, m := Reread(handle), Remembered(handle);
            && IsRefresh(r, m.cache, {}, m.baselines, Answering(Some(RunningMr())))
            && RefreshedBaselines(r, m.baselines, Answering(Some(RunningMr()))) == m.baselines
            && ArchivedIDs(r.cached, r.results) == {}
  {
    RereadsOne(handle);
    OneItemJoin(Some(RunningMr()));
    RereadSplits(handle);
  }

  lemma Notified(handle: string)
    ensures IsCall(Remembered(handle), MergedCalls(handle)[2], handle, Remembered(handle))
  {
    EmptyJoin(Remembered(handle), handle);
    Rereads(handle);
  }

  lemma MergedCallAt(handle: string, i: int)
    requires 0 <= i < 3
    ensures CallAt(MergedStates(handle), MergedCalls(handle), handle, i)
  {
    if i == 0 {
      FirstCall(handle);
    } else if i == 1 {
      EmptySweep(Remembered(handle), handle);
    } else {
      Notified(handle);
    }
  }

  lemma MergedRun(handle: string)
    ensures IsCallRun(MergedStates(handle), MergedCalls(handle), handle)
  {
    forall i | 0 <= i < |MergedCalls(handle)|
      ensures CallAt(MergedStates(handle), MergedCalls(handle), handle, i)
    {
      MergedCallAt(handle, i);
    }
  }

  // ---- the log ----

  /** The row of the first sweep's snapshot. */
  function FirstRow(handle: string): Row {
    Stamp(1, [], ReadyEvent(handle), 1)
  }

  function RemovedRow(handle: string): Row {
    Stamp(2, [], RemovalOf(FirstRow(handle)), 2)
  }

  lemma OneInserted(rows: seq<Row>, e: Event, at: Time)
    requires !Stored(rows, [], e)
    ensures InsertAll(rows, [], [e], at) == rows + [Stamp(NextID(rows), [], e, at)]
  {
    assert [e][..0] == [];
  }

  lemma FirstWrite(handle: string)
    ensures var e := ReadyEvent(handle);
            && ProviderEvents([e]) && IsReap([], [], [e], Some({}), [])
            && CompletePersist([], [], [e], [], 1) == [FirstRow(handle)]
  {
    var e := ReadyEvent(handle);
    OneInserted([], e, 1);
    assert SaltAll([], [], [e]) + [] == [e];
  }

  /** ResolveOpen answers without the merge request, so the second sweep removes it. */
  lemma SecondWrite(handle: string)
    ensures var rows, removal := [FirstRow(handle)], RemovalOf(FirstRow(handle));
            && IsReap(rows, [], [], Some({}), [removal])
            && CompletePersist(rows, [], [], [removal], 2) == [FirstRow(handle), RemovedRow(handle)]
  {
    var rows, removal := [FirstRow(handle)], RemovalOf(FirstRow(handle));
    ReadyIsKnown(handle);
    assert LatestFact(rows, Item([], LOST_ID)) == Some(FirstRow(handle));
    assert [removal][0].nativeID == LOST_ID;
    OneInserted(rows, removal, 2);
    assert SaltAll(rows, [], []) + [removal] == [removal];
    assert rows + [RemovedRow(handle)] == [FirstRow(handle), RemovedRow(handle)];
  }

  /** The refresh's snapshot differs from the stored one: the pipeline runs. */
  lemma RereadIsNew(handle: string)
    ensures var e := SnapshotEvent(LOST_ID, ApplyGraphQL(ReadyPayload(handle), RunningMr(), handle));
            !Stored([FirstRow(handle), RemovedRow(handle)], [], e)
  {
    var row := UncheckedRow();
    JoinedParts(row, ApprovedMr(), None, handle);
    assert ReadyPayload(handle).checksRunning == ReviewPart(ReadyPayload(handle)).checksRunning;
    var pl := ApplyGraphQL(ReadyPayload(handle), RunningMr(), handle);
    ReadyIsKnown(handle);
    assert pl.checksRunning && !ReadyPayload(handle).checksRunning;
  }

  /** Persists one complete sweep: its events, then its cursors. */
  lemma SweepAppends(run: seq<P.State>, steps: seq<P.Step>, events: seq<Event>, removals: seq<Event>, at: Time)
      returns (run': seq<P.State>, steps': seq<P.Step>)
    requires P.IsRun(run, steps) && run[|steps|].written == map[] && ProviderEvents(events)
    requires IsReap(run[|steps|].rows, [], events, Some({}), removals)
    ensures P.IsRun(run', steps') && |steps'| == |steps| + 2 && run <= run' && steps <= steps'
    ensures steps'[|steps|] == P.WriteComplete([], P.Poll(events, map[]), Some({}), removals, at)
    ensures run'[|steps| + 1].rows == run'[|steps'|].rows == CompletePersist(run[|steps|].rows, [], events, removals, at)
    ensures run'[|steps'|].written == map[]
  {
    var write := P.WriteComplete([], P.Poll(events, map[]), Some({}), removals, at);
    EngineRuns.RunAppend(run, steps, write);
    var mid := P.Apply(run[|steps|], write);
    EngineRuns.RunAppend(run + [mid], steps + [write], P.Save([]));
    run', steps' := run + [mid] + [P.Apply(mid, P.Save([]))], steps + [write] + [P.Save([])];
  }

  /** The log once both sweeps are persisted: the snapshot and its removal. */
  lemma RemovedState(handle: string) returns (run: seq<P.State>, steps: seq<P.Step>)
    ensures P.IsRun(run, steps) && |steps| == 4
    ensures run[4].rows == [FirstRow(handle), RemovedRow(handle)] && run[4].written == map[]
    ensures steps[0] == P.WriteComplete([], P.Poll([ReadyEvent(handle)], map[]), Some({}), [], 1)
    ensures steps[2] == P.WriteComplete([], P.Poll([], map[]), Some({}), [RemovalOf(FirstRow(handle))], 2)
  {
    FirstWrite(handle);
    run, steps := SweepAppends([P.START], [], [ReadyEvent(handle)], [], 1);
    SecondWrite(handle);
    run, steps := SweepAppends(run, steps, [], [RemovalOf(FirstRow(handle))], 2);
  }

  lemma IsRemoved(handle: string)
    ensures LatestIsRemoval([FirstRow(handle), RemovedRow(handle)], Item([], LOST_ID))
  {
  }

  lemma RefreshWrites(handle: string, run: seq<P.State>, steps: seq<P.Step>) returns (run': seq<P.State>, steps': seq<P.Step>)
    requires P.IsRun(run, steps) && run[|steps|].written == map[]
    ensures var write := P.WritePartial([], P.Poll(CallOutput(Remembered(handle).cache, MergedCalls(handle)[2], handle), map[]), 3);
            P.IsRun(run', steps') && run' == run + [P.Apply(run[|steps|], write)] && steps' == steps + [write]
  {
    var out := CallOutput(Remembered(handle).cache, MergedCalls(handle)[2], handle);
    OutputIsProvider(handle);
    var write := P.WritePartial([], P.Poll(out, map[]), 3);
    EngineRuns.RunAppend(run, steps, write);
    run', steps' := run + [P.Apply(run[|steps|], write)], steps + [write];
  }

  lemma OutputIsProvider(handle: string)
    ensures ProviderEvents(CallOutput(Remembered(handle).cache, MergedCalls(handle)[2], handle))
  {
    var m, call := Remembered(handle), MergedCalls(handle)[2];
    EmptyJoin(m, handle);
    Notified(handle);
    forall e | e in CallOutput(m.cache, call, handle)
      ensures ProviderEvent(e)
    {
      CallEvents(m, call, handle, m, e);
    }
  }

  /** The refresh answers for the merge request, and with something new. */
  lemma ComesBack(handle: string)
    ensures Resurrects([FirstRow(handle), RemovedRow(handle)], [], Remembered(handle).cache, Reread(handle), handle, LOST_ID)
  {
    RereadIsNew(handle);
    assert 0 in Reread(handle).results;
    assert AnswersFor(Reread(handle), 0, LOST_ID)
        && BringsNew([FirstRow(handle), RemovedRow(handle)], [], Remembered(handle).cache, Reread(handle), 0, handle, LOST_ID);
  }

  lemma FirstOutputs(handle: string)
    ensures CallOutput(MergedStates(handle)[0].cache, MergedCalls(handle)[0], handle) == [ReadyEvent(handle)]
    ensures CallOutput(MergedStates(handle)[1].cache, MergedCalls(handle)[1], handle) == []
  {
    FirstOutput(handle);
    EmptyJoin(Remembered(handle), handle);
  }

  /** Step 2n of the run writes poll n of the provider. */
  lemma MergedSteps(handle: string) returns (run: seq<P.State>, steps: seq<P.Step>)
    ensures P.IsRun(run, steps) && |steps| == 5
    ensures forall n :: 0 <= n < 3 ==> WritesPoll(steps, 2 * n, handle, n)
    ensures steps[0].WriteComplete? && steps[2].WriteComplete? && steps[4].WritePartial? && steps[4].conn == []
    ensures run[4].rows == [FirstRow(handle), RemovedRow(handle)]
  {
    var run4, steps4 := RemovedState(handle);
    run, steps := RefreshWrites(handle, run4, steps4);
    FirstOutputs(handle);
    assert run[4] == run4[4] && steps[..4] == steps4;
    assert WritesPoll(steps, 0, handle, 0) && WritesPoll(steps, 2, handle, 1) && WritesPoll(steps, 4, handle, 2);
    forall n | 0 <= n < 3
      ensures WritesPoll(steps, 2 * n, handle, n)
    {
      assert n == 0 || n == 1 || n == 2;
    }
  }

  predicate WritesPoll(steps: seq<P.Step>, i: int, handle: string, n: int)
    requires 0 <= i < |steps| && 0 <= n < 3
  {
    (steps[i].WritePartial? || steps[i].WriteComplete?) && steps[i].conn == []
    && steps[i].poll.events == CallOutput(MergedStates(handle)[n].cache, MergedCalls(handle)[n], handle)
  }

  /**
   It happens. A sweep finds a merge request open, the next one no longer does and ResolveOpen
   does not list it, so it is removed; then a notification poll without todos refreshes the
   cached snapshot, finds its pipeline running, and the merge request is back on the list.
   */
  lemma MergedReturns(handle: string) returns (run: seq<P.State>, steps: seq<P.Step>)
    ensures P.IsRun(run, steps) && |steps| == 5 && IsCallRun(MergedStates(handle), MergedCalls(handle), handle)
    ensures forall n :: 0 <= n < 3 ==> WritesPoll(steps, 2 * n, handle, n)
    ensures steps[0].WriteComplete? && steps[2].WriteComplete? && steps[4].WritePartial?
    ensures MergedCalls(handle)[1].poll.rest == MergedCalls(handle)[2].poll.rest == []
    ensures LatestIsRemoval(run[4].rows, Item([], LOST_ID)) && Visible(run[5].rows, Item([], LOST_ID))
  {
    MergedRun(handle);
    run, steps := MergedSteps(handle);
    IsRemoved(handle);
    ComesBack(handle);
    assert WritesPoll(steps, 2 * 2, handle, 2);
    RefreshDecides(run, steps, 4, MergedStates(handle), MergedCalls(handle), 2, handle, LOST_ID);
  }
}
