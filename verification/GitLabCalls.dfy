/** Runs of the GitLab provider's own polls: its cache runs, its verdict runs, and how a gate is lost. */
module GitLabCalls {
  import opened Model
  import opened Collections
  import opened GitLabVerdicts
  import opened GitLab
  import opened GitLabRefresh
  import opened GitLabProvider
  import opened GitLabVerdictRuns
  import opened GitLabSafety
  import opened GitLabDegraded

  /** What the provider keeps between polls. */
  datatype Memory = Memory(cache: Cache, baselines: Baselines)

  /** One poll with its open-set refresh and what the forge answers to both; a sweep has no refresh. */
  datatype Call = Call(poll: Poll, forge: Forge, refresh: Refresh, refreshForge: Forge)

  function CallOutput(cache: Cache, call: Call, handle: string): seq<Event> {
    PollOutput(cache, call.poll, handle) + RefreshOutput(call.refresh, handle)
  }

  ghost predicate IsCallRun(states: seq<Memory>, calls: seq<Call>, handle: string) {
    && |states| == |calls| + 1
    && states[0] == Memory(map[], map[])
    && forall i :: 0 <= i < |calls| ==> CallAt(states, calls, handle, i)
  }

  ghost predicate CallAt(states: seq<Memory>, calls: seq<Call>, handle: string, i: int)
    requires 0 <= i < |calls| && |states| == |calls| + 1
  {
    IsCall(states[i], calls[i], handle, states[i + 1])
  }

  /** What Reconcile and FastPoll promise about the cache and the baselines. */
  ghost predicate IsCall(m: Memory, call: Call, handle: string, m': Memory) {
    && FromRest(call.poll.rest) && IsJoinedPoll(call.poll, m.baselines, call.forge)
    && Refreshes(m, call, handle)
    && m'.cache == NextCache(m.cache, call.poll, handle)
    && m'.baselines == RefreshedBaselines(call.refresh, Between(m, call), call.refreshForge)
  }

  ghost predicate Refreshes(m: Memory, call: Call, handle: string) {
    || (call.refresh == NO_REFRESH && call.poll.lost == {})
    || IsRefreshOf(call.refresh, call.poll, m.cache, m.baselines, call.forge, call.refreshForge, handle)
  }

  /** The baselines between the join and the refresh. */
  ghost function Between(m: Memory, call: Call): Baselines {
    Joined(call.poll, m.baselines, call.forge)
  }

  /** A notification poll that ends at a todo it cannot fetch is a call too, without events. */
  lemma FailedIsCall(m: Memory, todos: seq<Option<Todo>>, forge: Forge, handle: string)
    ensures var call := Call(FailedPoll(todos), forge, NO_REFRESH, forge);
            && IsCall(m, call, handle, m.(cache := m.cache - Gone(Fetched(todos)))) && CallOutput(m.cache, call, handle) == []
  {
    var p, left := FailedPoll(todos), m.cache - Gone(Fetched(todos));
    assert ItemsOf(p.rest) == [] && ArchivedIDs(p.rest, p.results) == {};
    assert left - {} == left;
  }

  // ---- the cache ----

  function Caches(states: seq<Memory>): seq<Cache> {
    seq(|states|, i requires 0 <= i < |states| => states[i].cache)
  }

  function PollsOf(calls: seq<Call>): seq<Poll> {
    seq(|calls|, i requires 0 <= i < |calls| => calls[i].poll)
  }

  /** Every run of the provider's polls is a run of the cache, so gate stability holds of the provider. */
  lemma CallsAreCacheRun(states: seq<Memory>, calls: seq<Call>, handle: string)
    requires IsCallRun(states, calls, handle)
    ensures IsCacheRun(Caches(states), PollsOf(calls), handle)
  {
    forall i | 0 <= i < |calls|
      ensures StepsAt(Caches(states), PollsOf(calls), handle, i)
    {
      assert CallAt(states, calls, handle, i);
      CallIsCacheStep(states[i], calls[i], handle, states[i + 1]);
    }
  }

  lemma CallIsCacheStep(m: Memory, call: Call, handle: string, m': Memory)
    requires IsCall(m, call, handle, m')
    ensures IsCacheStep(m.cache, call.poll, handle, m'.cache)
  {
    JoinedVerdicts(call.poll, m.baselines, call.forge);
  }

  /** Gate stability, for the provider: over any run of polls, unless one passes an unknown read of the item through. */
  lemma ProviderGateStable(states: seq<Memory>, calls: seq<Call>, handle: string, nid: string, i: nat, j: nat)
    requires IsCallRun(states, calls, handle) && i <= j < |states| && Parseable(nid)
    requires StaysCached(Caches(states), PollsOf(calls), nid, i, j) && NeverPassedUnknown(PollsOf(calls), nid, i, j)
    requires Known(Caches(states)[i][nid].gate)
    ensures Known(Caches(states)[j][nid].gate)
  {
    CallsAreCacheRun(states, calls, handle);
    GateStable(Caches(states), PollsOf(calls), handle, nid, i, j);
  }

  /** The refresh emits an item's cached gate, and its snapshots are open. */
  lemma RefreshKeepsGate(ev: Event, mr: Mr, handle: string)
    requires ev.body.Snapshot?
    ensures var e := RefreshEvent(ev, mr, handle);
            && e.nativeID == ev.nativeID && e.body.Snapshot? && SameGateRead(e.body.facts, ev.body.facts)
  {
    AppliedGate(ev.body.facts, mr, handle);
  }

  // ---- the verdicts ----

  /** Stage 2n is the join of poll n, stage 2n + 1 its refresh. */
  function StagesOf(calls: seq<Call>): seq<Stage> {
    seq(2 * |calls|, x requires 0 <= x < 2 * |calls| => StageOf(calls[x / 2], x % 2 == 0))
  }

  function StageOf(call: Call, join: bool): Stage {
    if join then Stage(call.poll.rest, call.poll.results, call.forge.notes)
    else Stage(call.refresh.cached, call.refresh.results, call.refreshForge.notes)
  }

  ghost function BaselinesAcross(states: seq<Memory>, calls: seq<Call>): seq<Baselines>
    requires |states| == |calls| + 1
  {
    seq(2 * |calls| + 1, x requires 0 <= x < 2 * |calls| + 1 =>
      if x % 2 == 0 then states[x / 2].baselines else Between(states[x / 2], calls[x / 2]))
  }

  lemma {:induction false} NothingJoined(b: Baselines, events: seq<Event>, n: nat, notes: int -> Option<seq<Note>>)
    requires n <= |events|
    ensures BaselinesAfter(b, events, n, map[], notes) == b
  {
    if n > 0 {
      NothingJoined(b, events, n - 1, notes);
    }
  }

  lemma JoinIsStage(m: Memory, call: Call)
    ensures Between(m, call) == StageEnd(m.baselines, StageOf(call, true))
  {
    if PassesThrough(call.poll.results, call.poll.degraded) {
      NothingJoined(m.baselines, call.poll.rest, |call.poll.rest|, call.forge.notes);
    }
  }

  /** Every run of the provider's polls is a run of verdict stages, so the machine's laws hold of the provider. */
  lemma CallsAreStageRun(states: seq<Memory>, calls: seq<Call>, handle: string)
    requires IsCallRun(states, calls, handle)
    ensures IsStageRun(BaselinesAcross(states, calls), StagesOf(calls))
  {
    forall x | 0 <= x < 2 * |calls|
      ensures BaselinesAcross(states, calls)[x + 1] == StageEnd(BaselinesAcross(states, calls)[x], StagesOf(calls)[x])
    {
      var n := x / 2;
      assert CallAt(states, calls, handle, n);
      if x % 2 == 0 {
        JoinIsStage(states[n], calls[n]);
      }
    }
  }

  /**
   No verdict is reported twice. In any run of sweeps and notification polls, whatever batches
   and notes fetches failed, between two signals about one actor on one merge request the forge
   answered, outside drafts, that the actor's verdict was not the one first reported.
   */
  lemma ProviderSignalsAreSeparated(states: seq<Memory>, calls: seq<Call>, handle: string, nid: string, actor: string,
                                    c: nat, i: nat, d: nat, j: nat)
    requires IsCallRun(states, calls, handle) && c < 2 * |calls| && d < 2 * |calls|
    requires var stages, bs := StagesOf(calls), BaselinesAcross(states, calls);
             && IsPlace(stages, c, i) && IsPlace(stages, d, j) && Before(c, i, d, j)
             && ReportAt(bs[c], stages[c], i, nid, actor).Some? && ReportAt(bs[d], stages[d], j, nid, actor).Some?
    ensures var s := StepAt(StagesOf(calls)[c], i, nid);
            actor in s.current && DepartsBetween(StagesOf(calls), c, i, d, j, nid, actor, s.current[actor])
  {
    CallsAreStageRun(states, calls, handle);
    StageSignalsAreSeparated(BaselinesAcross(states, calls), StagesOf(calls), nid, actor, c, i, d, j);
  }

  /**
   No change is lost. From a position x on, however many notes fetches failed, the first place
   that reads the notes reports for each actor exactly the first matching note, if its verdict
   is not the one that the baseline had at x or the actor was gone between.
   */
  lemma ProviderReportsPending(states: seq<Memory>, calls: seq<Call>, handle: string, nid: string, actor: string, x: nat, d: nat, j: nat)
    requires IsCallRun(states, calls, handle) && FirstNotes(BaselinesAcross(states, calls), StagesOf(calls), nid, x, d, j)
    ensures var stages, bs := StagesOf(calls), BaselinesAcross(states, calls);
            ReportAt(bs[d], stages[d], j, nid, actor) == PendingSince(bs, stages, nid, actor, x, d, j)
  {
    CallsAreStageRun(states, calls, handle);
    StageReportsPending(BaselinesAcross(states, calls), StagesOf(calls), nid, actor, x, d, j);
  }

  // ---- how a gate is lost ----

  const LOST_ID: string := ['g', '!', '1']

  /** A list row whose merge status is not computed yet. */
  function UncheckedRow(): Payload {
    Payload([], [], [], Open, false, [], [], NoVerdict, NoVerdict, Unknown, Unchecked,
            false, false, false, false, false, false, false, false, -1, None, [], [], [], [])
  }

  /** A sweep that finds that merge request and nothing else. */
  function UncheckedSweep(): seq<Event> {
    [Event(MERGE_REQUEST, LOST_ID, ItemObserved, None, [], FactsKey(UncheckedRow()), Snapshot(UncheckedRow()))]
  }

  function Answering(node: Option<Mr>): Forge {
    Forge(_ => node, _ => false, _ => None)
  }

  function FirstPoll(): Poll {
    Poll(UncheckedSweep(), map[0 := ApprovedMr()], false, [], {}, {})
  }

  function SecondPoll(): Poll {
    Poll(UncheckedSweep(), map[], false, [], {}, {})
  }

  /** The first sweep is joined with a mergeable node, the second with a null one. */
  function LosingCalls(): seq<Call> {
    [Call(FirstPoll(), Answering(Some(ApprovedMr())), NO_REFRESH, Answering(None)),
     Call(SecondPoll(), Answering(None), NO_REFRESH, Answering(None))]
  }

  function LosingStates(handle: string): seq<Memory> {
    var verdicts: map<string, Verdicts> := map[LOST_ID := map[]];
    [Memory(map[], map[]), Memory(map[LOST_ID := ReadyPayload(handle)], verdicts), Memory(map[LOST_ID := UncheckedRow()], verdicts)]
  }

  function ReadyPayload(handle: string): Payload {
    EnrichedPayload(UncheckedRow(), Some(ApprovedMr()), None, handle)
  }

  lemma LostIdParses()
    ensures Parseable(LOST_ID)
  {
    assert LastIndex(LOST_ID, '!', 3) == 1;
    assert AllDigits(LOST_ID, 2, 3) by { assert AllDigits(LOST_ID, 2, 2); }
    assert !AllDigits(LOST_ID, 0, 1);
  }

  lemma SweepHasOneItem()
    ensures ItemsOf(UncheckedSweep()) == [0]
  {
    LostIdParses();
    var sweep := UncheckedSweep();
    assert sweep[..0] == [] && ItemsOf(sweep[..0]) == [];
    assert Joinable(sweep[0]);
  }

  lemma SweepFromRest()
    ensures FromRest(UncheckedSweep())
  {
    forall e, nid | e in UncheckedSweep() && IsSnapshot(e, nid)
      ensures GateConsistent(e.body.facts)
    {
      assert e == UncheckedSweep()[0];
    }
  }

  /** The forge's answer to one item decides the whole join. */
  lemma OneItemJoin(node: Option<Mr>)
    ensures var results := if node.Some? then map[0 := node.value] else map[];
            IsPerItemJoin(results, [0], 1, Answering(node), BATCH_SIZE)
    ensures forall n: nat :: BatchAnswered(Answering(node), BATCH_SIZE, n)
  {
    var results := if node.Some? then map[0 := node.value] else map[];
    assert [0][..1] == [0];
    assert HoldsResult(results, [0], 0, Answering(node), BATCH_SIZE);
  }

  lemma ReadyIsKnown(handle: string)
    ensures var pl := ReadyPayload(handle); pl.gate == Ready && pl.state == Open && !pl.draft
  {
    var row, mr := UncheckedRow(), ApprovedMr();
    JoinedParts(row, mr, None, handle);
    assert ReadyPayload(handle).gate == GatePart(ReadyPayload(handle)).gate;
  }

  function ReadyEvent(handle: string): Event {
    UncheckedSweep()[0].(body := Snapshot(ReadyPayload(handle)), key := FactsKey(ReadyPayload(handle)))
  }

  lemma FirstEnriched(handle: string)
    ensures Enriched(UncheckedSweep()[0], Some(ApprovedMr()), map[], handle) == ReadyEvent(handle)
  {
    LostIdParses();
  }

  lemma OneSurvivor(ev: Event, results: map<int, Mr>, cache: Cache, handle: string)
    ensures Survivors([ev], 1, results, cache, {}, handle) == [Enriched(ev, ResultAt(results, 0), cache, handle)]
  {
    assert Survivors([ev], 0, results, cache, {}, handle) == [];
  }

  lemma NoneArchived(results: map<int, Mr>)
    requires 0 in results ==> !results[0].archived
    ensures ArchivedIDs(UncheckedSweep(), results) == {}
  {
  }

  lemma FirstOutput(handle: string)
    ensures PollOutput(map[], FirstPoll(), handle) == [ReadyEvent(handle)]
  {
    var p, cache: Cache := FirstPoll(), map[];
    assert 0 in p.results && p.results != map[];
    assert cache - {} == cache;
    NoneArchived(p.results);
    OneSurvivor(p.rest[0], p.results, cache, handle);
    FirstEnriched(handle);
    assert p.rest == [p.rest[0]] && [ReadyEvent(handle)] + [] == [ReadyEvent(handle)];
  }

  lemma FirstCache(handle: string)
    ensures NextCache(map[], FirstPoll(), handle) == map[LOST_ID := ReadyPayload(handle)]
  {
    FirstOutput(handle);
    NoneArchived(FirstPoll().results);
    ReadyIsKnown(handle);
    var base: Cache := map[];
    assert base - {} - {} == base;
    OneCached(base, ReadyEvent(handle));
    var cached: Cache := map[LOST_ID := ReadyPayload(handle)];
    assert cached - {} == cached;
  }

  lemma OneCached(cache: Cache, ev: Event)
    requires ev.eventType == ItemObserved && ev.body.Snapshot? && ev.body.facts.state == Open
    ensures CacheAll(cache, [ev]) == cache[ev.nativeID := ev.body.facts]
  {
    assert [ev][..0] == [];
  }

  lemma NobodyYet()
    ensures CurrentOf(VerdictsIn(ApprovedMr())) == map[]
  {
  }

  /** First sight of the merge request: no signal, and an empty baseline. */
  lemma FirstStep(notes: Option<seq<Note>>)
    ensures var ev, r := UncheckedSweep()[0], Some(ApprovedMr());
            IsStepEmission([], ev, r, map[], notes) && BaselineStep(map[], ev, r, notes) == map[LOST_ID := map[]]
  {
    LostIdParses();
    NobodyYet();
  }

  lemma FirstVerdicts()
    ensures var p, notes := FirstPoll(), Answering(Some(ApprovedMr())).notes;
            && AreVerdicts([], map[], p.rest, p.results, false, notes)
            && NextBaselines(map[], p.rest, p.results, false, notes) == map[LOST_ID := map[]]
  {
    var p, notes := FirstPoll(), Answering(Some(ApprovedMr())).notes;
    var none: map<string, Verdicts>, parts: seq<seq<Event>> := map[], [[]];
    assert 0 in p.results && p.results != map[];
    FirstStep(notes(0));
    BaselinesStep(none, p.rest, 0, p.results, notes);
    assert parts[..0] == [] && Flat(parts) == [];
    assert IsPartOf(parts[0], none, p.rest, 0, p.results, notes);
    assert SplitBySteps(parts, [], none, p.rest, 1, p.results, notes);
  }

  lemma SecondCache(cache: Cache, handle: string)
    ensures NextCache(cache, SecondPoll(), handle) == cache[LOST_ID := UncheckedRow()]
  {
    var p := SecondPoll();
    NoneArchived(p.results);
    assert cache - {} - {} == cache;
    OneCached(cache, p.rest[0]);
    assert p.rest == [p.rest[0]];
    assert cache[LOST_ID := UncheckedRow()] - {} == cache[LOST_ID := UncheckedRow()];
  }

  lemma FirstCall(handle: string)
    ensures IsCall(LosingStates(handle)[0], LosingCalls()[0], handle, LosingStates(handle)[1])
  {
    SweepFromRest();
    SweepHasOneItem();
    OneItemJoin(Some(ApprovedMr()));
    FirstVerdicts();
    FirstCache(handle);
  }

  lemma SecondJoin(baselines: map<string, Verdicts>)
    ensures var p, forge := SecondPoll(), Answering(None);
            IsJoinedPoll(p, baselines, forge) && NextBaselines(baselines, p.rest, p.results, p.degraded, forge.notes) == baselines
  {
    SweepHasOneItem();
    OneItemJoin(None);
  }

  lemma SecondCall(handle: string)
    ensures IsCall(LosingStates(handle)[1], LosingCalls()[1], handle, LosingStates(handle)[2])
  {
    SweepFromRest();
    SecondJoin(map[LOST_ID := map[]]);
    SecondCache(map[LOST_ID := ReadyPayload(handle)], handle);
  }

  /**
   The exception is real. Two sweeps that find the same merge request unchecked: the first is
   joined and caches a known gate, the second gets a null node and no failed batch, passes
   through, and the gate is lost.
   */
  lemma PassThroughLosesGate(handle: string)
    ensures var states, calls := LosingStates(handle), LosingCalls();
            && IsCallRun(states, calls, handle)
            && Known(states[1].cache[LOST_ID].gate) && !Known(states[2].cache[LOST_ID].gate)
            && PassesThrough(calls[1].poll.results, calls[1].poll.degraded)
            && StaysCached(Caches(states), PollsOf(calls), LOST_ID, 1, 2)
  {
    LosingRun(handle);
    ReadyIsKnown(handle);
  }

  lemma LosingRun(handle: string)
    ensures IsCallRun(LosingStates(handle), LosingCalls(), handle)
  {
    FirstCall(handle);
    SecondCall(handle);
    forall i | 0 <= i < |LosingCalls()|
      ensures CallAt(LosingStates(handle), LosingCalls(), handle, i)
    {
      assert i == 0 || i == 1;
    }
  }
}
