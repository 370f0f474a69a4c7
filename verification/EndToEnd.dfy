/** The providers, the join, reap and the log together: what a complete sweep leaves visible. */
module EndToEnd {
  import opened Model
  import opened EventLog
  import opened Reaping
  import opened Visibility
  import opened Engine
  import opened EngineRuns
  import P = Protocol
  import Hub = GitHub
  import HubSweep = GitHubSweep
  import HubRuns = GitHubRuns
  import HubProvider = GitHubProvider
  import HubSafety = GitHubSafety
  import HubCalls = GitHubCalls
  import opened GitLabVerdicts
  import Lab = GitLab
  import LabProvider = GitLabProvider
  import LabSafety = GitLabSafety
  import LabRefresh = GitLabRefresh
  import LabCalls = GitLabCalls
  import Resurrection

  // ---- GitHub ----

  lemma HubEnrichedState(ev: Event, r: Option<Hub.Result>, cache: Hub.Cache)
    ensures var e := Hub.Enriched(ev, r, cache);
            && (ev.body.Snapshot? ==> e.body.Snapshot? && e.body.facts.state == ev.body.facts.state)
            && (ProviderEvent(ev) ==> ProviderEvent(e))
  {
    if Hub.Joinable(ev) {
      var pl, snap := ev.body.facts, Hub.Lookup(cache, ev.nativeID);
      if r.Some? && r.value.Enrichment? {
        HubRuns.JoinKeeps(pl, r.value, snap);
      } else if snap.Some? {
        HubRuns.CarryEnrichmentKeeps(pl, snap.value);
        HubRuns.CarryGateKeeps(Hub.CarryForwardEnrichment(pl, snap.value), snap.value);
      }
    }
  }

  /** The sweep holds exactly the PRs that some scope found, all of them open. */
  lemma HubFoundIsSwept(hits: seq<HubSweep.Hit>, nid: string)
    ensures nid in Swept(HubSweep.SweepRest(hits)) <==> HubSweep.Found(hits, nid)
    ensures HubSweep.Found(hits, nid) ==> SweptOpen(HubSweep.SweepRest(hits), nid)
  {
    var rest := HubSweep.SweepRest(hits);
    forall e | e in rest && e.eventType == ItemObserved && e.nativeID == nid
      ensures e.body.Snapshot? && e.body.facts.state == Open && HubSweep.Found(hits, nid)
    {
      HubSweep.SweptIsFound(hits, e);
    }
    if HubSweep.Found(hits, nid) {
      var e := HubSweep.FoundIsSwept(hits, nid);
    }
  }

  /** The join emits the items of its input, open ones as open, unless the forge archived them. */
  lemma HubSweptOpen(cache: Hub.Cache, p: HubRuns.Poll, forge: Hub.Forge, handle: string, nid: string)
    requires HubProvider.IsJoinedPoll(p, forge, handle)
    requires SweptOpen(p.rest, nid) && !HubSafety.SaidArchived(p.rest, forge, nid)
    ensures SweptOpen(HubRuns.PollOutput(cache, p), nid)
  {
    var out := HubRuns.PollOutput(cache, p);
    HubSafety.JoinedVerdicts(p, forge, handle);
    HubSafety.SweptByJoin(cache, p);
    if nid in Hub.ArchivedIDs(p.rest, p.results) {
      HubSafety.ArchivedWasSaid(p, forge, handle, nid);
    }
    forall e | e in out && e.eventType == ItemObserved && e.nativeID == nid
      ensures e.body.Snapshot? && e.body.facts.state == Open
    {
      var i := HubRuns.OutputOrigin(cache, p, e);
      HubSafety.EnrichedSame(p.rest[i], Hub.ResultAt(p.results, i), cache);
      HubEnrichedState(p.rest[i], Hub.ResultAt(p.results, i), cache);
      assert p.rest[i] in p.rest;
    }
  }

  /** What a sweep over these hits hands to the engine. */
  ghost predicate IsHubSweep(call: HubCalls.Call, p: HubRuns.Poll, handle: string) {
    && call.Sweeps? && p.rest == HubSweep.SweepRest(call.hits) && p.complete == HubCalls.IsComplete(call)
    && HubProvider.IsJoinedPoll(p, call.forge, handle)
  }

  /** Some scope found the PR and the forge did not say that its repository is archived. */
  ghost predicate HubLive(call: HubCalls.Call, nid: string)
    requires call.Sweeps?
  {
    HubSweep.Found(call.hits, nid) && !HubSafety.SaidArchived(HubSweep.SweepRest(call.hits), call.forge, nid)
  }

  lemma HubOutputSwept(cache: Hub.Cache, call: HubCalls.Call, p: HubRuns.Poll, handle: string, nid: string)
    requires IsHubSweep(call, p, handle)
    ensures HubLive(call, nid) ==> SweptOpen(HubRuns.PollOutput(cache, p), nid)
    ensures !HubSweep.Found(call.hits, nid) ==> nid !in Swept(HubRuns.PollOutput(cache, p))
  {
    HubFoundIsSwept(call.hits, nid);
    if HubLive(call, nid) {
      HubSweptOpen(cache, p, call.forge, handle, nid);
    }
    HubSafety.JoinedVerdicts(p, call.forge, handle);
    HubSafety.SweptByJoin(cache, p);
  }

  /** The item's latest fact is a closed or unreadable snapshot, and the poll only repeats stored keys. */
  predicate Shadowed(rows: seq<Row>, conn: string, events: seq<Event>, nid: string) {
    var f := LatestFact(rows, Item(conn, nid));
    f.Some? && f.value.eventType == ItemObserved && !IsOpen(f.value) && AllRepeated(rows, conn, events, nid)
  }

  /**
   What a complete sweep that was persisted leaves of an item that it holds as open, and of one
   that it does not hold. A live item is visible unless it was shadowed; one that was visible,
   or that an earlier sweep removed, is never shadowed. A missing one stays only if it was
   visible without role and the forge still lists it as open or could not be asked.
   */
  ghost predicate SweepDecides(rows: seq<Row>, rows': seq<Row>, conn: string, events: seq<Event>, open: Option<set<string>>,
                               nid: string, live: bool, missing: bool)
  {
    var k := Item(conn, nid);
    && (live ==> (Visible(rows', k) <==> !Shadowed(rows, conn, events, nid)))
    && (live && (Visible(rows, k) || LatestIsRemoval(rows, k)) ==> Visible(rows', k))
    && (missing ==>
          (Visible(rows', k) <==>
             Visible(rows, k) && !IsOpenRoled(LatestFact(rows, k).value) && (open.None? || nid in open.value)))
  }

  /**
   End to end on GitHub. In any run, when a complete sweep is persisted, whatever its GraphQL
   batches answered, the hits of its searches decide the visibility of every PR: one that some
   scope found is live unless the forge said that its repository is archived, one that no scope
   found is missing. So no failure hides a found PR, and every false removal heals.
   */
  lemma HubSweepShows(run: seq<P.State>, steps: seq<P.Step>, n: nat, cache: Hub.Cache, call: HubCalls.Call, p: HubRuns.Poll,
                      handle: string, nid: string)
    requires P.IsRun(run, steps) && n < |steps| && steps[n].WriteComplete?
    requires IsHubSweep(call, p, handle) && steps[n].poll.events == HubRuns.PollOutput(cache, p)
    ensures SweepDecides(run[n].rows, run[n + 1].rows, steps[n].conn, steps[n].poll.events, steps[n].open, nid,
                         HubLive(call, nid), !HubSweep.Found(call.hits, nid))
  {
    HubOutputSwept(cache, call, p, handle, nid);
    P.ReconcileDecides(run, steps, n, nid);
  }

  /** And for the engine: after a cycle that polled such a sweep and wrote it, however the cycle ended. */
  lemma HubCycleShows(turns: seq<Turn>, n: nat, cache: Hub.Cache, call: HubCalls.Call, p: HubRuns.Poll, handle: string, nid: string)
    requires IsEngineRun(turns) && n < |turns| && Written(turns[n].cycle.end)
    requires var result := ResultOf(turns[n].cycle.env);
             IsHubSweep(call, p, handle) && p.complete && result.complete && result.events == HubRuns.PollOutput(cache, p)
    ensures var t := turns[n];
            SweepDecides(t.cycle.before.rows, t.cycle.after.rows, t.conn, ResultOf(t.cycle.env).events,
                         AnswerSet(t.cycle.env.stillOpen), nid, HubLive(call, nid), !HubSweep.Found(call.hits, nid))
  {
    HubOutputSwept(cache, call, p, handle, nid);
    EngineReconcileDecides(turns, n, nid);
  }

  // ---- GitLab ----

  lemma LabEnrichedState(ev: Event, r: Option<Lab.Mr>, cache: Lab.Cache, handle: string)
    ensures var e := Lab.Enriched(ev, r, cache, handle);
            && (ev.body.Snapshot? ==> e.body.Snapshot? && e.body.facts.state == ev.body.facts.state)
            && (ProviderEvent(ev) ==> ProviderEvent(e))
  {
    if Lab.Joinable(ev) {
      var pl, snap := ev.body.facts, Lab.Lookup(cache, ev.nativeID);
      LabSafety.JoinedGate(pl, r, snap, handle);
      if snap.Some? {
        LabSafety.CarriedGate(Lab.JoinedPayload(pl, r, snap, handle), snap.value);
      }
    }
  }

  lemma LabSweptOpen(cache: Lab.Cache, p: LabProvider.Poll, baselines: map<string, Verdicts>, forge: Lab.Forge, handle: string, nid: string)
    requires LabProvider.IsJoinedPoll(p, baselines, forge)
    requires SweptOpen(p.rest, nid) && !LabSafety.SaidArchived(p.rest, forge, nid)
    ensures SweptOpen(LabProvider.PollOutput(cache, p, handle), nid)
  {
    var out := LabProvider.PollOutput(cache, p, handle);
    LabProvider.JoinedVerdicts(p, baselines, forge);
    LabSafety.SweptByJoin(cache, p, baselines, forge, handle);
    if nid in Lab.ArchivedIDs(p.rest, p.results) {
      LabSafety.ArchivedWasSaid(p, baselines, forge, nid);
    }
    forall e | e in out && e.eventType == ItemObserved && e.nativeID == nid
      ensures e.body.Snapshot? && e.body.facts.state == Open
    {
      var i := LabSafety.OutputOrigin(cache, p, handle, e);
      LabSafety.EnrichedSame(p.rest[i], Lab.ResultAt(p.results, i), cache - p.gone, handle);
      LabEnrichedState(p.rest[i], Lab.ResultAt(p.results, i), cache - p.gone, handle);
      assert p.rest[i] in p.rest;
    }
  }

  /** REST found the merge request open and the forge did not say that its project is archived. */
  ghost predicate LabLive(p: LabProvider.Poll, forge: Lab.Forge, nid: string) {
    SweptOpen(p.rest, nid) && !LabSafety.SaidArchived(p.rest, forge, nid)
  }

  lemma LabOutputSwept(cache: Lab.Cache, p: LabProvider.Poll, baselines: map<string, Verdicts>, forge: Lab.Forge, handle: string, nid: string)
    requires LabProvider.IsJoinedPoll(p, baselines, forge)
    ensures LabLive(p, forge, nid) ==> SweptOpen(LabProvider.PollOutput(cache, p, handle), nid)
    ensures nid !in Swept(p.rest) ==> nid !in Swept(LabProvider.PollOutput(cache, p, handle))
  {
    if LabLive(p, forge, nid) {
      LabSweptOpen(cache, p, baselines, forge, handle, nid);
    }
    LabSafety.SweptByJoin(cache, p, baselines, forge, handle);
  }

  /** End to end on GitLab, pass-through sweeps included. */
  lemma LabSweepShows(run: seq<P.State>, steps: seq<P.Step>, n: nat, cache: Lab.Cache, p: LabProvider.Poll,
                      baselines: map<string, Verdicts>, forge: Lab.Forge, handle: string, nid: string)
    requires P.IsRun(run, steps) && n < |steps| && steps[n].WriteComplete?
    requires LabProvider.IsJoinedPoll(p, baselines, forge) && steps[n].poll.events == LabProvider.PollOutput(cache, p, handle)
    ensures SweepDecides(run[n].rows, run[n + 1].rows, steps[n].conn, steps[n].poll.events, steps[n].open, nid,
                         LabLive(p, forge, nid), nid !in Swept(p.rest))
  {
    LabOutputSwept(cache, p, baselines, forge, handle, nid);
    P.ReconcileDecides(run, steps, n, nid);
  }

  lemma LabCycleShows(turns: seq<Turn>, n: nat, cache: Lab.Cache, p: LabProvider.Poll, baselines: map<string, Verdicts>,
                      forge: Lab.Forge, handle: string, nid: string)
    requires IsEngineRun(turns) && n < |turns| && Written(turns[n].cycle.end)
    requires var result := ResultOf(turns[n].cycle.env);
             && LabProvider.IsJoinedPoll(p, baselines, forge)
             && result.complete && result.events == LabProvider.PollOutput(cache, p, handle)
    ensures var t := turns[n];
            SweepDecides(t.cycle.before.rows, t.cycle.after.rows, t.conn, ResultOf(t.cycle.env).events,
                         AnswerSet(t.cycle.env.stillOpen), nid, LabLive(p, forge, nid), nid !in Swept(p.rest))
  {
    LabOutputSwept(cache, p, baselines, forge, handle, nid);
    EngineReconcileDecides(turns, n, nid);
  }

  // ---- what the protocol asks of its polls ----

  lemma {:induction false} HubVerdictsAreProvider(it: Hub.PrItem, reviews: seq<Hub.Review>, e: Event)
    requires e in Hub.VerdictsOf(it, reviews)
    ensures ProviderEvent(e)
  {
    if e in Hub.VerdictsOf(it, reviews[..|reviews| - 1]) {
      HubVerdictsAreProvider(it, reviews[..|reviews| - 1], e);
    }
  }

  lemma {:induction false} HubOutputVerdict(events: seq<Event>, n: nat, results: map<int, Hub.Result>, e: Event) returns (x: int)
    requires n <= |events| && e in Hub.Verdicts(events, n, results)
    ensures x in results && results[x].Enrichment? && e in results[x].verdicts
  {
    if e in Hub.Verdicts(events, n - 1, results) {
      x := HubOutputVerdict(events, n - 1, results, e);
    } else {
      x := n - 1;
    }
  }

  lemma HubResultVerdict(it: Hub.PrItem, node: Hub.Node, handle: string, r: Hub.Result, e: Event)
    requires Hub.ResultFor(it, node, handle) == Some(r) && r.Enrichment? && e in r.verdicts
    ensures ProviderEvent(e)
  {
    HubVerdictsAreProvider(it, node.pull.reviews, e);
  }

  /** GitHub's polls satisfy what every persisted poll of the protocol must: snapshots and signals under provider keys. */
  lemma HubOutputIsProvider(cache: Hub.Cache, call: HubCalls.Call, p: HubRuns.Poll, handle: string, cache': Hub.Cache)
    requires HubCalls.IsCall(call, handle, cache, Some(p), cache')
    ensures ProviderEvents(HubRuns.PollOutput(cache, p))
  {
    HubCalls.RestIsProvider(call);
    forall e | e in HubRuns.PollOutput(cache, p)
      ensures ProviderEvent(e)
    {
      if e in Hub.Verdicts(p.rest, |p.rest|, p.results) {
        HubVerdictIsProvider(p, call.forge, handle, e);
      } else {
        HubSurvivorIsProvider(p, Hub.ArchivedIDs(p.rest, p.results), cache, e);
      }
    }
  }

  lemma HubSurvivorIsProvider(p: HubRuns.Poll, archived: set<string>, cache: Hub.Cache, e: Event)
    requires ProviderEvents(p.rest) && e in Hub.Survivors(p.rest, |p.rest|, p.results, cache, archived)
    ensures ProviderEvent(e)
  {
    HubRuns.SurvivorOrigin(p.rest, |p.rest|, p.results, cache, archived, e);
    var i :| 0 <= i < |p.rest| && p.rest[i].nativeID !in archived && e == Hub.Enriched(p.rest[i], Hub.ResultAt(p.results, i), cache);
    HubEnrichedState(p.rest[i], Hub.ResultAt(p.results, i), cache);
  }

  lemma HubVerdictIsProvider(p: HubRuns.Poll, forge: Hub.Forge, handle: string, e: Event)
    requires HubProvider.IsJoinedPoll(p, forge, handle) && e in Hub.Verdicts(p.rest, |p.rest|, p.results)
    ensures ProviderEvent(e)
  {
    var items := Hub.ItemsOf(p.rest);
    var x := HubOutputVerdict(p.rest, |p.rest|, p.results, e);
    HubItemVerdict(items, p.results, forge, handle, x, e);
  }

  lemma HubItemVerdict(items: seq<Hub.PrItem>, results: map<int, Hub.Result>, forge: Hub.Forge, handle: string, x: int, e: Event)
    requires Hub.IsPerItemJoin(results, items, |items|, forge, HubProvider.BATCH_SIZE, handle)
    requires x in results && results[x].Enrichment? && e in results[x].verdicts
    ensures ProviderEvent(e)
  {
    var i := Hub.ItemOfResult(items, results, forge, HubProvider.BATCH_SIZE, handle, x);
    HubResultVerdict(items[i], forge.node(i), handle, results[x], e);
  }

  lemma LabJoinIsProvider(cache: Lab.Cache, p: LabProvider.Poll, baselines: map<string, Verdicts>, forge: Lab.Forge, handle: string)
    requires LabProvider.IsJoinedPoll(p, baselines, forge) && ProviderEvents(p.rest)
    ensures ProviderEvents(LabProvider.PollOutput(cache, p, handle))
  {
    var archived := Lab.ArchivedIDs(p.rest, p.results);
    if !Lab.PassesThrough(p.results, p.degraded) {
      forall e | e in LabProvider.PollOutput(cache, p, handle)
        ensures ProviderEvent(e)
      {
        if e in Lab.Survivors(p.rest, |p.rest|, p.results, cache - p.gone, archived, handle) {
          LabSafety.SurvivorOrigin(p.rest, |p.rest|, p.results, cache - p.gone, archived, handle, e);
          var i :| 0 <= i < |p.rest| && p.rest[i].nativeID !in archived
                   && e == Lab.Enriched(p.rest[i], Lab.ResultAt(p.results, i), cache - p.gone, handle);
          LabEnrichedState(p.rest[i], Lab.ResultAt(p.results, i), cache - p.gone, handle);
        } else {
          LabProvider.JoinedVerdicts(p, baselines, forge);
          assert e in p.verdicts;
        }
      }
    }
  }

  lemma LabRefreshIsProvider(m: LabCalls.Memory, call: LabCalls.Call, handle: string, m': LabCalls.Memory)
    requires LabCalls.IsCall(m, call, handle, m')
    ensures ProviderEvents(LabRefresh.RefreshOutput(call.refresh, handle))
  {
    forall e | e in LabRefresh.RefreshOutput(call.refresh, handle)
      ensures ProviderEvent(e)
    {
      Resurrection.CallEvents(m, call, handle, m', e);
      if !LabProvider.IsVerdictEvent(e) {
        var i :| LabRefresh.ShotAt(call.refresh, i, handle, e);
        assert LabRefresh.IsCachedEvent(call.refresh.cached[i], LabProvider.Kept(m.cache, call.poll, handle),
                                        LabRefresh.Covered(LabProvider.PollOutput(m.cache, call.poll, handle)));
      }
    }
  }

  /** And so do GitLab's, from REST events that satisfy it: the joined events and what the open-set refresh appends. */
  lemma LabOutputIsProvider(m: LabCalls.Memory, call: LabCalls.Call, handle: string, m': LabCalls.Memory)
    requires LabCalls.IsCall(m, call, handle, m') && ProviderEvents(call.poll.rest)
    ensures ProviderEvents(LabCalls.CallOutput(m.cache, call, handle))
  {
    LabJoinIsProvider(m.cache, call.poll, m.baselines, call.forge, handle);
    LabRefreshIsProvider(m, call, handle, m');
  }

  /** The REST events of a notification poll do. */
  lemma {:induction false} TodosAreProvider(todos: seq<LabRefresh.Todo>)
    ensures ProviderEvents(LabRefresh.TodoRest(todos))
  {
    if todos != [] {
      TodosAreProvider(todos[..|todos| - 1]);
    }
  }
}
