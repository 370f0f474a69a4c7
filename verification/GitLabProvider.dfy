/** The GitLab provider as it runs, and what its join cannot do. */
module GitLabProvider {
  import opened Arithmetic
  import opened Model
  import opened Collections
  import opened Reaping
  import opened GitLabVerdicts
  import opened GitLab
  import opened GitLabRefresh

  class Provider {
    const handle: string
    const machine: VerdictMachine
    var openSnapshots: Cache

    constructor (handle: string)
      ensures this.handle == handle && openSnapshots == map[] && machine.baselines == map[] && fresh(machine)
    {
      this.handle := handle;
      machine := new VerdictMachine();
      openSnapshots := map[];
    }

    /** Queries the items in batches; a failed batch degrades, a missing node does not. */
    method RunMRBatches(items: seq<int>, size: nat, forge: Forge) returns (results: map<int, Mr>, degraded: bool)
      requires size > 0 && Ascending(items)
      ensures IsPerItemJoin(results, items, |items|, forge, size)
      ensures degraded <==> exists n :: 0 <= n < |items| && !BatchAnswered(forge, size, n)
    {
      results, degraded := map[], false;
      var start := 0;
      ghost var k := 0;
      while start < |items|
        invariant start == k * size
        invariant var n := if start < |items| then start else |items|;
                  && IsPerItemJoin(results, items, n, forge, size)
                  && (degraded <==> exists m :: 0 <= m < n && !BatchAnswered(forge, size, m))
        decreases |items| - start
      {
        var end := if start + size < |items| then start + size else |items|;
        InBatch(k, size, start, end);
        assert BatchAnswered(forge, size, start) <==> !forge.batchFails(start);
        if forge.batchFails(start) {
          degraded := true;
        } else {
          results := ReadBatch(items, start, end, forge, size, results);
        }
        start := start + size;
        k := k + 1;
      }
    }

    /** The nodes of one answered batch; missing and null ones are skipped. */
    method ReadBatch(items: seq<int>, start: nat, end: nat, forge: Forge, size: nat, results0: map<int, Mr>)
      returns (results: map<int, Mr>)
      requires size > 0 && start <= end <= |items| && Ascending(items)
      requires forall n :: start <= n < end ==> BatchAnswered(forge, size, n)
      requires IsPerItemJoin(results0, items, start, forge, size)
      ensures IsPerItemJoin(results, items, end, forge, size)
    {
      results := results0;
      for n := start to end
        invariant IsPerItemJoin(results, items, n, forge, size)
      {
        ReadStep(results, items, n, forge, size);
        if forge.node(n).Some? {
          results := results[items[n] := forge.node(n).value];
        }
      }
    }

    method CollectItems(events: seq<Event>) returns (items: seq<int>)
      ensures items == ItemsOf(events)
    {
      items := [];
      for i := 0 to |events|
        invariant items == ItemsOf(events[..i])
      {
        assert events[..i + 1][..i] == events[..i];
        if Joinable(events[i]) {
          items := items + [i];
        }
      }
      assert events[..|events|] == events;
    }

    /** Enriches one event: an archived item leaves the cache, an open joined one makes a verdict step. */
    method EnrichEvent(ev: Event, r: Option<Mr>, notes: Option<seq<Note>>)
      returns (ev': Event, verdicts: seq<Event>, archived: bool)
      modifies this, machine
      ensures archived <==> Joinable(ev) && r.Some? && r.value.archived
      ensures openSnapshots == old(openSnapshots) - if archived then {ev.nativeID} else {}
      ensures ev' == Enriched(ev, r, old(openSnapshots), handle)
      ensures IsStepEmission(verdicts, ev, r, old(machine.baselines), notes)
      ensures machine.baselines == BaselineStep(old(machine.baselines), ev, r, notes)
    {
      if !Joinable(ev) {
        return ev, [], false;
      }
      var pl := ev.body.facts;
      verdicts := [];
      if r.Some? {
        var mr := r.value;
        if mr.archived {
          openSnapshots := openSnapshots - {ev.nativeID};
          return ev, [], true;
        }
        pl := GateFromJoin(ApplyGraphQL(pl, mr, handle), mr.dms);
        JoinKeepsItem(ev.body.facts, mr, handle);
        if pl.state == Open {
          ghost var current;
          verdicts, current := machine.EmitNewVerdictSignals(ev.nativeID, VerdictsIn(mr), pl.draft, notes);
          CurrentIsSet(current, VerdictsIn(mr));
        }
      } else if ev.nativeID in openSnapshots {
        pl := CarryForwardEnrichment(pl, openSnapshots[ev.nativeID]);
      }
      if ev.nativeID in openSnapshots {
        pl := CarryForwardGate(pl, openSnapshots[ev.nativeID]);
      }
      return ev.(body := Snapshot(pl), key := FactsKey(pl)), verdicts, false;
    }

    /**
     Enriches a sweep. When no node came back and no batch failed, the sweep passes through
     untouched; otherwise every event is enriched or carried forward in its place, archived
     items are dropped, and verdict signals follow.
     */
    method GraphqlJoin(events: seq<Event>, forge: Forge)
      returns (out: seq<Event>, degraded: bool, ghost results: map<int, Mr>, ghost verdicts: seq<Event>)
      modifies this, machine
      ensures IsPerItemJoin(results, ItemsOf(events), |ItemsOf(events)|, forge, BATCH_SIZE)
      ensures degraded <==> exists n :: 0 <= n < |ItemsOf(events)| && !BatchAnswered(forge, BATCH_SIZE, n)
      ensures out == JoinOutput(events, results, degraded, old(openSnapshots), handle, verdicts)
      ensures openSnapshots == old(openSnapshots) - ArchivedIDs(events, results)
      ensures machine.baselines == NextBaselines(old(machine.baselines), events, results, degraded, forge.notes)
      ensures AreVerdicts(verdicts, old(machine.baselines), events, results, degraded, forge.notes)
    {
      var list := CollectItems(events);
      verdicts := [];
      ItemsAreListed(events);
      if list == [] {
        return events, false, map[], [];
      }
      var res;
      res, degraded := RunMRBatches(list, BATCH_SIZE, forge);
      results := res;
      if |res| == 0 && !degraded {
        return events, false, results, [];
      }
      var enriched, signals, archived := EnrichAll(events, res, forge);
      verdicts := signals;
      out := Drop(events, res, enriched, archived, old(openSnapshots));
      out := out + signals;
    }

    /** Stores the open snapshots of a poll. */
    method CacheOpenSnapshots(events: seq<Event>)
      modifies this
      ensures openSnapshots == CacheAll(old(openSnapshots), events)
    {
      ghost var cache := openSnapshots;
      for i := 0 to |events|
        invariant openSnapshots == CacheAll(cache, events[..i])
      {
        assert events[..i + 1][..i] == events[..i];
        if events[i].eventType == ItemObserved && events[i].body.Snapshot? && events[i].body.facts.state == Open {
          openSnapshots := openSnapshots[events[i].nativeID := events[i].body.facts];
        }
      }
      assert events[..|events|] == events;
    }

    /**
     A sweep after its REST half, of which `enumerated` says whether every step of the
     sole-approver enumeration worked: join, then cache. A failed batch leaves it complete.
     */
    method Reconcile(rest: seq<Event>, enumerated: bool, forge: Forge)
      returns (events: seq<Event>, degraded: bool, complete: bool, ghost p: Poll)
      modifies this, machine
      ensures p.rest == rest && p.degraded == degraded && p.gone == {} && p.lost == {}
      ensures complete == enumerated
      ensures IsJoinedPoll(p, old(machine.baselines), forge)
      ensures events == PollOutput(old(openSnapshots), p, handle)
      ensures openSnapshots == NextCache(old(openSnapshots), p, handle)
      ensures machine.baselines == NextBaselines(old(machine.baselines), rest, p.results, degraded, forge.notes)
      ensures old(AllOpen(openSnapshots)) ==> AllOpen(openSnapshots)
    {
      complete := enumerated;
      ghost var results, verdicts;
      events, degraded, results, verdicts := GraphqlJoin(rest, forge);
      p := Poll(rest, results, degraded, verdicts, {}, {});
      SweepPoll(old(openSnapshots), p, forge, handle);
      if AllOpen(old(openSnapshots)) {
        CacheAllOpen(old(openSnapshots) - ArchivedIDs(rest, results), events);
      }
      CacheOpenSnapshots(events);
    }

    /** The REST half of a notification poll: reads the todos and evicts the items found closed; stops at a failed fetch. */
    method ReadTodos(todos: seq<Option<Todo>>) returns (rest: seq<Event>, ok: bool)
      modifies this
      ensures rest == TodoRest(Fetched(todos))
      ensures ok <==> forall i :: 0 <= i < |todos| ==> todos[i].Some?
      ensures openSnapshots == old(openSnapshots) - Gone(Fetched(todos))
    {
      rest := [];
      ghost var cache, done := openSnapshots, [];
      for n := 0 to |todos|
        invariant TodosUpTo(done, rest, openSnapshots, cache, todos, n)
      {
        if todos[n].None? {
          FetchedIs(done, todos);
          return rest, false;
        }
        var t := todos[n].value;
        TodoStep(done, rest, openSnapshots, cache, todos, n, t);
        done := done + [t];
        var emitted := ReadTodo(t);
        rest := rest + emitted;
      }
      FetchedIs(done, todos);
      ok := true;
    }

    /** One todo: its item's snapshot and its signal; an item that is no longer open leaves the cache. */
    method ReadTodo(t: Todo) returns (emitted: seq<Event>)
      modifies this
      ensures emitted == TodoEvents(t)
      ensures openSnapshots == if t.facts.state != Open then old(openSnapshots) - {t.nativeID} else old(openSnapshots)
    {
      emitted := [SnapshotEvent(t.nativeID, t.facts)];
      if t.facts.state != Open {
        openSnapshots := openSnapshots - {t.nativeID};
      }
      emitted := emitted + TodoSignal(t);
    }

    /** The cached items to refresh. */
    method OpenItems(covered: set<string>) returns (cached: seq<Event>)
      ensures IsOpenList(cached, openSnapshots, covered)
    {
      cached := [];
      var ids := Listing(openSnapshots.Keys);
      for n := 0 to |ids|
        invariant OpenListUpTo(cached, openSnapshots, covered, ids, n)
      {
        OpenListStep(cached, openSnapshots, covered, ids, n);
        if ids[n] !in covered && Parseable(ids[n]) {
          cached := cached + [SnapshotEvent(ids[n], openSnapshots[ids[n]])];
        }
      }
    }

    /** Refreshes one cached item; an archived one leaves the cache. */
    method RefreshItem(ev: Event, r: Option<Mr>, notes: Option<seq<Note>>) returns (shot: seq<Event>, signals: seq<Event>)
      requires Joinable(ev) && ev.body.facts.state == Open
      modifies this, machine
      ensures shot == if r.Some? && !r.value.archived then [RefreshEvent(ev, r.value, handle)] else []
      ensures openSnapshots == old(openSnapshots) - ArchivedOne(ev, r)
      ensures IsStepEmission(signals, ev, r, old(machine.baselines), notes)
      ensures machine.baselines == BaselineStep(old(machine.baselines), ev, r, notes)
    {
      shot, signals := [], [];
      if r.None? {
        return;
      }
      var mr := r.value;
      if mr.archived {
        openSnapshots := openSnapshots - {ev.nativeID};
        return;
      }
      var pl := ApplyGraphQL(ev.body.facts, mr, handle);
      RefreshKeepsItem(ev.body.facts, mr, handle);
      shot := [SnapshotEvent(ev.nativeID, pl)];
      ghost var current;
      signals, current := machine.EmitNewVerdictSignals(ev.nativeID, VerdictsIn(mr), pl.draft, notes);
      CurrentIsSet(current, VerdictsIn(mr));
    }

    /** Reads the cached items that are not covered by GraphQL alone; the refreshed facts are emitted, not cached. */
    method OpenSetRefresh(covered: set<string>, forge: Forge) returns (out: seq<Event>, degraded: bool, ghost r: Refresh)
      requires AllOpen(openSnapshots)
      modifies this, machine
      ensures IsRefresh(r, old(openSnapshots), covered, old(machine.baselines), forge)
      ensures out == RefreshOutput(r, handle) && degraded == r.degraded
      ensures openSnapshots == old(openSnapshots) - ArchivedIDs(r.cached, r.results)
      ensures machine.baselines == BaselinesAfter(old(machine.baselines), r.cached, |r.cached|, r.results, forge.notes)
    {
      var cached := OpenItems(covered);
      var items := seq(|cached|, i => i);
      AllListed(cached);
      var results;
      results, degraded := RunMRBatches(items, BATCH_SIZE, forge);
      ghost var parts;
      out, parts := RefreshAll(cached, results, forge);
      r := Refresh(cached, results, degraded, parts);
    }

    /** The refresh loop. */
    method RefreshAll(cached: seq<Event>, results: map<int, Mr>, forge: Forge) returns (out: seq<Event>, ghost parts: seq<seq<Event>>)
      requires forall i :: 0 <= i < |cached| ==> Joinable(cached[i]) && cached[i].body.facts.state == Open
      modifies this, machine
      ensures SplitBySteps(parts, Flat(parts), old(machine.baselines), cached, |cached|, results, forge.notes)
      ensures out == Interleaved(cached, |cached|, results, handle, parts)
      ensures openSnapshots == old(openSnapshots) - ArchivedIDs(cached, results)
      ensures machine.baselines == BaselinesAfter(old(machine.baselines), cached, |cached|, results, forge.notes)
    {
      out, parts := [], [];
      ghost var cache, baselines := openSnapshots, machine.baselines;
      for i := 0 to |cached|
        invariant VerdictsUpTo(parts, Flat(parts), machine.baselines, baselines, cached, results, forge.notes, i)
        invariant RefreshedUpTo(out, parts, openSnapshots, cache, cached, results, handle, i)
      {
        ghost var known, open := machine.baselines, openSnapshots;
        var shot, signals := RefreshItem(cached[i], ResultAt(results, i), forge.notes(i));
        VerdictsUpToStep(parts, Flat(parts), known, baselines, cached, results, forge.notes, i, signals);
        FlatAppend(parts, signals);
        RefreshedUpToStep(out, parts, open, cache, cached, results, handle, i, shot, signals);
        parts := parts + [signals];
        out := out + shot + signals;
      }
      ArchivedAll(cached, results);
    }

    /**
     A notification poll: the todos' details, the join, the cache, and then the open-set
     refresh. It is never complete. A todo whose detail cannot be fetched ends it without events.
     */
    method FastPoll(todos: seq<Option<Todo>>, forge: Forge, refreshForge: Forge)
      returns (events: seq<Event>, degraded: bool, ok: bool, ghost p: Poll, ghost r: Refresh)
      requires AllOpen(openSnapshots)
      modifies this, machine
      ensures AllOpen(openSnapshots)
      ensures ok <==> forall i :: 0 <= i < |todos| ==> todos[i].Some?
      ensures !ok ==> events == [] && !degraded && machine.baselines == old(machine.baselines)
      ensures !ok ==> openSnapshots == old(openSnapshots) - Gone(Fetched(todos)) && p == FailedPoll(todos) && r == NO_REFRESH
      ensures ok ==> p.rest == TodoRest(Fetched(todos)) && p.gone == Gone(Fetched(todos)) && IsJoinedPoll(p, old(machine.baselines), forge)
      ensures ok ==> IsRefreshOf(r, p, old(openSnapshots), old(machine.baselines), forge, refreshForge, handle)
      ensures ok ==> events == PollOutput(old(openSnapshots), p, handle) + RefreshOutput(r, handle)
      ensures ok ==> degraded == (p.degraded || r.degraded)
      ensures ok ==> openSnapshots == NextCache(old(openSnapshots), p, handle)
      ensures ok ==> machine.baselines == RefreshedBaselines(r, Joined(p, old(machine.baselines), forge), refreshForge)
    {
      var rest;
      rest, ok := ReadTodos(todos);
      degraded := false;
      if !ok {
        events, p, r := [], FailedPoll(todos), NO_REFRESH;
        return;
      }
      ghost var results, verdicts;
      events, degraded, results, verdicts := GraphqlJoin(rest, forge);
      p := Poll(rest, results, degraded, verdicts, Gone(Fetched(todos)), {});
      CacheOpenSnapshots(events);
      CacheAllOpen(old(openSnapshots) - p.gone - ArchivedIDs(rest, results), events);
      var out, refreshDegraded;
      out, refreshDegraded, r := OpenSetRefresh(Covered(events), refreshForge);
      p := p.(lost := ArchivedIDs(r.cached, r.results));
      events := events + out;
      degraded := degraded || refreshDegraded;
    }

    /** The output loop: every event in order, without those of archived items. */
    method Drop(events: seq<Event>, results: map<int, Mr>, enriched: seq<Event>, archived: set<string>, ghost cache: Cache)
      returns (out: seq<Event>)
      requires IsEnriched(enriched, events, results, cache, archived, handle)
      ensures out == Survivors(events, |events|, results, cache, archived, handle)
    {
      out := [];
      for i := 0 to |events|
        invariant out == Survivors(events, i, results, cache, archived, handle)
      {
        if enriched[i].nativeID !in archived {
          out := out + [enriched[i]];
        }
      }
    }

    /** The enrichment loop. */
    method EnrichAll(events: seq<Event>, results: map<int, Mr>, forge: Forge)
      returns (enriched: seq<Event>, verdicts: seq<Event>, archived: set<string>)
      modifies this, machine
      ensures archived == ArchivedIDs(events, results)
      ensures openSnapshots == old(openSnapshots) - archived
      ensures machine.baselines == BaselinesAfter(old(machine.baselines), events, |events|, results, forge.notes)
      ensures AreEmissions(verdicts, old(machine.baselines), events, |events|, results, forge.notes)
      ensures IsEnriched(enriched, events, results, old(openSnapshots), archived, handle)
    {
      enriched, verdicts, archived := [], [], {};
      ghost var cache, baselines := openSnapshots, machine.baselines;
      ghost var parts: seq<seq<Event>> := [];
      for i := 0 to |events|
        invariant EnrichedUpTo(enriched, archived, openSnapshots, events, results, cache, handle, i)
        invariant VerdictsUpTo(parts, verdicts, machine.baselines, baselines, events, results, forge.notes, i)
      {
        ghost var open, known := openSnapshots, machine.baselines;
        var ev, more, isArchived := EnrichEvent(events[i], ResultAt(results, i), forge.notes(i));
        EnrichedUpToStep(enriched, archived, open, events, results, cache, handle, i, ev, isArchived);
        VerdictsUpToStep(parts, verdicts, known, baselines, events, results, forge.notes, i, more);
        parts := parts + [more];
        enriched := enriched + [ev];
        verdicts := verdicts + more;
        if isArchived {
          archived := archived + {events[i].nativeID};
        }
      }
      ArchivedAll(events, results);
      assert events[..|events|] == events;
    }
  }

  /**
   One poll: its REST events, what the join got, and the cache entries lost besides: `gone`
   before the join (todos whose merge request is no longer open), `lost` after it (the
   open-set refresh found the project archived).
   */
  datatype Poll = Poll(rest: seq<Event>, results: map<int, Mr>, degraded: bool, verdicts: seq<Event>,
                       gone: set<string>, lost: set<string>)

  function PollOutput(cache: Cache, p: Poll, handle: string): seq<Event> {
    JoinOutput(p.rest, p.results, p.degraded, cache - p.gone, handle, p.verdicts)
  }

  function NextCache(cache: Cache, p: Poll, handle: string): Cache {
    Kept(cache, p, handle) - p.lost
  }

  /** What the forge's answers amount to, given the verdict baselines before the poll. */
  ghost predicate IsJoinedPoll(p: Poll, baselines: map<string, Verdicts>, forge: Forge) {
    && AreVerdicts(p.verdicts, baselines, p.rest, p.results, p.degraded, forge.notes)
    && IsPerItemJoin(p.results, ItemsOf(p.rest), |ItemsOf(p.rest)|, forge, BATCH_SIZE)
    && (p.degraded <==> exists n :: 0 <= n < |ItemsOf(p.rest)| && !BatchAnswered(forge, BATCH_SIZE, n))
  }

  /** A notification poll that ended at a todo: it evicted what the todos before it found closed, and nothing else. */
  function FailedPoll(todos: seq<Option<Todo>>): Poll {
    Poll([], map[], false, [], Gone(Fetched(todos)), {})
  }

  /** The cache between the join and the refresh. */
  function Kept(cache: Cache, p: Poll, handle: string): Cache {
    CacheAll(cache - p.gone - ArchivedIDs(p.rest, p.results), PollOutput(cache, p, handle))
  }

  /** The baselines between the join and the refresh, and after it. */
  ghost function Joined(p: Poll, baselines: map<string, Verdicts>, forge: Forge): map<string, Verdicts> {
    NextBaselines(baselines, p.rest, p.results, p.degraded, forge.notes)
  }

  ghost function RefreshedBaselines(r: Refresh, baselines: map<string, Verdicts>, forge: Forge): map<string, Verdicts> {
    BaselinesAfter(baselines, r.cached, |r.cached|, r.results, forge.notes)
  }

  /** The refresh of a poll reads what the poll left cached and did not cover, and evicts what it finds archived. */
  ghost predicate IsRefreshOf(r: Refresh, p: Poll, cache: Cache, baselines: map<string, Verdicts>, forge: Forge,
                              refreshForge: Forge, handle: string)
  {
    && p.lost == ArchivedIDs(r.cached, r.results)
    && IsRefresh(r, Kept(cache, p, handle), Covered(PollOutput(cache, p, handle)), Joined(p, baselines, forge), refreshForge)
  }

  /** What reading the first n todos, all fetched, leaves. */
  ghost predicate TodosUpTo(done: seq<Todo>, rest: seq<Event>, open: Cache, cache: Cache, todos: seq<Option<Todo>>, n: nat) {
    && n == |done| && n <= |todos| && (forall i :: 0 <= i < n ==> todos[i] == Some(done[i]))
    && rest == TodoRest(done) && open == cache - Gone(done)
  }

  lemma TodoStep(done: seq<Todo>, rest: seq<Event>, open: Cache, cache: Cache, todos: seq<Option<Todo>>, n: nat, t: Todo)
    requires n < |todos| && todos[n] == Some(t) && TodosUpTo(done, rest, open, cache, todos, n)
    ensures TodosUpTo(done + [t], rest + TodoEvents(t), if t.facts.state != Open then open - {t.nativeID} else open, cache, todos, n + 1)
  {
    TodoRestSnoc(done, t);
    GoneStep(done, open, cache, t);
  }

  lemma GoneStep(done: seq<Todo>, open: Cache, cache: Cache, t: Todo)
    requires open == cache - Gone(done)
    ensures (if t.facts.state != Open then open - {t.nativeID} else open) == cache - Gone(done + [t])
  {
    GoneSnoc(done, t);
  }

  lemma RefreshKeepsItem(pl: Payload, mr: Mr, handle: string)
    ensures var p := ApplyGraphQL(pl, mr, handle); p.state == pl.state && p.draft == pl.draft
  {
  }

  /** The output part of the refresh loop's state after n items. */
  ghost predicate RefreshedUpTo(out: seq<Event>, parts: seq<seq<Event>>, open: Cache, cache: Cache, cached: seq<Event>,
                                results: map<int, Mr>, handle: string, n: nat)
  {
    && n == |parts| && n <= |cached|
    && open == cache - ArchivedUpTo(cached, n, results)
    && out == Interleaved(cached, n, results, handle, parts)
  }

  lemma RefreshedUpToStep(out: seq<Event>, parts: seq<seq<Event>>, open: Cache, cache: Cache, cached: seq<Event>,
                          results: map<int, Mr>, handle: string, i: nat, shot: seq<Event>, signals: seq<Event>)
    requires i < |cached| && RefreshedUpTo(out, parts, open, cache, cached, results, handle, i)
    requires shot == if Answered(results, i) then [RefreshEvent(cached[i], results[i], handle)] else []
    ensures RefreshedUpTo(out + shot + signals, parts + [signals], open - ArchivedOne(cached[i], ResultAt(results, i)), cache,
                          cached, results, handle, i + 1)
  {
    InterleavedPrefix(cached, i, results, handle, parts, signals);
    var one := ArchivedOne(cached[i], ResultAt(results, i));
    assert ArchivedUpTo(cached, i + 1, results) == ArchivedUpTo(cached, i, results) + one;
    assert open - one == cache - (ArchivedUpTo(cached, i, results) + one);
  }

  lemma FlatAppend(parts: seq<seq<Event>>, part: seq<Event>)
    ensures Flat(parts + [part]) == Flat(parts) + part
  {
    assert (parts + [part])[..|parts|] == parts;
  }

  /** The refresh list after the first n ids of the cache. */
  ghost predicate OpenListUpTo(cached: seq<Event>, cache: Cache, covered: set<string>, ids: seq<string>, n: nat) {
    && n <= |ids| && NoDuplicates(ids) && (forall nid :: nid in ids <==> nid in cache)
    && (forall i :: 0 <= i < |cached| ==> IsCachedEvent(cached[i], cache, covered) && cached[i].nativeID in ids[..n])
    && (forall i, j :: 0 <= i < j < |cached| ==> cached[i].nativeID != cached[j].nativeID)
    && (forall m :: 0 <= m < n && Refreshable(cache, covered, ids[m]) ==> ListsItem(cached, ids[m]))
  }

  lemma OpenListStep(cached: seq<Event>, cache: Cache, covered: set<string>, ids: seq<string>, n: nat)
    requires n < |ids| && OpenListUpTo(cached, cache, covered, ids, n)
    ensures ids[n] in cache
    ensures var more := if Refreshable(cache, covered, ids[n]) then [SnapshotEvent(ids[n], cache[ids[n]])] else [];
            OpenListUpTo(cached + more, cache, covered, ids, n + 1)
  {
    assert ids[n] in ids;
    assert ids[..n + 1] == ids[..n] + [ids[n]];
    var more := if Refreshable(cache, covered, ids[n]) then [SnapshotEvent(ids[n], cache[ids[n]])] else [];
    var cached' := cached + more;
    forall m | 0 <= m < n + 1 && Refreshable(cache, covered, ids[m])
      ensures ListsItem(cached', ids[m])
    {
      if m < n {
        var i :| 0 <= i < |cached| && cached[i].nativeID == ids[m];
        assert cached'[i].nativeID == ids[m];
      } else {
        assert cached'[|cached|].nativeID == ids[m];
      }
    }
  }

  /** Reading the node of one more item of an answered batch. */
  lemma ReadStep(results: map<int, Mr>, items: seq<int>, n: nat, forge: Forge, size: nat)
    requires size > 0 && n < |items| && Ascending(items) && BatchAnswered(forge, size, n)
    requires IsPerItemJoin(results, items, n, forge, size)
    ensures var read := if forge.node(n).Some? then results[items[n] := forge.node(n).value] else results;
            IsPerItemJoin(read, items, n + 1, forge, size)
  {
    var read := if forge.node(n).Some? then results[items[n] := forge.node(n).value] else results;
    assert items[..n + 1] == items[..n] + [items[n]];
    NotYetRead(results, items, n, forge, size);
    forall m | 0 <= m < n
      ensures HoldsResult(read, items, m, forge, size)
    {
      assert HoldsResult(results, items, m, forge, size) && items[m] < items[n];
    }
    AnsweredItem(n, forge, size);
    assert HoldsResult(read, items, n, forge, size);
  }

  lemma AnsweredItem(n: nat, forge: Forge, size: nat)
    requires size > 0 && BatchAnswered(forge, size, n)
    ensures PerItem(n, forge, size) == forge.node(n)
  {
  }

  lemma NotYetRead(results: map<int, Mr>, items: seq<int>, n: nat, forge: Forge, size: nat)
    requires size > 0 && n < |items| && Ascending(items) && IsPerItemJoin(results, items, n, forge, size)
    ensures items[n] !in results
  {
    assert forall x :: x in results ==> x in items[..n];
    assert items[n] !in items[..n];
  }

  lemma SweepPoll(cache: Cache, p: Poll, forge: Forge, handle: string)
    requires p.gone == {} && p.lost == {}
    ensures PollOutput(cache, p, handle) == JoinOutput(p.rest, p.results, p.degraded, cache, handle, p.verdicts)
    ensures NextCache(cache, p, handle) == CacheAll(cache - ArchivedIDs(p.rest, p.results), PollOutput(cache, p, handle))
  {
    assert cache - p.gone == cache;
    var next := CacheAll(cache - ArchivedIDs(p.rest, p.results), PollOutput(cache, p, handle));
    assert next - p.lost == next;
  }

  /** The events enriched so far keep their items and are enriched as the cache says, those of archived items aside. */
  ghost predicate IsEnriched(enriched: seq<Event>, events: seq<Event>, results: map<int, Mr>, cache: Cache,
                             archived: set<string>, handle: string)
  {
    && |enriched| == |events|
    && (forall i :: 0 <= i < |events| ==> enriched[i].nativeID == events[i].nativeID)
    && (forall i :: 0 <= i < |events| && events[i].nativeID !in archived ==>
          enriched[i] == Enriched(events[i], ResultAt(results, i), cache, handle))
  }

  /** The state of the enrichment loop after n events. */
  ghost predicate EnrichedUpTo(enriched: seq<Event>, archived: set<string>, open: Cache,
                               events: seq<Event>, results: map<int, Mr>, cache: Cache, handle: string, n: nat)
  {
    && n <= |events|
    && archived == ArchivedUpTo(events, n, results)
    && open == cache - archived
    && IsEnriched(enriched, events[..n], results, cache, archived, handle)
  }

  lemma EnrichedUpToStep(enriched: seq<Event>, archived: set<string>, open: Cache,
                         events: seq<Event>, results: map<int, Mr>, cache: Cache, handle: string, i: nat,
                         ev: Event, isArchived: bool)
    requires i < |events| && EnrichedUpTo(enriched, archived, open, events, results, cache, handle, i)
    requires var r := ResultAt(results, i); isArchived <==> Joinable(events[i]) && r.Some? && r.value.archived
    requires ev == Enriched(events[i], ResultAt(results, i), open, handle)
    ensures var nids := if isArchived then {events[i].nativeID} else {};
            EnrichedUpTo(enriched + [ev], archived + nids, open - nids, events, results, cache, handle, i + 1)
  {
    var nids := if isArchived then {events[i].nativeID} else {};
    assert nids == ArchivedOne(events[i], ResultAt(results, i));
    assert open - nids == cache - (archived + nids);
    LookupDecides(events[i], ResultAt(results, i), open, cache, handle);
    assert events[..i + 1] == events[..i] + [events[i]];
    EnrichedAppend(enriched, events[..i], results, cache, archived, handle, ev, events[i], nids);
  }

  lemma EnrichedAppend(enriched: seq<Event>, events: seq<Event>, results: map<int, Mr>, cache: Cache, archived: set<string>,
                       handle: string, ev: Event, origin: Event, more: set<string>)
    requires IsEnriched(enriched, events, results, cache, archived, handle)
    requires ev.nativeID == origin.nativeID
    requires origin.nativeID !in archived ==> ev == Enriched(origin, ResultAt(results, |events|), cache, handle)
    ensures IsEnriched(enriched + [ev], events + [origin], results, cache, archived + more, handle)
  {
  }

  /** The verdict step of one event. */
  ghost function BaselineStep(baselines: map<string, Verdicts>, ev: Event, r: Option<Mr>, notes: Option<seq<Note>>): map<string, Verdicts> {
    if !StepsVerdicts(ev, r) || ev.body.facts.draft then baselines
    else
      baselines[ev.nativeID := NextBaseline(BaselineIn(baselines, ev.nativeID), CurrentOf(VerdictsIn(r.value)), notes)]
  }

  lemma BaselinesStep(baselines: map<string, Verdicts>, events: seq<Event>, i: nat, results: map<int, Mr>, notes: int -> Option<seq<Note>>)
    requires i < |events|
    ensures BaselinesAfter(baselines, events, i + 1, results, notes) ==
            BaselineStep(BaselinesAfter(baselines, events, i, results, notes), events[i], ResultAt(results, i), notes(i))
  {
  }

  lemma JoinKeepsItem(pl: Payload, mr: Mr, handle: string)
    ensures var p := GateFromJoin(ApplyGraphQL(pl, mr, handle), mr.dms); p.state == pl.state && p.draft == pl.draft
  {
  }

  /** The event is a signal, keyed as providers key events. */
  predicate IsVerdictEvent(e: Event) {
    e.eventType.Signal? && ProviderEvent(e)
  }

  /** The verdict part of the enrichment loop's state after n events. */
  ghost predicate VerdictsUpTo(parts: seq<seq<Event>>, verdicts: seq<Event>, now: map<string, Verdicts>, baselines: map<string, Verdicts>,
                               events: seq<Event>, results: map<int, Mr>, notes: int -> Option<seq<Note>>, n: nat)
  {
    && n <= |events|
    && now == BaselinesAfter(baselines, events, n, results, notes)
    && SplitBySteps(parts, verdicts, baselines, events, n, results, notes)
  }

  lemma VerdictsUpToStep(parts: seq<seq<Event>>, verdicts: seq<Event>, now: map<string, Verdicts>, baselines: map<string, Verdicts>,
                         events: seq<Event>, results: map<int, Mr>, notes: int -> Option<seq<Note>>, i: nat, part: seq<Event>)
    requires i < |events| && VerdictsUpTo(parts, verdicts, now, baselines, events, results, notes, i)
    requires IsStepEmission(part, events[i], ResultAt(results, i), now, notes(i))
    ensures VerdictsUpTo(parts + [part], verdicts + part, BaselineStep(now, events[i], ResultAt(results, i), notes(i)),
                         baselines, events, results, notes, i + 1)
  {
    BaselinesStep(baselines, events, i, results, notes);
    SplitStep(parts, verdicts, part, baselines, events, i, results, notes);
  }

  lemma SplitStep(parts: seq<seq<Event>>, verdicts: seq<Event>, part: seq<Event>, baselines: map<string, Verdicts>,
                  events: seq<Event>, i: nat, results: map<int, Mr>, notes: int -> Option<seq<Note>>)
    requires i < |events| && SplitBySteps(parts, verdicts, baselines, events, i, results, notes)
    requires IsPartOf(part, baselines, events, i, results, notes)
    ensures SplitBySteps(parts + [part], verdicts + part, baselines, events, i + 1, results, notes)
  {
    var parts' := parts + [part];
    assert parts'[..i] == parts;
    forall m | 0 <= m < i + 1
      ensures IsPartOf(parts'[m], baselines, events, m, results, notes)
    {
      assert m < i ==> parts'[m] == parts[m];
    }
  }

  /** The signal that the verdict step of event i emits for an actor. */
  ghost function StepSignal(baselines: map<string, Verdicts>, events: seq<Event>, i: int, results: map<int, Mr>,
                            notes: int -> Option<seq<Note>>, actor: string): Option<Event>
    requires 0 <= i < |events|
  {
    if !StepsVerdicts(events[i], ResultAt(results, i)) || events[i].body.facts.draft then None
    else
      SignalFor(events[i].nativeID, BaselineIn(BaselinesAfter(baselines, events, i, results, notes), events[i].nativeID),
                CurrentOf(VerdictsIn(results[i])), notes(i), actor)
  }

  lemma PartSignals(part: seq<Event>, baselines: map<string, Verdicts>, events: seq<Event>, i: int,
                    results: map<int, Mr>, notes: int -> Option<seq<Note>>, e: Event)
    requires 0 <= i < |events| && IsPartOf(part, baselines, events, i, results, notes)
    ensures e in part <==> StepSignal(baselines, events, i, results, notes, e.actor) == Some(e)
  {
  }

  /** What steps emit, one after the other, is exactly the signals of each. */
  lemma SplitReports(parts: seq<seq<Event>>, verdicts: seq<Event>, baselines: map<string, Verdicts>, events: seq<Event>,
                     results: map<int, Mr>, notes: int -> Option<seq<Note>>, e: Event)
    requires SplitBySteps(parts, verdicts, baselines, events, |events|, results, notes)
    ensures e in verdicts <==> exists i :: 0 <= i < |events| && StepSignal(baselines, events, i, results, notes, e.actor) == Some(e)
  {
    FlatMembers(parts, e);
    forall i | 0 <= i < |parts|
      ensures e in parts[i] <==> StepSignal(baselines, events, i, results, notes, e.actor) == Some(e)
    {
      PartSignals(parts[i], baselines, events, i, results, notes, e);
    }
  }

  /**
   No verdict change is lost in the join, and none is made up. A poll's verdict signals are
   exactly what the steps of its events emit, each from the baseline that the steps before it
   left, and all of them are in its output.
   */
  lemma PollReportsVerdicts(cache: Cache, p: Poll, baselines: map<string, Verdicts>, forge: Forge, handle: string, e: Event)
    requires IsJoinedPoll(p, baselines, forge)
    ensures e in p.verdicts <==>
            exists i :: 0 <= i < |p.rest| && StepSignal(baselines, p.rest, i, p.results, forge.notes, e.actor) == Some(e)
    ensures e in p.verdicts ==> e in PollOutput(cache, p, handle)
  {
    if !PassesThrough(p.results, p.degraded) {
      var parts: seq<seq<Event>> :| SplitBySteps(parts, p.verdicts, baselines, p.rest, |p.rest|, p.results, forge.notes);
      SplitReports(parts, p.verdicts, baselines, p.rest, p.results, forge.notes, e);
    }
  }

  /** Nor in the refresh, whose output is the snapshots of the answered items and these signals. */
  lemma RefreshReports(r: Refresh, cache: Cache, covered: set<string>, baselines: map<string, Verdicts>, forge: Forge, handle: string, e: Event)
    requires IsRefresh(r, cache, covered, baselines, forge)
    ensures e in RefreshOutput(r, handle) <==>
            || IsShot(r, handle, e)
            || (exists i :: 0 <= i < |r.cached| && StepSignal(baselines, r.cached, i, r.results, forge.notes, e.actor) == Some(e))
  {
    SplitReports(r.parts, Flat(r.parts), baselines, r.cached, r.results, forge.notes, e);
    FlatMembers(r.parts, e);
    InterleavedMembers(r.cached, |r.cached|, r.results, handle, r.parts, e);
    if i :| 0 <= i < |r.cached| && Answered(r.results, i) && e == RefreshEvent(r.cached[i], r.results[i], handle) {
      assert ShotAt(r, i, handle, e);
    }
  }

  lemma StepSignalIsVerdict(baselines: map<string, Verdicts>, events: seq<Event>, i: int, results: map<int, Mr>,
                            notes: int -> Option<seq<Note>>, actor: string)
    requires 0 <= i < |events|
    ensures var e := StepSignal(baselines, events, i, results, notes, actor); e.Some? ==> IsVerdictEvent(e.value)
  {
  }

  lemma RefreshEvents(r: Refresh, cache: Cache, covered: set<string>, baselines: map<string, Verdicts>, forge: Forge, handle: string, e: Event)
    requires IsRefresh(r, cache, covered, baselines, forge)
    ensures e in RefreshOutput(r, handle) ==> IsShot(r, handle, e) || IsVerdictEvent(e)
    ensures IsShot(r, handle, e) ==> e in RefreshOutput(r, handle)
  {
    RefreshReports(r, cache, covered, baselines, forge, handle, e);
    if i :| 0 <= i < |r.cached| && StepSignal(baselines, r.cached, i, r.results, forge.notes, e.actor) == Some(e) {
      StepSignalIsVerdict(baselines, r.cached, i, r.results, forge.notes, e.actor);
    }
  }

  lemma JoinedVerdicts(p: Poll, baselines: map<string, Verdicts>, forge: Forge)
    requires IsJoinedPoll(p, baselines, forge)
    ensures forall e :: e in p.verdicts ==> IsVerdictEvent(e)
  {
    forall e | e in p.verdicts
      ensures IsVerdictEvent(e)
    {
      PollReportsVerdicts(map[], p, baselines, forge, [], e);
    }
  }

  lemma LookupDecides(ev: Event, r: Option<Mr>, a: Cache, b: Cache, handle: string)
    ensures Lookup(a, ev.nativeID) == Lookup(b, ev.nativeID) ==> Enriched(ev, r, a, handle) == Enriched(ev, r, b, handle)
    ensures Enriched(ev, r, a, handle).nativeID == ev.nativeID
  {
  }

  /** The item of an event that its result archives. */
  function ArchivedOne(ev: Event, r: Option<Mr>): set<string> {
    if Joinable(ev) && r.Some? && r.value.archived then {ev.nativeID} else {}
  }

  /** The items that the results archive, event by event. */
  ghost function ArchivedSets(events: seq<Event>, results: map<int, Mr>): seq<set<string>> {
    seq(|events|, i requires 0 <= i < |events| => ArchivedOne(events[i], ResultAt(results, i)))
  }

  ghost function ArchivedUpTo(events: seq<Event>, n: nat, results: map<int, Mr>): set<string>
    requires n <= |events|
  {
    Union(ArchivedSets(events, results), n)
  }

  lemma ArchivedAll(events: seq<Event>, results: map<int, Mr>)
    ensures ArchivedUpTo(events, |events|, results) == ArchivedIDs(events, results)
  {
    var sets := ArchivedSets(events, results);
    forall nid
      ensures nid in Union(sets, |events|) <==> nid in ArchivedIDs(events, results)
    {
      UnionMembers(sets, |events|, nid);
      forall i | 0 <= i < |events|
        ensures nid in sets[i] <==> Joinable(events[i]) && i in results && results[i].archived && events[i].nativeID == nid
      {
        assert sets[i] == ArchivedOne(events[i], ResultAt(results, i));
      }
    }
  }
}
