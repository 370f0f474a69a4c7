/** The GitHub provider as it runs: batches, the join over a sweep, and the snapshot cache it updates. */
module GitHubProvider {
  import opened Arithmetic
  import opened Model
  import opened Collections
  import opened GitHub
  import opened GitHubRuns
  import opened GitHubSweep

  const BATCH_SIZE: nat := 30

  class Provider {
    const handle: string
    var openSnapshots: Cache

    constructor (handle: string)
      ensures this.handle == handle && openSnapshots == map[]
    {
      this.handle := handle;
      openSnapshots := map[];
    }

    /** One PR node as a result: the loop over its latest reviews. */
    method ReadNode(it: PrItem, pr: Pull) returns (r: Result)
      ensures Some(r) == ResultFor(it, PullNode(pr), handle)
    {
      var count := 0;
      var mine := NoVerdict;
      var verdicts := [];
      for n := 0 to |pr.reviews|
        invariant count == Approvals(pr.reviews[..n])
        invariant mine == Mine(pr.reviews[..n], handle)
        invariant verdicts == VerdictsOf(it, pr.reviews[..n])
      {
        var review := pr.reviews[n];
        assert pr.reviews[..n + 1][..n] == pr.reviews[..n];
        if review.state == ReviewApproved {
          count := count + 1;
        }
        if review.login == handle {
          mine := MyReviewState(review.state);
        }
        verdicts := verdicts + VerdictOf(it, review);
      }
      assert pr.reviews[..|pr.reviews|] == pr.reviews;
      return Enrichment(pr.decision, pr.mergeState, count, pr.autoMerge, mine, pr.headRef, pr.baseRef, verdicts);
    }

    /** Applies the nodes of one answered batch; true when a node was missing or null. */
    method MergeBatch(items: seq<PrItem>, start: nat, end: nat, forge: Forge, size: nat, results0: map<int, Result>)
      returns (results: map<int, Result>, degraded: bool)
      requires size > 0 && start <= end <= |items| && DistinctIndices(items)
      requires forall i :: start <= i < end ==> BatchAnswered(forge, size, i)
      requires IsPerItemJoin(results0, items, start, forge, size, handle)
      ensures IsPerItemJoin(results, items, end, forge, size, handle)
      ensures degraded <==> exists i :: start <= i < end && PerItem(items, i, forge, size, handle).None?
    {
      results, degraded := results0, false;
      for i := start to end
        invariant IsPerItemJoin(results, items, i, forge, size, handle)
        invariant degraded <==> exists j :: start <= j < i && PerItem(items, j, forge, size, handle).None?
      {
        assert BatchAnswered(forge, size, i);
        assert PerItem(items, i, forge, size, handle) == ResultFor(items[i], forge.node(i), handle);
        ReadStep(results, items, i, forge, size, handle);
        match forge.node(i) {
          case NoNode =>
            degraded := true;
          case NullPull =>
            degraded := true;
          case ArchivedNode =>
            results := results[items[i].evIdx := Archived];
          case PullNode(pr) =>
            var r := ReadNode(items[i], pr);
            results := results[items[i].evIdx := r];
        }
      }
    }

    /**
     Queries the items in batches. Only a rate limit is an error; any other failed batch
     leaves its items without a result. Whatever the batch size, the results are the
     per-item joins of the items whose batches answered.
     */
    method RunBatches(items: seq<PrItem>, size: nat, forge: Forge)
      returns (results: map<int, Result>, degraded: bool, ok: bool)
      requires size > 0 && DistinctIndices(items)
      ensures ok <==> forall i :: 0 <= i < |items| ==> forge.batch(i / size * size) != RateLimitedBatch
      ensures ok ==> IsPerItemJoin(results, items, |items|, forge, size, handle)
      ensures ok ==> (degraded <==> exists i :: 0 <= i < |items| && PerItem(items, i, forge, size, handle).None?)
    {
      results, degraded, ok := map[], false, true;
      var start := 0;
      ghost var k := 0;
      while start < |items|
        invariant start == k * size
        invariant var n := if start < |items| then start else |items|;
                  && IsPerItemJoin(results, items, n, forge, size, handle)
                  && (forall i :: 0 <= i < n ==> forge.batch(i / size * size) != RateLimitedBatch)
                  && (degraded <==> exists i :: 0 <= i < n && PerItem(items, i, forge, size, handle).None?)
        decreases |items| - start
      {
        var end := if start + size < |items| then start + size else |items|;
        InBatch(k, size, start, end);
        match forge.batch(start) {
          case RateLimitedBatch =>
            assert forge.batch(start / size * size) == RateLimitedBatch;
            return map[], false, false;
          case FailedBatch =>
            assert PerItem(items, start, forge, size, handle).None?;
            degraded := true;
          case Answered =>
            var missing;
            results, missing := MergeBatch(items, start, end, forge, size, results);
            degraded := degraded || missing;
        }
        start := start + size;
        k := k + 1;
      }
    }

    /** The join's items: the snapshots with a parseable id, by their place in the sweep. */
    method CollectItems(events: seq<Event>) returns (items: seq<PrItem>)
      ensures items == ItemsOf(events)
    {
      items := [];
      for i := 0 to |events|
        invariant items == ItemsOf(events[..i])
      {
        assert events[..i + 1][..i] == events[..i];
        if Joinable(events[i]) {
          items := items + [PrItem(i, events[i].nativeID, events[i].body.facts.draft)];
        }
      }
      assert events[..|events|] == events;
    }

    /**
     Enriches a sweep. On a rate limit nothing changes and the caller backs off; otherwise
     the output is JoinOutput for results that are the per-item joins of the answered batches.
     */
    method GraphqlJoin(events: seq<Event>, forge: Forge)
      returns (out: seq<Event>, degraded: bool, ok: bool, ghost results: map<int, Result>)
      modifies this
      ensures !ok ==> out == events && openSnapshots == old(openSnapshots)
      ensures ok == AllAnswer(events, forge)
      ensures ok ==> IsPerItemJoin(results, ItemsOf(events), |ItemsOf(events)|, forge, BATCH_SIZE, handle)
      ensures ok ==> degraded == SomeMissing(events, forge, handle)
      ensures ok ==> out == JoinOutput(events, results, old(openSnapshots))
      ensures ok ==> openSnapshots == old(openSnapshots) - ArchivedIDs(events, results)
    {
      var list := CollectItems(events);
      results := map[];
      ItemsAreListed(events);
      if list == [] {
        NoneListed(events);
        NoItems(events);
        return events, false, true, map[];
      }
      AscendingDistinct(list);
      var res;
      res, degraded, ok := RunBatches(list, BATCH_SIZE, forge);
      results := res;
      if !ok {
        return events, false, false, results;
      }
      var enriched, verdicts, archived := EnrichAll(events, res);
      out := Drop(events, res, enriched, archived, old(openSnapshots));
      out := out + verdicts;
    }

    /** Enriches one event: an archived item leaves the cache, any other one is rewritten. */
    method EnrichEvent(ev: Event, r: Option<Result>) returns (ev': Event, verdicts: seq<Event>, archived: bool)
      modifies this
      ensures archived <==> Joinable(ev) && r == Some(Archived)
      ensures openSnapshots == old(openSnapshots) - if archived then {ev.nativeID} else {}
      ensures ev' == Enriched(ev, r, old(openSnapshots))
      ensures verdicts == VerdictsOne(ev, r)
    {
      if !Joinable(ev) {
        return ev, [], false;
      }
      var pl := ev.body.facts;
      if r.None? {
        if ev.nativeID in openSnapshots {
          pl := CarryForwardGate(CarryForwardEnrichment(pl, openSnapshots[ev.nativeID]), openSnapshots[ev.nativeID]);
          return ev.(body := Snapshot(pl), key := FactsKey(pl)), [], false;
        }
        return ev, [], false;
      }
      if r.value == Archived {
        openSnapshots := openSnapshots - {ev.nativeID};
        return ev, [], true;
      }
      pl := JoinPayload(pl, r.value, Lookup(openSnapshots, ev.nativeID));
      return ev.(body := Snapshot(pl), key := FactsKey(pl)), if pl.state == Open then r.value.verdicts else [], false;
    }

    /** The enrichment loop: archived items leave the cache, all others are rewritten in place. */
    method EnrichAll(events: seq<Event>, results: map<int, Result>)
      returns (enriched: array<Event>, verdicts: seq<Event>, archived: set<string>)
      modifies this
      ensures fresh(enriched) && archived == ArchivedIDs(events, results)
      ensures verdicts == Verdicts(events, |events|, results)
      ensures openSnapshots == old(openSnapshots) - archived
      ensures IsEnriched(enriched[..], EnrichedEvents(events, results, old(openSnapshots)), events, archived, |events|)
    {
      enriched := new Event[|events|](i requires 0 <= i < |events| => events[i]);
      verdicts, archived := [], {};
      ghost var cache := openSnapshots;
      for i := 0 to |events|
        invariant enriched.Length == |events|
        invariant EnrichedUpTo(enriched[..], verdicts, archived, openSnapshots, events, results, cache, i)
      {
        ghost var before, open := enriched[..], openSnapshots;
        var ev, more, isArchived := EnrichEvent(events[i], ResultAt(results, i));
        EnrichedUpToStep(before, verdicts, archived, open, events, results, cache, i, ev, more, isArchived);
        enriched[i] := ev;
        assert enriched[..] == before[i := ev];
        verdicts := verdicts + more;
        if isArchived {
          archived := archived + {events[i].nativeID};
        }
      }
      ArchivedAll(events, results);
    }

    /** The output loop: every event in order, without those of archived items. */
    method Drop(events: seq<Event>, results: map<int, Result>, enriched: array<Event>, archived: set<string>, ghost cache: Cache)
      returns (out: seq<Event>)
      requires IsEnriched(enriched[..], EnrichedEvents(events, results, cache), events, archived, |events|)
      ensures out == Survivors(events, |events|, results, cache, archived)
    {
      out := [];
      for i := 0 to |events|
        invariant out == Survivors(events, i, results, cache, archived)
      {
        if enriched[i].nativeID !in archived {
          out := out + [enriched[i]];
        }
      }
    }

    /** Stores the open snapshots of a poll; a closed one evicts its item. */
    method CacheOpenSnapshots(events: seq<Event>)
      modifies this
      ensures openSnapshots == CacheAll(old(openSnapshots), events)
    {
      ghost var cache := openSnapshots;
      for i := 0 to |events|
        invariant openSnapshots == CacheAll(cache, events[..i])
      {
        var ev := events[i];
        assert events[..i + 1][..i] == events[..i];
        if ev.eventType == ItemObserved && ev.body.Snapshot? {
          if ev.body.facts.state == Open {
            openSnapshots := openSnapshots[ev.nativeID := ev.body.facts];
          } else {
            openSnapshots := openSnapshots - {ev.nativeID};
          }
        }
      }
      assert events[..|events|] == events;
    }

    /** Evicts every item that a complete sweep does not hold open. */
    method PruneClosedSnapshots(events: seq<Event>, complete: bool)
      modifies this
      ensures openSnapshots == Pruned(old(openSnapshots), events, complete)
    {
      if !complete {
        return;
      }
      var swept: set<string> := {};
      for i := 0 to |events|
        invariant swept == OpenIDs(events[..i])
        invariant openSnapshots == old(openSnapshots)
      {
        assert events[..i + 1] == events[..i] + [events[i]];
        var ev := events[i];
        if ev.eventType == ItemObserved && ev.body.Snapshot? && ev.body.facts.state == Open {
          swept := swept + {ev.nativeID};
        }
      }
      assert events[..|events|] == events;
      openSnapshots := map nid | nid in openSnapshots && nid in swept :: openSnapshots[nid];
    }

    /** A search sweep: aggregate the roles, join, cache, and prune when the sweep is complete. */
    method Reconcile(hits: seq<Hit>, forge: Forge)
      returns (events: seq<Event>, degraded: bool, complete: bool, ok: bool, ghost p: Poll)
      modifies this
      ensures ok == AllAnswer(SweepRest(hits), forge)
      ensures !ok ==> events == [] && !degraded && !complete && openSnapshots == old(openSnapshots)
      ensures ok ==> (complete <==> forall i :: 0 <= i < |hits| ==> !Incomplete(hits[i]))
      ensures ok ==> degraded == SomeMissing(SweepRest(hits), forge, handle)
      ensures ok ==> p.rest == SweepRest(hits) && p.complete == complete && IsJoinedPoll(p, forge, handle)
      ensures ok ==> events == PollOutput(old(openSnapshots), p) && openSnapshots == NextCache(old(openSnapshots), p)
    {
      var rest;
      rest, complete := Sweep(hits);
      ghost var results;
      events, degraded, ok, results := GraphqlJoin(rest, forge);
      p := Poll(rest, results, complete);
      if !ok {
        return [], false, false, false, p;
      }
      CacheOpenSnapshots(events);
      PruneClosedSnapshots(events, complete);
    }

    /** A notification poll: never complete, so it never prunes and the engine never reaps on it. */
    method FastPoll(feed: seq<Notification>, forge: Forge)
      returns (events: seq<Event>, degraded: bool, ok: bool, ghost p: Poll)
      modifies this
      ensures ok == AllAnswer(FeedRest(feed), forge)
      ensures !ok ==> events == [] && !degraded && openSnapshots == old(openSnapshots)
      ensures ok ==> degraded == SomeMissing(FeedRest(feed), forge, handle)
      ensures ok ==> p.rest == FeedRest(feed) && !p.complete && IsJoinedPoll(p, forge, handle)
      ensures ok ==> events == PollOutput(old(openSnapshots), p) && openSnapshots == NextCache(old(openSnapshots), p)
    {
      var rest := Feed(feed);
      ghost var results;
      events, degraded, ok, results := GraphqlJoin(rest, forge);
      p := Poll(rest, results, false);
      if !ok {
        return [], false, false, p;
      }
      CacheOpenSnapshots(events);
    }
  }

  /** No batch of the sweep's join is rate limited. */
  ghost predicate AllAnswer(events: seq<Event>, forge: Forge) {
    forall i :: 0 <= i < |ItemsOf(events)| ==> forge.batch(i / BATCH_SIZE * BATCH_SIZE) != RateLimitedBatch
  }

  /** Some item of the sweep has no result: its batch failed, or its node was missing or null. */
  ghost predicate SomeMissing(events: seq<Event>, forge: Forge, handle: string) {
    exists i :: 0 <= i < |ItemsOf(events)| && PerItem(ItemsOf(events), i, forge, BATCH_SIZE, handle).None?
  }

  /** What the answers of one poll amount to: results that are the per-item joins of its answered batches. */
  ghost predicate IsJoinedPoll(p: Poll, forge: Forge, handle: string) {
    IsPerItemJoin(p.results, ItemsOf(p.rest), |ItemsOf(p.rest)|, forge, BATCH_SIZE, handle)
  }

  ghost function EnrichedEvents(events: seq<Event>, results: map<int, Result>, cache: Cache): seq<Event> {
    seq(|events|, i requires 0 <= i < |events| => Enriched(events[i], ResultAt(results, i), cache))
  }

  /** Every event kept its item; the first n are enriched as wanted, those of archived items aside. */
  ghost predicate IsEnriched(enriched: seq<Event>, want: seq<Event>, events: seq<Event>, archived: set<string>, n: nat) {
    && |enriched| == |want| == |events| && n <= |events|
    && (forall i :: 0 <= i < |events| ==> enriched[i].nativeID == events[i].nativeID)
    && (forall i :: 0 <= i < n && events[i].nativeID !in archived ==> enriched[i] == want[i])
  }

  /** The state of the enrichment loop after n events. */
  ghost predicate EnrichedUpTo(enriched: seq<Event>, verdicts: seq<Event>, archived: set<string>, open: Cache,
                               events: seq<Event>, results: map<int, Result>, cache: Cache, n: nat)
  {
    && n <= |events|
    && archived == ArchivedUpTo(events, n, results)
    && verdicts == Verdicts(events, n, results)
    && open == cache - archived
    && IsEnriched(enriched, EnrichedEvents(events, results, cache), events, archived, n)
  }

  lemma EnrichedUpToStep(enriched: seq<Event>, verdicts: seq<Event>, archived: set<string>, open: Cache,
                         events: seq<Event>, results: map<int, Result>, cache: Cache, i: nat,
                         ev: Event, more: seq<Event>, isArchived: bool)
    requires i < |events| && EnrichedUpTo(enriched, verdicts, archived, open, events, results, cache, i)
    requires isArchived <==> Joinable(events[i]) && ResultAt(results, i) == Some(Archived)
    requires ev == Enriched(events[i], ResultAt(results, i), open)
    requires more == VerdictsOne(events[i], ResultAt(results, i))
    ensures var nids := if isArchived then {events[i].nativeID} else {};
            EnrichedUpTo(enriched[i := ev], verdicts + more, archived + nids, open - nids, events, results, cache, i + 1)
  {
    var nids := if isArchived then {events[i].nativeID} else {};
    assert nids == ArchivedOne(events[i], ResultAt(results, i));
    assert open - nids == cache - (archived + nids);
    LookupDecides(events[i], ResultAt(results, i), open, cache);
    EnrichedStep(enriched, EnrichedEvents(events, results, cache), events, archived, i, ev, nids);
  }

  lemma EnrichedStep(enriched: seq<Event>, want: seq<Event>, events: seq<Event>, archived: set<string>, n: nat, ev: Event, more: set<string>)
    requires IsEnriched(enriched, want, events, archived, n) && n < |events|
    requires ev.nativeID == events[n].nativeID && (ev.nativeID !in archived ==> ev == want[n])
    ensures IsEnriched(enriched[n := ev], want, events, archived + more, n + 1)
  {
  }

  /** Enriching reads the cache at the item's own id only. */
  lemma LookupDecides(ev: Event, r: Option<Result>, a: Cache, b: Cache)
    ensures Lookup(a, ev.nativeID) == Lookup(b, ev.nativeID) ==> Enriched(ev, r, a) == Enriched(ev, r, b)
    ensures Enriched(ev, r, a).nativeID == ev.nativeID
  {
  }

  function ItemAt(events: seq<Event>, i: int): PrItem
    requires 0 <= i < |events| && Joinable(events[i])
  {
    PrItem(i, events[i].nativeID, events[i].body.facts.draft)
  }

  ghost predicate Ascending(items: seq<PrItem>) {
    forall m, n :: 0 <= m < n < |items| ==> items[m].evIdx < items[n].evIdx
  }

  lemma AscendingDistinct(items: seq<PrItem>)
    requires Ascending(items)
    ensures DistinctIndices(items)
  {
  }

  /** The join's items are the joinable events of the sweep, in order. */
  ghost predicate IsItemList(items: seq<PrItem>, events: seq<Event>) {
    && Ascending(items)
    && (forall n :: 0 <= n < |items| ==> IsItem(items, events, n))
    && (forall i :: 0 <= i < |events| ==> IsListed(items, events, i))
  }

  predicate IsItem(items: seq<PrItem>, events: seq<Event>, n: int)
    requires 0 <= n < |items|
  {
    && 0 <= items[n].evIdx < |events| && Joinable(events[items[n].evIdx])
    && items[n] == ItemAt(events, items[n].evIdx)
  }

  predicate IsListed(items: seq<PrItem>, events: seq<Event>, i: int)
    requires 0 <= i < |events|
  {
    Joinable(events[i]) ==> HasItem(items, |items|, i)
  }

  lemma ItemStep(items: seq<PrItem>, events: seq<Event>, ev: Event)
    requires IsItemList(items, events)
    ensures IsItemList(items + if Joinable(ev) then [PrItem(|events|, ev.nativeID, ev.body.facts.draft)] else [], events + [ev])
  {
    var items' := items + if Joinable(ev) then [PrItem(|events|, ev.nativeID, ev.body.facts.draft)] else [];
    var events' := events + [ev];
    assert !Joinable(ev) ==> items' == items;
    forall n | 0 <= n < |items'|
      ensures IsItem(items', events', n)
    {
      if n < |items| {
        assert IsItem(items, events, n);
      }
    }
    forall i | 0 <= i < |events'|
      ensures IsListed(items', events', i)
    {
      if i < |events| {
        assert IsListed(items, events, i);
        assert events'[i] == events[i];
        if Joinable(ev) {
          HasMore(items, items'[|items|], i);
        }
      } else if Joinable(ev) {
        assert items'[|items|].evIdx == i;
      }
    }
    assert Ascending(items') by {
      forall m | 0 <= m < |items|
        ensures items[m].evIdx < |events|
      {
        assert IsItem(items, events, m);
      }
    }
  }

  lemma {:induction false} ItemsAreListed(events: seq<Event>)
    ensures IsItemList(ItemsOf(events), events)
  {
    if events != [] {
      var init, ev := events[..|events| - 1], events[|events| - 1];
      ItemsAreListed(init);
      assert events == init + [ev];
      ItemStep(ItemsOf(init), init, ev);
    }
  }

  lemma HasMore(items: seq<PrItem>, it: PrItem, x: int)
    ensures HasItem(items, |items|, x) ==> HasItem(items + [it], |items| + 1, x)
  {
    if HasItem(items, |items|, x) {
      var i :| 0 <= i < |items| && items[i].evIdx == x;
      assert (items + [it])[i] == items[i];
    }
  }

  /** Reading the node of one more item of an answered batch. */
  lemma ReadStep(results: map<int, Result>, items: seq<PrItem>, n: nat, forge: Forge, size: nat, handle: string)
    requires size > 0 && n < |items| && DistinctIndices(items) && BatchAnswered(forge, size, n)
    requires IsPerItemJoin(results, items, n, forge, size, handle)
    ensures var r := ResultFor(items[n], forge.node(n), handle);
            IsPerItemJoin(if r.Some? then results[items[n].evIdx := r.value] else results, items, n + 1, forge, size, handle)
  {
    var r := ResultFor(items[n], forge.node(n), handle);
    var read := if r.Some? then results[items[n].evIdx := r.value] else results;
    assert !HasItem(items, n, items[n].evIdx);
    assert items[n].evIdx !in results && PerItem(items, n, forge, size, handle) == r;
    assert HoldsResult(read, items, n, forge, size, handle);
    forall x | x in read
      ensures HasItem(items, n + 1, x)
    {
      assert x in results ==> HasItem(items, n, x);
    }
    forall m | 0 <= m < n
      ensures HoldsResult(read, items, m, forge, size, handle)
    {
      assert HoldsResult(results, items, m, forge, size, handle);
    }
  }

  /** The item of an event that its result archives. */
  function ArchivedOne(ev: Event, r: Option<Result>): set<string> {
    if Joinable(ev) && r == Some(Archived) then {ev.nativeID} else {}
  }

  /** The items that the results archive, event by event. */
  ghost function ArchivedSets(events: seq<Event>, results: map<int, Result>): seq<set<string>> {
    seq(|events|, i requires 0 <= i < |events| => ArchivedOne(events[i], ResultAt(results, i)))
  }

  ghost function ArchivedUpTo(events: seq<Event>, n: nat, results: map<int, Result>): set<string>
    requires n <= |events|
  {
    Union(ArchivedSets(events, results), n)
  }

  lemma ArchivedAll(events: seq<Event>, results: map<int, Result>)
    ensures ArchivedUpTo(events, |events|, results) == ArchivedIDs(events, results)
  {
    var sets := ArchivedSets(events, results);
    forall nid
      ensures nid in Union(sets, |events|) <==> nid in ArchivedIDs(events, results)
    {
      UnionMembers(sets, |events|, nid);
      forall i | 0 <= i < |events|
        ensures nid in sets[i] <==> Joinable(events[i]) && i in results && results[i] == Archived && events[i].nativeID == nid
      {
        assert sets[i] == ArchivedOne(events[i], ResultAt(results, i));
      }
    }
  }

  lemma NoneListed(events: seq<Event>)
    requires IsItemList([], events)
    ensures forall i :: 0 <= i < |events| ==> !Joinable(events[i])
  {
    forall i | 0 <= i < |events|
      ensures !Joinable(events[i])
    {
      assert IsListed([], events, i);
    }
  }

  /** With nothing to join the sweep passes through. */
  lemma NoItems(events: seq<Event>)
    requires forall i :: 0 <= i < |events| ==> !Joinable(events[i])
    ensures forall cache :: JoinOutput(events, map[], cache) == events
  {
    forall cache
      ensures JoinOutput(events, map[], cache) == events
    {
      NoItemsUpTo(events, |events|, cache);
      assert events[..|events|] == events;
      assert ArchivedIDs(events, map[]) == {};
    }
  }

  lemma {:induction false} NoItemsUpTo(events: seq<Event>, n: nat, cache: Cache)
    requires n <= |events| && forall i :: 0 <= i < |events| ==> !Joinable(events[i])
    ensures Survivors(events, n, map[], cache, {}) == events[..n]
    ensures Verdicts(events, n, map[]) == []
  {
    if n > 0 {
      NoItemsUpTo(events, n - 1, cache);
      assert events[..n] == events[..n - 1] + [events[n - 1]];
    }
  }
}
