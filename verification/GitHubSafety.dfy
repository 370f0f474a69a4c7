/** What the GitHub join cannot do: drop a live item, depend on the batch size, or store noise while degraded. */
module GitHubSafety {
  import opened Model
  import opened Reaping
  import opened JoinOrder
  import opened GitHub
  import opened GitHubRuns
  import opened GitHubProvider

  // ---- the output keeps the input ----

  lemma EnrichedSame(ev: Event, r: Option<Result>, cache: Cache)
    ensures SameEvent(Enriched(ev, r, cache), ev)
  {
  }

  /**
   No drop, no reorder. Whatever batches failed, the join's output is the input in its order
   without the archived items, followed by verdict signals.
   */
  lemma {:induction false} SurvivorsInOrder(events: seq<Event>, n: nat, results: map<int, Result>, cache: Cache, archived: set<string>)
    requires n <= |events|
    ensures InOrder(Survivors(events, n, results, cache, archived), Unarchived(events, n, archived))
  {
    if n > 0 {
      SurvivorsInOrder(events, n - 1, results, cache, archived);
      EnrichedSame(events[n - 1], ResultAt(results, n - 1), cache);
    }
  }

  lemma JoinedVerdicts(p: Poll, forge: Forge, handle: string)
    requires IsJoinedPoll(p, forge, handle)
    ensures VerdictsAreSignals(p.results)
  {
    var items := ItemsOf(p.rest);
    forall x, e | x in p.results && p.results[x].Enrichment? && e in p.results[x].verdicts
      ensures e.eventType.Signal?
    {
      var i := ItemOfResult(items, p.results, forge, BATCH_SIZE, handle, x);
      ResultVerdicts(items[i], forge.node(i), handle, p.results[x], e);
    }
  }

  lemma ResultVerdicts(it: PrItem, node: Node, handle: string, r: Result, e: Event)
    requires ResultFor(it, node, handle) == Some(r) && r.Enrichment? && e in r.verdicts
    ensures e.eventType.Signal?
  {
    VerdictSignals(it, node.pull.reviews, e);
  }

  lemma {:induction false} VerdictSignals(it: PrItem, reviews: seq<Review>, e: Event)
    requires e in VerdictsOf(it, reviews)
    ensures e.eventType.Signal?
  {
    if e in VerdictsOf(it, reviews[..|reviews| - 1]) {
      VerdictSignals(it, reviews[..|reviews| - 1], e);
    }
  }

  /** The swept set of the output is that of the REST sweep without the archived items. */
  lemma SweptByJoin(cache: Cache, p: Poll)
    requires VerdictsAreSignals(p.results)
    ensures Swept(PollOutput(cache, p)) == Swept(p.rest) - ArchivedIDs(p.rest, p.results)
  {
    var archived := ArchivedIDs(p.rest, p.results);
    SurvivorsInOrder(p.rest, |p.rest|, p.results, cache, archived);
    forall e | e in Verdicts(p.rest, |p.rest|, p.results)
      ensures e.eventType.Signal?
    {
      VerdictOrigin(p.rest, |p.rest|, p.results, e);
    }
    KeptSweep(p.rest, Survivors(p.rest, |p.rest|, p.results, cache, archived), Verdicts(p.rest, |p.rest|, p.results), archived);
  }

  /** The forge answered that the item's repository is archived. */
  ghost predicate SaidArchived(rest: seq<Event>, forge: Forge, nid: string) {
    exists i :: IsItemOf(ItemsOf(rest), i, nid) && ArchivedAnswer(forge, i)
  }

  predicate IsItemOf(items: seq<PrItem>, i: int, nid: string) {
    0 <= i < |items| && items[i].nativeID == nid
  }

  predicate ArchivedAnswer(forge: Forge, i: int) {
    i >= 0 && BatchAnswered(forge, BATCH_SIZE, i) && forge.node(i) == ArchivedNode
  }

  lemma ArchivedWasSaid(p: Poll, forge: Forge, handle: string, nid: string)
    requires IsJoinedPoll(p, forge, handle) && nid in ArchivedIDs(p.rest, p.results)
    ensures SaidArchived(p.rest, forge, nid)
  {
    var items := ItemsOf(p.rest);
    var x :| 0 <= x < |p.rest| && Joinable(p.rest[x]) && x in p.results && p.results[x] == Archived && p.rest[x].nativeID == nid;
    var i := ArchivedItem(items, p.results, forge, handle, x);
    ItemsAreListed(p.rest);
    ItemHasID(items, p.rest, i);
    assert IsItemOf(items, i, nid) && ArchivedAnswer(forge, i);
  }

  lemma ArchivedItem(items: seq<PrItem>, results: map<int, Result>, forge: Forge, handle: string, x: int) returns (i: nat)
    requires IsPerItemJoin(results, items, |items|, forge, BATCH_SIZE, handle)
    requires x in results && results[x] == Archived
    ensures i < |items| && items[i].evIdx == x && BatchAnswered(forge, BATCH_SIZE, i) && forge.node(i) == ArchivedNode
  {
    i := ItemOfResult(items, results, forge, BATCH_SIZE, handle, x);
  }

  lemma ItemHasID(items: seq<PrItem>, events: seq<Event>, i: nat)
    requires IsItemList(items, events) && i < |items|
    ensures 0 <= items[i].evIdx < |events| && items[i].nativeID == events[items[i].evIdx].nativeID
  {
    assert IsItem(items, events, i);
  }

  /**
   A GraphQL failure never causes a removal. When a complete sweep passes through the join
   and is diffed against the log, an item is removed only if the REST sweep missed it, or the
   forge answered that its repository is archived.
   */
  lemma FailureNeverReaps(rows: seq<Row>, conn: string, cache: Cache, p: Poll, forge: Forge, handle: string,
                          open: Option<set<string>>, removals: seq<Event>, i: nat)
    requires IsJoinedPoll(p, forge, handle)
    requires IsReap(rows, conn, PollOutput(cache, p), open, removals) && i < |removals|
    ensures removals[i].nativeID !in Swept(p.rest) || SaidArchived(p.rest, forge, removals[i].nativeID)
  {
    JoinedVerdicts(p, forge, handle);
    SweptByJoin(cache, p);
    if removals[i].nativeID in Swept(p.rest) {
      ArchivedWasSaid(p, forge, handle, removals[i].nativeID);
    }
  }

  // ---- batching ----

  /** Batching at any two sizes agrees on every item that both answered. */
  lemma BatchSizeIrrelevant(items: seq<PrItem>, forge: Forge, handle: string, size: nat, size': nat,
                            results: map<int, Result>, results': map<int, Result>, x: int)
    requires size > 0 && size' > 0 && DistinctIndices(items)
    requires IsPerItemJoin(results, items, |items|, forge, size, handle)
    requires IsPerItemJoin(results', items, |items|, forge, size', handle)
    requires x in results && x in results'
    ensures results[x] == results'[x]
  {
    var i := ItemOfResult(items, results, forge, size, handle, x);
    var j := ItemOfResult(items, results', forge, size', handle, x);
    assert i == j;
  }
}
