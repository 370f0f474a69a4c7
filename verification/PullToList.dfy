/** From a search hit and GitHub's answer to the row in the list: sweep, join, diff, write and fold together. */
module PullToList {
  import opened Model
  import opened EventLog
  import opened Reaping
  import opened Visibility
  import opened States
  import opened StateLaws
  import opened FoldView
  import opened FoldReaders
  import opened Engine
  import opened EngineRuns
  import opened LeavingSweep
  import opened NativeIDs
  import opened GitHub
  import opened GitHubRuns
  import opened GitHubCalls
  import opened GitHubScopes
  import opened GitHubEffects
  import EndToEnd
  import GitHubProvider

  /**
   The searches found the PR first with row n, as ready for review and mine by authorship, and
   GitHub's batch for it answers with this pull request, under a merge state that names its gate.
   */
  ghost predicate FindsMine(call: Call, p: Poll, n: nat, pr: Pull, owner: string, name: string, number: string)
    requires call.Sweeps?
  {
    && IsFirstHit(call.hits, n) && !call.hits[n].row.facts.draft
    && call.hits[n].row.nativeID == PullID(owner, name, number) && IsNumber(number)
    && (exists m :: 0 <= m < |call.hits| && Finds(call.hits[m], call.hits[n].row.url, Author))
    && (forall m :: 0 <= m < |call.hits| ==> !Finds(call.hits[m], call.hits[n].row.url, Reviewer))
    && IsNamed(pr.mergeState) && AnsweredWith(p, call.forge, pr, PullID(owner, name, number))
  }

  ghost predicate AnsweredWith(p: Poll, forge: Forge, pr: Pull, nid: string) {
    forall x :: 0 <= x < |ItemsOf(p.rest)| && ItemsOf(p.rest)[x].nativeID == nid ==>
                  forge.batch(x / 30 * 30) == Answered && forge.node(x) == PullNode(pr)
  }

  /** The facts are those of my open PR as GitHub answered. */
  ghost predicate IsMyPull(pl: Payload, pr: Pull) {
    && pl.state == Open && !pl.draft && Author in pl.myRoles && Reviewer !in pl.myRoles
    && pl.approvalsCount == |Approving(pr.reviews)| && pl.autoMergeArmed == pr.autoMerge
    && GateNamed(pl, pr.mergeState) && IsNamed(pr.mergeState)
    && (pl.reviewDecision == ChangesRequested <==> pr.decision == DecisionChangesRequested)
  }

  /** The facts that such a sweep emits of the PR, in every snapshot of it. */
  lemma SweepEmits(call: Call, p: Poll, cache: Cache, handle: string, n: nat, pr: Pull, owner: string, name: string, number: string)
      returns (pl: Payload)
    requires EndToEnd.IsHubSweep(call, p, handle) && FindsMine(call, p, n, pr, owner, name, number)
    ensures var nid, out := PullID(owner, name, number), PollOutput(cache, p);
            && nid in Swept(out)
            && (forall e :: e in out && e.eventType == ItemObserved && e.nativeID == nid ==> e.body == Snapshot(pl))
    ensures IsMyPull(pl, pr)
  {
    var nid := PullID(owner, name, number);
    var i, f := FoundIsRead(call, p, handle, n, pr, owner, name, number);
    pl := JoinAchieves(cache, p, i, f, call.forge, handle, pr, owner, name, number);
    var e :| e in PollOutput(cache, p) && IsShot(e, nid, pl);
  }

  lemma FoundIsRead(call: Call, p: Poll, handle: string, n: nat, pr: Pull, owner: string, name: string, number: string)
      returns (i: nat, f: RestFacts)
    requires EndToEnd.IsHubSweep(call, p, handle) && FindsMine(call, p, n, pr, owner, name, number)
    ensures ReadsPull(p, i, f, call.forge, pr, owner, name, number) && Author in f.roles && Reviewer !in f.roles
  {
    i, f := HitIsSwept(call.hits, n);
    ItemsHaveIDs(p, call.forge, pr, i, PullID(owner, name, number));
  }

  lemma ItemsHaveIDs(p: Poll, forge: Forge, pr: Pull, i: int, nid: string)
    requires 0 <= i < |p.rest| && p.rest[i].nativeID == nid && AnsweredWith(p, forge, pr, nid)
    ensures forall x :: 0 <= x < |ItemsOf(p.rest)| && ItemsOf(p.rest)[x].evIdx == i ==>
              forge.batch(x / 30 * 30) == Answered && forge.node(x) == PullNode(pr)
  {
    GitHubProvider.ItemsAreListed(p.rest);
    forall x | 0 <= x < |ItemsOf(p.rest)| && ItemsOf(p.rest)[x].evIdx == i
      ensures ItemsOf(p.rest)[x].nativeID == nid
    {
      assert GitHubProvider.IsItem(ItemsOf(p.rest), p.rest, x);
    }
  }

  /** After the turn the PR's latest fact is an open snapshot with these facts. */
  lemma SweptIsLatest(turns: seq<Turn>, m: nat, nid: string, pl: Payload)
    requires IsEngineRun(turns) && m < |turns| && WritesSweep(turns[m])
    requires var out, rows, k := ResultOf(turns[m].cycle.env).events, RowsAt(turns, m), Item(turns[m].conn, nid);
             && nid in Swept(out) && (LatestIsRemoval(rows, k) || !AllRepeated(rows, turns[m].conn, out, nid))
             && forall e :: e in out && e.eventType == ItemObserved && e.nativeID == nid ==> e.body == Snapshot(pl)
    ensures var f := LatestFact(RowsAt(turns, m + 1), Item(turns[m].conn, nid));
            f.Some? && f.value.eventType == ItemObserved && f.value.body == Snapshot(pl)
  {
    var t := turns[m];
    assert TurnAt(turns, m);
    EngineLogInv(turns, m);
    var e := SweptBecomesLatest(t.cycle.before.rows, t.conn, ResultOf(t.cycle.env).events, AnswerSet(t.cycle.env.stillOpen),
                                t.cycle.removals, t.cycle.env.now, nid);
  }

  /** What the list shows of the PR. */
  ghost predicate ShowsPull(it: WorkItem, pr: Pull) {
    && it.gateDetail == pr.mergeState && it.approvalsCount == |Approving(pr.reviews)| && !it.muted && !it.draft
    && (ReadyToMergeState in it.states <==> pr.mergeState in {Clean, HasHooks, Unstable})
    && (BlockedState in it.states <==> pr.mergeState in {BlockedDetail, Dirty, Behind})
    && (ChangesRequestedState in it.states <==> pr.decision == DecisionChangesRequested)
    && (AutoMergeArmedState in it.states <==> pr.autoMerge)
  }

  lemma ListedShowsPull(it: WorkItem, pl: Payload, pr: Pull, hasMention: bool)
    requires ListsFacts(it, pl) && it.states == StatesOf(pl, hasMention) && IsMyPull(pl, pr)
    ensures ShowsPull(it, pr)
  {
    OwnChips(pl, hasMention);
  }

  /**
   End to end. When a cycle of an engine run writes a complete GitHub sweep whose searches found
   my PR, and the snapshot is news to the log or the PR had been removed, then the list over
   the new log holds the PR once: with the answer's merge state and approvals, ready or blocked
   as that merge state says, changes_requested and auto-merge as GitHub says, and not muted,
   whatever else the sweep held and whichever other batches failed.
   */
  lemma MyPullIsListed(turns: seq<Turn>, m: nat, cache: Cache, call: Call, p: Poll, handle: string, n: nat, pr: Pull,
                       owner: string, name: string, number: string, items: seq<WorkItem>, cfg: Config) returns (it: WorkItem)
    requires IsEngineRun(turns) && m < |turns| && IsHubTurn(turns[m], cache, call, p, handle)
    requires FindsMine(call, p, n, pr, owner, name, number)
    requires var rows, nid := RowsAt(turns, m), PullID(owner, name, number);
             LatestIsRemoval(rows, Item(turns[m].conn, nid)) || !AllRepeated(rows, turns[m].conn, PollOutput(cache, p), nid)
    requires IsFold(items, RowsAt(turns, m + 1), cfg)
    ensures it in items && it.key == Item(turns[m].conn, PullID(owner, name, number))
    ensures forall x :: x in items && x.key == it.key ==> x == it
    ensures ShowsPull(it, pr)
  {
    var k := Item(turns[m].conn, PullID(owner, name, number));
    var pl := SweepEmits(call, p, cache, handle, n, pr, owner, name, number);
    SweptIsLatest(turns, m, PullID(owner, name, number), pl);
    EngineLogInv(turns, m + 1);
    it := LatestSnapshotIsListed(items, RowsAt(turns, m + 1), cfg, k, pl);
    ListedShowsPull(it, pl, pr, exists r :: r in RowsOf(RowsAt(turns, m + 1), k) && r.eventType == Signal(Mentioned));
  }
}
