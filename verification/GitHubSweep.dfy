/** The REST half of a GitHub poll: role aggregation over the search scopes, and the notification feed. */
module GitHubSweep {
  import opened Model
  import opened Collections
  import opened Sorting
  import opened GitHub

  datatype Probe = Sole | NotSole | ProbeFailed

  /** A search row; a row of an issue is no PR. `facts` carries no roles yet. */
  datatype SearchRow = SearchRow(url: string, isPull: bool, nativeID: string, updatedAt: string, facts: RestFacts, probe: Probe)

  /** A row under the role of the scope that returned it, in the order of the searches. */
  datatype Hit = Hit(role: Role, row: SearchRow)

  /** The row counts: a PR and, in the sole-approver scope, one whose probe said so. */
  predicate IsKept(h: Hit) {
    h.row.isPull && (h.role == SoleApprover ==> h.row.probe == Sole)
  }

  /** A probe that failed leaves the sweep short. */
  predicate Incomplete(h: Hit) {
    h.row.isPull && h.role == SoleApprover && h.row.probe == ProbeFailed
  }

  /** The PRs in order of first appearance. */
  function Order(hits: seq<Hit>): seq<string> {
    if hits == [] then []
    else
      var before, h := Order(hits[..|hits| - 1]), hits[|hits| - 1];
      if IsKept(h) && h.row.url !in before then before + [h.row.url] else before
  }

  /** The roles under which the PR was found, in order. */
  function RolesFound(hits: seq<Hit>, url: string): seq<Role> {
    if hits == [] then []
    else
      var h := hits[|hits| - 1];
      RolesFound(hits[..|hits| - 1], url) + if IsKept(h) && h.row.url == url then [h.role] else []
  }

  /** The first row of the PR. */
  function FirstRow(hits: seq<Hit>, url: string): Option<SearchRow> {
    if hits == [] then None
    else
      var before, h := FirstRow(hits[..|hits| - 1], url), hits[|hits| - 1];
      if before.None? && IsKept(h) && h.row.url == url then Some(h.row) else before
  }

  /** Each review-requested row is a signal. */
  function ReviewSignals(hits: seq<Hit>): seq<Event> {
    if hits == [] then []
    else
      var h := hits[|hits| - 1];
      ReviewSignals(hits[..|hits| - 1]) + if IsKept(h) && h.role == Reviewer then [ReviewSignal(h.row)] else []
  }

  function ReviewSignal(row: SearchRow): Event {
    Event(MERGE_REQUEST, row.nativeID, Signal(ReviewRequestedSignal), row.facts.updatedAt, "",
          TextKey("signal.review_requested:" + row.nativeID + ":" + row.updatedAt), Opaque)
  }

  /** The order of the role names. */
  function RoleRank(r: Role): int {
    match r
    case Assignee => 0
    case Author => 1
    case Reviewer => 2
    case SoleApprover => 3
    case OtherRole(_) => 4
  }

  predicate RoleBefore(a: Role, b: Role) {
    RoleRank(a) < RoleRank(b)
  }

  /** The snapshot of a PR: the facts of its first row, open, with all its roles sorted. */
  function SweptEvent(row: SearchRow, roles: seq<Role>): Event {
    var f := row.facts.(roles := Sorted(roles, RoleBefore), state := Open, mergeableState := None, sourceBranch := "", targetBranch := "");
    ObservedEvent(row.nativeID, RestPayload(f))
  }

  function SweptEvents(hits: seq<Hit>, urls: seq<string>): seq<Event> {
    if urls == [] then []
    else
      var url := urls[|urls| - 1];
      SweptEvents(hits, urls[..|urls| - 1])
      + match FirstRow(hits, url)
        case Some(row) => [SweptEvent(row, RolesFound(hits, url))]
        case None => []
  }

  /** What the search sweep hands to the join. */
  function SweepRest(hits: seq<Hit>): seq<Event> {
    ReviewSignals(hits) + SweptEvents(hits, Order(hits))
  }

  /** The aggregate of one PR. */
  datatype Agg = Agg(row: SearchRow, roles: seq<Role>)

  /** `seen` holds the first row and the roles of every PR found so far. */
  ghost predicate IsSeen(seen: map<string, Agg>, hits: seq<Hit>) {
    forall url :: SeenAt(seen, hits, url)
  }

  predicate SeenAt(seen: map<string, Agg>, hits: seq<Hit>, url: string) {
    if url in seen then
      url in Order(hits) && FirstRow(hits, url) == Some(seen[url].row) && RolesFound(hits, url) == seen[url].roles
    else
      url !in Order(hits) && FirstRow(hits, url) == None && RolesFound(hits, url) == []
  }

  lemma SeenStep(seen: map<string, Agg>, seen': map<string, Agg>, hits: seq<Hit>)
    requires hits != [] && IsSeen(seen, hits[..|hits| - 1])
    requires var h := hits[|hits| - 1];
             seen' == if !IsKept(h) then seen
                      else if h.row.url in seen then seen[h.row.url := Agg(seen[h.row.url].row, seen[h.row.url].roles + [h.role])]
                      else seen[h.row.url := Agg(h.row, [h.role])]
    ensures IsSeen(seen', hits)
  {
    forall url
      ensures SeenAt(seen', hits, url)
    {
      assert SeenAt(seen, hits[..|hits| - 1], url);
    }
  }

  /** The search loop: the review signals, the PRs in order, and the aggregate of each. */
  method Aggregate(hits: seq<Hit>) returns (events: seq<Event>, order: seq<string>, seen: map<string, Agg>, complete: bool)
    ensures events == ReviewSignals(hits) && order == Order(hits) && IsSeen(seen, hits)
    ensures complete <==> forall i :: 0 <= i < |hits| ==> !Incomplete(hits[i])
  {
    events, order, seen, complete := [], [], map[], true;
    for n := 0 to |hits|
      invariant complete <==> forall i :: 0 <= i < n ==> !Incomplete(hits[i])
      invariant events == ReviewSignals(hits[..n])
      invariant order == Order(hits[..n])
      invariant IsSeen(seen, hits[..n])
    {
      ghost var before := seen;
      var h := hits[n];
      assert hits[..n + 1][..n] == hits[..n];
      assert SeenAt(seen, hits[..n], h.row.url);
      if Incomplete(h) {
        complete := false;
      }
      if IsKept(h) {
        var url := h.row.url;
        if url !in seen {
          seen := seen[url := Agg(h.row, [])];
          order := order + [url];
        }
        assert url !in before ==> seen[url].roles + [h.role] == [h.role];
        seen := seen[url := seen[url].(roles := seen[url].roles + [h.role])];
        if h.role == Reviewer {
          events := events + [ReviewSignal(h.row)];
        }
      }
      SeenStep(before, seen, hits[..n + 1]);
    }
    assert hits[..|hits|] == hits;
  }

  method Sweep(hits: seq<Hit>) returns (events: seq<Event>, complete: bool)
    ensures events == SweepRest(hits)
    ensures complete <==> forall i :: 0 <= i < |hits| ==> !Incomplete(hits[i])
  {
    var order, seen;
    events, order, seen, complete := Aggregate(hits);
    var swept := Emit(hits, order, seen);
    events := events + swept;
  }

  /** The emission loop: one snapshot per PR, in order. */
  method Emit(ghost hits: seq<Hit>, order: seq<string>, seen: map<string, Agg>) returns (events: seq<Event>)
    requires order == Order(hits) && IsSeen(seen, hits)
    ensures events == SweptEvents(hits, order)
  {
    events := [];
    for n := 0 to |order|
      invariant events == SweptEvents(hits, order[..n])
    {
      assert order[..n + 1][..n] == order[..n];
      assert order[n] in order && SeenAt(seen, hits, order[n]);
      var a := seen[order[n]];
      var roles := SortRoles(a.roles);
      var f := a.row.facts.(roles := roles, state := Open, mergeableState := None, sourceBranch := "", targetBranch := "");
      events := events + [ObservedEvent(a.row.nativeID, RestPayload(f))];
    }
    assert order[..|order|] == order;
  }

  method SortRoles(roles: seq<Role>) returns (sorted: seq<Role>)
    ensures sorted == Sorted(roles, RoleBefore)
  {
    var a := new Role[|roles|](i requires 0 <= i < |roles| => roles[i]);
    assert a[..] == roles;
    Sort(a, RoleBefore);
    sorted := a[..];
  }

  // ---- what the sweep says ----

  lemma {:induction false} OrderIsKept(hits: seq<Hit>)
    ensures NoDuplicates(Order(hits))
    ensures forall url :: url in Order(hits) <==> exists i :: 0 <= i < |hits| && IsKept(hits[i]) && hits[i].row.url == url
    ensures forall url :: url in Order(hits) <==> FirstRow(hits, url).Some?
  {
    if hits != [] {
      var n := |hits| - 1;
      OrderIsKept(hits[..n]);
      forall url
        ensures url in Order(hits) <==> exists i :: 0 <= i < |hits| && IsKept(hits[i]) && hits[i].row.url == url
      {
        if url in Order(hits[..n]) {
          var i :| 0 <= i < n && IsKept(hits[..n][i]) && hits[..n][i].row.url == url;
          assert hits[i] == hits[..n][i];
        }
        if exists i :: 0 <= i < n && IsKept(hits[i]) && hits[i].row.url == url {
          var i :| 0 <= i < n && IsKept(hits[i]) && hits[i].row.url == url;
          assert hits[..n][i] == hits[i];
        }
      }
    }
  }

  predicate IsFoundUnder(h: Hit, url: string, role: Role) {
    IsKept(h) && h.row.url == url && h.role == role
  }

  lemma RoleSnoc(hits: seq<Hit>, url: string, role: Role)
    requires hits != []
    ensures role in RolesFound(hits, url) <==>
            role in RolesFound(hits[..|hits| - 1], url) || IsFoundUnder(hits[|hits| - 1], url, role)
  {
  }

  lemma {:induction false} RolesAreFound(hits: seq<Hit>, url: string, role: Role)
    ensures role in RolesFound(hits, url) <==> exists i :: 0 <= i < |hits| && IsFoundUnder(hits[i], url, role)
  {
    if hits != [] {
      var n := |hits| - 1;
      RolesAreFound(hits[..n], url, role);
      RoleSnoc(hits, url, role);
      if i :| 0 <= i < n && IsFoundUnder(hits[..n][i], url, role) {
        assert IsFoundUnder(hits[i], url, role);
      }
      if i :| 0 <= i < n && IsFoundUnder(hits[i], url, role) {
        assert IsFoundUnder(hits[..n][i], url, role);
      }
    }
  }

  lemma SweptSnoc(hits: seq<Hit>, urls: seq<string>)
    requires urls != [] && FirstRow(hits, urls[|urls| - 1]).Some?
    ensures SweptEvents(hits, urls) == SweptEvents(hits, urls[..|urls| - 1])
              + [SweptEvent(FirstRow(hits, urls[|urls| - 1]).value, RolesFound(hits, urls[|urls| - 1]))]
  {
  }

  lemma {:induction false} SweptLength(hits: seq<Hit>, urls: seq<string>)
    requires forall url :: url in urls ==> FirstRow(hits, url).Some?
    ensures |SweptEvents(hits, urls)| == |urls|
  {
    if urls != [] {
      assert urls[|urls| - 1] in urls && forall url :: url in urls[..|urls| - 1] ==> url in urls;
      SweptLength(hits, urls[..|urls| - 1]);
      SweptSnoc(hits, urls);
    }
  }

  lemma {:induction false} SweptAt(hits: seq<Hit>, urls: seq<string>, i: nat)
    requires i < |urls| && forall url :: url in urls ==> FirstRow(hits, url).Some?
    ensures |SweptEvents(hits, urls)| == |urls|
    ensures SweptEvents(hits, urls)[i] == SweptEvent(FirstRow(hits, urls[i]).value, RolesFound(hits, urls[i]))
    decreases |urls|
  {
    var n := |urls| - 1;
    assert urls[n] in urls && forall url :: url in urls[..n] ==> url in urls;
    SweptLength(hits, urls);
    SweptLength(hits, urls[..n]);
    SweptSnoc(hits, urls);
    if i < n {
      SweptAt(hits, urls[..n], i);
      assert urls[..n][i] == urls[i];
    }
  }

  /**
   The sweep emits one snapshot per PR found, in order of first appearance, carrying exactly
   the roles of the scopes that found it, sorted.
   */
  lemma SweepAggregatesRoles(hits: seq<Hit>, i: nat, role: Role)
    requires i < |Order(hits)|
    ensures |SweptEvents(hits, Order(hits))| == |Order(hits)| && NoDuplicates(Order(hits))
    ensures var e := SweptEvents(hits, Order(hits))[i];
            && e.eventType == ItemObserved && e.body.Snapshot? && e.body.facts.state == Open
            && IsSorted(e.body.facts.myRoles, RoleBefore)
            && (role in e.body.facts.myRoles <==>
                  exists n :: 0 <= n < |hits| && IsFoundUnder(hits[n], Order(hits)[i], role))
  {
    var url := Order(hits)[i];
    OrderIsKept(hits);
    SweptAt(hits, Order(hits), i);
    RolesAreFound(hits, url, role);
    SortedKeeps(RolesFound(hits, url), RoleBefore);
    SortedIsSorted(RolesFound(hits, url), RoleBefore);
  }

  /** The sweep is made of REST snapshots. */
  lemma SweepFromRest(hits: seq<Hit>, e: Event)
    requires e in SweepRest(hits) && e.eventType == ItemObserved
    ensures e.body.Snapshot? && exists f :: e.body.facts == RestPayload(f)
  {
    if e in ReviewSignals(hits) {
      SignalsOnly(hits, e);
    }
    OrderIsKept(hits);
    SweptLength(hits, Order(hits));
    var i :| 0 <= i < |Order(hits)| && SweptEvents(hits, Order(hits))[i] == e;
    SweptAt(hits, Order(hits), i);
    var row, roles := FirstRow(hits, Order(hits)[i]).value, RolesFound(hits, Order(hits)[i]);
    var f := row.facts.(roles := Sorted(roles, RoleBefore), state := Open, mergeableState := None, sourceBranch := "", targetBranch := "");
    assert e.body.facts == RestPayload(f);
  }

  /** Some scope found a PR under this id, the id of the first row of its URL. */
  predicate Found(hits: seq<Hit>, nid: string) {
    exists i :: 0 <= i < |hits| && IsKept(hits[i]) && FoundAs(hits, hits[i].row.url, nid)
  }

  predicate FoundAs(hits: seq<Hit>, url: string, nid: string) {
    FirstRow(hits, url).Some? && FirstRow(hits, url).value.nativeID == nid
  }

  /** The sweep holds a snapshot of every PR that some scope found. */
  lemma FoundIsSwept(hits: seq<Hit>, nid: string) returns (e: Event)
    requires Found(hits, nid)
    ensures e in SweepRest(hits) && e.eventType == ItemObserved && e.nativeID == nid
  {
    var n :| 0 <= n < |hits| && IsKept(hits[n]) && FoundAs(hits, hits[n].row.url, nid);
    OrderIsKept(hits);
    var i :| 0 <= i < |Order(hits)| && Order(hits)[i] == hits[n].row.url;
    SweptAt(hits, Order(hits), i);
    e := SweptEvents(hits, Order(hits))[i];
  }

  /** And every snapshot of the sweep is open and of a PR that some scope found. */
  lemma SweptIsFound(hits: seq<Hit>, e: Event)
    requires e in SweepRest(hits) && e.eventType == ItemObserved
    ensures e.body.Snapshot? && e.body.facts.state == Open && Found(hits, e.nativeID)
  {
    if e in ReviewSignals(hits) {
      SignalsOnly(hits, e);
    }
    OrderIsKept(hits);
    SweptLength(hits, Order(hits));
    var i :| 0 <= i < |Order(hits)| && SweptEvents(hits, Order(hits))[i] == e;
    SweptAt(hits, Order(hits), i);
    var url := Order(hits)[i];
    assert url in Order(hits);
    var n :| 0 <= n < |hits| && IsKept(hits[n]) && hits[n].row.url == url;
    assert FoundAs(hits, hits[n].row.url, e.nativeID);
  }

  lemma {:induction false} SignalsOnly(hits: seq<Hit>, e: Event)
    requires e in ReviewSignals(hits)
    ensures e.eventType.Signal?
  {
    if hits != [] && e in ReviewSignals(hits[..|hits| - 1]) {
      SignalsOnly(hits[..|hits| - 1], e);
    }
  }

  // ---- the notification feed ----

  datatype Reason = MentionReason | TeamMention | ReviewRequestReason | AssignReason | OtherReason

  /** A PR notification with its fetched detail. */
  datatype Notification = Notification(nativeID: string, pull: RestFacts, reason: Reason, updatedAt: string, at: Option<Time>)

  /** The signal that the notification's reason yields, keyed by its update time. */
  function SignalsFromNotification(n: Notification): seq<Event> {
    match n.reason
    case MentionReason => [FeedSignal(n, Mentioned, "signal.mentioned")]
    case TeamMention => [FeedSignal(n, Mentioned, "signal.mentioned")]
    case ReviewRequestReason => [FeedSignal(n, ReviewRequestedSignal, "signal.review_requested")]
    case AssignReason => [FeedSignal(n, Assigned, "signal.assigned")]
    case OtherReason => []
  }

  function FeedSignal(n: Notification, kind: SignalKind, name: string): Event {
    Event(MERGE_REQUEST, n.nativeID, Signal(kind), n.at, "", TextKey(name + ":" + n.nativeID + ":" + n.updatedAt), Opaque)
  }

  /** An open PR without signal and without role is somebody else's. */
  predicate IsNoise(n: Notification) {
    SignalsFromNotification(n) == [] && n.pull.roles == [] && n.pull.state == Open
  }

  function FeedRest(feed: seq<Notification>): seq<Event> {
    if feed == [] then []
    else
      var n := feed[|feed| - 1];
      FeedRest(feed[..|feed| - 1])
      + if IsNoise(n) then [] else [ObservedEvent(n.nativeID, RestPayload(n.pull))] + SignalsFromNotification(n)
  }

  method Feed(feed: seq<Notification>) returns (events: seq<Event>)
    ensures events == FeedRest(feed)
  {
    events := [];
    for i := 0 to |feed|
      invariant events == FeedRest(feed[..i])
    {
      assert feed[..i + 1][..i] == feed[..i];
      var obs := ObservedEvent(feed[i].nativeID, RestPayload(feed[i].pull));
      var sigs := SignalsFromNotification(feed[i]);
      if |sigs| == 0 && |feed[i].pull.roles| == 0 && feed[i].pull.state == Open {
        continue;
      }
      events := events + [obs];
      events := events + sigs;
    }
    assert feed[..|feed|] == feed;
  }

  /** The feed is made of REST snapshots, and holds no open snapshot without role or signal. */
  lemma {:induction false} FeedFromRest(feed: seq<Notification>, e: Event)
    requires e in FeedRest(feed) && e.eventType == ItemObserved
    ensures e.body.Snapshot? && exists f :: e.body.facts == RestPayload(f)
    ensures e.body.facts.state == Open && e.body.facts.myRoles == [] ==>
              exists s :: s in FeedRest(feed) && s.eventType.Signal? && s.nativeID == e.nativeID
  {
    var n := feed[|feed| - 1];
    var init := feed[..|feed| - 1];
    if e in FeedRest(init) {
      FeedFromRest(init, e);
      assert forall s :: s in FeedRest(init) ==> s in FeedRest(feed);
    } else {
      var sigs := SignalsFromNotification(n);
      assert e == ObservedEvent(n.nativeID, RestPayload(n.pull));
      if sigs != [] {
        assert sigs[0] in FeedRest(feed);
      }
    }
  }
}
