/** What each search hit and each notification contributes to a GitHub poll. */
module GitHubScopes {
  import opened Model
  import opened Sorting
  import opened GitHub
  import opened GitHubSweep
  import opened GitHubDegraded

  // ---- the search sweep ----

  /** A row counts when it is a PR and, under the sole-approver scope, its probe confirmed that role. */
  predicate Finds(h: Hit, url: string, role: Role) {
    h.row.url == url && h.role == role && h.row.isPull && (role == SoleApprover ==> h.row.probe == Sole)
  }

  /** The first row that counts for its PR, whose id no other PR bears. */
  ghost predicate IsFirstHit(hits: seq<Hit>, n: nat) {
    && n < |hits| && Finds(hits[n], hits[n].row.url, hits[n].role)
    && (forall m :: 0 <= m < n ==> !Finds(hits[m], hits[n].row.url, hits[m].role))
    && (forall m :: 0 <= m < |hits| && hits[m].row.url != hits[n].row.url ==> hits[m].row.nativeID != hits[n].row.nativeID)
  }

  lemma {:induction false} FirstHitIsFirstRow(hits: seq<Hit>, n: nat)
    requires n < |hits| && Finds(hits[n], hits[n].row.url, hits[n].role)
    requires forall m :: 0 <= m < n ==> !Finds(hits[m], hits[n].row.url, hits[m].role)
    ensures FirstRow(hits, hits[n].row.url) == Some(hits[n].row)
  {
    if n < |hits| - 1 {
      FirstHitIsFirstRow(hits[..|hits| - 1], n);
    } else {
      NotYetFound(hits[..n], hits[n].row.url);
    }
  }

  lemma {:induction false} NotYetFound(hits: seq<Hit>, url: string)
    requires forall m :: 0 <= m < |hits| ==> !Finds(hits[m], url, hits[m].role)
    ensures FirstRow(hits, url) == None
  {
    if hits != [] {
      NotYetFound(hits[..|hits| - 1], url);
    }
  }

  lemma {:induction false} FirstRowIsHit(hits: seq<Hit>, url: string)
    ensures FirstRow(hits, url).Some? ==> exists m :: 0 <= m < |hits| && hits[m].row == FirstRow(hits, url).value && hits[m].row.url == url
  {
    if hits != [] {
      FirstRowIsHit(hits[..|hits| - 1], url);
    }
  }

  /** The names of the roles in the order of their letters. */
  predicate RolesByName(roles: seq<Role>) {
    && (forall a, b :: 0 <= a < b < |roles| ==> !(roles[b] == Assignee && roles[a] in {Author, Reviewer, SoleApprover}))
    && (forall a, b :: 0 <= a < b < |roles| ==> !(roles[b] == Author && roles[a] in {Reviewer, SoleApprover}))
    && (forall a, b :: 0 <= a < b < |roles| ==> !(roles[b] == Reviewer && roles[a] == SoleApprover))
  }

  /** The facts of an open PR as its search row gives them, which knows neither merge state nor branches. */
  predicate SaysRow(f: RestFacts, row: RestFacts) {
    && f.title == row.title && f.url == row.url && f.repo == row.repo && f.author == row.author && f.draft == row.draft
    && f.updatedAt == row.updatedAt && f.ticketKeys == row.ticketKeys && f.labels == row.labels
    && f.state == Open && f.mergeableState == None && f.sourceBranch == [] && f.targetBranch == []
  }

  /**
   What a sweep says of a PR that its searches found: one open snapshot with the facts of the
   first row that counts, and exactly the roles of the scopes whose rows count, in the order of
   their names.
   */
  lemma HitIsSwept(hits: seq<Hit>, n: nat) returns (i: nat, f: RestFacts)
    requires IsFirstHit(hits, n)
    ensures var row := hits[n].row; var rest := SweepRest(hits);
            && OnlyAt(rest, i) && rest[i].nativeID == row.nativeID && rest[i].body == Snapshot(RestPayload(f))
            && rest[i].occurredAt == row.facts.updatedAt && rest[i].actor == row.facts.author
            && SaysRow(f, row.facts)
            && (forall role :: role in f.roles <==> exists m :: 0 <= m < |hits| && Finds(hits[m], row.url, role))
            && RolesByName(f.roles)
  {
    var row := hits[n].row;
    FirstHitIsFirstRow(hits, n);
    var k := FoundAt(hits, row.url);
    f := SweptFacts(row, RolesFound(hits, row.url));
    i := |ReviewSignals(hits)| + k;
    assert SweepRest(hits)[i] == SweptEvents(hits, Order(hits))[k] == ObservedEvent(row.nativeID, RestPayload(f));
    SweptRoles(hits, row.url);
    SweptFactsSayRow(row, RolesFound(hits, row.url));
    forall j | 0 <= j < |SweepRest(hits)| && j != i && SweepRest(hits)[j].eventType == ItemObserved
      ensures SweepRest(hits)[j].nativeID != row.nativeID
    {
      OtherSnapshot(hits, n, k, j);
    }
  }

  function SweptFacts(row: SearchRow, roles: seq<Role>): RestFacts {
    row.facts.(roles := Sorted(roles, RoleBefore), state := Open, mergeableState := None, sourceBranch := "", targetBranch := "")
  }

  lemma SweptFactsSayRow(row: SearchRow, roles: seq<Role>)
    ensures SaysRow(SweptFacts(row, roles), row.facts) && RestPayload(SweptFacts(row, roles)).providerUpdatedAt == row.facts.updatedAt
    ensures RestPayload(SweptFacts(row, roles)).author == row.facts.author
  {
  }

  lemma FoundAt(hits: seq<Hit>, url: string) returns (k: nat)
    requires FirstRow(hits, url).Some?
    ensures k < |Order(hits)| && Order(hits)[k] == url && |SweptEvents(hits, Order(hits))| == |Order(hits)|
    ensures var row := FirstRow(hits, url).value;
            SweptEvents(hits, Order(hits))[k] == ObservedEvent(row.nativeID, RestPayload(SweptFacts(row, RolesFound(hits, url))))
  {
    OrderIsKept(hits);
    k :| 0 <= k < |Order(hits)| && Order(hits)[k] == url;
    SweptAt(hits, Order(hits), k);
  }

  lemma SweptRoles(hits: seq<Hit>, url: string)
    ensures var roles := Sorted(RolesFound(hits, url), RoleBefore);
            && (forall role :: role in roles <==> exists m :: 0 <= m < |hits| && Finds(hits[m], url, role))
            && RolesByName(roles)
  {
    var found := RolesFound(hits, url);
    SortedKeeps(found, RoleBefore);
    SortedIsSorted(found, RoleBefore);
    forall role
      ensures role in found <==> exists m :: 0 <= m < |hits| && Finds(hits[m], url, role)
    {
      RolesAreFound(hits, url, role);
      assert forall m :: 0 <= m < |hits| ==> (IsFoundUnder(hits[m], url, role) <==> Finds(hits[m], url, role));
    }
  }

  /** Any other snapshot of the sweep is of another URL, and so of another id. */
  lemma OtherSnapshot(hits: seq<Hit>, n: nat, k: nat, j: nat)
    requires IsFirstHit(hits, n) && k < |Order(hits)| && Order(hits)[k] == hits[n].row.url
    requires j < |SweepRest(hits)| && j != |ReviewSignals(hits)| + k && SweepRest(hits)[j].eventType == ItemObserved
    ensures SweepRest(hits)[j].nativeID != hits[n].row.nativeID
  {
    var order, signals := Order(hits), ReviewSignals(hits);
    if j < |signals| {
      SignalsOnly(hits, SweepRest(hits)[j]);
    } else {
      var x := j - |signals|;
      OrderIsKept(hits);
      SweptLength(hits, order);
      SweptAt(hits, order, x);
      FirstRowIsHit(hits, order[x]);
      assert order[x] != order[k];
    }
  }

  /** A PR no row of which counts, because every row is an issue's or an unconfirmed approver's, is not swept. */
  lemma UncountedIsNotSwept(hits: seq<Hit>, nid: string)
    requires forall m :: 0 <= m < |hits| && hits[m].row.nativeID == nid ==> !Finds(hits[m], hits[m].row.url, hits[m].role)
    ensures forall e :: e in SweepRest(hits) && e.eventType == ItemObserved ==> e.nativeID != nid
  {
    forall e | e in SweepRest(hits) && e.eventType == ItemObserved
      ensures e.nativeID != nid
    {
      SweptIsFound(hits, e);
      var m :| 0 <= m < |hits| && IsKept(hits[m]) && FoundAs(hits, hits[m].row.url, e.nativeID);
      FirstRowCounts(hits, hits[m].row.url);
    }
  }

  lemma {:induction false} FirstRowCounts(hits: seq<Hit>, url: string)
    ensures FirstRow(hits, url).Some? ==>
              exists m :: 0 <= m < |hits| && hits[m].row == FirstRow(hits, url).value && Finds(hits[m], url, hits[m].role)
  {
    if hits != [] {
      FirstRowCounts(hits[..|hits| - 1], url);
    }
  }

  /** The signal that a review is requested, dated by the search row. */
  predicate IsReviewRequest(e: Event, h: Hit) {
    && e.objectType == MERGE_REQUEST && e.nativeID == h.row.nativeID && e.eventType == Signal(ReviewRequestedSignal)
    && e.occurredAt == h.row.facts.updatedAt && e.key.TextKey? && e.body == Opaque
  }

  /** Each PR row of the reviewer scope raises a review request, and no other row does. */
  lemma {:induction false} ReviewerHitSignals(hits: seq<Hit>, n: nat)
    requires n < |hits| && hits[n].role == Reviewer && hits[n].row.isPull
    ensures exists e :: e in ReviewSignals(hits) && IsReviewRequest(e, hits[n])
  {
    var k := |hits| - 1;
    if n < k {
      ReviewerHitSignals(hits[..k], n);
      var e :| e in ReviewSignals(hits[..k]) && IsReviewRequest(e, hits[n]);
      assert e in ReviewSignals(hits);
    } else {
      assert ReviewSignal(hits[k].row) in ReviewSignals(hits);
    }
  }

  lemma {:induction false} SignalIsReviewerHit(hits: seq<Hit>, e: Event) returns (n: nat)
    requires e in ReviewSignals(hits)
    ensures n < |hits| && hits[n].role == Reviewer && hits[n].row.isPull && IsReviewRequest(e, hits[n])
  {
    var k := |hits| - 1;
    if e in ReviewSignals(hits[..k]) {
      n := SignalIsReviewerHit(hits[..k], e);
    } else {
      n := k;
    }
  }

  // ---- the notification feed ----

  /** The signal that a notification of a kind raises: on its PR, at the time of the notification. */
  predicate IsFeedSignal(e: Event, n: Notification, kind: SignalKind) {
    && e.objectType == MERGE_REQUEST && e.nativeID == n.nativeID && e.eventType == Signal(kind) && e.occurredAt == n.at
    && e.key.TextKey? && e.body == Opaque
  }

  /** What each kind of notification brings. */
  ghost predicate Brings(events: seq<Event>, n: Notification) {
    && (n.reason in {MentionReason, TeamMention} ==> exists e :: e in events && IsFeedSignal(e, n, Mentioned))
    && (n.reason == ReviewRequestReason ==> exists e :: e in events && IsFeedSignal(e, n, ReviewRequestedSignal))
    && (n.reason == AssignReason ==> exists e :: e in events && IsFeedSignal(e, n, Assigned))
    && (n.reason != OtherReason || n.pull.roles != [] || n.pull.state != Open ==>
          exists e :: e in events && e.eventType == ItemObserved && e.nativeID == n.nativeID && e.body == Snapshot(RestPayload(n.pull)))
  }

  /**
   Every notification brings its PR's snapshot and the signal of its reason, unless it is noise:
   of an open PR on which I have no role, for no reason that concerns me. A closed PR is no
   noise, so its closing is seen.
   */
  lemma {:induction false} NotificationBrings(feed: seq<Notification>, i: nat)
    requires i < |feed|
    ensures Brings(FeedRest(feed), feed[i])
  {
    var k := |feed| - 1;
    if i < k {
      NotificationBrings(feed[..k], i);
      BringsMore(FeedRest(feed[..k]), FeedRest(feed), feed[i]);
    } else {
      LastBrings(feed);
    }
  }

  lemma BringsMore(events: seq<Event>, more: seq<Event>, n: Notification)
    requires Brings(events, n) && forall e :: e in events ==> e in more
    ensures Brings(more, n)
  {
  }

  lemma LastBrings(feed: seq<Notification>)
    requires feed != []
    ensures Brings(FeedRest(feed), feed[|feed| - 1])
  {
    var n := feed[|feed| - 1];
    if IsNoise(n) {
      NoiseOwesNothing(FeedRest(feed), n);
    } else {
      var own := [ObservedEvent(n.nativeID, RestPayload(n.pull))] + SignalsFromNotification(n);
      assert FeedRest(feed) == FeedRest(feed[..|feed| - 1]) + own;
      OwnEvents(n);
      BringsMore(own, FeedRest(feed), n);
    }
  }

  lemma NoiseOwesNothing(events: seq<Event>, n: Notification)
    requires IsNoise(n)
    ensures Brings(events, n)
  {
    assert n.reason == OtherReason;
  }

  lemma OwnEvents(n: Notification)
    ensures Brings([ObservedEvent(n.nativeID, RestPayload(n.pull))] + SignalsFromNotification(n), n)
  {
    var shot, sigs := ObservedEvent(n.nativeID, RestPayload(n.pull)), SignalsFromNotification(n);
    assert ([shot] + sigs)[0] == shot;
    if n.reason != OtherReason {
      assert sigs[0] in [shot] + sigs;
      assert IsFeedSignal(sigs[0], n, sigs[0].eventType.kind);
    }
  }

  /** And noise brings nothing: each event of the feed is of a notification that is none. */
  lemma {:induction false} FeedIsNoNoise(feed: seq<Notification>, e: Event) returns (i: nat)
    requires e in FeedRest(feed)
    ensures i < |feed| && e.nativeID == feed[i].nativeID
    ensures feed[i].reason != OtherReason || feed[i].pull.roles != [] || feed[i].pull.state != Open
    ensures || e.eventType == ItemObserved
            || (&& feed[i].reason != OtherReason
                && e.eventType in {Signal(Mentioned), Signal(ReviewRequestedSignal), Signal(Assigned)})
  {
    var k := |feed| - 1;
    if e in FeedRest(feed[..k]) {
      i := FeedIsNoNoise(feed[..k], e);
    } else {
      i := k;
    }
  }
}
