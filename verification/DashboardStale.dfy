/** The stale flag as a function of the history: when it is up, and when the dashboard is honest about its list. */
module DashboardStale {
  import opened Model
  import opened Retry
  import opened Dashboard
  import opened DashboardRuns

  predicate FailedAt(s: Sys, k: nat) {
    k in s.settled && s.settled[k].outcome.Failed?
  }

  /** The newest hydrate, another request than r, failed on a ready dashboard after r settled. */
  ghost predicate HydrateFailedAfter(s: Sys, r: nat)
    requires r in s.settled
  {
    exists h :: h != r && IsLast(s, h, Hydrates) && FailedAt(s, h) && s.settled[h].ready && s.settled[h].at > s.settled[r].at
  }

  /** What the flag is once the newest attention request r has settled. */
  ghost predicate StaleWant(s: Sys, r: nat)
    requires r in s.settled
  {
    if FailedAt(s, r) then s.settled[r].ready else HydrateFailedAfter(s, r)
  }

  /** While the newest hydrate is pending, no request after it settled under another readiness than today's. */
  ghost predicate ReadyHeld(s: Sys) {
    forall h, f :: IsLast(s, h, Hydrates) && h !in s.settled && f > h && f in s.settled ==> s.settled[f].ready == s.v.ready
  }

  ghost predicate StaleKnown(s: Sys) {
    forall r :: IsLast(s, r, Attention) && r in s.settled ==> (s.v.stale <==> StaleWant(s, r))
  }

  ghost predicate StaleInv(s: Sys) {
    Inv(s) && (s.v.stale ==> s.v.ready) && ReadyHeld(s) && StaleKnown(s)
  }

  // ---- starts ----

  /** A start appends a request and leaves the history and both flags. */
  ghost predicate Appended(s: Sys, s': Sys) {
    && |s'.requests| == |s.requests| + 1 && s'.requests[..|s.requests|] == s.requests
    && s'.settled == s.settled && s'.v.stale == s.v.stale && s'.v.ready == s.v.ready
    && (Carries(s'.requests[|s.requests|], Hydrates) ==> Carries(s'.requests[|s.requests|], Attention))
  }

  lemma LastBefore(s: Sys, s': Sys, k: nat, c: Counter)
    requires Appended(s, s') && IsLast(s', k, c) && k < |s.requests|
    ensures IsLast(s, k, c)
  {
    assert forall j :: 0 <= j < |s.requests| ==> s'.requests[j] == s.requests[j];
  }

  lemma AppendKeepsReadyHeld(s: Sys, s': Sys)
    requires Appended(s, s') && RequestsOK(s) && ReadyHeld(s)
    ensures ReadyHeld(s')
  {
    forall h, f | IsLast(s', h, Hydrates) && h !in s'.settled && f > h && f in s'.settled
      ensures s'.settled[f].ready == s'.v.ready
    {
      LastBefore(s, s', h, Hydrates);
    }
  }

  lemma AppendKeepsStale(s: Sys, s': Sys)
    requires Appended(s, s') && RequestsOK(s) && StaleKnown(s)
    ensures StaleKnown(s')
  {
    forall r: nat | IsLast(s', r, Attention) && r in s'.settled
      ensures s'.v.stale <==> StaleWant(s', r)
    {
      assert r < |s.requests| && !Carries(s'.requests[|s.requests|], Attention);
      LastBefore(s, s', r, Attention);
      forall h
        ensures IsLast(s', h, Hydrates) && h in s'.settled <==> IsLast(s, h, Hydrates) && h in s.settled
      {
        if IsLast(s', h, Hydrates) && h in s'.settled {
          LastBefore(s, s', h, Hydrates);
        }
        if IsLast(s, h, Hydrates) {
          LastSame(s, s', h, Hydrates);
        }
      }
    }
  }

  lemma StartKeepsStale(s: Sys, a: Act)
    requires StaleInv(s) && Enabled(s, a) && !a.Settles?
    ensures StaleInv(Next(s, a))
  {
    var s' := Next(s, a);
    NextKeepsInv(s, a);
    match a {
      case Starts(c) => StartFrame(s.v, c);
      case Fires(t) => StartFrame(s.v.(timers := s.v.timers - {t}, retryTimer := None), Hydrates);
    }
    assert Appended(s, s');
    AppendKeepsReadyHeld(s, s');
    AppendKeepsStale(s, s');
  }

  // ---- settlements ----

  /** Readiness and staleness after a settlement, in terms of the history. */
  lemma SettleFlags(s: Sys, k: nat, o: Outcome)
    requires Inv(s) && Enabled(s, Settles(k, o))
    ensures var s' := Next(s, Settles(k, o));
            && s'.v.ready == (s.v.ready || (o.Success? && IsLast(s, k, Hydrates)))
            && s'.v.stale == ((s.v.stale && !(o.Success? && IsLast(s, k, Attention)))
                              || (o.Failed? && s.v.ready && (IsLast(s, k, Hydrates) || IsLast(s, k, Attention))))
  {
    SettleEffects(s.v, s.requests[k], o);
    WritesIfLast(s, k, o, Attention);
    if s.requests[k].Hydrate? && IsLast(s, k, Attention) {
      assert IsLast(s, k, Hydrates);
    }
  }

  lemma SettleKeepsReadyHeld(s: Sys, k: nat, o: Outcome)
    requires StaleInv(s) && Enabled(s, Settles(k, o))
    ensures ReadyHeld(Next(s, Settles(k, o)))
  {
    var s' := Next(s, Settles(k, o));
    SettleFlags(s, k, o);
    forall h, f | IsLast(s', h, Hydrates) && h !in s'.settled && f > h && f in s'.settled
      ensures s'.settled[f].ready == s'.v.ready
    {
      assert IsLast(s, h, Hydrates) && h != k;
      OneLast(s, h, k, Hydrates);
    }
  }

  /** The newest attention request settles now. */
  lemma NewestSettles(s: Sys, k: nat, o: Outcome)
    requires StaleInv(s) && Enabled(s, Settles(k, o)) && IsLast(s, k, Attention)
    ensures var s' := Next(s, Settles(k, o)); s'.v.stale <==> StaleWant(s', k)
  {
    SettleFlags(s, k, o);
    var s' := Next(s, Settles(k, o));
    assert s'.settled[k].at == s.clock;
    assert !HydrateFailedAfter(s', k);
  }

  lemma FailedHydrateWasReady(s: Sys, h: nat, r: nat)
    requires StaleInv(s) && IsLast(s, h, Hydrates) && h !in s.settled && IsLast(s, r, Attention) && r in s.settled
    ensures r > h && s.settled[r].ready == s.v.ready
  {
    assert Carries(s.requests[h], Attention);
  }

  /** Another request settles after the newest attention request r did. */
  lemma OtherSettles(s: Sys, k: nat, o: Outcome, r: nat)
    requires StaleInv(s) && Enabled(s, Settles(k, o)) && IsLast(s, r, Attention) && r in s.settled
    ensures var s' := Next(s, Settles(k, o)); s'.v.stale <==> StaleWant(s', r)
  {
    var s' := Next(s, Settles(k, o));
    SettleFlags(s, k, o);
    OneLast(s, k, r, Attention);
    assert s.v.stale <==> StaleWant(s, r);
    if o.Failed? && IsLast(s, k, Hydrates) {
      FailedHydrateWasReady(s, k, r);
      NewHydrateFailure(s, k, o, r);
    } else {
      SameHydrateFailure(s, k, o, r);
    }
  }

  /** The newest hydrate failed now, on a ready dashboard or not. */
  lemma NewHydrateFailure(s: Sys, k: nat, o: Outcome, r: nat)
    requires Inv(s) && Enabled(s, Settles(k, o)) && r in s.settled && o.Failed? && IsLast(s, k, Hydrates)
    ensures HydrateFailedAfter(Next(s, Settles(k, o)), r) <==> s.v.ready
    ensures !HydrateFailedAfter(s, r)
  {
    var s' := Next(s, Settles(k, o));
    assert IsLast(s', k, Hydrates);
    forall h | h != k
      ensures !IsLast(s', h, Hydrates) && !IsLast(s, h, Hydrates)
    {
      OneLast(s, h, k, Hydrates);
      OneLast(s', h, k, Hydrates);
    }
    if s.v.ready {
      assert k != r && FailedAt(s', k) && s'.settled[k].ready && s'.settled[k].at > s'.settled[r].at;
    }
  }

  lemma SameHydrateFailure(s: Sys, k: nat, o: Outcome, r: nat)
    requires Inv(s) && Enabled(s, Settles(k, o)) && r in s.settled && !(o.Failed? && IsLast(s, k, Hydrates))
    ensures HydrateFailedAfter(Next(s, Settles(k, o)), r) <==> HydrateFailedAfter(s, r)
  {
    var s' := Next(s, Settles(k, o));
    forall h
      ensures IsLast(s', h, Hydrates) && FailedAt(s', h) <==> IsLast(s, h, Hydrates) && FailedAt(s, h)
    {
      assert IsLast(s', h, Hydrates) <==> IsLast(s, h, Hydrates);
    }
  }

  lemma SettleKeepsStale(s: Sys, k: nat, o: Outcome)
    requires StaleInv(s) && Enabled(s, Settles(k, o))
    ensures StaleInv(Next(s, Settles(k, o)))
  {
    var s' := Next(s, Settles(k, o));
    NextKeepsInv(s, Settles(k, o));
    SettleFlags(s, k, o);
    SettleKeepsReadyHeld(s, k, o);
    forall r: nat | IsLast(s', r, Attention) && r in s'.settled
      ensures s'.v.stale <==> StaleWant(s', r)
    {
      assert IsLast(s, r, Attention);
      if r == k {
        NewestSettles(s, k, o);
      } else {
        OtherSettles(s, k, o, r);
      }
    }
  }

  // ---- runs ----

  lemma {:induction false} RunStale(states: seq<Sys>, acts: seq<Act>, empty: Token, n: nat)
    requires IsRun(states, acts, empty) && n < |states|
    ensures StaleInv(states[n])
  {
    if n > 0 {
      RunStale(states, acts, empty, n - 1);
      if acts[n - 1].Settles? {
        SettleKeepsStale(states[n - 1], acts[n - 1].k, acts[n - 1].outcome);
      } else {
        StartKeepsStale(states[n - 1], acts[n - 1]);
      }
    }
  }

  /**
   The stale flag, exactly. Once the newest attention request r has settled, and until the next
   one starts: if r failed, the flag is up if and only if the dashboard was ready when it
   failed; if r succeeded, it is up if and only if the newest hydrate, started before r,
   failed after it on a ready dashboard.
   */
  lemma StaleExactly(states: seq<Sys>, acts: seq<Act>, empty: Token, n: nat, r: nat)
    requires IsRun(states, acts, empty) && n < |states|
    requires IsLast(states[n], r, Attention) && r in states[n].settled
    ensures FailedAt(states[n], r) ==> (states[n].v.stale <==> states[n].settled[r].ready)
    ensures Succeeded(states[n], r) ==> (states[n].v.stale <==> HydrateFailedAfter(states[n], r))
  {
    RunStale(states, acts, empty, n);
  }

  /** What the page shows: a hint while loading, a load error, or the list with its flag. */
  datatype Screen = LoadingHint | LoadFailure(err: Failure) | ListShown(items: Token, stale: bool)

  function ScreenOf(v: View): Screen {
    if v.loading then LoadingHint
    else match v.loadError
      case Some(err) => LoadFailure(err)
      case None => ListShown(v.items, v.stale)
  }

  /** A list on the screen is the newest request's, or marked stale. */
  predicate Honest(s: Sys, r: nat) {
    match ScreenOf(s.v)
    case ListShown(_, stale) => stale || (Attention in s.shown && s.shown[Attention] == r)
    case _ => true
  }

  /** Before the first load the page says that it loads or why it failed; afterwards it shows the list. */
  predicate ScreenOK(v: View) {
    if v.ready then !v.loading && v.loadError == None else v.loading || v.loadError.Some?
  }

  lemma RetryKeepsScreen(v: View, err: Failure, now: Time)
    ensures var v' := ScheduleRetry(v, err, now); v'.loading == v.loading && v'.loadError == v.loadError && v'.ready == v.ready
  {
  }

  lemma NextKeepsScreen(s: Sys, a: Act)
    requires ScreenOK(s.v) && Enabled(s, a)
    ensures ScreenOK(Next(s, a).v)
  {
    if a.Settles? && a.outcome.Failed? {
      var v, err, now := s.v, a.outcome.err, a.outcome.now;
      RetryKeepsScreen(v.(stale := true), err, now);
      RetryKeepsScreen(v.(loadError := Some(err)), err, now);
    }
  }

  lemma {:induction false} RunScreen(states: seq<Sys>, acts: seq<Act>, empty: Token, n: nat)
    requires IsRun(states, acts, empty) && n < |states|
    ensures ScreenOK(states[n].v)
  {
    if n > 0 {
      RunScreen(states, acts, empty, n - 1);
      NextKeepsScreen(states[n - 1], acts[n - 1]);
    }
  }

  /**
   The page is honest unless the newest attention request failed before the first load
   finished, and that load has finished since.
   */
  lemma HonestExactly(states: seq<Sys>, acts: seq<Act>, empty: Token, n: nat, r: nat)
    requires IsRun(states, acts, empty) && n < |states|
    requires IsLast(states[n], r, Attention) && r in states[n].settled
    ensures Honest(states[n], r) <==> !(FailedAt(states[n], r) && !states[n].settled[r].ready && states[n].v.ready)
  {
    RunStale(states, acts, empty, n);
    RunScreen(states, acts, empty, n);
    if FailedAt(states[n], r) && Attention in states[n].shown {
      assert ShowsResponse(states[n], Attention);
    }
  }

  /**
   And that happens: an attention refresh fails during the first load, which then succeeds.
   The dashboard is loaded, shows an empty list it never received, is not stale, reports no
   error and plans no retry.
   */
  lemma EarlyFailureForgotten(empty: Token, x: Token, now: Time)
    ensures exists states: seq<Sys>, acts: seq<Act> ::
              && IsRun(states, acts, empty) && |acts| == 4
              && IsLast(states[4], 1, Attention) && states[4].settled.Keys == {0, 1} && !Honest(states[4], 1)
              && var v := states[4].v; v.ready && !v.loading && v.items == empty && v.loadError == None && v.timers == map[]
  {
    var acts := [Starts(Hydrates), Starts(Attention), Settles(1, Failed(Network, now)), Settles(0, Success(Response(x, x, x, x)))];
    var s0 := Initial(empty);
    var s1 := Next(s0, acts[0]);
    var s2 := Next(s1, acts[1]);
    assert s2.requests == [Hydrate(1, 1, 1, 1), Refresh(Attention, 2)];
    var s3 := Next(s2, acts[2]);
    assert s3.v == s2.v && s3.settled.Keys == {1};
    var s4 := Next(s3, acts[3]);
    var states := [s0, s1, s2, s3, s4];
    assert IsRun(states, acts, empty);
    assert IsLast(s4, 1, Attention) && FailedAt(s4, 1) && !s4.settled[1].ready;
    HonestExactly(states, acts, empty, 4, 1);
  }
}
