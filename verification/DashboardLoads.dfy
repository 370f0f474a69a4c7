/** The dashboard's loading mark and its count of retries, over every interleaving. */
module DashboardLoads {
  import opened Model
  import opened Retry
  import opened Dashboard
  import opened DashboardRuns
  import opened DashboardRetry

  /** Request k is a hydrate, and none was started after it. */
  ghost predicate LatestLoad(s: Sys, k: nat) {
    && k < |s.requests| && s.requests[k].Hydrate?
    && forall j :: k < j < |s.requests| ==> !s.requests[j].Hydrate?
  }

  ghost predicate SettlesLoad(s: Sys, a: Act) {
    a.Settles? && LatestLoad(s, a.k)
  }

  lemma LatestIsNewest(s: Sys, k: nat)
    requires Inv(s) && k < |s.requests| && s.requests[k].Hydrate?
    ensures LatestLoad(s, k) <==> s.requests[k].hydrate == s.v.hydrateGen
  {
    assert Carries(s.requests[k], Hydrates);
    assert Newest(s.v, s.requests[k], Hydrates) <==> IsLast(s, k, Hydrates);
    assert forall j :: 0 <= j < |s.requests| ==> (Carries(s.requests[j], Hydrates) <==> s.requests[j].Hydrate?);
  }

  // ---- one act ----

  lemma ScheduleCounts(v: View, err: Failure, now: Time)
    ensures var v' := ScheduleRetry(v, err, now);
            v'.loading == v.loading && v'.attempt == v.attempt + if v.retryTimer.None? && v'.retryTimer.Some? then 1 else 0
  {
  }

  lemma ActCounts(s: Sys, a: Act)
    requires Inv(s) && Enabled(s, a)
    ensures Next(s, a).v.loading <==> s.v.loading && !SettlesLoad(s, a)
    ensures Next(s, a).v.attempt ==
            if SettlesLoad(s, a) && a.outcome.Success? then 0
            else s.v.attempt + if s.v.retryTimer.None? && Next(s, a).v.retryTimer.Some? then 1 else 0
  {
    if a.Settles? {
      SettleCounts(s, a);
    }
  }

  lemma SettleCounts(s: Sys, a: Act)
    requires Inv(s) && Enabled(s, a) && a.Settles?
    ensures Next(s, a).v.loading <==> s.v.loading && !SettlesLoad(s, a)
    ensures Next(s, a).v.attempt ==
            if SettlesLoad(s, a) && a.outcome.Success? then 0
            else s.v.attempt + if s.v.retryTimer.None? && Next(s, a).v.retryTimer.Some? then 1 else 0
  {
    var v, q, o := s.v, s.requests[a.k], a.outcome;
    if q.Hydrate? {
      LatestIsNewest(s, a.k);
    }
    if Reaches(v, q, o) {
      ScheduleCounts(if q.Refresh? || v.ready then v.(stale := true) else v.(loadError := Some(o.err)), o.err, o.now);
    }
  }

  // ---- over runs ----

  /** The dashboard is loading until the latest hydrate settles for the first time, and never again. */
  lemma {:induction false} LoadingExactly(states: seq<Sys>, acts: seq<Act>, empty: Token, n: nat)
    requires IsRun(states, acts, empty) && n < |states|
    ensures states[n].v.loading <==> forall i :: 0 <= i < n ==> !SettlesLoad(states[i], acts[i])
  {
    if n > 0 {
      LoadingExactly(states, acts, empty, n - 1);
      RunInv(states, acts, empty, n - 1);
      ActCounts(states[n - 1], acts[n - 1]);
    }
  }

  /** How often a retry was armed since the latest hydrate last succeeded. */
  ghost function Armed(states: seq<Sys>, acts: seq<Act>, n: nat): nat
    requires n < |states| == |acts| + 1
  {
    if n == 0 then 0
    else if SettlesLoad(states[n - 1], acts[n - 1]) && acts[n - 1].outcome.Success? then 0
    else Armed(states, acts, n - 1) + if states[n - 1].v.retryTimer.None? && states[n].v.retryTimer.Some? then 1 else 0
  }

  lemma {:induction false} AttemptCounts(states: seq<Sys>, acts: seq<Act>, empty: Token, n: nat)
    requires IsRun(states, acts, empty) && n < |states|
    ensures states[n].v.attempt == Armed(states, acts, n)
  {
    if n > 0 {
      AttemptCounts(states, acts, empty, n - 1);
      RunInv(states, acts, empty, n - 1);
      ActCounts(states[n - 1], acts[n - 1]);
    }
  }

  /**
   The schedule over runs. When no retry is pending and the latest hydrate fails for a reason
   that retries, the retry is due after the delay of as many attempts as retries were armed
   since a load last succeeded: one second after a success, then two, four and so on.
   */
  lemma RetrySchedule(states: seq<Sys>, acts: seq<Act>, empty: Token, n: nat)
    requires IsRun(states, acts, empty) && n < |acts| && SettlesLoad(states[n], acts[n]) && acts[n].outcome.Failed?
    requires states[n].v.retryTimer.None? && IsRetriable(acts[n].outcome.err)
    ensures var v', now := states[n + 1].v, acts[n].outcome.now;
            && v'.retryTimer.Some?
            && v'.retryDeadline == now + RetryDelay(Armed(states, acts, n), Asked(acts[n].outcome.err))
            && (Armed(states, acts, n) == 0 && Asked(acts[n].outcome.err) == None ==> v'.retryDeadline == now + 1_000)
  {
    var s := states[n];
    RunInv(states, acts, empty, n);
    LatestIsNewest(s, acts[n].k);
    AttemptCounts(states, acts, empty, n);
    FailureArms(s.v, s.requests[acts[n].k], acts[n].outcome.err, acts[n].outcome.now);
    DelayValues(0, None);
  }
}
