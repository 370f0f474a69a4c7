/** The retry timer over every interleaving: at most one is armed, and its deadline only moves back. */
module DashboardRetry {
  import opened Arithmetic
  import opened Model
  import opened Retry
  import opened Dashboard
  import opened DashboardRuns

  /** The browser holds the pending retry's timer, due at the deadline, and no other. */
  predicate TimersOK(v: View) {
    && v.timers == (match v.retryTimer case None => map[] case Some(t) => map[t := v.retryDeadline])
    && (v.retryTimer.Some? ==> v.retryTimer.value < v.nextTimer)
  }

  /** The failure reaches the retry scheduler. */
  predicate Reaches(v: View, q: Request, o: Outcome) {
    o.Failed? && (if q.Hydrate? then q.hydrate == v.hydrateGen else q.slice == Attention && q.generation == v.attentionGen && v.ready)
  }

  /** When the act asks for a retry: the failure's time and its delay. */
  function Wish(s: Sys, a: Act): Option<Time>
    requires Enabled(s, a)
  {
    if a.Settles? && a.outcome.Failed? && Reaches(s.v, s.requests[a.k], a.outcome) && IsRetriable(a.outcome.err)
    then Some(a.outcome.now + RetryDelay(s.v.attempt, RetryHint(a.outcome.err)))
    else None
  }

  predicate SameRetry(a: View, b: View) {
    a.retryTimer == b.retryTimer && a.retryDeadline == b.retryDeadline && a.timers == b.timers && a.nextTimer == b.nextTimer
  }

  /** One request for a retry at a time: it arms, pushes back, or changes nothing. */
  lemma ScheduleEffects(v: View, err: Failure, now: Time)
    requires TimersOK(v)
    ensures var v' := ScheduleRetry(v, err, now);
            && TimersOK(v')
            && (!IsRetriable(err) ==> SameRetry(v', v))
            && (IsRetriable(err) ==>
                  var wish := now + RetryDelay(v.attempt, RetryHint(err));
                  && v'.retryTimer.Some?
                  && v'.retryDeadline == if v.retryTimer.Some? then Max(v.retryDeadline, wish) else wish)
  {
  }

  lemma ApplyKeepsRetry(v: View, q: Request, r: Response)
    requires q.Hydrate?
    ensures SameRetry(Apply(v, q, r), v)
  {
  }

  /** A settlement moves the retry only by its wish. */
  lemma SettleRetry(s: Sys, a: Act)
    requires RequestsOK(s) && Enabled(s, a) && a.Settles? && TimersOK(s.v)
    ensures var v' := Next(s, a).v;
            && TimersOK(v')
            && (Wish(s, a).None? ==> SameRetry(v', s.v))
            && (Wish(s, a).Some? ==>
                  && v'.retryTimer.Some?
                  && v'.retryDeadline == if s.v.retryTimer.Some? then Max(s.v.retryDeadline, Wish(s, a).value) else Wish(s, a).value)
  {
    var v, q := s.v, s.requests[a.k];
    if !Reaches(v, q, a.outcome) {
      NoWish(v, q, a.outcome);
    } else {
      var v1 := if q.Refresh? || v.ready then v.(stale := true) else v.(loadError := Some(a.outcome.err));
      ScheduleEffects(v1, a.outcome.err, a.outcome.now);
      ReachedRetry(v, q, a.outcome);
    }
  }

  lemma NoWish(v: View, q: Request, o: Outcome)
    requires !Reaches(v, q, o) && (q.Refresh? ==> q.slice != Hydrates)
    ensures SameRetry(Settle(v, q, o), v)
  {
    if q.Hydrate? && o.Success? {
      ApplyKeepsRetry(v, q, o.response);
    }
  }

  lemma ReachedRetry(v: View, q: Request, o: Outcome)
    requires Reaches(v, q, o)
    ensures var v1 := if q.Refresh? || v.ready then v.(stale := true) else v.(loadError := Some(o.err));
            SameRetry(Settle(v, q, o), ScheduleRetry(v1, o.err, o.now))
  {
  }

  lemma StartRetry(s: Sys, a: Act)
    requires Enabled(s, a) && TimersOK(s.v)
    requires !a.Settles?
    ensures TimersOK(Next(s, a).v)
    ensures a == Starts(Hydrates) || a.Fires? ==> Next(s, a).v.timers == map[]
    ensures a == Starts(Hydrates) && s.v.retryTimer.Some? ==> Next(s, a).v.retryDeadline == 0
    ensures a.Starts? && a.c != Hydrates ==> SameRetry(Next(s, a).v, s.v)
  {
  }

  lemma {:induction false} RunTimersOK(states: seq<Sys>, acts: seq<Act>, empty: Token, n: nat)
    requires IsRun(states, acts, empty) && n < |states|
    ensures TimersOK(states[n].v)
  {
    if n > 0 {
      RunTimersOK(states, acts, empty, n - 1);
      RunInv(states, acts, empty, n - 1);
      if acts[n - 1].Settles? {
        SettleRetry(states[n - 1], acts[n - 1]);
      } else {
        StartRetry(states[n - 1], acts[n - 1]);
      }
    }
  }

  /** At most one retry is armed at any point of any run, and it is the one the dashboard knows. */
  lemma AtMostOneRetry(states: seq<Sys>, acts: seq<Act>, empty: Token, n: nat, t: nat, u: nat)
    requires IsRun(states, acts, empty) && n < |states|
    requires t in states[n].v.timers && u in states[n].v.timers
    ensures t == u && states[n].v.retryTimer == Some(t) && states[n].v.timers[t] == states[n].v.retryDeadline
  {
    RunTimersOK(states, acts, empty, n);
  }

  /** No hydrate starts and no retry fires from i to j. */
  ghost predicate Quiet(acts: seq<Act>, i: nat, j: nat)
    requires i <= j <= |acts|
  {
    forall m :: i <= m < j ==> acts[m] != Starts(Hydrates) && !acts[m].Fires?
  }

  /** The latest of `first` and the wishes from i to j. */
  ghost function LatestWish(states: seq<Sys>, acts: seq<Act>, empty: Token, first: Time, i: nat, j: nat): Time
    requires IsRun(states, acts, empty) && i <= j <= |acts|
  {
    if i == j then first
    else
      var before := LatestWish(states, acts, empty, first, i, j - 1);
      match Wish(states[j - 1], acts[j - 1])
      case None => before
      case Some(wish) => Max(before, wish)
  }

  /**
   The retry deadline is the maximum. When the act before state i armed the retry, then until
   a hydrate starts or the retry fires, the retry stays pending and is due at the latest of
   all wishes since: no later failure pulls it earlier and none that asked for more is lost.
   */
  lemma {:induction false} DeadlineIsMax(states: seq<Sys>, acts: seq<Act>, empty: Token, first: Time, i: nat, j: nat)
    requires IsRun(states, acts, empty) && 0 < i <= j <= |acts| && Quiet(acts, i, j)
    requires states[i - 1].v.retryTimer.None? && Wish(states[i - 1], acts[i - 1]) == Some(first)
    ensures states[j].v.retryTimer.Some? && states[j].v.retryDeadline == LatestWish(states, acts, empty, first, i, j)
    ensures states[j].v.timers == map[states[j].v.retryTimer.value := LatestWish(states, acts, empty, first, i, j)]
  {
    RunTimersOK(states, acts, empty, j - 1);
    RunInv(states, acts, empty, j - 1);
    RunTimersOK(states, acts, empty, j);
    if i < j {
      DeadlineIsMax(states, acts, empty, first, i, j - 1);
      QuietStep(states[j - 1], acts[j - 1]);
    } else {
      SettleRetry(states[i - 1], acts[i - 1]);
    }
  }

  /** A step that neither starts a hydrate nor fires the retry keeps a pending retry, due at the later of its deadline and the wish. */
  lemma QuietStep(s: Sys, a: Act)
    requires RequestsOK(s) && Enabled(s, a) && TimersOK(s.v) && s.v.retryTimer.Some?
    requires a != Starts(Hydrates) && !a.Fires?
    ensures Next(s, a).v.retryTimer.Some?
    ensures Next(s, a).v.retryDeadline == if Wish(s, a).Some? then Max(s.v.retryDeadline, Wish(s, a).value) else s.v.retryDeadline
  {
    if a.Settles? {
      SettleRetry(s, a);
    } else {
      StartRetry(s, a);
    }
  }

  /** Each wish lies one second to one minute after its failure and honours the server's hint up to a minute. */
  lemma WishBounds(s: Sys, a: Act)
    requires Enabled(s, a) && Wish(s, a).Some?
    ensures a.outcome.now + 1000 <= Wish(s, a).value <= a.outcome.now + HINT_CAP
    ensures RetryHint(a.outcome.err).Some? ==> Wish(s, a).value >= a.outcome.now + Min(RetryHint(a.outcome.err).value, HINT_CAP)
  {
    DelayBounds(s.v.attempt, RetryHint(a.outcome.err));
  }

  /** What the server asks for is heeded when it is a positive wait. */
  function Asked(err: Failure): Option<int> {
    if err.Status? && err.retryAfter.Some? && err.retryAfter.value > 0 then err.retryAfter else None
  }

  /**
   Which failures retry. When the dashboard holds no retry, a failed hydrate arms one exactly
   for a network failure, for 429 and for the server errors 500, 502, 503 and 504; an aborted
   request and every other status end there. It is due after the delay of the attempt, or after
   the wait that the server asked for, up to a minute, where that is longer.
   */
  lemma FailureArms(v: View, q: Request, err: Failure, now: Time)
    requires v.retryTimer.None? && q.Hydrate? && q.hydrate == v.hydrateGen
    ensures var v' := Settle(v, q, Failed(err, now));
            var retries := err == Failure.Network || (err.Status? && (err.code == 429 || (500 <= err.code <= 504 && err.code != 501)));
            && (v'.retryTimer.Some? <==> retries)
            && (retries ==> v'.attempt == v.attempt + 1 && v'.retryDeadline == now + RetryDelay(v.attempt, Asked(err)))
            && (!retries ==> SameRetry(v', v) && v'.attempt == v.attempt)
  {
  }
}
