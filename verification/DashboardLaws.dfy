/** What the dashboard shows, when it calls that stale, and where the two fall short of the newest request. */
module DashboardLaws {
  import opened Model
  import opened Retry
  import opened Dashboard
  import opened DashboardRuns

  // ---- slices ----

  /** The generation of the response that the slice holds; 0 before the first. */
  function HeldGen(s: Sys, c: Counter): nat {
    if c in s.shown && s.shown[c] < |s.requests| && Carries(s.requests[s.shown[c]], c) then GenOf(s.requests[s.shown[c]], c) else 0
  }

  lemma SettleAdvances(s: Sys, k: nat, o: Outcome, c: Counter)
    requires Inv(s) && Enabled(s, Settles(k, o)) && c in s.shown
    ensures var s' := Next(s, Settles(k, o)); c in s'.shown && s.shown[c] <= s'.shown[c] && HeldGen(s, c) <= HeldGen(s', c)
  {
    assert ShowsResponse(s, c);
    WritesIfLast(s, k, o, c);
    if Writes(s.v, s.requests[k], o, c) {
      assert s.shown[c] <= k;
      assert GenOf(s.requests[s.shown[c]], c) <= Gen(s.v, c);
    }
  }

  lemma StepAdvances(s: Sys, a: Act, c: Counter)
    requires Inv(s) && Enabled(s, a)
    ensures HeldGen(s, c) <= HeldGen(Next(s, a), c)
    ensures c in s.shown ==> c in Next(s, a).shown && s.shown[c] <= Next(s, a).shown[c]
  {
    if c in s.shown {
      if a.Settles? {
        SettleAdvances(s, a.k, a.outcome, c);
      } else {
        assert ShowsResponse(s, c);
        assert Next(s, a).requests[..|s.requests|] == s.requests;
      }
    }
  }

  /** Under every interleaving the generation of the response that a slice holds never decreases. */
  lemma {:induction false} HeldNeverDecreases(states: seq<Sys>, acts: seq<Act>, empty: Token, c: Counter, i: nat, j: nat)
    requires IsRun(states, acts, empty) && i <= j < |states|
    ensures HeldGen(states[i], c) <= HeldGen(states[j], c)
    ensures c in states[i].shown ==> c in states[j].shown && states[i].shown[c] <= states[j].shown[c]
  {
    if i < j {
      HeldNeverDecreases(states, acts, empty, c, i, j - 1);
      RunAdvances(states, acts, empty, c, j - 1);
    }
  }

  lemma RunAdvances(states: seq<Sys>, acts: seq<Act>, empty: Token, c: Counter, n: nat)
    requires IsRun(states, acts, empty) && n < |acts|
    ensures HeldGen(states[n], c) <= HeldGen(states[n + 1], c)
    ensures c in states[n].shown ==> c in states[n + 1].shown && states[n].shown[c] <= states[n + 1].shown[c]
  {
    RunInv(states, acts, empty, n);
    StepAdvances(states[n], acts[n], c);
  }

  /** If the newest-started request that carries a slice succeeded, the slice is its response, whatever settled before or after it. */
  lemma NewestWins(states: seq<Sys>, acts: seq<Act>, empty: Token, c: Counter, n: nat, k: nat)
    requires IsRun(states, acts, empty) && n < |states| && c != Hydrates
    requires IsLast(states[n], k, c) && Succeeded(states[n], k)
    ensures Shows(states[n].v, c) == Part(states[n].settled[k].outcome.response, c)
  {
    RunInv(states, acts, empty, n);
    assert c in states[n].shown && states[n].shown[c] == k;
    assert ShowsResponse(states[n], c);
  }

  /** A slice changes only when its newest request succeeds: a failure and an overtaken success leave it. */
  lemma OnlyNewestWrites(states: seq<Sys>, acts: seq<Act>, empty: Token, c: Counter, n: nat)
    requires IsRun(states, acts, empty) && n < |acts| && c != Hydrates
    requires Shows(states[n + 1].v, c) != Shows(states[n].v, c)
    ensures acts[n].Settles? && acts[n].outcome.Success? && IsLast(states[n], acts[n].k, c)
  {
    RunInv(states, acts, empty, n);
    var s := states[n];
    match acts[n] {
      case Starts(d) => StartFrame(s.v, d);
      case Fires(t) => StartFrame(s.v.(timers := s.v.timers - {t}, retryTimer := None), Hydrates);
      case Settles(k, o) =>
        SettleEffects(s.v, s.requests[k], o);
        WritesIfLast(s, k, o, c);
    }
  }

  // ---- the stale flag ----

  /** The only act that takes the flag down is a success of the newest attention request. */
  lemma ClearedByNewest(s: Sys, a: Act)
    requires Inv(s) && Enabled(s, a) && s.v.stale && !Next(s, a).v.stale
    ensures a.Settles? && a.outcome.Success? && IsLast(s, a.k, Attention)
  {
    match a {
      case Starts(d) => StartFrame(s.v, d);
      case Fires(t) => StartFrame(s.v.(timers := s.v.timers - {t}, retryTimer := None), Hydrates);
      case Settles(k, o) =>
        SettleEffects(s.v, s.requests[k], o);
        WritesIfLast(s, k, o, Attention);
    }
  }

  ghost predicate ClearedAfter(acts: seq<Act>, states: seq<Sys>, f: nat, i: nat, j: nat)
    requires i <= j <= |acts| && |states| == |acts| + 1
  {
    exists m :: i <= m < j && acts[m].Settles? && acts[m].outcome.Success? && acts[m].k > f && IsLast(states[m], acts[m].k, Attention)
  }

  /**
   A stale flag is never cleared by an older success: if the flag was up after request f
   failed and is down later, some attention request started after f succeeded in between.
   */
  lemma {:induction false} OlderSuccessKeepsStale(states: seq<Sys>, acts: seq<Act>, empty: Token, f: nat, i: nat, j: nat)
    requires IsRun(states, acts, empty) && i <= j < |states|
    requires f in states[i].settled && f < |states[i].requests| && Carries(states[i].requests[f], Attention)
    requires states[i].v.stale && !states[j].v.stale
    ensures ClearedAfter(acts, states, f, i, j)
  {
    if states[j - 1].v.stale {
      LastActClears(states, acts, empty, f, i, j);
    } else {
      OlderSuccessKeepsStale(states, acts, empty, f, i, j - 1);
      var m :| i <= m < j - 1 && acts[m].Settles? && acts[m].outcome.Success? && acts[m].k > f && IsLast(states[m], acts[m].k, Attention);
    }
  }

  lemma LastActClears(states: seq<Sys>, acts: seq<Act>, empty: Token, f: nat, i: nat, j: nat)
    requires IsRun(states, acts, empty) && i < j < |states|
    requires f in states[i].settled && f < |states[i].requests| && Carries(states[i].requests[f], Attention)
    requires states[j - 1].v.stale && !states[j].v.stale
    ensures ClearedAfter(acts, states, f, i, j)
  {
    RunInv(states, acts, empty, j - 1);
    HistoryGrows(states, acts, empty, f, i, j - 1);
    ClearedByNewest(states[j - 1], acts[j - 1]);
    NewestIsLater(states[j - 1], acts[j - 1].k, f);
  }

  lemma NewestIsLater(s: Sys, k: nat, f: nat)
    requires IsLast(s, k, Attention) && f < |s.requests| && Carries(s.requests[f], Attention) && k != f
    ensures k > f
  {
  }

  lemma {:induction false} HistoryGrows(states: seq<Sys>, acts: seq<Act>, empty: Token, f: nat, i: nat, j: nat)
    requires IsRun(states, acts, empty) && i <= j < |states| && f in states[i].settled && f < |states[i].requests|
    ensures f in states[j].settled && states[j].settled[f] == states[i].settled[f]
    ensures f < |states[j].requests| && states[j].requests[f] == states[i].requests[f]
  {
    if i < j {
      HistoryGrows(states, acts, empty, f, i, j - 1);
    }
  }

  // ---- an older settlement over a newer snapshot ----

  /** The list shows the response of a newer attention request than k. */
  predicate NewerShown(s: Sys, k: nat) {
    Attention in s.shown && s.shown[Attention] > k
  }

  /** The failure of request k changes the error state of a list that a newer request brought: its stale flag or the load error over it. */
  predicate DefacesNewer(s: Sys, k: nat, err: Failure, now: Time)
    requires Enabled(s, Settles(k, Failed(err, now)))
  {
    var v' := Next(s, Settles(k, Failed(err, now))).v;
    NewerShown(s, k) && (v'.stale != s.v.stale || v'.loadError != s.v.loadError)
  }

  lemma RetryKeepsError(v: View, err: Failure, now: Time)
    ensures ScheduleRetry(v, err, now).loadError == v.loadError && ScheduleRetry(v, err, now).loading == v.loading
  {
  }

  /** What a failure does to the load error. */
  lemma FailureEffects(v: View, q: Request, err: Failure, now: Time)
    requires q.Refresh? ==> q.slice != Hydrates
    ensures Settle(v, q, Failed(err, now)).loadError == if !v.ready && Newest(v, q, Hydrates) then Some(err) else v.loadError
    ensures Settle(v, q, Failed(err, now)).loading == (v.loading && !Newest(v, q, Hydrates))
  {
    if q.Hydrate? {
      RetryKeepsError(if v.ready then v.(stale := true) else v.(loadError := Some(err)), err, now);
    } else {
      RetryKeepsError(v.(stale := true), err, now);
    }
  }

  /**
   Exactly when: the failing request is the newest hydrate, a newer attention request's list is
   shown, and the mark is not up yet: the stale flag once the dashboard has loaded, and before
   that the load error, which takes the place of the list. The list itself is never touched.
   */
  lemma DefacesExactly(states: seq<Sys>, acts: seq<Act>, empty: Token, n: nat, k: nat, err: Failure, now: Time)
    requires IsRun(states, acts, empty) && n < |states| && Enabled(states[n], Settles(k, Failed(err, now)))
    ensures var s := states[n];
            DefacesNewer(s, k, err, now) <==>
            && s.requests[k].Hydrate? && s.requests[k].hydrate == s.v.hydrateGen && NewerShown(s, k)
            && (if s.v.ready then !s.v.stale else s.v.loadError != Some(err))
    ensures Next(states[n], Settles(k, Failed(err, now))).v.items == states[n].v.items
  {
    RunInv(states, acts, empty, n);
    var s := states[n];
    SettleEffects(s.v, s.requests[k], Failed(err, now));
    FailureEffects(s.v, s.requests[k], err, now);
    assert Shows(Next(s, Settles(k, Failed(err, now))).v, Attention) == Shows(s.v, Attention);
    if NewerShown(s, k) {
      assert ShowsResponse(s, Attention);
      assert !IsLast(s, k, Attention);
    }
  }

  /** A load error comes from the failure of a hydrate. */
  ghost predicate ErrorOf(s: Sys, h: nat) {
    && h in s.settled && h < |s.requests| && s.requests[h].Hydrate?
    && s.settled[h].outcome.Failed? && s.v.loadError == Some(s.settled[h].outcome.err)
  }

  lemma {:induction false} ErrorHasOrigin(states: seq<Sys>, acts: seq<Act>, empty: Token, n: nat)
    requires IsRun(states, acts, empty) && n < |states|
    ensures states[n].v.loadError.Some? ==> exists h: nat :: ErrorOf(states[n], h)
  {
    if n > 0 && states[n].v.loadError.Some? {
      ErrorHasOrigin(states, acts, empty, n - 1);
      RunInv(states, acts, empty, n - 1);
      ErrorStep(states[n - 1], acts[n - 1]);
    }
  }

  lemma ErrorStep(s: Sys, a: Act)
    requires Inv(s) && Enabled(s, a) && Next(s, a).v.loadError.Some?
    requires s.v.loadError.Some? ==> exists h: nat :: ErrorOf(s, h)
    ensures exists h: nat :: ErrorOf(Next(s, a), h)
  {
    if a.Settles? && a.outcome.Failed? {
      FailureEffects(s.v, s.requests[a.k], a.outcome.err, a.outcome.now);
    }
    if a.Settles? && a.outcome.Failed? && !s.v.ready && Newest(s.v, s.requests[a.k], Hydrates) {
      assert ErrorOf(Next(s, a), a.k);
    } else {
      var h: nat :| ErrorOf(s, h);
      assert ErrorOf(Next(s, a), h);
    }
  }

  lemma SuccessEffects(v: View, q: Request, r: Response)
    requires q.Refresh? ==> q.slice != Hydrates
    ensures Settle(v, q, Success(r)).loadError == if Newest(v, q, Hydrates) then None else v.loadError
  {
  }

  lemma OlderSuccessStep(s: Sys, k: nat, r: Response)
    requires Inv(s) && Enabled(s, Settles(k, Success(r))) && NewerShown(s, k)
    ensures var v' := Settle(s.v, s.requests[k], Success(r)); v'.items == s.v.items && v'.stale == s.v.stale
  {
    SettleEffects(s.v, s.requests[k], Success(r));
    assert ShowsResponse(s, Attention);
    assert !IsLast(s, k, Attention);
    assert Shows(Settle(s.v, s.requests[k], Success(r)), Attention) == Shows(s.v, Attention);
  }

  lemma EarlierHydrate(s: Sys, k: nat, h: nat)
    requires Inv(s) && k < |s.requests| && k !in s.settled && Newest(s.v, s.requests[k], Hydrates) && ErrorOf(s, h)
    ensures h < k
  {
    assert IsLast(s, k, Hydrates);
    assert Carries(s.requests[h], Hydrates);
  }

  /**
   An older success keeps the promise: over a newer request's list it changes neither the list
   nor the stale flag, and a load error that it clears came from a hydrate older still.
   */
  lemma OlderSuccessSpares(states: seq<Sys>, acts: seq<Act>, empty: Token, n: nat, k: nat, r: Response)
    requires IsRun(states, acts, empty) && n < |states| && Enabled(states[n], Settles(k, Success(r))) && NewerShown(states[n], k)
    ensures var s := states[n]; var v' := Settle(s.v, s.requests[k], Success(r));
            && v'.items == s.v.items && v'.stale == s.v.stale
            && (v'.loadError != s.v.loadError ==> v'.loadError == None && exists h: nat :: h < k && ErrorOf(s, h))
  {
    RunInv(states, acts, empty, n);
    OlderSuccessStep(states[n], k, r);
    SuccessEffects(states[n].v, states[n].requests[k], r);
    if Newest(states[n].v, states[n].requests[k], Hydrates) && states[n].v.loadError.Some? {
      ErrorHasOrigin(states, acts, empty, n);
      var h: nat :| ErrorOf(states[n], h);
      EarlierHydrate(states[n], k, h);
    }
  }

  lemma Loaded(empty: Token, x: Token)
    ensures var s1 := Next(Initial(empty), Starts(Hydrates));
            && Enabled(s1, Settles(0, Answer(x)))
            && var s2 := Next(s1, Settles(0, Answer(x)));
               && s2.v.ready && !s2.v.stale && s2.v.retryTimer == None
               && s2.v.hydrateGen == s2.v.attentionGen == s2.v.connectionsGen == s2.v.syncLogGen == 1
               && |s2.requests| == 1 && s2.settled.Keys == {0}
  {
  }

  function Answer(x: Token): Outcome {
    Success(Response(x, x, x, x))
  }

  lemma ExtendRun(states: seq<Sys>, acts: seq<Act>, empty: Token, a: Act)
    requires IsRun(states, acts, empty) && Enabled(states[|acts|], a)
    ensures IsRun(states + [Next(states[|acts|], a)], acts + [a], empty)
  {
  }

  /** On a loaded dashboard a second hydrate starts, an attention refresh overtakes it and lands. */
  lemma Overtaken(s2: Sys, y: Token)
    requires s2.v.ready && !s2.v.stale && s2.v.retryTimer == None && |s2.requests| == 1 && s2.settled.Keys == {0}
    requires s2.v.hydrateGen == s2.v.attentionGen == s2.v.connectionsGen == s2.v.syncLogGen == 1
    ensures var s4 := Next(Next(s2, Starts(Hydrates)), Starts(Attention));
            && Enabled(s4, Settles(2, Answer(y)))
            && var s5 := Next(s4, Settles(2, Answer(y)));
               && s5.requests == s4.requests && |s5.requests| == 3 && s5.requests[1] == Hydrate(2, 2, 2, 2)
               && s5.v.ready && !s5.v.stale && s5.v.items == y && s5.v.hydrateGen == 2
               && Attention in s5.shown && s5.shown[Attention] == 2 && 1 !in s5.settled
  {
    var s4 := Next(Next(s2, Starts(Hydrates)), Starts(Attention));
    assert s4.v.ready && !s4.v.stale && s4.v.hydrateGen == 2 && s4.v.attentionGen == 3 && |s4.requests| == 3;
    assert s4.requests[1] == Hydrate(2, 2, 2, 2) && s4.requests[2] == Refresh(Attention, 3) && s4.settled.Keys == {0};
  }

  lemma LoadedRun(empty: Token, x: Token) returns (states: seq<Sys>, acts: seq<Act>)
    ensures IsRun(states, acts, empty) && |acts| == 2
    ensures var s := states[2];
            && s.v.ready && !s.v.stale && s.v.retryTimer == None && |s.requests| == 1 && s.settled.Keys == {0}
            && s.v.hydrateGen == s.v.attentionGen == s.v.connectionsGen == s.v.syncLogGen == 1
  {
    Loaded(empty, x);
    ExtendRun([Initial(empty)], [], empty, Starts(Hydrates));
    states, acts := [Initial(empty)] + [Next(Initial(empty), Starts(Hydrates))], [] + [Starts(Hydrates)];
    ExtendRun(states, acts, empty, Settles(0, Answer(x)));
    states, acts := states + [Next(states[1], Settles(0, Answer(x)))], acts + [Settles(0, Answer(x))];
  }

  lemma OvertakenRun(empty: Token, x: Token, y: Token) returns (states: seq<Sys>, acts: seq<Act>)
    ensures IsRun(states, acts, empty) && |acts| == 5
    ensures var s := states[5];
            && |s.requests| == 3 && s.requests[1] == Hydrate(2, 2, 2, 2) && 1 !in s.settled
            && s.v.ready && !s.v.stale && s.v.items == y && s.v.hydrateGen == 2
            && Attention in s.shown && s.shown[Attention] == 2
  {
    states, acts := LoadedRun(empty, x);
    Overtaken(states[2], y);
    ExtendRun(states, acts, empty, Starts(Hydrates));
    states, acts := states + [Next(states[2], Starts(Hydrates))], acts + [Starts(Hydrates)];
    ExtendRun(states, acts, empty, Starts(Attention));
    states, acts := states + [Next(states[3], Starts(Attention))], acts + [Starts(Attention)];
    ExtendRun(states, acts, empty, Settles(2, Answer(y)));
    states, acts := states + [Next(states[4], Settles(2, Answer(y)))], acts + [Settles(2, Answer(y))];
  }

  /**
   So the promise that an older failure never overwrites a newer snapshot does not hold: a
   loaded dashboard re-hydrates, an attention refresh overtakes the hydrate and lands, then
   the hydrate fails.
   */
  lemma OlderFailureDefaces(empty: Token, x: Token, y: Token, now: Time)
    ensures exists states: seq<Sys>, acts: seq<Act> ::
              && IsRun(states, acts, empty) && |acts| == 5
              && Enabled(states[5], Settles(1, Failed(Network, now)))
              && DefacesNewer(states[5], 1, Network, now)
              && states[5].v.ready && states[5].v.items == y
  {
    var states, acts := OvertakenRun(empty, x, y);
    assert Enabled(states[5], Settles(1, Failed(Network, now)));
    DefacesExactly(states, acts, empty, 5, 1, Network, now);
  }

  /** On a cold dashboard an attention refresh overtakes the first hydrate and lands. */
  lemma ColdRun(empty: Token, y: Token) returns (states: seq<Sys>, acts: seq<Act>)
    ensures IsRun(states, acts, empty) && |acts| == 3
    ensures var s := states[3];
            && |s.requests| == 2 && s.requests[0] == Hydrate(1, 1, 1, 1) && 0 !in s.settled
            && !s.v.ready && s.v.loadError == None && s.v.items == y && s.v.hydrateGen == 1
            && Attention in s.shown && s.shown[Attention] == 1
  {
    ExtendRun([Initial(empty)], [], empty, Starts(Hydrates));
    states, acts := [Initial(empty)] + [Next(Initial(empty), Starts(Hydrates))], [] + [Starts(Hydrates)];
    assert states[1].requests == [Hydrate(1, 1, 1, 1)];
    ExtendRun(states, acts, empty, Starts(Attention));
    states, acts := states + [Next(states[1], Starts(Attention))], acts + [Starts(Attention)];
    assert states[2].requests == [Hydrate(1, 1, 1, 1), Refresh(Attention, 2)];
    ExtendRun(states, acts, empty, Settles(1, Answer(y)));
    states, acts := states + [Next(states[2], Settles(1, Answer(y)))], acts + [Settles(1, Answer(y))];
  }

  /**
   Nor does it hold before the first load: the refresh brings the list, then the older hydrate
   fails, and the dashboard ends with a load error in the list's place.
   */
  lemma ColdFailureDefaces(empty: Token, y: Token, now: Time)
    ensures exists states: seq<Sys>, acts: seq<Act> ::
              && IsRun(states, acts, empty) && |acts| == 3
              && Enabled(states[3], Settles(0, Failed(Network, now)))
              && DefacesNewer(states[3], 0, Network, now) && states[3].v.items == y
              && var v' := Next(states[3], Settles(0, Failed(Network, now))).v;
                 !v'.loading && v'.loadError == Some(Network) && v'.items == y
  {
    var states, acts := ColdRun(empty, y);
    assert Enabled(states[3], Settles(0, Failed(Network, now)));
    DefacesExactly(states, acts, empty, 3, 0, Network, now);
    FailureEffects(states[3].v, states[3].requests[0], Network, now);
  }
}
