/** Laws of the dashboard over every interleaving of starts, settlements and retries. */
module DashboardRuns {
  import opened Model
  import opened Retry
  import opened Dashboard

  // ---- what one settlement does ----

  predicate Carries(q: Request, c: Counter) {
    q.Hydrate? || q.slice == c
  }

  function GenOf(q: Request, c: Counter): nat
    requires Carries(q, c)
  {
    if q.Refresh? then q.generation
    else match c
      case Hydrates => q.hydrate
      case Attention => q.attention
      case Connections => q.connections
      case SyncLog => q.syncLog
  }

  /** No newer request of the counter was started. */
  predicate Newest(v: View, q: Request, c: Counter) {
    Carries(q, c) && GenOf(q, c) == Gen(v, c)
  }

  /** What the slice shows. */
  function Shows(v: View, c: Counter): seq<Token> {
    match c
    case Hydrates => []
    case Attention => [v.items]
    case Connections => [v.connections, v.update]
    case SyncLog => [v.syncLog]
  }

  function Part(r: Response, c: Counter): seq<Token> {
    match c
    case Hydrates => []
    case Attention => [r.items]
    case Connections => [r.connections, r.update]
    case SyncLog => [r.syncLog]
  }

  /** The settlement writes the slice. */
  predicate Writes(v: View, q: Request, o: Outcome, c: Counter) {
    c != Hydrates && o.Success? && Newest(v, q, c) && (q.Hydrate? ==> Newest(v, q, Hydrates))
  }

  /** The settlement raises the stale flag, if that is not up already. */
  predicate Raises(v: View, q: Request, o: Outcome) {
    o.Failed? && v.ready && (if q.Hydrate? then Newest(v, q, Hydrates) else Newest(v, q, Attention))
  }

  predicate MakesReady(v: View, q: Request, o: Outcome) {
    o.Success? && q.Hydrate? && Newest(v, q, Hydrates)
  }

  predicate SameButRetry(a: View, b: View) {
    && (forall c :: Gen(a, c) == Gen(b, c) && Shows(a, c) == Shows(b, c))
    && a.stale == b.stale && a.ready == b.ready
  }

  lemma RetryFrame(v: View, err: Failure, now: Time)
    ensures SameButRetry(ScheduleRetry(v, err, now), v)
  {
  }

  lemma StartFrame(v: View, c: Counter)
    ensures var v' := Start(v, c);
            && (forall d :: Gen(v', d) == Gen(v, d) + if c == Hydrates || c == d then 1 else 0)
            && (forall d :: Shows(v', d) == Shows(v, d))
            && v'.stale == v.stale && v'.ready == v.ready
            && (forall d :: Carries(Issued(v', c), d) <==> c == Hydrates || c == d)
            && (forall d :: Carries(Issued(v', c), d) ==> GenOf(Issued(v', c), d) == Gen(v', d))
  {
  }

  lemma ApplyEffects(v: View, q: Request, r: Response)
    requires q.Hydrate?
    ensures var v' := Apply(v, q, r);
            && (forall c :: Gen(v', c) == Gen(v, c))
            && (forall c :: c != Hydrates ==> Shows(v', c) == if Newest(v, q, c) then Part(r, c) else Shows(v, c))
            && v'.stale == (v.stale && !Newest(v, q, Attention))
            && v'.ready == v.ready
  {
  }

  /** A settlement draws no generation, and writes, raises and readies exactly as the predicates say. */
  lemma SettleEffects(v: View, q: Request, o: Outcome)
    requires q.Refresh? ==> q.slice != Hydrates
    ensures var v' := Settle(v, q, o);
            && (forall c :: Gen(v', c) == Gen(v, c))
            && (forall c :: c != Hydrates ==> Shows(v', c) == if Writes(v, q, o, c) then Part(o.response, c) else Shows(v, c))
            && v'.stale == ((v.stale && !Writes(v, q, o, Attention)) || Raises(v, q, o))
            && v'.ready == (v.ready || MakesReady(v, q, o))
  {
    if q.Hydrate? {
      HydrateEffects(v, q, o);
    } else {
      RefreshEffects(v, q, o);
    }
  }

  lemma HydrateEffects(v: View, q: Request, o: Outcome)
    requires q.Hydrate?
    ensures var v' := SettleHydrate(v, q, o);
            && (forall c :: Gen(v', c) == Gen(v, c))
            && (forall c :: c != Hydrates ==> Shows(v', c) == if Writes(v, q, o, c) then Part(o.response, c) else Shows(v, c))
            && v'.stale == ((v.stale && !Writes(v, q, o, Attention)) || Raises(v, q, o))
            && v'.ready == (v.ready || MakesReady(v, q, o))
  {
    if q.hydrate == v.hydrateGen {
      match o {
        case Success(r) =>
          ApplyEffects(v, q, r);
        case Failed(err, now) =>
          RetryFrame(if v.ready then v.(stale := true) else v.(loadError := Some(err)), err, now);
      }
    }
  }

  lemma RefreshEffects(v: View, q: Request, o: Outcome)
    requires q.Refresh? && q.slice != Hydrates
    ensures var v' := SettleRefresh(v, q, o);
            && (forall c :: Gen(v', c) == Gen(v, c))
            && (forall c :: c != Hydrates ==> Shows(v', c) == if Writes(v, q, o, c) then Part(o.response, c) else Shows(v, c))
            && v'.stale == ((v.stale && !Writes(v, q, o, Attention)) || Raises(v, q, o))
            && v'.ready == v.ready
  {
    if q.generation == Gen(v, q.slice) && o.Failed? && q.slice == Attention && v.ready {
      RetryFrame(v.(stale := true), o.err, o.now);
    }
  }

  // ---- runs ----

  /** How a request ended: when, with what, and whether the dashboard was ready then. */
  datatype Settlement = Settlement(outcome: Outcome, ready: bool, at: nat)

  /** The dashboard with the history of its requests in order of start; `shown` is the request whose response a slice holds. */
  datatype Sys = Sys(v: View, requests: seq<Request>, settled: map<nat, Settlement>, shown: map<Counter, nat>, clock: nat)

  datatype Act = Starts(c: Counter) | Settles(k: nat, outcome: Outcome) | Fires(t: nat)

  predicate Enabled(s: Sys, a: Act) {
    match a
    case Starts(_) => true
    case Settles(k, _) => k < |s.requests| && k !in s.settled
    case Fires(t) => t in s.v.timers
  }

  function Next(s: Sys, a: Act): Sys
    requires Enabled(s, a)
  {
    match a
    case Starts(c) => var v' := Start(s.v, c); s.(v := v', requests := s.requests + [Issued(v', c)], clock := s.clock + 1)
    case Fires(t) => var v' := Fire(s.v, t); s.(v := v', requests := s.requests + [Issued(v', Hydrates)], clock := s.clock + 1)
    case Settles(k, o) =>
      Sys(Settle(s.v, s.requests[k], o), s.requests, s.settled[k := Settlement(o, s.v.ready, s.clock)],
          map c | c in {Attention, Connections, SyncLog} && (c in s.shown || Writes(s.v, s.requests[k], o, c))
            :: if Writes(s.v, s.requests[k], o, c) then k else s.shown[c],
          s.clock + 1)
  }

  function Initial(empty: Token): Sys {
    Sys(Cold(empty), [], map[], map[], 0)
  }

  ghost predicate IsRun(states: seq<Sys>, acts: seq<Act>, empty: Token) {
    && |states| == |acts| + 1
    && states[0] == Initial(empty)
    && forall i :: 0 <= i < |acts| ==> Enabled(states[i], acts[i]) && states[i + 1] == Next(states[i], acts[i])
  }

  // ---- invariants ----

  /** No later request carries the counter. */
  ghost predicate IsLast(s: Sys, k: nat, c: Counter) {
    k < |s.requests| && Carries(s.requests[k], c) && forall j :: k < j < |s.requests| ==> !Carries(s.requests[j], c)
  }

  /** A request is newest by its generation exactly when it was started last. */
  ghost predicate GensOK(s: Sys) {
    forall k, c :: 0 <= k < |s.requests| && Carries(s.requests[k], c) ==>
                     GenOf(s.requests[k], c) <= Gen(s.v, c) && (Newest(s.v, s.requests[k], c) <==> IsLast(s, k, c))
  }

  ghost predicate RequestsOK(s: Sys) {
    && (forall k :: 0 <= k < |s.requests| && s.requests[k].Refresh? ==> s.requests[k].slice != Hydrates)
    && (forall k :: k in s.settled ==> k < |s.requests| && s.settled[k].at < s.clock)
  }

  predicate Succeeded(s: Sys, k: nat) {
    k in s.settled && s.settled[k].outcome.Success?
  }

  /** The slice shows the response of the request it is tagged with. */
  ghost predicate ShowsResponse(s: Sys, c: Counter)
    requires c in s.shown
  {
    && c != Hydrates && s.shown[c] < |s.requests| && Carries(s.requests[s.shown[c]], c)
    && Succeeded(s, s.shown[c])
    && Shows(s.v, c) == Part(s.settled[s.shown[c]].outcome.response, c)
  }

  ghost predicate ShownOK(s: Sys) {
    forall c :: c in s.shown ==> ShowsResponse(s, c)
  }

  /** The last request of a slice, once it succeeded, is the one shown. */
  ghost predicate LastShown(s: Sys) {
    forall k, c :: c != Hydrates && IsLast(s, k, c) && Succeeded(s, k) ==> c in s.shown && s.shown[c] == k
  }

  ghost predicate SlicesOK(s: Sys) {
    ShownOK(s) && LastShown(s)
  }

  ghost predicate Inv(s: Sys) {
    RequestsOK(s) && GensOK(s) && SlicesOK(s)
  }

  lemma StartKeepsGens(s: Sys, c: Counter, v0: View)
    requires GensOK(s) && RequestsOK(s)
    requires forall d :: Gen(v0, d) == Gen(s.v, d)
    ensures var v' := Start(v0, c); GensOK(s.(v := v', requests := s.requests + [Issued(v', c)], clock := s.clock + 1))
  {
    var v' := Start(v0, c);
    var s' := s.(v := v', requests := s.requests + [Issued(v', c)], clock := s.clock + 1);
    StartFrame(v0, c);
    forall k, d | 0 <= k < |s'.requests| && Carries(s'.requests[k], d)
      ensures GenOf(s'.requests[k], d) <= Gen(v', d) && (Newest(v', s'.requests[k], d) <==> IsLast(s', k, d))
    {
      if k < |s.requests| {
        assert s'.requests[k] == s.requests[k] && s'.requests[|s.requests|] == Issued(v', c);
        if !Carries(Issued(v', c), d) {
          LastSame(s, s', k, d);
        }
      }
    }
  }

  lemma LastSame(s: Sys, s': Sys, k: nat, c: Counter)
    requires |s'.requests| == |s.requests| + 1 && s'.requests[..|s.requests|] == s.requests && k < |s.requests|
    requires !Carries(s'.requests[|s.requests|], c)
    ensures IsLast(s', k, c) <==> IsLast(s, k, c)
  {
    assert forall j :: 0 <= j < |s.requests| ==> s'.requests[j] == s.requests[j];
  }

  lemma SlicesAfterStart(s: Sys, s': Sys)
    requires SlicesOK(s) && RequestsOK(s)
    requires |s'.requests| == |s.requests| + 1 && s'.requests[..|s.requests|] == s.requests
    requires s'.settled == s.settled && s'.shown == s.shown && forall c :: Shows(s'.v, c) == Shows(s.v, c)
    ensures SlicesOK(s')
  {
    assert forall j :: 0 <= j < |s.requests| ==> s'.requests[j] == s.requests[j];
    forall k, c | c != Hydrates && IsLast(s', k, c) && Succeeded(s', k)
      ensures c in s'.shown && s'.shown[c] == k
    {
      assert !Carries(s'.requests[|s.requests|], c);
      assert IsLast(s, k, c);
    }
  }

  lemma StartKeepsInv(s: Sys, c: Counter, v0: View)
    requires Inv(s)
    requires forall d :: Gen(v0, d) == Gen(s.v, d) && Shows(v0, d) == Shows(s.v, d)
    ensures var v' := Start(v0, c); Inv(s.(v := v', requests := s.requests + [Issued(v', c)], clock := s.clock + 1))
  {
    var v' := Start(v0, c);
    var s' := s.(v := v', requests := s.requests + [Issued(v', c)], clock := s.clock + 1);
    StartKeepsGens(s, c, v0);
    StartFrame(v0, c);
    SlicesAfterStart(s, s');
  }

  lemma SettleKeepsGens(s: Sys, k: nat, o: Outcome)
    requires GensOK(s) && RequestsOK(s) && Enabled(s, Settles(k, o))
    ensures GensOK(Next(s, Settles(k, o)))
  {
    var s' := Next(s, Settles(k, o));
    SettleEffects(s.v, s.requests[k], o);
    forall i, c | 0 <= i < |s'.requests| && Carries(s'.requests[i], c)
      ensures GenOf(s'.requests[i], c) <= Gen(s'.v, c) && (Newest(s'.v, s'.requests[i], c) <==> IsLast(s', i, c))
    {
      assert IsLast(s', i, c) <==> IsLast(s, i, c);
    }
  }

  /** A settlement writes a slice exactly when it is a success of the last request that carries it. */
  lemma WritesIfLast(s: Sys, k: nat, o: Outcome, c: Counter)
    requires GensOK(s) && RequestsOK(s) && k < |s.requests| && c != Hydrates
    ensures Writes(s.v, s.requests[k], o, c) <==> o.Success? && IsLast(s, k, c)
  {
    if s.requests[k].Hydrate? && IsLast(s, k, c) {
      assert IsLast(s, k, Hydrates);
    }
  }

  lemma SettleKeepsShown(s: Sys, k: nat, o: Outcome, c: Counter)
    requires Inv(s) && Enabled(s, Settles(k, o)) && c in Next(s, Settles(k, o)).shown
    ensures ShowsResponse(Next(s, Settles(k, o)), c)
  {
    SettleEffects(s.v, s.requests[k], o);
    if !Writes(s.v, s.requests[k], o, c) {
      assert ShowsResponse(s, c) && s.shown[c] != k;
    }
  }

  lemma SettleKeepsLast(s: Sys, k: nat, o: Outcome, i: nat, c: Counter)
    requires Inv(s) && Enabled(s, Settles(k, o))
    requires c != Hydrates && IsLast(s, i, c) && Succeeded(Next(s, Settles(k, o)), i)
    ensures c in Next(s, Settles(k, o)).shown && Next(s, Settles(k, o)).shown[c] == i
  {
    WritesIfLast(s, k, o, c);
    if i != k {
      assert Succeeded(s, i);
      OneLast(s, i, k, c);
    }
  }

  lemma OneLast(s: Sys, i: nat, k: nat, c: Counter)
    requires i != k
    ensures !(IsLast(s, i, c) && IsLast(s, k, c))
  {
  }

  lemma SettleKeepsSlices(s: Sys, k: nat, o: Outcome)
    requires Inv(s) && Enabled(s, Settles(k, o))
    ensures SlicesOK(Next(s, Settles(k, o)))
  {
    var s' := Next(s, Settles(k, o));
    forall c | c in s'.shown
      ensures ShowsResponse(s', c)
    {
      SettleKeepsShown(s, k, o, c);
    }
    forall i, c | c != Hydrates && IsLast(s', i, c) && Succeeded(s', i)
      ensures c in s'.shown && s'.shown[c] == i
    {
      assert IsLast(s, i, c);
      SettleKeepsLast(s, k, o, i, c);
    }
  }

  lemma NextKeepsInv(s: Sys, a: Act)
    requires Inv(s) && Enabled(s, a)
    ensures Inv(Next(s, a))
  {
    match a {
      case Starts(c) => StartKeepsInv(s, c, s.v);
      case Fires(t) => StartKeepsInv(s, Hydrates, s.v.(timers := s.v.timers - {t}, retryTimer := None));
      case Settles(k, o) =>
        SettleKeepsGens(s, k, o);
        SettleKeepsSlices(s, k, o);
    }
  }

  lemma {:induction false} RunInv(states: seq<Sys>, acts: seq<Act>, empty: Token, n: nat)
    requires IsRun(states, acts, empty) && n < |states|
    ensures Inv(states[n])
  {
    if n > 0 {
      RunInv(states, acts, empty, n - 1);
      NextKeepsInv(states[n - 1], acts[n - 1]);
    }
  }
}
