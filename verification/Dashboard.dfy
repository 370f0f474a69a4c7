/**
 The dashboard's slices, generation counters, stale flag and retry timer. An async request is
 a start, which runs up to its await, and a settlement, which runs after it; starts and
 settlements of different requests interleave freely.
 */
module Dashboard {
  import opened Model
  import opened Retry

  /** A response body, told apart from other bodies and otherwise opaque. */
  type Token = int

  /** The four generation counters; the last three are those of the slices. */
  datatype Counter = Hydrates | Attention | Connections | SyncLog

  /** A request in flight, with the generations it drew. */
  datatype Request =
    | Hydrate(hydrate: nat, attention: nat, connections: nat, syncLog: nat)
    | Refresh(slice: Counter, generation: nat)

  datatype Response = Response(items: Token, connections: Token, update: Token, syncLog: Token)

  datatype Outcome = Success(response: Response) | Failed(err: Failure, now: Time)

  /** The fields of the dashboard, and the browser's armed retry timers by id with their fire time. */
  datatype View = View(
    hydrateGen: nat,
    attentionGen: nat,
    connectionsGen: nat,
    syncLogGen: nat,
    items: Token,
    connections: Token,
    update: Token,
    syncLog: Token,
    loading: bool,
    loadError: Option<Failure>,
    stale: bool,
    ready: bool,
    attempt: nat,
    retryDeadline: Time,
    retryTimer: Option<nat>,
    timers: map<nat, Time>,
    nextTimer: nat)

  // ---- starts ----

  function CancelRetry(v: View): View {
    match v.retryTimer
    case None => v
    case Some(t) => v.(timers := v.timers - {t}, retryTimer := None, retryDeadline := 0)
  }

  function Start(v: View, c: Counter): View {
    match c
    case Hydrates =>
      var v1 := CancelRetry(v);
      v1.(hydrateGen := v1.hydrateGen + 1, attentionGen := v1.attentionGen + 1,
          connectionsGen := v1.connectionsGen + 1, syncLogGen := v1.syncLogGen + 1)
    case Attention => v.(attentionGen := v.attentionGen + 1)
    case Connections => v.(connectionsGen := v.connectionsGen + 1)
    case SyncLog => v.(syncLogGen := v.syncLogGen + 1)
  }

  function Gen(v: View, c: Counter): nat {
    match c
    case Hydrates => v.hydrateGen
    case Attention => v.attentionGen
    case Connections => v.connectionsGen
    case SyncLog => v.syncLogGen
  }

  /** The request that a start leaves in flight. */
  function Issued(v: View, c: Counter): Request {
    if c == Hydrates then Hydrate(v.hydrateGen, v.attentionGen, v.connectionsGen, v.syncLogGen) else Refresh(c, Gen(v, c))
  }

  /** The retry timer fires: it forgets itself and starts a hydrate. */
  function Fire(v: View, t: nat): View {
    Start(v.(timers := v.timers - {t}, retryTimer := None), Hydrates)
  }

  // ---- settlements ----

  function Arm(v: View, deadline: Time): View {
    v.(retryDeadline := deadline, retryTimer := Some(v.nextTimer),
       timers := v.timers[v.nextTimer := deadline], nextTimer := v.nextTimer + 1)
  }

  /** A retriable failure arms the retry, or pushes a pending one back; it never pulls one earlier. */
  function ScheduleRetry(v: View, err: Failure, now: Time): View {
    if !IsRetriable(err) then v
    else
      var deadline := now + RetryDelay(v.attempt, RetryHint(err));
      match v.retryTimer
      case Some(t) => if deadline <= v.retryDeadline then v else Arm(v.(timers := v.timers - {t}), deadline)
      case None => Arm(v.(attempt := v.attempt + 1), deadline)
  }

  /** The slices of a successful hydrate, each unless a newer request of that slice was started. */
  function Apply(v: View, q: Request, r: Response): View
    requires q.Hydrate?
  {
    var v1 := if q.attention == v.attentionGen then v.(items := r.items, stale := false) else v;
    var v2 := if q.connections == v.connectionsGen then v1.(connections := r.connections, update := r.update) else v1;
    if q.syncLog == v.syncLogGen then v2.(syncLog := r.syncLog) else v2
  }

  function HydrateFails(v: View, err: Failure, now: Time): View {
    ScheduleRetry(if v.ready then v.(stale := true) else v.(loadError := Some(err)), err, now)
  }

  function SettleHydrate(v: View, q: Request, o: Outcome): View
    requires q.Hydrate?
  {
    if q.hydrate != v.hydrateGen then v
    else match o
      case Success(r) => Apply(v, q, r).(ready := true, attempt := 0, loadError := None, loading := false)
      case Failed(err, now) => HydrateFails(v, err, now).(loading := false)
  }

  function SettleRefresh(v: View, q: Request, o: Outcome): View
    requires q.Refresh?
  {
    if q.generation != Gen(v, q.slice) then v
    else match o
      case Success(r) =>
        (match q.slice
         case Attention => v.(items := r.items, stale := false)
         case Connections => v.(connections := r.connections, update := r.update)
         case SyncLog => v.(syncLog := r.syncLog)
         case Hydrates => v)
      case Failed(err, now) =>
        if q.slice == Attention && v.ready then ScheduleRetry(v.(stale := true), err, now) else v
  }

  function Settle(v: View, q: Request, o: Outcome): View {
    if q.Hydrate? then SettleHydrate(v, q, o) else SettleRefresh(v, q, o)
  }

  // ---- the class ----

  class Dashboard {
    var items: Token
    var connections: Token
    var update: Token
    var syncLog: Token
    var loading: bool
    var loadError: Option<Failure>
    var stale: bool
    var retryTimer: Option<nat>
    var retryAttempt: nat
    var retryDeadline: Time
    var ready: bool
    var hydrateGeneration: nat
    var attentionGeneration: nat
    var connectionsGeneration: nat
    var syncLogGeneration: nat
    /** The browser's side of setTimeout and clearTimeout. */
    var timers: map<nat, Time>
    var nextTimer: nat

    ghost function AsView(): View
      reads this
    {
      View(hydrateGeneration, attentionGeneration, connectionsGeneration, syncLogGeneration, items, connections, update,
           syncLog, loading, loadError, stale, ready, retryAttempt, retryDeadline, retryTimer, timers, nextTimer)
    }

    constructor (empty: Token)
      ensures AsView() == Cold(empty)
    {
      items, connections, update, syncLog := empty, empty, empty, empty;
      loading, loadError, stale, ready := true, None, false, false;
      retryTimer, retryAttempt, retryDeadline := None, 0, 0;
      hydrateGeneration, attentionGeneration, connectionsGeneration, syncLogGeneration := 0, 0, 0, 0;
      timers, nextTimer := map[], 0;
    }

    method CancelPendingRetry()
      modifies this
      ensures AsView() == CancelRetry(old(AsView()))
    {
      if retryTimer.None? {
        return;
      }
      timers := timers - {retryTimer.value};
      retryTimer := None;
      retryDeadline := 0;
    }

    method StartHydrate() returns (q: Request)
      modifies this
      ensures AsView() == Start(old(AsView()), Hydrates) && q == Issued(AsView(), Hydrates)
    {
      CancelPendingRetry();
      hydrateGeneration := hydrateGeneration + 1;
      attentionGeneration := attentionGeneration + 1;
      connectionsGeneration := connectionsGeneration + 1;
      syncLogGeneration := syncLogGeneration + 1;
      q := Hydrate(hydrateGeneration, attentionGeneration, connectionsGeneration, syncLogGeneration);
    }

    method StartRefreshAttention() returns (q: Request)
      modifies this
      ensures AsView() == Start(old(AsView()), Attention) && q == Issued(AsView(), Attention)
    {
      attentionGeneration := attentionGeneration + 1;
      q := Refresh(Attention, attentionGeneration);
    }

    method StartRefreshConnections() returns (q: Request)
      modifies this
      ensures AsView() == Start(old(AsView()), Connections) && q == Issued(AsView(), Connections)
    {
      connectionsGeneration := connectionsGeneration + 1;
      q := Refresh(Connections, connectionsGeneration);
    }

    method StartRefreshSyncLog() returns (q: Request)
      modifies this
      ensures AsView() == Start(old(AsView()), SyncLog) && q == Issued(AsView(), SyncLog)
    {
      syncLogGeneration := syncLogGeneration + 1;
      q := Refresh(SyncLog, syncLogGeneration);
    }

    /** The timer's callback. */
    method RetryFires(t: nat) returns (q: Request)
      requires t in timers
      modifies this
      ensures AsView() == Fire(old(AsView()), t) && q == Issued(AsView(), Hydrates)
    {
      timers := timers - {t};
      retryTimer := None;
      q := StartHydrate();
    }

    method MarkFresh()
      modifies this
      ensures AsView() == old(AsView()).(ready := true, attempt := 0, loadError := None)
    {
      ready := true;
      retryAttempt := 0;
      loadError := None;
    }

    method ScheduleHydrateRetry(err: Failure, now: Time)
      modifies this
      ensures AsView() == ScheduleRetry(old(AsView()), err, now)
    {
      if !IsRetriable(err) {
        return;
      }
      var deadline := now + RetryDelay(retryAttempt, RetryHint(err));
      if retryTimer.Some? {
        if deadline <= retryDeadline {
          return;
        }
        timers := timers - {retryTimer.value};
      } else {
        retryAttempt := retryAttempt + 1;
      }
      ArmRetry(deadline);
    }

    method ArmRetry(deadline: Time)
      modifies this
      ensures AsView() == Arm(old(AsView()), deadline)
    {
      retryDeadline := deadline;
      timers := timers[nextTimer := deadline];
      retryTimer := Some(nextTimer);
      nextTimer := nextTimer + 1;
    }

    method OnHydrateFailure(err: Failure, now: Time)
      modifies this
      ensures AsView() == HydrateFails(old(AsView()), err, now)
    {
      if ready {
        stale := true;
      } else {
        loadError := Some(err);
      }
      ScheduleHydrateRetry(err, now);
    }

    method ApplyHydrate(q: Request, r: Response)
      requires q.Hydrate?
      modifies this
      ensures AsView() == Apply(old(AsView()), q, r)
    {
      if q.attention == attentionGeneration {
        items := r.items;
        stale := false;
      }
      if q.connections == connectionsGeneration {
        connections := r.connections;
        update := r.update;
      }
      if q.syncLog == syncLogGeneration {
        syncLog := r.syncLog;
      }
    }

    /** What hydrate does after its await. */
    method HydrateSettles(q: Request, o: Outcome)
      requires q.Hydrate?
      modifies this
      ensures AsView() == SettleHydrate(old(AsView()), q, o)
    {
      if q.hydrate != hydrateGeneration {
        return;
      }
      match o {
        case Success(r) =>
          ApplyHydrate(q, r);
          MarkFresh();
        case Failed(err, now) =>
          OnHydrateFailure(err, now);
      }
      loading := false;
    }

    /** What the refreshes do after their await. */
    method RefreshSettles(q: Request, o: Outcome)
      requires q.Refresh? && q.slice != Hydrates
      modifies this
      ensures AsView() == SettleRefresh(old(AsView()), q, o)
    {
      match q.slice {
        case Attention =>
          if q.generation != attentionGeneration {
            return;
          }
          match o {
            case Success(r) =>
              items := r.items;
              stale := false;
            case Failed(err, now) =>
              if ready {
                stale := true;
                ScheduleHydrateRetry(err, now);
              }
          }
        case Connections =>
          if o.Success? && q.generation == connectionsGeneration {
            connections := o.response.connections;
            update := o.response.update;
          }
        case SyncLog =>
          if o.Success? && q.generation == syncLogGeneration {
            syncLog := o.response.syncLog;
          }
      }
    }
  }

  /** The dashboard before its first request. */
  function Cold(empty: Token): View {
    View(0, 0, 0, 0, empty, empty, empty, empty, true, None, false, false, 0, 0, None, map[], 0)
  }
}
