/**
 The per-connection engine: one poll cycle with its reap, its two writes, its sync-log row
 and its notifications, over a store and a retry gate that it updates in place.
 */
module Engine {
  import opened Model
  import opened EventLog
  import opened Reaping
  import opened Visibility
  import opened Storage
  import opened Collections
  import opened Backoff

  datatype ProviderError =
    | Unauthorized
    | RateLimitedError(hint: Option<int>)
    | ManualIdentityRequired
    | StatusError(status: int)
    | ServerError
    | UnexpectedError
    | ParseError
    | TransportError

  datatype PollResult = PollResult(
    events: seq<Event>,
    state: map<string, string>,
    degraded: bool,
    complete: bool)

  datatype PollAnswer = Polled(result: PollResult) | PollFailed(error: ProviderError)

  datatype Notice = AttentionChanged | SyncCompleted(conn: string) | SyncFailed(conn: string)

  /**
   Everything a cycle learns from outside: the clock, cancellation at the top or during the
   cycle, and the answer or failure of each call.
   */
  datatype Env = Env(
    started: Time,
    now: Time,
    cancelledAtTop: bool,
    cancelledLater: bool,
    identity: Option<ProviderError>,
    loadFails: bool,
    poll: PollAnswer,
    factsFail: bool,
    stillOpen: Option<seq<string>>,
    writeFailAt: Option<nat>,
    saveFails: bool,
    logFails: bool)

  /** What reap keeps about an item's latest fact. */
  datatype LatestEntry = LatestEntry(objectType: string, eventID: int, removed: bool, open: bool, openRoled: bool)

  function EntryOf(f: Row): LatestEntry {
    LatestEntry(f.objectType, f.id, f.eventType == ItemRemoved, IsOpen(f), IsOpenRoled(f))
  }

  /** The provider's answer as a set; None when the call failed. */
  function AnswerSet(stillOpen: Option<seq<string>>): Option<set<string>> {
    match stillOpen
    case None => None
    case Some(ids) => Some(set nid | nid in ids)
  }

  /** `latest` indexes the latest fact of every item of the connection. */
  ghost predicate Indexes(latest: map<string, LatestEntry>, rows: seq<Row>, conn: string) {
    forall nid ::
      && (nid in latest <==> LatestFact(rows, Item(conn, nid)).Some?)
      && (nid in latest ==> latest[nid] == EntryOf(LatestFact(rows, Item(conn, nid)).value))
  }

  /** How a cycle ends. `written` says that the events landed although the cursors did not. */
  datatype End =
    | Skipped
    | Silent(written: bool)
    | ProviderFailed(error: ProviderError)
    | StorageFailed(written: bool)
    | Succeeded

  /** A storage error; a cancelled cycle leaves no trace of it. */
  function Aborted(env: Env, written: bool): End {
    if env.cancelledLater then Silent(written) else StorageFailed(written)
  }

  function EndOfPersist(env: Env, result: PollResult, removals: seq<Event>): End {
    if result.complete && env.factsFail then Aborted(env, false)
    else if env.writeFailAt.Some? && (result.events != [] || removals != []) then Aborted(env, false)
    else if env.saveFails && result.state != map[] then Aborted(env, true)
    else Succeeded
  }

  function EndOf(env: Env, ready: bool, resolved: bool, removals: seq<Event>): End {
    if env.cancelledAtTop || !ready then Skipped
    else if !resolved && env.identity.Some? then
      if env.cancelledLater then Silent(false) else ProviderFailed(env.identity.value)
    else EndOfPoll(env, removals)
  }

  function EndOfPoll(env: Env, removals: seq<Event>): End {
    if env.loadFails then Aborted(env, false)
    else match env.poll
      case PollFailed(e) => if env.cancelledLater then Silent(false) else ProviderFailed(e)
      case Polled(result) => EndOfPersist(env, result, removals)
  }

  predicate Written(end: End) {
    end.Succeeded? || ((end.Silent? || end.StorageFailed?) && end.written)
  }

  /** The log after the poll's events, and a complete sweep's removals, were written. */
  function LogAfter(rows: seq<Row>, conn: string, result: PollResult, removals: seq<Event>, at: Time): seq<Row> {
    if result.complete then CompletePersist(rows, conn, result.events, removals, at)
    else InsertAll(rows, conn, result.events, at)
  }

  /** The poll result that a cycle can persist; a failed poll has none. */
  function ResultOf(env: Env): PollResult {
    match env.poll
    case Polled(result) => result
    case PollFailed(_) => PollResult([], map[], false, false)
  }

  function Classify(error: ProviderError): Outcome {
    match error
    case Unauthorized => Auth
    case RateLimitedError(_) => RateLimited
    case StatusError(status) => if status >= 500 then Server else Unexpected
    case ServerError => Server
    case UnexpectedError => Unexpected
    case ParseError => Parse
    case ManualIdentityRequired => Network
    case TransportError => Network
  }

  /** The sync-log row of a provider error; only a rate limit names its next retry. */
  function FailureEntry(conn: string, op: Operation, error: ProviderError, now: Time, streak: nat): SyncLogEntry
    requires streak >= 1
  {
    SyncLogEntry(now, conn, op, Classify(error), 0, streak,
                 if error.RateLimitedError? then Some(now + Wait(streak, error.hint)) else None)
  }

  datatype ConnView = ConnView(
    rows: seq<Row>,
    cursors: map<(string, string), string>,
    notices: seq<Notice>,
    attempts: seq<SyncLogEntry>,
    syncLog: seq<SyncLogEntry>,
    streak: nat,
    notBefore: Time)

  /** The cursors after an upsert of the poll's state. */
  ghost predicate Upserted(before: map<(string, string), string>, after: map<(string, string), string>,
                           conn: string, state: map<string, string>)
  {
    && (forall c, k :: (c, k) in after <==> (c, k) in before || (c == conn && k in state))
    && (forall c, k :: (c, k) in after ==>
          after[(c, k)] == if c == conn && k in state then state[k] else before[(c, k)])
  }

  /** What a finished cycle leaves in the log, the cursors, the gate, the sync log and the notices. */
  ghost predicate Finished(conn: string, op: Operation, env: Env, result: PollResult, end: End, removals: seq<Event>,
                           before: ConnView, after: ConnView)
  {
    && (result.complete && Written(end) ==>
          IsReap(before.rows, conn, result.events, AnswerSet(env.stillOpen), removals))
    && after.rows == (if Written(end) then LogAfter(before.rows, conn, result, removals, env.now) else before.rows)
    && |before.rows| <= |after.rows|
    && (if end.Succeeded? then Upserted(before.cursors, after.cursors, conn, result.state)
        else after.cursors == before.cursors)
    && Reported(conn, op, env, result.degraded, end, before, after)
  }

  /** The notices, the sync-log row and the gate that a cycle's end calls for. */
  predicate Reported(conn: string, op: Operation, env: Env, degraded: bool, end: End, before: ConnView, after: ConnView)
    requires |before.rows| <= |after.rows|
  {
    var inserted := |after.rows| - |before.rows|;
    match end
    case Skipped => Untouched(before, after)
    case Silent(_) => Untouched(before, after)
    case ProviderFailed(error) =>
      && Failed(conn, before, after, env.now, if error.RateLimitedError? then error.hint else None)
      && Hands(before, after, env, FailureEntry(conn, op, error, env.now, after.streak))
    case StorageFailed(_) =>
      && Failed(conn, before, after, env.now, None)
      && Hands(before, after, env, SyncLogEntry(env.now, conn, op, StorageFailure, inserted, after.streak, None))
    case Succeeded => Completed(conn, op, env, degraded, inserted, before, after)
  }

  predicate Untouched(before: ConnView, after: ConnView) {
    && after.notices == before.notices
    && after.attempts == before.attempts
    && after.syncLog == before.syncLog
    && after.streak == before.streak
    && after.notBefore == before.notBefore
  }

  predicate Failed(conn: string, before: ConnView, after: ConnView, now: Time, hint: Option<int>) {
    && after.notices == before.notices + [SyncFailed(conn)]
    && after.streak == before.streak + 1
    && after.notBefore == now + Wait(after.streak, hint)
  }

  /** One row is handed to the sync log, which holds it afterwards unless the insert failed. */
  predicate Hands(before: ConnView, after: ConnView, env: Env, entry: SyncLogEntry) {
    && after.attempts == before.attempts + [entry]
    && after.syncLog == if env.logFails then before.syncLog else before.syncLog + [entry]
  }

  predicate Completed(conn: string, op: Operation, env: Env, degraded: bool, inserted: nat, before: ConnView, after: ConnView) {
    && after.notices == before.notices + (if inserted > 0 then [AttentionChanged] else []) + [SyncCompleted(conn)]
    && Hands(before, after, env, SyncLogEntry(env.now, conn, op, if degraded then Degraded else OK, inserted, 0, None))
    && after.streak == 0
    && after.notBefore == ZERO_TIME
  }

  predicate SameStore(before: ConnView, after: ConnView) {
    after.rows == before.rows && after.cursors == before.cursors
  }

  /** A storage error was recorded, unless the cycle was cancelled meanwhile. */
  predicate Aborts(conn: string, op: Operation, inserted: nat, env: Env, before: ConnView, after: ConnView) {
    && SameStore(before, after)
    && if env.cancelledLater then Untouched(before, after)
       else && Failed(conn, before, after, env.now, None)
            && Hands(before, after, env, SyncLogEntry(env.now, conn, op, StorageFailure, inserted, after.streak, None))
  }

  /** A provider error was recorded. */
  predicate Fails(conn: string, op: Operation, error: ProviderError, env: Env, before: ConnView, after: ConnView) {
    && SameStore(before, after)
    && Failed(conn, before, after, env.now, if error.RateLimitedError? then error.hint else None)
    && Hands(before, after, env, FailureEntry(conn, op, error, env.now, after.streak))
  }

  /** Between `before` and `mid` the two writes ran, as far as they got. */
  ghost predicate Writes(conn: string, env: Env, result: PollResult, removals: seq<Event>, wrote: bool, saved: bool,
                         inserted: nat, before: ConnView, mid: ConnView)
  {
    && mid.rows == (if wrote then LogAfter(before.rows, conn, result, removals, env.now) else before.rows)
    && |mid.rows| == |before.rows| + inserted
    && (if saved then Upserted(before.cursors, mid.cursors, conn, result.state) else mid.cursors == before.cursors)
    && Untouched(before, mid)
  }

  lemma AbortIsFinished(conn: string, op: Operation, env: Env, result: PollResult, removals: seq<Event>,
                        wrote: bool, inserted: nat, before: ConnView, mid: ConnView, after: ConnView)
    requires wrote && result.complete ==> IsReap(before.rows, conn, result.events, AnswerSet(env.stillOpen), removals)
    requires Writes(conn, env, result, removals, wrote, false, inserted, before, mid)
    requires Aborts(conn, op, inserted, env, mid, after)
    ensures Finished(conn, op, env, result, Aborted(env, wrote), removals, before, after)
  {
  }

  lemma FailIsFinished(conn: string, op: Operation, env: Env, result: PollResult, error: ProviderError, removals: seq<Event>,
                       before: ConnView, after: ConnView)
    requires Fails(conn, op, error, env, before, after)
    ensures Finished(conn, op, env, result, ProviderFailed(error), removals, before, after)
  {
  }

  lemma UntouchedIsFinished(conn: string, op: Operation, env: Env, result: PollResult, removals: seq<Event>, view: ConnView)
    ensures Finished(conn, op, env, result, Skipped, removals, view, view)
    ensures Finished(conn, op, env, result, Silent(false), removals, view, view)
  {
  }

  lemma SuccessIsFinished(conn: string, op: Operation, env: Env, result: PollResult, removals: seq<Event>,
                          inserted: nat, before: ConnView, mid: ConnView, after: ConnView)
    requires result.complete ==> IsReap(before.rows, conn, result.events, AnswerSet(env.stillOpen), removals)
    requires Writes(conn, env, result, removals, true, true, inserted, before, mid)
    requires SameStore(mid, after) && Completed(conn, op, env, result.degraded, inserted, mid, after)
    ensures Finished(conn, op, env, result, Succeeded, removals, before, after)
  {
  }

  // ---- the end is decided by the inputs ----

  /** The cycle gets as far as the diff of its sweep. */
  predicate Diffs(env: Env, ready: bool, resolved: bool) {
    && !env.cancelledAtTop && ready && (resolved || env.identity.None?) && !env.loadFails
    && env.poll.Polled? && env.poll.result.complete && !env.factsFail
  }

  /** The removals of a cycle: those of its diff when there was one, and none otherwise. */
  ghost predicate Removals(conn: string, env: Env, ready: bool, resolved: bool, rows: seq<Row>, removals: seq<Event>) {
    if Diffs(env, ready, resolved) then IsReap(rows, conn, env.poll.result.events, AnswerSet(env.stillOpen), removals)
    else removals == []
  }

  /** How a cycle ends does not depend on the order in which it lists its removals. */
  lemma EndIsDecided(conn: string, env: Env, ready: bool, resolved: bool, rows: seq<Row>, removals: seq<Event>, removals': seq<Event>)
    requires Removals(conn, env, ready, resolved, rows, removals) && Removals(conn, env, ready, resolved, rows, removals')
    ensures EndOf(env, ready, resolved, removals) == EndOf(env, ready, resolved, removals')
  {
    if Diffs(env, ready, resolved) {
      var swept, open := Swept(env.poll.result.events), AnswerSet(env.stillOpen);
      assert removals != [] ==> MustReap(rows, conn, swept, open, removals[0].nativeID);
      assert removals' != [] ==> MustReap(rows, conn, swept, open, removals'[0].nativeID);
    }
  }

  class Conn {
    const id: string
    const store: Store
    const bo: RetryGate
    var resolved: bool
    var identityPermanent: bool
    var notices: seq<Notice>
    ghost var attempts: seq<SyncLogEntry>  // rows handed to WriteSyncLog, stored or not

    ghost predicate Valid()
      reads this, store
    {
      store.Valid() && LogInv(store.rows)
    }

    constructor (id: string, store: Store)
      requires store.Valid() && LogInv(store.rows)
      ensures Valid() && this.id == id && this.store == store && fresh(bo)
      ensures !resolved && notices == [] && attempts == [] && bo.notBefore == ZERO_TIME && bo.streak == 0
    {
      this.id, this.store := id, store;
      bo := new RetryGate();
      resolved, identityPermanent, notices, attempts := false, false, [], [];
    }

    /** The engine's index of the latest facts, by native id. */
    method IndexFacts() returns (latest: map<string, LatestEntry>)
      requires Valid()
      ensures Indexes(latest, store.rows, id)
    {
      var facts := store.LatestItemFacts(id);
      forall i | 0 <= i < |facts|
        ensures facts[i].objectType == MERGE_REQUEST
      {
        FactIsMergeRequest(store.rows, ItemKey(id, facts[i].objectType, facts[i].nativeID));
      }
      latest := map[];
      for n := 0 to |facts|
        invariant forall nid :: nid in latest <==> exists i :: 0 <= i < n && facts[i].nativeID == nid
        invariant forall i :: 0 <= i < n ==>
                    latest[facts[i].nativeID] == EntryOf(LatestFact(store.rows, Item(id, facts[i].nativeID)).value)
      {
        var f := facts[n];
        var open := f.eventType == ItemObserved && f.body.Snapshot? && f.body.facts.state == Open;
        var roled := open && |f.body.facts.myRoles| > 0;
        latest := latest[f.nativeID := LatestEntry(f.objectType, f.eventID, f.eventType == ItemRemoved, open, roled)];
      }
      forall nid
        ensures nid in latest <==> LatestFact(store.rows, Item(id, nid)).Some?
      {
        if LatestFact(store.rows, Item(id, nid)).Some? {
          var i :| 0 <= i < |facts| && facts[i].objectType == MERGE_REQUEST && facts[i].nativeID == nid;
        }
      }
    }

    /** Which leftovers are gone; ok is false when ResolveOpen fails. */
    method ConfirmGone(leftovers: seq<string>, stillOpen: Option<seq<string>>) returns (gone: seq<string>, ok: bool)
      requires NoDuplicates(leftovers)
      ensures ok <==> leftovers == [] || stillOpen.Some?
      ensures NoDuplicates(gone)
      ensures forall nid :: nid in gone <==> nid in leftovers && stillOpen.Some? && nid !in stillOpen.value
    {
      if leftovers == [] {
        return [], true;
      }
      if stillOpen.None? {
        return [], false;
      }
      gone := [];
      for n := 0 to |leftovers|
        invariant NoDuplicates(gone)
        invariant forall nid :: nid in gone <==> nid in leftovers[..n] && nid !in stillOpen.value
      {
        assert leftovers[..n + 1] == leftovers[..n] + [leftovers[n]];
        if leftovers[n] !in stillOpen.value {
          gone := gone + [leftovers[n]];
        }
      }
      assert leftovers[..|leftovers|] == leftovers;
      return gone, true;
    }

    /** Splits the items that left the sweep into roled ones and role-less leftovers. */
    method LeftSweep(latest: map<string, LatestEntry>, swept: set<string>)
      returns (roled: seq<string>, leftovers: seq<string>)
      ensures NoDuplicates(roled) && NoDuplicates(leftovers)
      ensures forall nid :: nid in roled <==> nid in latest && latest[nid].openRoled && nid !in swept
      ensures forall nid :: nid in leftovers <==>
                nid in latest && latest[nid].open && !latest[nid].openRoled && nid !in swept
    {
      var all := Listing(latest.Keys);
      roled, leftovers := [], [];
      for n := 0 to |all|
        invariant NoDuplicates(roled) && NoDuplicates(leftovers)
        invariant forall nid :: nid in roled <==> nid in all[..n] && latest[nid].openRoled && nid !in swept
        invariant forall nid :: nid in leftovers <==>
                    nid in all[..n] && latest[nid].open && !latest[nid].openRoled && nid !in swept
      {
        assert all[..n + 1] == all[..n] + [all[n]];
        var nid := all[n];
        if latest[nid].openRoled && nid !in swept {
          roled := roled + [nid];
        } else if latest[nid].open && !latest[nid].openRoled && nid !in swept {
          leftovers := leftovers + [nid];
        }
      }
      assert all[..|all|] == all;
    }

    /** The removal events for the given items. */
    method RemovalsFor(latest: map<string, LatestEntry>, nids: seq<string>) returns (removals: seq<Event>)
      requires forall nid :: nid in nids ==> nid in latest
      ensures |removals| == |nids|
      ensures forall i :: 0 <= i < |nids| ==>
                removals[i] == Event(latest[nids[i]].objectType, nids[i], ItemRemoved, None, "",
                                     RemovedKey(latest[nids[i]].eventID), Opaque)
    {
      removals := [];
      for n := 0 to |nids|
        invariant |removals| == n
        invariant forall i :: 0 <= i < n ==>
                    removals[i] == Event(latest[nids[i]].objectType, nids[i], ItemRemoved, None, "",
                                         RemovedKey(latest[nids[i]].eventID), Opaque)
      {
        var lf := latest[nids[n]];
        removals := removals + [Event(lf.objectType, nids[n], ItemRemoved, None, "", RemovedKey(lf.eventID), Opaque)];
      }
    }

    /**
     Diffs a complete sweep against the log: returns its removals, and salts in place the key
     of every swept snapshot whose item was removed.
     */
    method Reap(events: array<Event>, stillOpen: Option<seq<string>>) returns (removals: seq<Event>)
      requires Valid()
      modifies events
      ensures IsReap(store.rows, id, old(events[..]), AnswerSet(stillOpen), removals)
      ensures events[..] == SaltAll(store.rows, id, old(events[..]))
    {
      var latest := IndexFacts();
      var swept: set<string> := {};
      for n := 0 to events.Length
        invariant swept == Swept(events[..n])
        invariant events[..] == old(events[..])
      {
        assert events[..n + 1] == events[..n] + [events[n]];
        if events[n].eventType == ItemObserved {
          swept := swept + {events[n].nativeID};
        }
      }
      assert events[..events.Length] == events[..];
      var roled, leftovers := LeftSweep(latest, swept);
      var gone, ok := ConfirmGone(leftovers, stillOpen);
      var reaped := roled + gone;
      removals := RemovalsFor(latest, reaped);
      ReapedIsReap(store.rows, id, events[..], stillOpen, latest, reaped, removals);
      Resurrect(events, latest);
    }

    /** The salting loop of reap. */
    method Resurrect(events: array<Event>, latest: map<string, LatestEntry>)
      requires Indexes(latest, store.rows, id)
      modifies events
      ensures events[..] == SaltAll(store.rows, id, old(events[..]))
    {
      ghost var before := events[..];
      for n := 0 to events.Length
        invariant forall i :: 0 <= i < n ==> events[i] == Salt(store.rows, id, before[i])
        invariant forall i :: n <= i < events.Length ==> events[i] == before[i]
      {
        var e := events[n];
        if e.eventType == ItemObserved && e.nativeID in latest && latest[e.nativeID].removed {
          events[n] := e.(key := DedupeKey.Resurrect(e.key, latest[e.nativeID].eventID));
        }
      }
    }

    /** Hands one row to the sync log; the attempt is made whether or not the log takes it. */
    method WriteLog(entry: SyncLogEntry, fails: bool)
      modifies this`attempts, store`syncLog
      ensures attempts == old(attempts) + [entry]
      ensures store.syncLog == if fails then old(store.syncLog) else old(store.syncLog) + [entry]
    {
      attempts := attempts + [entry];
      store.WriteSyncLog(entry, fails);
    }

    /** Records a provider error: one row, one backoff step, one SyncFailed. */
    method Fail(op: Operation, error: ProviderError, env: Env)
      modifies this`resolved, this`notices, this`attempts, store`syncLog, bo
      ensures resolved == (old(resolved) && error != Unauthorized)
      ensures Fails(id, op, error, env, old(View()), View())
    {
      var entry;
      match error {
        case Unauthorized =>
          resolved := false;
          bo.Bump(env.now);
          entry := SyncLogEntry(env.now, id, op, Auth, 0, bo.streak, None);
        case RateLimitedError(hint) =>
          var d := bo.RateLimit(env.now, hint);
          entry := SyncLogEntry(env.now, id, op, RateLimited, 0, bo.streak, Some(env.now + d));
        case _ =>
          bo.Bump(env.now);
          entry := SyncLogEntry(env.now, id, op, Classify(error), 0, bo.streak, None);
      }
      assert entry == FailureEntry(id, op, error, env.now, bo.streak);
      WriteLog(entry, env.logFails);
      notices := notices + [SyncFailed(id)];
    }

    /** Records a storage error, unless the cycle was cancelled meanwhile. */
    method AbortStorage(op: Operation, inserted: nat, env: Env)
      modifies this`notices, this`attempts, store`syncLog, bo
      ensures Aborts(id, op, inserted, env, old(View()), View())
    {
      if env.cancelledLater {
        return;
      }
      bo.Bump(env.now);
      WriteLog(SyncLogEntry(env.now, id, op, StorageFailure, inserted, bo.streak, None), env.logFails);
      notices := notices + [SyncFailed(id)];
    }

    /** The state that a cycle may change, apart from the identity flags. */
    ghost function View(): ConnView
      reads this, store, bo
    {
      ConnView(store.rows, store.cursors, notices, attempts, store.syncLog, bo.streak, bo.notBefore)
    }

    /** The events to write: a complete sweep's are salted in place and followed by its removals. */
    method Prepare(result: PollResult, env: Env) returns (events: seq<Event>, ghost removals: seq<Event>)
      requires Valid() && ProviderEvents(result.events)
      ensures result.complete ==> IsReap(store.rows, id, result.events, AnswerSet(env.stillOpen), removals)
      ensures !result.complete ==> removals == []
      ensures events == [] <==> result.events == [] && removals == []
      ensures InsertAll(store.rows, id, events, env.now) == LogAfter(store.rows, id, result, removals, env.now)
      ensures LogInv(InsertAll(store.rows, id, events, env.now))
      ensures store.rows <= InsertAll(store.rows, id, events, env.now)
    {
      events := result.events;
      removals := [];
      if result.complete {
        var swept := new Event[|events|](i requires 0 <= i < |events| => events[i]);
        assert swept[..] == events;
        var gone := Reap(swept, env.stillOpen);
        removals := gone;
        events := swept[..] + gone;
        CompleteKeepsInv(store.rows, id, result.events, AnswerSet(env.stillOpen), removals, env.now);
      } else {
        PartialKeepsInv(store.rows, id, result.events, env.now);
      }
      InsertAllGrows(store.rows, id, events, env.now);
    }

    /** Both writes landed: the gate resets, one row is logged, and changes are announced before completion. */
    method Succeed(op: Operation, degraded: bool, inserted: nat, env: Env)
      modifies this`notices, this`attempts, store`syncLog, bo
      ensures SameStore(old(View()), View()) && Completed(id, op, env, degraded, inserted, old(View()), View())
    {
      bo.Reset();
      WriteLog(SyncLogEntry(env.now, id, op, if degraded then Degraded else OK, inserted, 0, None), env.logFails);
      if inserted > 0 {
        notices := notices + [AttentionChanged];
      }
      notices := notices + [SyncCompleted(id)];
    }

    /** Events first, then cursors: the cursors move only when the events are stored. */
    method WriteBoth(result: PollResult, events: seq<Event>, ghost removals: seq<Event>, env: Env)
      returns (inserted: nat, wrote: bool, saved: bool)
      requires Valid() && LogInv(InsertAll(store.rows, id, events, env.now))
      requires InsertAll(store.rows, id, events, env.now) == LogAfter(store.rows, id, result, removals, env.now)
      modifies store`rows, store`cursors
      ensures Valid()
      ensures wrote == (events == [] || env.writeFailAt.None?)
      ensures saved == (wrote && (result.state == map[] || !env.saveFails))
      ensures Writes(id, env, result, removals, wrote, saved, inserted, old(View()), View())
    {
      inserted, wrote := store.WriteEvents(id, events, env.now, env.writeFailAt);
      saved := false;
      if wrote {
        saved := store.SaveCursors(id, result.state, env.saveFails);
      }
    }

    /** The success path: reap on a complete sweep, then events, then cursors, then the sync-log row. */
    method Persist(op: Operation, result: PollResult, env: Env) returns (ghost end: End, ghost removals: seq<Event>)
      requires Valid() && ProviderEvents(result.events)
      modifies this`notices, this`attempts, store, bo
      ensures Valid()
      ensures end == EndOfPersist(env, result, removals)
      ensures if result.complete && !env.factsFail
              then IsReap(old(store.rows), id, result.events, AnswerSet(env.stillOpen), removals) else removals == []
      ensures Finished(id, op, env, result, end, removals, old(View()), View())
    {
      ghost var before := View();
      if result.complete && env.factsFail {
        AbortStorage(op, 0, env);
        AbortIsFinished(id, op, env, result, [], false, 0, before, before, View());
        return Aborted(env, false), [];
      }
      var events;
      events, removals := Prepare(result, env);
      end := WriteAndReport(op, result, events, removals, env);
    }

    /** The two writes and what follows them. */
    method WriteAndReport(op: Operation, result: PollResult, events: seq<Event>, ghost removals: seq<Event>, env: Env)
      returns (ghost end: End)
      requires Valid() && LogInv(InsertAll(store.rows, id, events, env.now))
      requires InsertAll(store.rows, id, events, env.now) == LogAfter(store.rows, id, result, removals, env.now)
      requires events == [] <==> result.events == [] && removals == []
      requires result.complete ==> !env.factsFail && IsReap(store.rows, id, result.events, AnswerSet(env.stillOpen), removals)
      modifies this`notices, this`attempts, store, bo
      ensures Valid()
      ensures end == EndOfPersist(env, result, removals)
      ensures Finished(id, op, env, result, end, removals, old(View()), View())
    {
      ghost var before := View();
      var inserted, wrote, saved := WriteBoth(result, events, removals, env);
      ghost var mid := View();
      if !saved {
        AbortStorage(op, inserted, env);
        AbortIsFinished(id, op, env, result, removals, wrote, inserted, before, mid, View());
        return Aborted(env, wrote);
      }
      Succeed(op, result.degraded, inserted, env);
      SuccessIsFinished(id, op, env, result, removals, inserted, before, mid, View());
      return Succeeded;
    }

    /**
     One poll cycle. Skipped and silent cycles leave no trace; every other one hands exactly
     one row to the sync log and announces exactly one of SyncCompleted and SyncFailed, and a
     failed poll changes neither log nor cursors.
     */
    method Cycle(op: Operation, env: Env) returns (ghost end: End, ghost removals: seq<Event>)
      requires Valid()
      requires env.poll.Polled? ==> ProviderEvents(env.poll.result.events)
      modifies this, store, bo
      ensures Valid()
      ensures end == EndOf(env, old(bo.Ready(env.started)), old(resolved), removals)
      ensures Removals(id, env, old(bo.Ready(env.started)), old(resolved), old(store.rows), removals)
      ensures Finished(id, op, env, ResultOf(env), end, removals, old(View()), View())
      ensures resolved == if end.Skipped? then old(resolved)
                          else (old(resolved) || env.identity.None?) && end != ProviderFailed(Unauthorized)
    {
      UntouchedIsFinished(id, op, env, ResultOf(env), [], View());
      if env.cancelledAtTop {
        return Skipped, [];
      }
      if !bo.Ready(env.started) {
        return Skipped, [];
      }
      if !resolved {
        var ok, stop := Identify(op, env);
        if !ok {
          return stop, [];
        }
      }
      end, removals := Poll(op, env);
    }

    /** Retries an identity that did not resolve earlier; on failure the cycle ends here. */
    method Identify(op: Operation, env: Env) returns (ok: bool, ghost end: End)
      requires !resolved
      modifies this`resolved, this`identityPermanent, this`notices, this`attempts, store`syncLog, bo
      ensures ok == resolved == env.identity.None?
      ensures ok ==> View() == old(View())
      ensures !ok ==> end == if env.cancelledLater then Silent(false) else ProviderFailed(env.identity.value)
      ensures !ok ==> Finished(id, op, env, ResultOf(env), end, [], old(View()), View())
    {
      ghost var before := View();
      UntouchedIsFinished(id, op, env, ResultOf(env), [], before);
      var error := ResolveIdentity(env.identity);
      if error.None? {
        return true, Skipped;
      }
      if env.cancelledLater {
        return false, Silent(false);
      }
      Fail(op, error.value, env);
      FailIsFinished(id, op, env, ResultOf(env), error.value, [], before, View());
      return false, ProviderFailed(error.value);
    }

    /** The cycle once the identity is known: load the cursors, poll, and persist or fail. */
    method Poll(op: Operation, env: Env) returns (ghost end: End, ghost removals: seq<Event>)
      requires Valid() && resolved
      requires env.poll.Polled? ==> ProviderEvents(env.poll.result.events)
      modifies this`resolved, this`notices, this`attempts, store, bo
      ensures Valid()
      ensures end == EndOfPoll(env, removals)
      ensures if !env.loadFails && env.poll.Polled? && env.poll.result.complete && !env.factsFail
              then IsReap(old(store.rows), id, env.poll.result.events, AnswerSet(env.stillOpen), removals)
              else removals == []
      ensures Finished(id, op, env, ResultOf(env), end, removals, old(View()), View())
      ensures resolved == (end != ProviderFailed(Unauthorized))
    {
      ghost var before := View();
      if env.loadFails {
        AbortStorage(op, 0, env);
        AbortIsFinished(id, op, env, ResultOf(env), [], false, 0, before, before, View());
        return Aborted(env, false), [];
      }
      match env.poll {
        case PollFailed(error) =>
          if env.cancelledLater {
            UntouchedIsFinished(id, op, env, ResultOf(env), [], before);
            return Silent(false), [];
          }
          Fail(op, error, env);
          FailIsFinished(id, op, env, ResultOf(env), error, [], before, View());
          return ProviderFailed(error), [];
        case Polled(result) =>
          end, removals := Persist(op, result, env);
      }
    }

    /** Resolves the identity; a bad token or a missing handle is permanent. */
    method ResolveIdentity(answer: Option<ProviderError>) returns (error: Option<ProviderError>)
      modifies this`resolved, this`identityPermanent
      ensures error == answer
      ensures resolved == answer.None?
      ensures identityPermanent == (old(identityPermanent) || answer in {Some(ManualIdentityRequired), Some(Unauthorized)})
    {
      if answer.Some? {
        if answer.value == ManualIdentityRequired || answer.value == Unauthorized {
          identityPermanent := true;
        }
      }
      resolved := answer.None?;
      return answer;
    }
  }

  lemma {:induction false} FactIsMergeRequest(rows: seq<Row>, k: ItemKey)
    requires LogInv(rows)
    ensures LatestFact(rows, k).Some? ==> k.objectType == MERGE_REQUEST
  {
    if LatestFact(rows, k).Some? {
      var j :| 0 <= j < |rows| && rows[j] == LatestFact(rows, k).value;
      assert RowInPlace(rows, j);
    }
  }

  /** The items that left the sweep and are roled or confirmed gone are those that must be reaped. */
  lemma ReapedIsReap(rows: seq<Row>, conn: string, events: seq<Event>, stillOpen: Option<seq<string>>,
                     latest: map<string, LatestEntry>, reaped: seq<string>, removals: seq<Event>)
    requires Indexes(latest, rows, conn) && NoDuplicates(reaped) && |removals| == |reaped|
    requires forall nid :: nid in reaped <==>
               && nid in latest && latest[nid].open && nid !in Swept(events)
               && (latest[nid].openRoled || (stillOpen.Some? && nid !in stillOpen.value))
    requires forall i :: 0 <= i < |reaped| ==>
               removals[i] == Event(latest[reaped[i]].objectType, reaped[i], ItemRemoved, None, "",
                                    RemovedKey(latest[reaped[i]].eventID), Opaque)
    ensures IsReap(rows, conn, events, AnswerSet(stillOpen), removals)
  {
    forall nid
      ensures MustReap(rows, conn, Swept(events), AnswerSet(stillOpen), nid) <==> nid in reaped
    {
    }
    forall i | 0 <= i < |removals|
      ensures && MustReap(rows, conn, Swept(events), AnswerSet(stillOpen), removals[i].nativeID)
              && removals[i] == RemovalOf(LatestFact(rows, Item(conn, removals[i].nativeID)).value)
    {
      assert reaped[i] in reaped;
    }
    forall nid | MustReap(rows, conn, Swept(events), AnswerSet(stillOpen), nid)
      ensures exists i :: 0 <= i < |removals| && removals[i].nativeID == nid
    {
      var i :| 0 <= i < |reaped| && reaped[i] == nid;
      assert removals[i].nativeID == nid;
    }
  }

  lemma PartialKeepsInv(rows: seq<Row>, conn: string, events: seq<Event>, at: Time)
    requires LogInv(rows) && ProviderEvents(events)
    ensures LogInv(InsertAll(rows, conn, events, at))
  {
    BatchKeepsInv(rows, conn, events, at);
  }
}
