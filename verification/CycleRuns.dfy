/** Runs of poll cycles of one connection: their sync-log rows, notices and failure spacing. */
module CycleRuns {
  import opened Model
  import opened Storage
  import opened Backoff
  import opened Engine

  /** One finished cycle; other connections may write to the log before the next one starts. */
  datatype Record = Record(
    op: Operation,
    env: Env,
    end: End,
    removals: seq<Event>,
    before: ConnView,
    after: ConnView)

  ghost predicate IsCycle(conn: string, r: Record) {
    && Finished(conn, r.op, r.env, ResultOf(r.env), r.end, r.removals, r.before, r.after)
    && (!r.end.Skipped? ==> r.env.started >= r.before.notBefore)
    && r.env.started <= r.env.now
  }

  /** Consecutive cycles hand the gate, the notices and the sync-log attempts on. */
  ghost predicate IsCycleRun(conn: string, run: seq<Record>) {
    forall i :: 0 <= i < |run| ==> CycleAt(conn, run, i)
  }

  ghost predicate CycleAt(conn: string, run: seq<Record>, i: int)
    requires 0 <= i < |run|
  {
    IsCycle(conn, run[i]) && (i > 0 ==> HandedOn(run[i - 1].after, run[i].before))
  }

  predicate HandedOn(after: ConnView, before: ConnView) {
    && before.streak == after.streak
    && before.notBefore == after.notBefore
    && before.notices == after.notices
    && before.attempts == after.attempts
  }

  lemma RunPrefix(conn: string, run: seq<Record>, n: nat)
    requires IsCycleRun(conn, run) && n <= |run|
    ensures IsCycleRun(conn, run[..n])
  {
    forall i | 0 <= i < n
      ensures CycleAt(conn, run[..n], i)
    {
      assert CycleAt(conn, run, i);
    }
  }

  predicate IsFailure(end: End) {
    end.ProviderFailed? || end.StorageFailed?
  }

  /** Cycles that ran to an outcome: neither skipped nor silenced by a shutdown. */
  predicate Ran(end: End) {
    IsFailure(end) || end.Succeeded?
  }

  function Failures(run: seq<Record>): nat {
    if run == [] then 0 else Failures(run[..|run| - 1]) + if IsFailure(run[|run| - 1].end) then 1 else 0
  }

  function Outcomes(run: seq<Record>): nat {
    if run == [] then 0 else Outcomes(run[..|run| - 1]) + if Ran(run[|run| - 1].end) then 1 else 0
  }

  /** The SyncCompleted and SyncFailed notices among all notices. */
  function Settlements(notices: seq<Notice>): nat {
    if notices == [] then 0
    else Settlements(notices[..|notices| - 1]) + if notices[|notices| - 1].AttentionChanged? then 0 else 1
  }

  lemma SettlementsAppend(notices: seq<Notice>, n: Notice)
    ensures Settlements(notices + [n]) == Settlements(notices) + if n.AttentionChanged? then 0 else 1
  {
    assert (notices + [n])[..|notices|] == notices;
  }

  lemma CycleSettlesOnce(conn: string, r: Record)
    requires IsCycle(conn, r)
    ensures |r.after.attempts| == |r.before.attempts| + if Ran(r.end) then 1 else 0
    ensures Settlements(r.after.notices) == Settlements(r.before.notices) + if Ran(r.end) then 1 else 0
  {
    assert Reported(conn, r.op, r.env, ResultOf(r.env).degraded, r.end, r.before, r.after);
    if r.end.Succeeded? {
      CompletionSettles(conn, r.before.notices, r.after.notices, |r.after.rows| > |r.before.rows|);
    } else if IsFailure(r.end) {
      SettlementsAppend(r.before.notices, SyncFailed(conn));
    }
  }

  lemma CompletionSettles(conn: string, before: seq<Notice>, after: seq<Notice>, changed: bool)
    requires after == before + (if changed then [AttentionChanged] else []) + [SyncCompleted(conn)]
    ensures Settlements(after) == Settlements(before) + 1
  {
    SettlementsAppend(before + (if changed then [AttentionChanged] else []), SyncCompleted(conn));
    if changed {
      SettlementsAppend(before, AttentionChanged);
    } else {
      assert before + [] == before;
    }
  }

  /**
   Over any run, the sync-log rows attempted and the SyncCompleted and SyncFailed notices
   sent are each exactly as many as the cycles that ran to an outcome.
   */
  lemma {:induction false} OneRowOneNotice(conn: string, run: seq<Record>)
    requires IsCycleRun(conn, run) && run != []
    ensures var first, last := run[0].before, run[|run| - 1].after;
            && |last.attempts| == |first.attempts| + Outcomes(run)
            && Settlements(last.notices) == Settlements(first.notices) + Outcomes(run)
  {
    var n := |run| - 1;
    assert CycleAt(conn, run, n);
    CycleSettlesOnce(conn, run[n]);
    if n > 0 {
      RunPrefix(conn, run, n);
      OneRowOneNotice(conn, run[..n]);
    } else {
      assert Outcomes(run[..0]) == 0;
    }
  }

  /**
   The gate after a failure and any further cycles without a success: the streak has grown
   by the failures since, and the gate stays shut for at least their bound.
   */
  lemma {:induction false} GateHolds(conn: string, run: seq<Record>, n: nat)
    requires IsCycleRun(conn, run) && 1 <= n <= |run|
    requires IsFailure(run[0].end) && forall i :: 0 <= i < n ==> !run[i].end.Succeeded?
    ensures run[n - 1].after.streak == run[0].before.streak + Failures(run[..n])
    ensures run[n - 1].after.notBefore >= run[0].env.now + MINUTE * Bound(Failures(run[..n]))
  {
    assert CycleAt(conn, run, n - 1);
    FailuresSnoc(run, n);
    if n == 1 {
      assert Failures(run[..0]) == 0;
      FirstGate(conn, run[0]);
    } else {
      GateHolds(conn, run, n - 1);
      GateStep(conn, run[n - 1], run[0].before.streak, run[0].env.now, Failures(run[..n - 1]));
    }
  }

  lemma FailuresSnoc(run: seq<Record>, n: nat)
    requires 1 <= n <= |run|
    ensures Failures(run[..n]) == Failures(run[..n - 1]) + if IsFailure(run[n - 1].end) then 1 else 0
  {
    assert run[..n][..n - 1] == run[..n - 1];
  }

  /** What a failure does to the gate. */
  lemma FailureShuts(conn: string, r: Record)
    requires IsCycle(conn, r) && IsFailure(r.end)
    ensures r.after.streak == r.before.streak + 1 && r.after.notBefore >= r.env.now + Delay(r.after.streak)
  {
    assert Reported(conn, r.op, r.env, ResultOf(r.env).degraded, r.end, r.before, r.after);
  }

  lemma FirstGate(conn: string, r: Record)
    requires IsCycle(conn, r) && IsFailure(r.end)
    ensures r.after.streak == r.before.streak + 1 && r.after.notBefore >= r.env.now + MINUTE * Bound(1)
  {
    FailureShuts(conn, r);
    BoundStep(r.before.streak, 1);
    assert Bound(0) == 0;
  }

  /** One more cycle without success, f failures after the first. */
  lemma GateStep(conn: string, r: Record, streak0: nat, start: Time, f: nat)
    requires IsCycle(conn, r) && !r.end.Succeeded?
    requires r.before.streak == streak0 + f && r.before.notBefore >= start + MINUTE * Bound(f)
    ensures var f' := f + if IsFailure(r.end) then 1 else 0;
            r.after.streak == streak0 + f' && r.after.notBefore >= start + MINUTE * Bound(f')
  {
    if IsFailure(r.end) {
      FailureShuts(conn, r);
      BoundStep(streak0, f + 1);
    }
  }

  /**
   Backoff. In any run that starts with a failure and holds no success, the failure m places
   after the first comes from a cycle that starts at least 2^m - 1 minutes after the first
   failed for m <= 5, and 31 + 16(m - 5) minutes after it beyond, whatever hints came in.
   */
  lemma FailuresSpread(conn: string, run: seq<Record>, n: nat)
    requires IsCycleRun(conn, run) && 1 <= n < |run|
    requires IsFailure(run[0].end) && IsFailure(run[n].end) && forall i :: 0 <= i < n ==> !run[i].end.Succeeded?
    ensures var m := Failures(run[..n]);
            run[n].env.now >= run[n].env.started >= run[0].env.now + MINUTE * Bound(m)
  {
    GateHolds(conn, run, n);
    assert CycleAt(conn, run, n);
  }

  // ---- the bound is met ----

  /** The connection after m polls that each started as soon as the gate opened and failed at once. */
  function TightView(conn: string, start: Time, m: nat): ConnView {
    if m == 0 then ConnView([], map[], [], [], [], 0, ZERO_TIME)
    else
      var v := TightView(conn, start, m - 1);
      var entry := FailureEntry(conn, FastPoll, TransportError, Tightest(start, m - 1), m);
      ConnView([], map[], v.notices + [SyncFailed(conn)], v.attempts + [entry], v.syncLog + [entry], m, Tightest(start, m))
  }

  function TightCycle(conn: string, start: Time, m: nat): Record {
    var now := Tightest(start, m);
    Record(FastPoll, Env(now, now, false, false, None, false, PollFailed(TransportError), false, None, None, false, false),
           ProviderFailed(TransportError), [], TightView(conn, start, m), TightView(conn, start, m + 1))
  }

  function TightRun(conn: string, start: Time, n: nat): seq<Record> {
    seq(n, i requires 0 <= i < n => TightCycle(conn, start, i))
  }

  lemma TightIsCycle(conn: string, start: Time, m: nat)
    requires start >= ZERO_TIME
    ensures IsCycle(conn, TightCycle(conn, start, m))
  {
    var r := TightCycle(conn, start, m);
    assert Tightest(start, m + 1) == Tightest(start, m) + Delay(m + 1);
    assert r.before.streak == m && r.before.rows == r.after.rows == [];
    assert Failed(conn, r.before, r.after, r.env.now, None);
    assert Hands(r.before, r.after, r.env, FailureEntry(conn, FastPoll, TransportError, r.env.now, m + 1));
  }

  /** The bound is exact: from health there is a run of failures, each m places after the first exactly the bound later. */
  lemma BoundIsMet(conn: string, start: Time, n: nat, m: nat)
    requires start >= ZERO_TIME && m < n
    ensures var run := TightRun(conn, start, n);
            && IsCycleRun(conn, run)
            && (forall i :: 0 <= i < n ==> IsFailure(run[i].end) && run[i].end == EndOf(run[i].env, true, true, run[i].removals))
            && Failures(run[..m]) == m
            && run[m].env.started == run[0].env.now + MINUTE * Bound(m)
  {
    var run := TightRun(conn, start, n);
    forall i | 0 <= i < n
      ensures CycleAt(conn, run, i)
    {
      TightIsCycle(conn, start, i);
    }
    TightFailures(conn, start, n, m);
    BoundIsTight(start, m);
  }

  lemma {:induction false} TightFailures(conn: string, start: Time, n: nat, m: nat)
    requires m <= n
    ensures Failures(TightRun(conn, start, n)[..m]) == m
  {
    if m > 0 {
      FailuresSnoc(TightRun(conn, start, n), m);
      TightFailures(conn, start, n, m - 1);
    }
  }
}
