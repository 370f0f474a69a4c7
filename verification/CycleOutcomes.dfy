/** What a poll cycle's outcome leaves behind: its sync-log row, its notices, and the time at which the gate opens again. */
module CycleOutcomes {
  import opened Arithmetic
  import opened Model
  import opened EventLog
  import opened Reaping
  import opened Storage
  import opened Backoff
  import opened Engine
  import opened CycleRuns

  /** The cycle handed this row to the sync log, and sent these notices. */
  predicate Leaves(r: Record, row: SyncLogEntry, notices: seq<Notice>) {
    r.after.attempts == r.before.attempts + [row] && r.after.notices == r.before.notices + notices
  }

  /** The seconds for which the gate stays shut after a failure that ends a streak: one minute, doubled to sixteen at most. */
  function ShutFor(streak: nat): int
    requires streak >= 1
  {
    if streak == 1 then 60 else if streak == 2 then 120 else if streak == 3 then 240 else if streak == 4 then 480 else 960
  }

  lemma DelayIsShutFor(streak: nat)
    requires streak >= 1
    ensures Delay(streak) == ShutFor(streak)
  {
    assert Pow2(0) == 1 && Pow2(1) == 2 && Pow2(2) == 4 && Pow2(3) == 8 && Pow2(4) == 16;
  }

  /**
   A provider failure is logged under its kind: a refused token as auth, a rate limit as such, a
   status of 500 and up as the server's, a lower one as unexpected, a body that does not parse
   as such, and all else as the network's. The row counts the streak, and names a next retry
   for a rate limit alone: the time at which the gate opens.
   */
  lemma FailureIsLogged(conn: string, r: Record)
    requires IsCycle(conn, r) && r.end.ProviderFailed?
    ensures var error, row := r.end.error, r.after.attempts[|r.before.attempts|];
            && Leaves(r, row, [SyncFailed(conn)]) && r.after.rows == r.before.rows && r.after.cursors == r.before.cursors
            && row.ts == r.env.now && row.conn == conn && row.operation == r.op && row.itemsChanged == 0
            && row.retries == r.after.streak == r.before.streak + 1
            && (error == Unauthorized ==> row.outcome == Auth)
            && (error.RateLimitedError? ==> row.outcome == RateLimited && row.nextRetry == Some(r.after.notBefore))
            && (!error.RateLimitedError? ==> row.nextRetry == None)
            && (error.StatusError? ==> row.outcome == if error.status >= 500 then Server else Unexpected)
            && (error == ServerError ==> row.outcome == Server)
            && (error == UnexpectedError ==> row.outcome == Unexpected)
            && (error == ParseError ==> row.outcome == Parse)
            && (error in {ManualIdentityRequired, TransportError} ==> row.outcome == Outcome.Network)
  {
    assert Reported(conn, r.op, r.env, ResultOf(r.env).degraded, r.end, r.before, r.after);
  }

  /**
   The gate after a failure: shut for the step of the streak, and for the provider's hint where
   that is longer.
   */
  lemma FailureShutsGate(conn: string, r: Record)
    requires IsCycle(conn, r) && IsFailure(r.end)
    ensures r.after.streak == r.before.streak + 1
    ensures var shut := r.after.notBefore - r.env.now;
            var step := ShutFor(r.after.streak);
            if r.end.ProviderFailed? && r.end.error.RateLimitedError? && r.end.error.hint.Some? && r.end.error.hint.value > step
            then shut == r.end.error.hint.value
            else shut == step
  {
    assert Reported(conn, r.op, r.env, ResultOf(r.env).degraded, r.end, r.before, r.after);
    DelayIsShutFor(r.after.streak);
  }

  /**
   A success is logged as degraded or ok by what the poll said of itself, with the number of
   rows that it added; it announces a change exactly when there is one, before its completion;
   and it opens the gate.
   */
  lemma SuccessIsLogged(conn: string, r: Record)
    requires IsCycle(conn, r) && r.end.Succeeded?
    ensures var row := r.after.attempts[|r.before.attempts|];
            && Leaves(r, row, if r.after.rows != r.before.rows then [AttentionChanged, SyncCompleted(conn)] else [SyncCompleted(conn)])
            && row.ts == r.env.now && row.conn == conn && row.operation == r.op && row.retries == 0 && row.nextRetry == None
            && row.outcome == (if ResultOf(r.env).degraded then Degraded else OK)
            && row.itemsChanged == |r.after.rows| - |r.before.rows|
            && r.after.streak == 0 && r.after.notBefore == ZERO_TIME
  {
    assert Reported(conn, r.op, r.env, ResultOf(r.env).degraded, r.end, r.before, r.after);
    CycleGrows(conn, r);
  }

  /** The log grows by appending, so it changes exactly when it gets longer. */
  lemma CycleGrows(conn: string, r: Record)
    requires IsCycle(conn, r)
    ensures r.before.rows <= r.after.rows
  {
    var result, rows := ResultOf(r.env), r.before.rows;
    InsertAllGrows(rows, conn, SaltAll(rows, conn, result.events) + r.removals, r.env.now);
    InsertAllGrows(rows, conn, result.events, r.env.now);
  }

  /** A storage failure is logged as one, with the rows that landed before it, and fails the sync. */
  lemma StorageFailureIsLogged(conn: string, r: Record)
    requires IsCycle(conn, r) && r.end.StorageFailed?
    ensures var row := r.after.attempts[|r.before.attempts|];
            && Leaves(r, row, [SyncFailed(conn)]) && r.after.cursors == r.before.cursors
            && row.ts == r.env.now && row.conn == conn && row.operation == r.op && row.outcome == StorageFailure
            && row.itemsChanged == |r.after.rows| - |r.before.rows| && row.retries == r.after.streak && row.nextRetry == None
            && (!r.end.written ==> r.after.rows == r.before.rows)
  {
    assert Reported(conn, r.op, r.env, ResultOf(r.env).degraded, r.end, r.before, r.after);
  }
}
