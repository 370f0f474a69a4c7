/** The retry policy of dashboard loads. Times and delays are in milliseconds. */
module Retry {
  import opened Arithmetic
  import opened Model

  const EXP_CAP := 30_000
  const HINT_CAP := 60_000

  /** What a request may throw; a status comes with the server's retry hint, if it gave one. */
  datatype Failure = Aborted | Status(code: int, retryAfter: Option<int>) | Network | OtherFailure

  predicate IsRetriable(err: Failure) {
    match err
    case Aborted => false
    case Status(code, _) => code in {429, 500, 502, 503, 504}
    case Network => true
    case OtherFailure => false
  }

  function RetryHint(err: Failure): Option<int> {
    match err
    case Status(_, Some(hint)) => if hint > 0 then Some(hint) else None
    case _ => None
  }

  function RetryDelay(attempt: nat, hint: Option<int>): int {
    var exp := Min(EXP_CAP, 1000 * Pow2(attempt));
    if hint.None? || hint.value <= 0 then exp else Max(exp, Min(hint.value, HINT_CAP))
  }

  /**
   Every delay lies between one second and one minute, honours the hint up to a minute, and
   exceeds half a minute only for a hint.
   */
  lemma DelayBounds(attempt: nat, hint: Option<int>)
    ensures 1000 <= RetryDelay(attempt, hint) <= HINT_CAP
    ensures hint.Some? ==> Min(hint.value, HINT_CAP) <= RetryDelay(attempt, hint)
    ensures RetryDelay(attempt, hint) > EXP_CAP ==> hint.Some? && RetryDelay(attempt, hint) == Min(hint.value, HINT_CAP)
  {
    assert 1000 * Pow2(attempt) >= 1000;
  }

  /** Without a hint the delay never shrinks as attempts grow, and from the fifth on it is the cap. */
  lemma {:induction false} DelayGrows(attempt: nat, more: nat)
    requires attempt <= more
    ensures RetryDelay(attempt, None) <= RetryDelay(more, None)
    ensures attempt >= 5 ==> RetryDelay(attempt, None) == EXP_CAP
  {
    if attempt < more {
      DelayGrows(attempt, more - 1);
    } else if attempt > 5 {
      DelayGrows(attempt - 1, attempt - 1);
    } else if attempt == 5 {
      assert Pow2(1) == 2 && Pow2(2) == 4 && Pow2(3) == 8 && Pow2(4) == 16 && Pow2(5) == 32;
    }
  }

  /** The schedule: one second, doubled with each attempt, and half a minute from the sixth on; a hint of up to a minute is a floor. */
  lemma DelayValues(attempt: nat, hint: Option<int>)
    ensures RetryDelay(0, None) == 1_000 && RetryDelay(1, None) == 2_000 && RetryDelay(2, None) == 4_000
    ensures RetryDelay(3, None) == 8_000 && RetryDelay(4, None) == 16_000
    ensures attempt >= 5 ==> RetryDelay(attempt, None) == 30_000
    ensures hint.Some? && RetryDelay(attempt, None) <= hint.value <= 60_000 ==> RetryDelay(attempt, hint) == hint.value
    ensures hint.Some? && hint.value > 60_000 ==> RetryDelay(attempt, hint) == 60_000
    ensures hint.Some? && hint.value < RetryDelay(attempt, None) ==> RetryDelay(attempt, hint) == RetryDelay(attempt, None)
  {
    assert Pow2(0) == 1 && Pow2(1) == 2 && Pow2(2) == 4 && Pow2(3) == 8 && Pow2(4) == 16;
    if attempt >= 5 {
      DelayGrows(attempt, attempt);
    }
    DelayBounds(attempt, hint);
  }
}
