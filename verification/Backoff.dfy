/** The retry gate of a connection, and how far apart consecutive failures must lie. */
module Backoff {
  import opened Arithmetic
  import opened Model

  /** Durations and times are in seconds. */
  const MINUTE: int := 60

  const MAX_BACKOFF_SHIFT: nat := 4

  /** The exponential component for a streak of failures. */
  function Delay(streak: nat): int
    requires streak >= 1
  {
    MINUTE * Pow2(Min(streak - 1, MAX_BACKOFF_SHIFT))
  }

  /** The wait after a failure: the exponential step, or the provider's floor when that is longer. */
  function Wait(streak: nat, hint: Option<int>): (d: int)
    requires streak >= 1
    ensures d >= Delay(streak)
    ensures hint.Some? ==> d >= hint.value
    ensures d == Delay(streak) || hint == Some(d)
  {
    if hint.Some? && hint.value > Delay(streak) then hint.value else Delay(streak)
  }

  class RetryGate {
    var notBefore: Time
    var streak: nat

    constructor ()
      ensures notBefore == ZERO_TIME && streak == 0
    {
      notBefore, streak := ZERO_TIME, 0;
    }

    predicate Ready(now: Time)
      reads this
    {
      now >= notBefore
    }

    method Reset()
      modifies this
      ensures notBefore == ZERO_TIME && streak == 0
    {
      streak := 0;
      notBefore := ZERO_TIME;
    }

    method Bump(now: Time)
      modifies this
      ensures streak == old(streak) + 1
      ensures notBefore == now + Wait(streak, None)
    {
      streak := streak + 1;
      notBefore := now + Delay(streak);
    }

    method RateLimit(now: Time, hint: Option<int>) returns (d: int)
      modifies this
      ensures streak == old(streak) + 1
      ensures d == Wait(streak, hint)
      ensures notBefore == now + d
    {
      streak := streak + 1;
      d := Delay(streak);
      if hint.Some? && hint.value > d {
        d := hint.value;
      }
      notBefore := now + d;
    }
  }

  // ---- how far apart failures lie ----

  /** The least number of minutes between the first failure and the one m places after it. */
  function Bound(m: nat): nat {
    if m <= 5 then Pow2(m) - 1 else 31 + 16 * (m - 5)
  }

  lemma {:induction false} Pow2Monotone(a: nat, b: nat)
    requires a <= b
    ensures 1 <= Pow2(a) <= Pow2(b)
  {
    if a < b {
      Pow2Monotone(a, b - 1);
    } else if a > 0 {
      Pow2Monotone(a - 1, b - 1);
    }
  }

  /** One more failure, with the wait that its streak earns, carries the bound one place on. */
  lemma BoundStep(streak0: nat, m: nat)
    requires m >= 1
    ensures MINUTE * Bound(m) <= MINUTE * Bound(m - 1) + Delay(streak0 + m)
  {
    Pow2Monotone(Min(m - 1, 4), Min(streak0 + m - 1, MAX_BACKOFF_SHIFT));
    assert Pow2(4) == 16 && Pow2(5) == 32;
    assert Bound(m) == Bound(m - 1) + Pow2(Min(m - 1, 4));
  }

  /** The streak from health, each cycle starting as soon as the gate opens and failing at once. */
  function Tightest(start: Time, m: nat): Time {
    if m == 0 then start else Tightest(start, m - 1) + Delay(m)
  }

  /** The bound is met exactly, so no larger one holds. */
  lemma {:induction false} BoundIsTight(start: Time, m: nat)
    ensures Tightest(start, m) == start + MINUTE * Bound(m)
  {
    if m > 0 {
      BoundIsTight(start, m - 1);
      assert Pow2(4) == 16 && Pow2(5) == 32;
      assert Bound(m) == Bound(m - 1) + Pow2(Min(m - 1, 4));
    }
  }
}
