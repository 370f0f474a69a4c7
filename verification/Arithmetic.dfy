/** Powers of two, minima, and the batch that an index falls into. */
module Arithmetic {

  function Pow2(n: nat): (p: nat)
    ensures p >= 1
  {
    if n == 0 then 1 else 2 * Pow2(n - 1)
  }

  function Min(a: int, b: int): int {
    if a <= b then a else b
  }

  function Max(a: int, b: int): int {
    if a >= b then a else b
  }

  lemma MulMonotone(a: int, b: int, size: nat)
    ensures a <= b ==> a * size <= b * size
  {
  }

  /** Batch k of the given size starts at k * size and holds the indices that round down to it. */
  lemma InBatch(k: nat, size: nat, start: nat, end: nat)
    requires size > 0 && start == k * size && end <= start + size
    ensures forall i :: start <= i < end ==> i / size * size == start
    ensures start / size * size == start
    ensures (k + 1) * size == start + size
  {
    forall i | start <= i < start + size
      ensures i / size * size == start
    {
      MulMonotone(i / size + 1, k, size);
      MulMonotone(k + 1, i / size, size);
    }
  }
}
