/** In-place insertion sort by a comparator, and what its result is. */
module Sorting {

  /** A comparator whose ties are transitive: what a sort needs to order everything. */
  ghost predicate StrictWeakOrder<T(!new)>(less: (T, T) -> bool) {
    && (forall a, b :: less(a, b) ==> !less(b, a))
    && (forall a, b, c :: !less(b, a) && !less(c, b) ==> !less(c, a))
  }

  ghost predicate IsSorted<T>(s: seq<T>, less: (T, T) -> bool) {
    forall i, j :: 0 <= i < j < |s| ==> !less(s[j], s[i])
  }

  /** Inserts x behind every element that is not greater. */
  function Place<T>(s: seq<T>, x: T, less: (T, T) -> bool): seq<T> {
    if s == [] || !less(x, s[|s| - 1]) then s + [x]
    else Place(s[..|s| - 1], x, less) + [s[|s| - 1]]
  }

  function Sorted<T>(s: seq<T>, less: (T, T) -> bool): seq<T> {
    if s == [] then [] else Place(Sorted(s[..|s| - 1], less), s[|s| - 1], less)
  }

  lemma {:induction false} PlaceKeeps<T>(s: seq<T>, x: T, less: (T, T) -> bool)
    ensures multiset(Place(s, x, less)) == multiset(s) + multiset{x}
    ensures |Place(s, x, less)| == |s| + 1
    ensures forall y :: y in Place(s, x, less) <==> y == x || y in s
  {
    if s != [] && less(x, s[|s| - 1]) {
      PlaceKeeps(s[..|s| - 1], x, less);
      assert s == s[..|s| - 1] + [s[|s| - 1]];
    }
  }

  lemma {:induction false} PlaceSorted<T(!new)>(s: seq<T>, x: T, less: (T, T) -> bool)
    requires StrictWeakOrder(less) && IsSorted(s, less)
    ensures IsSorted(Place(s, x, less), less)
  {
    if s == [] {
    } else if less(x, s[|s| - 1]) {
      var init, last := s[..|s| - 1], s[|s| - 1];
      PlaceSorted(init, x, less);
      PlaceKeeps(init, x, less);
      forall y | y in Place(init, x, less)
        ensures !less(last, y)
      {
        if y != x {
          var i :| 0 <= i < |init| && init[i] == y;
          assert s[i] == y;
        }
      }
    } else {
      forall i | 0 <= i < |s|
        ensures !less(x, s[i])
      {
        assert i < |s| - 1 ==> !less(s[|s| - 1], s[i]);
      }
    }
  }

  lemma {:induction false} SortedKeeps<T>(s: seq<T>, less: (T, T) -> bool)
    ensures multiset(Sorted(s, less)) == multiset(s)
    ensures |Sorted(s, less)| == |s|
    ensures forall y :: y in Sorted(s, less) <==> y in s
  {
    if s != [] {
      SortedKeeps(s[..|s| - 1], less);
      PlaceKeeps(Sorted(s[..|s| - 1], less), s[|s| - 1], less);
      assert s == s[..|s| - 1] + [s[|s| - 1]];
    }
  }

  lemma {:induction false} SortedIsSorted<T(!new)>(s: seq<T>, less: (T, T) -> bool)
    requires StrictWeakOrder(less)
    ensures IsSorted(Sorted(s, less), less)
  {
    if s != [] {
      SortedIsSorted(s[..|s| - 1], less);
      PlaceSorted(Sorted(s[..|s| - 1], less), s[|s| - 1], less);
    }
  }

  /** Moves a[n] into its place among the elements before it. */
  method PlaceInArray<T>(a: array<T>, n: nat, less: (T, T) -> bool)
    requires n < a.Length
    modifies a
    ensures a[..n + 1] == Place(old(a[..n]), old(a[n]), less)
    ensures a[n + 1..] == old(a[n + 1..])
  {
    var x := a[n];
    var j := n;
    ghost var before := a[..];
    while j > 0 && less(x, a[j - 1])
      invariant 0 <= j <= n
      invariant forall i :: 0 <= i < j ==> a[i] == before[i]
      invariant forall i :: j < i <= n ==> a[i] == before[i - 1]
      invariant forall i :: n < i < a.Length ==> a[i] == before[i]
      invariant Place(before[..n], x, less) == Place(before[..j], x, less) + before[j..n]
    {
      PlaceStep(before, j, n, x, less);
      a[j] := a[j - 1];
      j := j - 1;
    }
    a[j] := x;
    assert Place(before[..j], x, less) == before[..j] + [x];
    Assembled(a[..n + 1], before, j, n, x);
  }

  /** One more element of the prefix is greater than x. */
  lemma PlaceStep<T>(s: seq<T>, j: nat, n: nat, x: T, less: (T, T) -> bool)
    requires 0 < j <= n <= |s| && less(x, s[j - 1])
    requires Place(s[..n], x, less) == Place(s[..j], x, less) + s[j..n]
    ensures Place(s[..n], x, less) == Place(s[..j - 1], x, less) + s[j - 1..n]
  {
    assert s[..j][..j - 1] == s[..j - 1];
    assert s[j - 1..n] == [s[j - 1]] + s[j..n];
  }

  lemma Assembled<T>(s: seq<T>, before: seq<T>, j: nat, n: nat, x: T)
    requires j <= n < |before| && |s| == n + 1
    requires forall i :: 0 <= i < j ==> s[i] == before[i]
    requires s[j] == x
    requires forall i :: j < i <= n ==> s[i] == before[i - 1]
    ensures s == before[..j] + [x] + before[j..n]
  {
  }

  method Sort<T>(a: array<T>, less: (T, T) -> bool)
    modifies a
    ensures a[..] == Sorted(old(a[..]), less)
  {
    ghost var before := a[..];
    for n := 0 to a.Length
      invariant a[..n] == Sorted(before[..n], less)
      invariant a[n..] == before[n..]
    {
      assert a[n] == a[n..][0] == before[n];
      assert before[..n + 1][..n] == before[..n];
      PlaceInArray(a, n, less);
      assert before[n + 1..] == before[n..][1..];
    }
    assert a[..a.Length] == a[..];
    assert before[..a.Length] == before;
  }

  // ---- permutations of sequences whose elements differ in a key ----

  ghost predicate DistinctBy<T, K>(s: seq<T>, key: T -> K) {
    forall i, j :: 0 <= i < j < |s| ==> key(s[i]) != key(s[j])
  }

  lemma TwiceCounted<T>(s: seq<T>, i: int, j: int)
    requires 0 <= i < j < |s|
    ensures s[i] == s[j] ==> multiset(s)[s[i]] >= 2
  {
    assert s == s[..i] + [s[i]] + s[i + 1..j] + [s[j]] + s[j + 1..];
  }

  lemma {:induction false} CountedOnce<T, K>(s: seq<T>, key: T -> K, x: T)
    requires DistinctBy(s, key)
    ensures multiset(s)[x] <= 1
  {
    if s != [] {
      var init, last := s[..|s| - 1], s[|s| - 1];
      assert s == init + [last];
      CountedOnce(init, key, x);
      assert forall i :: 0 <= i < |init| ==> key(init[i]) != key(last);
      assert last !in multiset(init);
    }
  }

  /** Rearranging keeps keys distinct. */
  lemma PermutedDistinct<T, K>(s: seq<T>, perm: seq<T>, key: T -> K)
    requires DistinctBy(s, key) && multiset(perm) == multiset(s)
    ensures DistinctBy(perm, key)
  {
    forall i, j | 0 <= i < j < |perm|
      ensures key(perm[i]) != key(perm[j])
    {
      assert perm[i] in multiset(perm) && perm[j] in multiset(perm);
      CountedOnce(s, key, perm[i]);
      TwiceCounted(perm, i, j);
      var a :| 0 <= a < |s| && s[a] == perm[i];
      var b :| 0 <= b < |s| && s[b] == perm[j];
      assert a != b;
    }
  }
}
