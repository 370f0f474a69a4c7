/** Go's maps and slices where Dafny needs a word for what a loop over them visits. */
module Collections {

  ghost predicate NoDuplicates<T>(s: seq<T>) {
    forall i, j :: 0 <= i < j < |s| ==> s[i] != s[j]
  }

  /** Go's map iteration: every element once, in an arbitrary order. */
  method Listing<T(==)>(s: set<T>) returns (xs: seq<T>)
    ensures NoDuplicates(xs)
    ensures forall x :: x in xs <==> x in s
  {
    xs := [];
    var todo := s;
    while todo != {}
      invariant todo <= s
      invariant NoDuplicates(xs)
      invariant forall x :: x in xs <==> x in s && x !in todo
    {
      var x :| x in todo;
      xs := xs + [x];
      todo := todo - {x};
    }
  }

  /** The union of the first n sets. */
  ghost function Union<T>(sets: seq<set<T>>, n: nat): set<T>
    requires n <= |sets|
  {
    if n == 0 then {} else Union(sets, n - 1) + sets[n - 1]
  }

  lemma {:induction false} UnionMembers<T>(sets: seq<set<T>>, n: nat, x: T)
    requires n <= |sets|
    ensures x in Union(sets, n) <==> exists i :: 0 <= i < n && x in sets[i]
  {
    if n > 0 {
      UnionMembers(sets, n - 1, x);
    }
  }

  /** The parts one after the other. */
  function Flat<T>(parts: seq<seq<T>>): seq<T> {
    if parts == [] then [] else Flat(parts[..|parts| - 1]) + parts[|parts| - 1]
  }

  lemma {:induction false} FlatMembers<T>(parts: seq<seq<T>>, x: T)
    ensures x in Flat(parts) <==> exists i :: 0 <= i < |parts| && x in parts[i]
  {
    if parts != [] {
      var init := parts[..|parts| - 1];
      FlatMembers(init, x);
      if x in Flat(init) {
        var i :| 0 <= i < |init| && x in init[i];
        assert x in parts[i];
      }
      if i :| 0 <= i < |init| && x in parts[i] {
        assert x in init[i];
      }
    }
  }
}
