/** The "Handle next" zone: flagged items first, in flag order, the others as ranked. */
module Pinning {
  import opened Model
  import opened Sorting
  import opened FoldView

  /** A flagged item by its public id; the flags come in flagging order. */
  datatype Flag = Flag(id: nat, flaggedAt: Time)

  /** The place of the id among the flags, the last one when it is flagged twice; -1 when it is not flagged. */
  function Rank(flags: seq<Flag>, id: nat): (r: int)
    ensures -1 <= r < |flags|
    ensures r >= 0 ==> flags[r].id == id
    ensures forall i :: r < i < |flags| ==> flags[i].id != id
  {
    if flags == [] then -1
    else if flags[|flags| - 1].id == id then |flags| - 1
    else Rank(flags[..|flags| - 1], id)
  }

  predicate IsPinned(it: WorkItem, flags: seq<Flag>) {
    Rank(flags, it.id) >= 0
  }

  function ItemID(it: WorkItem): nat {
    it.id
  }

  function Mark(it: WorkItem, at: Option<Time>): (m: WorkItem)
    ensures m.id == it.id
  {
    it.(flagged := true, flaggedAt := at)
  }

  /** A pinned item carries the mark, and the time of its flag when that is set. */
  function Marked(it: WorkItem, flags: seq<Flag>): (m: WorkItem)
    ensures m.id == it.id
  {
    var r := Rank(flags, it.id);
    if r < 0 then it
    else Mark(it, if flags[r].flaggedAt == ZERO_TIME then it.flaggedAt else Some(flags[r].flaggedAt))
  }

  function Zone(items: seq<WorkItem>, flags: seq<Flag>): seq<WorkItem> {
    if items == [] then []
    else
      var it := items[|items| - 1];
      Zone(items[..|items| - 1], flags) + if IsPinned(it, flags) then [Marked(it, flags)] else []
  }

  function Rest(items: seq<WorkItem>, flags: seq<Flag>): seq<WorkItem> {
    if items == [] then []
    else
      var it := items[|items| - 1];
      Rest(items[..|items| - 1], flags) + if IsPinned(it, flags) then [] else [it]
  }

  function ByRank(flags: seq<Flag>): (WorkItem, WorkItem) -> bool {
    (a: WorkItem, b: WorkItem) => Rank(flags, a.id) < Rank(flags, b.id)
  }

  /** The map from flagged ids to their rank, as pin builds it. */
  method RankMap(flags: seq<Flag>) returns (ranks: map<nat, nat>)
    ensures forall id :: Rank(flags, id) == if id in ranks then ranks[id] else -1
  {
    ranks := map[];
    for i := 0 to |flags|
      invariant forall id :: Rank(flags[..i], id) == if id in ranks then ranks[id] else -1
    {
      assert flags[..i + 1][..i] == flags[..i];
      ranks := ranks[flags[i].id := i];
    }
    assert flags[..|flags|] == flags;
  }

  method Pin(items: seq<WorkItem>, flags: seq<Flag>) returns (out: seq<WorkItem>)
    ensures out == Served(items, flags)
  {
    if |flags| == 0 {
      NothingFlagged(items);
      return items;
    }
    var zone, rest := Split(items, flags);
    var a := new WorkItem[|zone|](i requires 0 <= i < |zone| => zone[i]);
    assert a[..] == zone;
    Sort(a, ByRank(flags));
    out := a[..] + rest;
  }

  method MarkItem(it: WorkItem, flag: Flag) returns (m: WorkItem)
    ensures m == Mark(it, if flag.flaggedAt == ZERO_TIME then it.flaggedAt else Some(flag.flaggedAt))
  {
    m := it.(flagged := true);
    if flag.flaggedAt != ZERO_TIME {
      m := m.(flaggedAt := Some(flag.flaggedAt));
    }
  }

  /** The flagged items, marked, and the others, each in ranked order. */
  method Split(items: seq<WorkItem>, flags: seq<Flag>) returns (zone: seq<WorkItem>, rest: seq<WorkItem>)
    ensures zone == Zone(items, flags) && rest == Rest(items, flags)
  {
    var ranks := RankMap(flags);
    zone, rest := [], [];
    for i := 0 to |items|
      invariant zone == Zone(items[..i], flags) && rest == Rest(items[..i], flags)
    {
      assert items[..i + 1][..i] == items[..i];
      var it := items[i];
      assert Rank(flags, it.id) == if it.id in ranks then ranks[it.id] else -1;
      if it.id in ranks {
        var marked := MarkItem(it, flags[ranks[it.id]]);
        zone := zone + [marked];
      } else {
        rest := rest + [it];
      }
    }
    assert items[..|items|] == items;
  }

  /** With nothing flagged the list is served as ranked. */
  lemma NothingFlagged(items: seq<WorkItem>)
    ensures Served(items, []) == items
  {
    NoZone(items);
    assert Sorted<WorkItem>([], ByRank([])) == [];
  }

  lemma {:induction false} NoZone(items: seq<WorkItem>)
    ensures Zone(items, []) == [] && Rest(items, []) == items
  {
    if items != [] {
      var init, last := items[..|items| - 1], items[|items| - 1];
      NoZone(init);
      assert !IsPinned(last, []);
      assert items == init + [last];
    }
  }

  // ---- what the zone is ----

  /** Pinning loses and repeats nothing. */
  lemma {:induction false} Partition(items: seq<WorkItem>, flags: seq<Flag>, it: WorkItem)
    ensures it in Zone(items, flags) <==> exists x :: x in items && IsPinned(x, flags) && it == Marked(x, flags)
    ensures it in Rest(items, flags) <==> it in items && !IsPinned(it, flags)
    ensures |Zone(items, flags)| + |Rest(items, flags)| == |items|
  {
    if items != [] {
      var init, last := items[..|items| - 1], items[|items| - 1];
      assert forall x :: x in items <==> x in init || x == last;
      Partition(init, flags, it);
    }
  }

  /** The other items keep their order. */
  lemma {:induction false} RestInOrder(items: seq<WorkItem>, flags: seq<Flag>, i: nat, j: nat)
    requires i < j < |Rest(items, flags)|
    ensures exists a, b :: 0 <= a < b < |items| && items[a] == Rest(items, flags)[i] && items[b] == Rest(items, flags)[j]
  {
    var init := items[..|items| - 1];
    if j < |Rest(init, flags)| {
      RestInOrder(init, flags, i, j);
      var a, b :| 0 <= a < b < |init| && init[a] == Rest(init, flags)[i] && init[b] == Rest(init, flags)[j];
      assert items[a] == init[a] && items[b] == init[b];
    } else {
      Partition(init, flags, Rest(items, flags)[i]);
      var a :| 0 <= a < |init| && init[a] == Rest(items, flags)[i];
      assert items[a] == init[a] && items[|items| - 1] == Rest(items, flags)[j];
    }
  }

  ghost predicate DistinctItems(items: seq<WorkItem>) {
    forall i, j :: 0 <= i < j < |items| ==> items[i].id != items[j].id
  }

  lemma {:induction false} ZoneDistinct(items: seq<WorkItem>, flags: seq<Flag>)
    requires DistinctItems(items)
    ensures DistinctBy(Zone(items, flags), ItemID)
  {
    if items != [] {
      var init, last := items[..|items| - 1], items[|items| - 1];
      ZoneDistinct(init, flags);
      ZoneIDs(init, flags, last.id);
      ZoneSnoc(items, flags);
      DistinctSnoc(Zone(init, flags), Marked(last, flags));
    }
  }

  lemma ZoneSnoc(items: seq<WorkItem>, flags: seq<Flag>)
    requires items != []
    ensures var init, last := items[..|items| - 1], items[|items| - 1];
            Zone(items, flags) == Zone(init, flags) || Zone(items, flags) == Zone(init, flags) + [Marked(last, flags)]
  {
    var init, last := items[..|items| - 1], items[|items| - 1];
    if IsPinned(last, flags) {
      assert Zone(items, flags) == Zone(init, flags) + [Marked(last, flags)];
    } else {
      assert Zone(init, flags) + [] == Zone(init, flags);
    }
  }

  lemma ZoneIDs(items: seq<WorkItem>, flags: seq<Flag>, id: nat)
    requires forall i :: 0 <= i < |items| ==> items[i].id != id
    ensures forall i :: 0 <= i < |Zone(items, flags)| ==> Zone(items, flags)[i].id != id
  {
    forall i | 0 <= i < |Zone(items, flags)|
      ensures Zone(items, flags)[i].id != id
    {
      Partition(items, flags, Zone(items, flags)[i]);
    }
  }

  lemma DistinctSnoc(s: seq<WorkItem>, it: WorkItem)
    requires DistinctBy(s, ItemID) && forall i :: 0 <= i < |s| ==> s[i].id != it.id
    ensures DistinctBy(s + [it], ItemID)
  {
  }

  lemma {:induction false} SortedDistinct(s: seq<WorkItem>, less: (WorkItem, WorkItem) -> bool)
    requires DistinctBy(s, ItemID)
    ensures DistinctBy(Sorted(s, less), ItemID)
  {
    SortedKeeps(s, less);
    PermutedDistinct(s, Sorted(s, less), ItemID);
  }

  /** In the sorted zone every item is pinned, and a later one was flagged later. */
  lemma ZoneInFlagOrder(items: seq<WorkItem>, flags: seq<Flag>, i: nat, j: nat)
    requires DistinctItems(items) && i < j < |Zone(items, flags)|
    ensures var zone := Sorted(Zone(items, flags), ByRank(flags));
            |zone| == |Zone(items, flags)| && 0 <= Rank(flags, zone[i].id) < Rank(flags, zone[j].id)
  {
    var zone := Sorted(Zone(items, flags), ByRank(flags));
    SortedKeeps(Zone(items, flags), ByRank(flags));
    SortedIsSorted(Zone(items, flags), ByRank(flags));
    assert !ByRank(flags)(zone[j], zone[i]);
    ZoneDistinct(items, flags);
    SortedDistinct(Zone(items, flags), ByRank(flags));
    assert zone[i] in zone && zone[j] in zone;
    Partition(items, flags, zone[i]);
    Partition(items, flags, zone[j]);
    SameRankSameID(flags, zone[i].id, zone[j].id);
  }

  lemma SameRankSameID(flags: seq<Flag>, a: nat, b: nat)
    requires Rank(flags, a) >= 0
    ensures Rank(flags, a) == Rank(flags, b) ==> a == b
  {
  }

  function Served(items: seq<WorkItem>, flags: seq<Flag>): seq<WorkItem> {
    Sorted(Zone(items, flags), ByRank(flags)) + Rest(items, flags)
  }

  /** The served list holds every item once, marked when it is flagged; a flag without a live item adds nothing. */
  lemma ServedContents(items: seq<WorkItem>, flags: seq<Flag>, y: WorkItem)
    ensures y in Served(items, flags) <==> exists x :: x in items && y == Marked(x, flags)
    ensures |Served(items, flags)| == |items|
  {
    SortedKeeps(Zone(items, flags), ByRank(flags));
    Partition(items, flags, y);
  }

  /** Flagged items come first, in the order of their flags. */
  lemma ServedOrder(items: seq<WorkItem>, flags: seq<Flag>, i: nat, j: nat)
    requires DistinctItems(items) && i < j < |Served(items, flags)|
    requires IsPinned(Served(items, flags)[j], flags)
    ensures var out := Served(items, flags);
            IsPinned(out[i], flags) && Rank(flags, out[i].id) < Rank(flags, out[j].id)
  {
    var zone, rest := Sorted(Zone(items, flags), ByRank(flags)), Rest(items, flags);
    SortedKeeps(Zone(items, flags), ByRank(flags));
    if j < |zone| {
      ZoneInFlagOrder(items, flags, i, j);
    } else {
      assert Served(items, flags)[j] == rest[j - |zone|] && rest[j - |zone|] in rest;
      Partition(items, flags, rest[j - |zone|]);
    }
  }
}
