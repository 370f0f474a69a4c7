/** What a join may do to a sweep: rewrite the facts of its snapshots, drop archived items, and append signals. */
module JoinOrder {
  import opened Model
  import opened Reaping

  /** The first n events without those of archived items. */
  function Unarchived(events: seq<Event>, n: nat, archived: set<string>): seq<Event>
    requires n <= |events|
  {
    if n == 0 then []
    else Unarchived(events, n - 1, archived) + if events[n - 1].nativeID in archived then [] else [events[n - 1]]
  }

  /** The join may rewrite a snapshot's facts and key; an event of another type it leaves alone. */
  predicate SameEvent(a: Event, b: Event) {
    && a.nativeID == b.nativeID && a.objectType == b.objectType && a.eventType == b.eventType
    && a.occurredAt == b.occurredAt && a.actor == b.actor
    && (a.eventType != ItemObserved ==> a == b)
  }

  ghost predicate InOrder(out: seq<Event>, kept: seq<Event>) {
    |out| == |kept| && forall i :: 0 <= i < |out| ==> SameEvent(out[i], kept[i])
  }

  lemma {:induction false} UnarchivedMembers(events: seq<Event>, n: nat, archived: set<string>, e: Event)
    requires n <= |events|
    ensures e in Unarchived(events, n, archived) <==> e in events[..n] && e.nativeID !in archived
  {
    if n > 0 {
      UnarchivedMembers(events, n - 1, archived, e);
      assert events[..n] == events[..n - 1] + [events[n - 1]];
    }
  }

  /** The swept set of such an output is that of the sweep without the archived items. */
  lemma KeptSweep(events: seq<Event>, survivors: seq<Event>, signals: seq<Event>, archived: set<string>)
    requires InOrder(survivors, Unarchived(events, |events|, archived))
    requires forall e :: e in signals ==> e.eventType.Signal?
    ensures Swept(survivors + signals) == Swept(events) - archived
  {
    var out, kept := survivors + signals, Unarchived(events, |events|, archived);
    assert events[..|events|] == events;
    forall nid | nid in Swept(out)
      ensures nid in Swept(events) - archived
    {
      var e :| e in out && e.eventType == ItemObserved && e.nativeID == nid;
      var i :| 0 <= i < |survivors| && survivors[i] == e;
      UnarchivedMembers(events, |events|, archived, kept[i]);
      assert kept[i] in kept;
    }
    forall nid | nid in Swept(events) - archived
      ensures nid in Swept(out)
    {
      var e :| e in events && e.eventType == ItemObserved && e.nativeID == nid;
      UnarchivedMembers(events, |events|, archived, e);
      var i :| 0 <= i < |kept| && kept[i] == e;
      assert SameEvent(survivors[i], e) && survivors[i] in out;
    }
  }
}
