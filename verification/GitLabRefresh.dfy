/** The open-set refresh of a GitLab notification poll: cached items that no todo covered, read again by GraphQL alone. */
module GitLabRefresh {
  import opened Model
  import opened Collections
  import opened GitLabVerdicts
  import opened GitLab

  // ---- todos ----

  datatype TodoAction = MentionedTodo | DirectlyAddressed | ReviewRequestedTodo | ReviewSubmittedTodo | AssignedTodo | BuildFailed | OtherAction

  /** A merge-request todo with its fetched detail; `id` is in decimal. */
  datatype Todo = Todo(id: string, action: TodoAction, at: Option<Time>, author: string, nativeID: string, facts: Payload)

  /** The snapshot event of a payload. */
  function SnapshotEvent(nid: string, pl: Payload): Event {
    Event(MERGE_REQUEST, nid, ItemObserved, pl.providerUpdatedAt, pl.author, FactsKey(pl), Snapshot(pl))
  }

  function TodoSignal(t: Todo): seq<Event> {
    match t.action
    case MentionedTodo => [ActionSignal(t, Mentioned, "signal.mentioned")]
    case DirectlyAddressed => [ActionSignal(t, Mentioned, "signal.mentioned")]
    case ReviewRequestedTodo => [ActionSignal(t, ReviewRequestedSignal, "signal.review_requested")]
    case ReviewSubmittedTodo => [ActionSignal(t, ReviewSubmittedSignal, "signal.review_submitted")]
    case AssignedTodo => [ActionSignal(t, Assigned, "signal.assigned")]
    case BuildFailed => [ActionSignal(t, CIFailed, "signal.ci_failed")]
    case OtherAction => []
  }

  function ActionSignal(t: Todo, kind: SignalKind, name: string): Event {
    Event(MERGE_REQUEST, t.nativeID, Signal(kind), t.at, t.author, TextKey(name + ":todo:" + t.id), Opaque)
  }

  function TodoEvents(t: Todo): seq<Event> {
    [SnapshotEvent(t.nativeID, t.facts)] + TodoSignal(t)
  }

  /** What the todos hand to the join. */
  function TodoRest(todos: seq<Todo>): seq<Event> {
    if todos == [] then []
    else
      var t := todos[|todos| - 1];
      TodoRest(todos[..|todos| - 1]) + TodoEvents(t)
  }

  /** The items that a todo found no longer open. */
  function Gone(todos: seq<Todo>): set<string> {
    set t | t in todos && t.facts.state != Open :: t.nativeID
  }

  /** The todos up to the first one whose detail could not be fetched. */
  function Fetched(todos: seq<Option<Todo>>): seq<Todo> {
    if todos == [] || todos[0].None? then [] else [todos[0].value] + Fetched(todos[1..])
  }

  /** The first todos were fetched, and then they end or the next one was not. */
  predicate IsFetched(done: seq<Todo>, todos: seq<Option<Todo>>) {
    && |done| <= |todos| && (forall i :: 0 <= i < |done| ==> todos[i] == Some(done[i]))
    && (|done| < |todos| ==> todos[|done|].None?)
  }

  lemma {:induction false} FetchedIs(done: seq<Todo>, todos: seq<Option<Todo>>)
    requires IsFetched(done, todos)
    ensures Fetched(todos) == done
  {
    if done != [] {
      assert todos[0] == Some(done[0]);
      assert forall i :: 0 <= i < |done| - 1 ==> todos[1..][i] == todos[i + 1];
      FetchedIs(done[1..], todos[1..]);
    }
  }

  lemma TodoRestSnoc(todos: seq<Todo>, t: Todo)
    ensures TodoRest(todos + [t]) == TodoRest(todos) + TodoEvents(t)
  {
    assert (todos + [t])[..|todos|] == todos;
  }

  lemma GoneSnoc(todos: seq<Todo>, t: Todo)
    ensures Gone(todos + [t]) == Gone(todos) + if t.facts.state != Open then {t.nativeID} else {}
  {
    assert forall x :: x in todos + [t] <==> x in todos || x == t;
  }

  // ---- the refresh ----

  /** The refresh's own read of a cached snapshot: the volatile fields anew, the gate as cached. */
  function RefreshEvent(ev: Event, mr: Mr, handle: string): Event {
    if ev.body.Snapshot? then SnapshotEvent(ev.nativeID, ApplyGraphQL(ev.body.facts, mr, handle)) else ev
  }

  /** The items that a poll's output covers. */
  function Covered(events: seq<Event>): set<string> {
    set e | e in events && e.eventType == ItemObserved :: e.nativeID
  }

  predicate Refreshable(cache: Cache, covered: set<string>, nid: string) {
    nid in cache && nid !in covered && Parseable(nid)
  }

  predicate IsCachedEvent(ev: Event, cache: Cache, covered: set<string>) {
    Refreshable(cache, covered, ev.nativeID) && ev == SnapshotEvent(ev.nativeID, cache[ev.nativeID])
  }

  predicate ListsItem(cached: seq<Event>, nid: string) {
    exists i :: 0 <= i < |cached| && cached[i].nativeID == nid
  }

  /** The snapshots to refresh: those of cached, parseable items that are not covered, each once, in the map's order. */
  ghost predicate IsOpenList(cached: seq<Event>, cache: Cache, covered: set<string>) {
    && (forall i :: 0 <= i < |cached| ==> IsCachedEvent(cached[i], cache, covered))
    && (forall i, j :: 0 <= i < j < |cached| ==> cached[i].nativeID != cached[j].nativeID)
    && (forall nid :: Refreshable(cache, covered, nid) ==> ListsItem(cached, nid))
  }

  predicate AllOpen(cache: Cache) {
    forall nid :: nid in cache ==> cache[nid].state == Open
  }

  /** What the refresh read and, item by item, the verdict signals it emitted. */
  datatype Refresh = Refresh(cached: seq<Event>, results: map<int, Mr>, degraded: bool, parts: seq<seq<Event>>)

  const NO_REFRESH := Refresh([], map[], false, [])

  predicate Answered(results: map<int, Mr>, i: int) {
    i in results && !results[i].archived
  }

  /** The refresh's output: behind each answered item's snapshot its verdict signals. */
  function Interleaved(cached: seq<Event>, n: nat, results: map<int, Mr>, handle: string, parts: seq<seq<Event>>): seq<Event>
    requires n <= |cached| && n <= |parts|
  {
    if n == 0 then []
    else
      Interleaved(cached, n - 1, results, handle, parts)
      + (if Answered(results, n - 1) then [RefreshEvent(cached[n - 1], results[n - 1], handle)] else [])
      + parts[n - 1]
  }

  function RefreshOutput(r: Refresh, handle: string): seq<Event> {
    if |r.parts| == |r.cached| then Interleaved(r.cached, |r.cached|, r.results, handle, r.parts) else []
  }

  /** The event is the snapshot that the refresh made of answered item i. */
  predicate ShotAt(r: Refresh, i: int, handle: string, e: Event) {
    0 <= i < |r.cached| && Answered(r.results, i) && e == RefreshEvent(r.cached[i], r.results[i], handle)
  }

  ghost predicate IsShot(r: Refresh, handle: string, e: Event) {
    exists i :: ShotAt(r, i, handle, e)
  }

  ghost predicate IsRefresh(r: Refresh, cache: Cache, covered: set<string>, baselines: map<string, Verdicts>, forge: Forge) {
    && IsOpenList(r.cached, cache, covered)
    && IsPerItemJoin(r.results, ItemsOf(r.cached), |ItemsOf(r.cached)|, forge, BATCH_SIZE)
    && (r.degraded <==> exists n :: 0 <= n < |ItemsOf(r.cached)| && !BatchAnswered(forge, BATCH_SIZE, n))
    && SplitBySteps(r.parts, Flat(r.parts), baselines, r.cached, |r.cached|, r.results, forge.notes)
  }

  /** Every cached item takes part in the batches. */
  lemma {:induction false} AllListed(events: seq<Event>)
    requires forall i :: 0 <= i < |events| ==> Joinable(events[i])
    ensures ItemsOf(events) == seq(|events|, i => i)
  {
    if events != [] {
      AllListed(events[..|events| - 1]);
    }
  }

  lemma {:induction false} CacheAllOpen(cache: Cache, events: seq<Event>)
    requires AllOpen(cache)
    ensures AllOpen(CacheAll(cache, events))
  {
    if events != [] {
      CacheAllOpen(cache, events[..|events| - 1]);
    }
  }

  lemma InterleavedPrefix(cached: seq<Event>, n: nat, results: map<int, Mr>, handle: string, parts: seq<seq<Event>>, part: seq<Event>)
    requires n <= |cached| && n == |parts|
    ensures Interleaved(cached, n, results, handle, parts + [part]) == Interleaved(cached, n, results, handle, parts)
  {
    InterleavedSame(cached, n, results, handle, parts, parts + [part]);
  }

  lemma {:induction false} InterleavedSame(cached: seq<Event>, n: nat, results: map<int, Mr>, handle: string,
                                           parts: seq<seq<Event>>, parts': seq<seq<Event>>)
    requires n <= |cached| && n <= |parts| && parts <= parts'
    ensures Interleaved(cached, n, results, handle, parts') == Interleaved(cached, n, results, handle, parts)
  {
    if n > 0 {
      InterleavedSame(cached, n - 1, results, handle, parts, parts');
    }
  }

  /** What the refresh emits: snapshots of answered items, and verdict signals. */
  lemma {:induction false} InterleavedMembers(cached: seq<Event>, n: nat, results: map<int, Mr>, handle: string,
                                              parts: seq<seq<Event>>, e: Event)
    requires n <= |cached| && n <= |parts|
    ensures e in Interleaved(cached, n, results, handle, parts) <==>
            || (exists i :: 0 <= i < n && Answered(results, i) && e == RefreshEvent(cached[i], results[i], handle))
            || (exists i :: 0 <= i < n && e in parts[i])
  {
    if n > 0 {
      InterleavedMembers(cached, n - 1, results, handle, parts, e);
    }
  }
}
