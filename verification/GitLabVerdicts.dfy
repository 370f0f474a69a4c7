/**
 The GitLab verdict machine: per merge request a baseline of reviewers' verdicts, and a
 signal, dated by the system note, when a verdict differs from it.
 */
module GitLabVerdicts {
  import opened Model
  import opened Collections

  /** Each actor's current verdict: Approved or ChangesRequested. */
  type Verdicts = map<string, Verdict>

  datatype ReviewerNode = ReviewerNode(username: string, requestedChanges: bool)

  /** The part of the GraphQL node that holds verdicts. */
  datatype VerdictNode = VerdictNode(approvedBy: seq<string>, reviewers: seq<ReviewerNode>)

  datatype NoteBody = ApprovedNote | RequestedChangesNote | OtherNote

  /** A note of the merge request, its id in decimal; createdAt is None when it does not parse. */
  datatype Note = Note(id: string, system: bool, body: NoteBody, author: string, createdAt: Option<Time>)

  /** currentVerdictSet: a request for changes outweighs an approval. */
  ghost predicate IsCurrentSet(current: Verdicts, node: VerdictNode) {
    forall a ::
      && (a in current <==> a in node.approvedBy || ReviewerNode(a, true) in node.reviewers)
      && (a in current ==> current[a] == if ReviewerNode(a, true) in node.reviewers then ChangesRequested else Approved)
  }

  method CurrentVerdictSet(node: VerdictNode) returns (current: Verdicts)
    ensures IsCurrentSet(current, node)
  {
    current := map[];
    for n := 0 to |node.approvedBy|
      invariant forall a :: a in current <==> a in node.approvedBy[..n]
      invariant forall a :: a in current ==> current[a] == Approved
    {
      assert node.approvedBy[..n + 1] == node.approvedBy[..n] + [node.approvedBy[n]];
      current := current[node.approvedBy[n] := Approved];
    }
    assert node.approvedBy[..|node.approvedBy|] == node.approvedBy;
    for n := 0 to |node.reviewers|
      invariant IsCurrentSet(current, VerdictNode(node.approvedBy, node.reviewers[..n]))
    {
      assert node.reviewers[..n + 1] == node.reviewers[..n] + [node.reviewers[n]];
      if node.reviewers[n].requestedChanges {
        current := current[node.reviewers[n].username := ChangesRequested];
      }
    }
    assert node.reviewers[..|node.reviewers|] == node.reviewers;
  }

  // ---- one step, as a function ----

  /** The baseline without the actors that left the verdict set. */
  function Evicted(baseline: Verdicts, current: Verdicts): Verdicts {
    map a | a in baseline && a in current :: baseline[a]
  }

  /** The actors whose current verdict differs from the baseline. */
  function Changed(current: Verdicts, baseline: Verdicts): set<string> {
    set a | a in current && !(a in baseline && baseline[a] == current[a])
  }

  /** The baseline after a step. `notes` is None when the fetch failed. */
  function NextBaseline(baseline: Option<Verdicts>, current: Verdicts, notes: Option<seq<Note>>): Verdicts {
    match baseline
    case None => current
    case Some(b) =>
      var kept := Evicted(b, current);
      if Changed(current, kept) == {} || notes.None? then kept else current
  }

  function WantedBody(v: Verdict): NoteBody {
    if v == ChangesRequested then RequestedChangesNote else ApprovedNote
  }

  predicate MatchesNote(n: Note, actor: string, v: Verdict) {
    n.system && n.author == actor && n.body == WantedBody(v)
  }

  /** The first matching note, notes being listed newest first. */
  function FirstMatch(notes: seq<Note>, actor: string, v: Verdict): Option<Note> {
    if notes == [] then None
    else if MatchesNote(notes[0], actor, v) then Some(notes[0])
    else FirstMatch(notes[1..], actor, v)
  }

  /** The signal of a matched note; none when its date does not parse. */
  function VerdictEvent(nid: string, actor: string, v: Verdict, n: Note): Option<Event> {
    if n.createdAt.None? then None
    else if v == Approved then
      Some(Event(MERGE_REQUEST, nid, Signal(ApprovedSignal), n.createdAt, actor,
                 TextKey("signal.approved:note:" + n.id), Opaque))
    else
      Some(Event(MERGE_REQUEST, nid, Signal(ChangesRequestedSignal), n.createdAt, actor,
                 TextKey("signal.changes_requested:note:" + n.id), Opaque))
  }

  /** The signal that a step emits for an actor. */
  function SignalFor(nid: string, baseline: Option<Verdicts>, current: Verdicts, notes: Option<seq<Note>>, actor: string): Option<Event> {
    if baseline.None? || notes.None? || actor !in Changed(current, Evicted(baseline.value, current)) then None
    else match FirstMatch(notes.value, actor, current[actor])
      case None => None
      case Some(n) => VerdictEvent(nid, actor, current[actor], n)
  }

  /** The signals of a step, one per actor that has one, in any order. */
  ghost predicate IsEmission(signals: seq<Event>, nid: string, baseline: Option<Verdicts>, current: Verdicts, notes: Option<seq<Note>>) {
    && (forall i :: 0 <= i < |signals| ==> SignalFor(nid, baseline, current, notes, signals[i].actor) == Some(signals[i]))
    && (forall i, j :: 0 <= i < j < |signals| ==> signals[i].actor != signals[j].actor)
    && (forall a :: SignalFor(nid, baseline, current, notes, a).Some? ==> SignalFor(nid, baseline, current, notes, a).value in signals)
  }

  // ---- the machine ----

  class VerdictMachine {
    var baselines: map<string, Verdicts>

    constructor ()
      ensures baselines == map[]
    {
      baselines := map[];
    }

    ghost function BaselineOf(nid: string): Option<Verdicts>
      reads this
    {
      if nid in baselines then Some(baselines[nid]) else None
    }

    /** Deletes in place the actors that left. */
    method Evict(nid: string, current: Verdicts)
      requires nid in baselines
      modifies this
      ensures baselines == old(baselines)[nid := Evicted(old(baselines)[nid], current)]
    {
      var baseline := baselines[nid];
      var todo := baseline.Keys;
      while todo != {}
        invariant nid in baselines && todo <= baselines[nid].Keys
        invariant baselines == old(baselines)[nid := baselines[nid]]
        invariant forall a :: a in baselines[nid] <==> a in baseline && (a in todo || a in current)
        invariant forall a :: a in baselines[nid] ==> baselines[nid][a] == baseline[a]
      {
        var a :| a in todo;
        todo := todo - {a};
        if a !in current {
          baselines := baselines[nid := baselines[nid] - {a}];
        }
      }
      assert baselines[nid] == Evicted(baseline, current);
    }

    method ChangedVerdicts(current: Verdicts, baseline: Verdicts) returns (changed: seq<string>)
      ensures NoDuplicates(changed)
      ensures forall a :: a in changed <==> a in Changed(current, baseline)
    {
      changed := Listing(set a | a in current && !(a in baseline && baseline[a] == current[a]));
    }

    /** Scans the notes newest first and keeps the first match of each changed actor. */
    method MatchVerdictNotes(notes: seq<Note>, changed: seq<string>, current: Verdicts) returns (matched: map<string, Note>)
      requires forall a :: a in changed ==> a in current
      ensures forall a :: a in matched ==> a in changed
      ensures forall a :: a in changed ==>
                FirstMatch(notes, a, current[a]) == if a in matched then Some(matched[a]) else None
    {
      matched := map[];
      for i := 0 to |notes|
        invariant forall a :: a in matched ==> a in changed
        invariant forall a :: a in changed ==>
                    FirstMatch(notes[..i], a, current[a]) == if a in matched then Some(matched[a]) else None
      {
        ghost var before := matched;
        assert notes[..i + 1] == notes[..i] + [notes[i]];
        forall a | a in changed
          ensures FirstMatch(notes[..i + 1], a, current[a]) ==
                  if FirstMatch(notes[..i], a, current[a]).Some? then FirstMatch(notes[..i], a, current[a])
                  else if MatchesNote(notes[i], a, current[a]) then Some(notes[i]) else None
        {
          FirstMatchAppend(notes[..i], notes[i], a, current[a]);
        }
        if notes[i].system {
          for j := 0 to |changed|
            invariant forall a :: a in matched ==> a in changed
            invariant forall a :: a in changed[..j] ==>
                        FirstMatch(notes[..i + 1], a, current[a]) == if a in matched then Some(matched[a]) else None
            invariant forall a :: a in changed && a !in changed[..j] ==> (a in matched <==> a in before) && (a in before ==> matched[a] == before[a])
          {
            var a := changed[j];
            assert changed[..j + 1] == changed[..j] + [a];
            if a !in matched && notes[i].author == a && notes[i].body == WantedBody(current[a]) {
              matched := matched[a := notes[i]];
            }
          }
          assert changed[..|changed|] == changed;
        }
      }
      assert notes[..|notes|] == notes;
    }

    /** One verdict step of one merge request; `notes` answers the fetch if there is one. */
    method EmitNewVerdictSignals(nid: string, node: VerdictNode, draft: bool, notes: Option<seq<Note>>)
      returns (signals: seq<Event>, ghost current: Verdicts)
      modifies this
      ensures IsCurrentSet(current, node)
      ensures draft ==> signals == [] && baselines == old(baselines)
      ensures !draft ==> baselines == old(baselines)[nid := NextBaseline(old(BaselineOf(nid)), current, notes)]
      ensures !draft ==> IsEmission(signals, nid, old(BaselineOf(nid)), current, notes)
    {
      var verdicts := CurrentVerdictSet(node);
      current := verdicts;
      signals := [];
      if draft {
        return;
      }
      if nid !in baselines {
        baselines := baselines[nid := verdicts];
        return;
      }
      Evict(nid, verdicts);
      var changed := ChangedVerdicts(verdicts, baselines[nid]);
      if |changed| == 0 {
        NothingChanged(changed, verdicts, baselines[nid]);
        return;
      }
      assert changed[0] in changed;
      if notes.None? {
        return;
      }
      signals := Announce(nid, changed, verdicts, notes.value);
      AnnouncementIsEmission(signals, nid, changed, old(baselines)[nid], verdicts, notes.value);
      baselines := baselines[nid := verdicts];
    }

    /** The emission loop over the changed actors. */
    method Announce(nid: string, changed: seq<string>, current: Verdicts, notes: seq<Note>) returns (signals: seq<Event>)
      requires NoDuplicates(changed) && forall a :: a in changed ==> a in current
      ensures IsAnnouncement(signals, nid, changed, current, notes)
    {
      var matched := MatchVerdictNotes(notes, changed, current);
      signals := [];
      for n := 0 to |changed|
        invariant IsAnnouncement(signals, nid, changed[..n], current, notes)
      {
        var actor := changed[n];
        assert changed[..n + 1] == changed[..n] + [actor];
        assert actor in changed && actor !in changed[..n];
        AnnouncementStep(signals, nid, changed[..n], actor, current, notes);
        if actor in matched {
          var ev := VerdictEvent(nid, actor, current[actor], matched[actor]);
          if ev.Some? {
            signals := signals + [ev.value];
          }
        }
      }
      assert changed[..|changed|] == changed;
    }
  }

  /** The announced signals of the actors handled so far, one each. */
  ghost predicate IsAnnouncement(signals: seq<Event>, nid: string, done: seq<string>, current: Verdicts, notes: seq<Note>) {
    && (forall i :: 0 <= i < |signals| ==>
          signals[i].actor in done && AnnouncedFor(nid, current, notes, signals[i].actor) == Some(signals[i]))
    && (forall i, j :: 0 <= i < j < |signals| ==> signals[i].actor != signals[j].actor)
    && (forall a :: a in done && AnnouncedFor(nid, current, notes, a).Some? ==> AnnouncedFor(nid, current, notes, a).value in signals)
  }

  lemma AnnouncedActor(nid: string, current: Verdicts, notes: seq<Note>, actor: string)
    ensures var ev := AnnouncedFor(nid, current, notes, actor); ev.Some? ==> ev.value.actor == actor
  {
  }

  lemma AnnouncementStep(signals: seq<Event>, nid: string, done: seq<string>, actor: string, current: Verdicts, notes: seq<Note>)
    requires IsAnnouncement(signals, nid, done, current, notes) && actor !in done
    ensures var ev := AnnouncedFor(nid, current, notes, actor);
            IsAnnouncement(if ev.Some? then signals + [ev.value] else signals, nid, done + [actor], current, notes)
  {
    var ev := AnnouncedFor(nid, current, notes, actor);
    AnnouncedActor(nid, current, notes, actor);
    if ev.Some? {
      var signals' := signals + [ev.value];
      assert ev.value in signals' && forall e :: e in signals ==> e in signals';
      assert forall i :: 0 <= i < |signals| ==> signals'[i] == signals[i];
    }
  }

  /** Announcing the changed actors is the emission of the step. */
  lemma AnnouncementIsEmission(signals: seq<Event>, nid: string, changed: seq<string>, baseline: Verdicts, current: Verdicts, notes: seq<Note>)
    requires IsAnnouncement(signals, nid, changed, current, notes)
    requires forall a :: a in changed <==> a in Changed(current, Evicted(baseline, current))
    ensures IsEmission(signals, nid, Some(baseline), current, Some(notes))
  {
    forall a
      ensures SignalFor(nid, Some(baseline), current, Some(notes), a) ==
              if a in changed then AnnouncedFor(nid, current, notes, a) else None
    {
    }
  }

  /** The signal for a changed actor. */
  function AnnouncedFor(nid: string, current: Verdicts, notes: seq<Note>, actor: string): Option<Event> {
    if actor !in current then None
    else match FirstMatch(notes, actor, current[actor])
      case None => None
      case Some(n) => VerdictEvent(nid, actor, current[actor], n)
  }

  lemma NothingChanged(changed: seq<string>, current: Verdicts, baseline: Verdicts)
    requires |changed| == 0 && forall a :: a in changed <==> a in Changed(current, baseline)
    ensures Changed(current, baseline) == {}
  {
  }

  lemma {:induction false} FirstMatchAppend(notes: seq<Note>, n: Note, actor: string, v: Verdict)
    ensures FirstMatch(notes + [n], actor, v) ==
            if FirstMatch(notes, actor, v).Some? then FirstMatch(notes, actor, v)
            else if MatchesNote(n, actor, v) then Some(n) else None
  {
    if notes == [] {
      assert notes + [n] == [n];
    } else {
      assert (notes + [n])[1..] == notes[1..] + [n];
      FirstMatchAppend(notes[1..], n, actor, v);
    }
  }

  // ---- one step ----

  /** With no change, or with a working fetch, the baseline becomes the verdict set. */
  lemma BaselineCatchesUp(baseline: Option<Verdicts>, current: Verdicts, notes: Option<seq<Note>>)
    requires notes.Some? || baseline.None? || Changed(current, Evicted(baseline.value, current)) == {}
    ensures NextBaseline(baseline, current, notes) == current
  {
    if baseline.Some? && Changed(current, Evicted(baseline.value, current)) == {} {
      var kept := Evicted(baseline.value, current);
      assert forall a :: a in current ==> a !in Changed(current, kept);
      assert kept == current;
    }
  }

  /** The notes come newest first. */
  ghost predicate NewestFirst(notes: seq<Note>) {
    forall i, j :: 0 <= i < j < |notes| && notes[i].createdAt.Some? && notes[j].createdAt.Some? ==>
                     notes[i].createdAt.value >= notes[j].createdAt.value
  }

  /** The first match is a matching note that no matching note precedes, so none is newer. */
  lemma {:induction false} FirstMatchIsNewest(notes: seq<Note>, actor: string, v: Verdict)
    requires NewestFirst(notes)
    ensures FirstMatch(notes, actor, v).None? ==> forall n :: n in notes ==> !MatchesNote(n, actor, v)
    ensures FirstMatch(notes, actor, v).Some? ==>
              var m := FirstMatch(notes, actor, v).value;
              && m in notes && MatchesNote(m, actor, v)
              && forall n :: n in notes && MatchesNote(n, actor, v) && n.createdAt.Some? && m.createdAt.Some? ==>
                               n.createdAt.value <= m.createdAt.value
  {
    if notes != [] && !MatchesNote(notes[0], actor, v) {
      FirstMatchIsNewest(notes[1..], actor, v);
      assert forall n :: n in notes ==> n == notes[0] || n in notes[1..];
    }
  }

  /** A signal is dated by the newest matching system note. */
  lemma SignalUsesNewestNote(nid: string, baseline: Option<Verdicts>, current: Verdicts, notes: seq<Note>, actor: string, n: Note)
    requires SignalFor(nid, baseline, current, Some(notes), actor).Some? && NewestFirst(notes)
    requires n in notes && MatchesNote(n, actor, current[actor]) && n.createdAt.Some?
    ensures var e := SignalFor(nid, baseline, current, Some(notes), actor).value;
            e.occurredAt.Some? && n.createdAt.value <= e.occurredAt.value
  {
    FirstMatchIsNewest(notes, actor, current[actor]);
  }

  // ---- runs ----

  /** One verdict step of a merge request. */
  datatype Step = Step(current: Verdicts, draft: bool, notes: Option<seq<Note>>)

  /** The baseline of one merge request over a run; draft steps do nothing. */
  ghost predicate IsVerdictRun(baselines: seq<Option<Verdicts>>, steps: seq<Step>) {
    && |baselines| == |steps| + 1
    && forall i :: 0 <= i < |steps| ==> baselines[i + 1] == After(baselines[i], steps[i])
  }

  function After(baseline: Option<Verdicts>, s: Step): Option<Verdicts> {
    if s.draft then baseline else Some(NextBaseline(baseline, s.current, s.notes))
  }

  function Emitted(nid: string, baseline: Option<Verdicts>, s: Step, actor: string): Option<Event> {
    if s.draft then None else SignalFor(nid, baseline, s.current, s.notes, actor)
  }

  ghost predicate Holds(verdicts: Verdicts, actor: string, v: Verdict) {
    actor in verdicts && verdicts[actor] == v
  }

  /** At every step from i up to j that is no draft, the actor has the verdict v. */
  ghost predicate HoldsOver(steps: seq<Step>, i: nat, j: nat, actor: string, v: Verdict)
    requires i <= j <= |steps|
  {
    forall k :: i <= k < j && !steps[k].draft ==> Holds(steps[k].current, actor, v)
  }

  /** While the actor's verdict stays what the baseline has, the baseline keeps it. */
  lemma {:induction false} BaselineHolds(baselines: seq<Option<Verdicts>>, steps: seq<Step>, i: nat, j: nat, actor: string, v: Verdict)
    requires IsVerdictRun(baselines, steps) && i <= j <= |steps| && HoldsOver(steps, i, j, actor, v)
    requires baselines[i].Some? && Holds(baselines[i].value, actor, v)
    ensures baselines[j].Some? && Holds(baselines[j].value, actor, v)
  {
    if i < j {
      BaselineHolds(baselines, steps, i, j - 1, actor, v);
      assert baselines[j] == After(baselines[j - 1], steps[j - 1]);
    }
  }

  /**
   Between two signals for one actor its verdict changed or vanished: at some step after the
   first and up to the second, not a draft, the actor did not hold the verdict first reported.
   */
  lemma SignalsAreSeparated(nid: string, baselines: seq<Option<Verdicts>>, steps: seq<Step>, actor: string, i: nat, j: nat)
    requires IsVerdictRun(baselines, steps) && i < j < |steps|
    requires Emitted(nid, baselines[i], steps[i], actor).Some? && Emitted(nid, baselines[j], steps[j], actor).Some?
    ensures exists k :: i < k <= j && !steps[k].draft && !Holds(steps[k].current, actor, steps[i].current[actor])
  {
    var v := steps[i].current[actor];
    assert baselines[i + 1] == After(baselines[i], steps[i]);
    BaselineCatchesUp(baselines[i], steps[i].current, steps[i].notes);
    if HoldsOver(steps, i + 1, j + 1, actor, v) {
      BaselineHolds(baselines, steps, i + 1, j, actor, v);
    }
  }

  /** First sight is history: a verdict held from a merge request's first step on is never reported. */
  lemma HistoryIsSilent(nid: string, baselines: seq<Option<Verdicts>>, steps: seq<Step>, first: nat, actor: string, v: Verdict, j: nat)
    requires IsVerdictRun(baselines, steps) && first <= j < |steps|
    requires baselines[first].None? && !steps[first].draft && HoldsOver(steps, first, j + 1, actor, v)
    ensures Emitted(nid, baselines[j], steps[j], actor) == None
  {
    assert baselines[first + 1] == After(baselines[first], steps[first]);
    if first < j {
      BaselineHolds(baselines, steps, first + 1, j, actor, v);
    }
  }

  /** No step from i up to j reads the notes. */
  ghost predicate NoNotes(steps: seq<Step>, i: nat, j: nat)
    requires i <= j <= |steps|
  {
    forall k :: i <= k < j ==> steps[k].draft || steps[k].notes.None?
  }

  /** The actor has some verdict at every step from i up to j that is no draft. */
  ghost predicate Stays(steps: seq<Step>, i: nat, j: nat, actor: string)
    requires i <= j <= |steps|
  {
    forall k :: i <= k < j && !steps[k].draft ==> actor in steps[k].current
  }

  /** While no notes are read the baseline only loses the actors that leave. */
  lemma {:induction false} BaselineWaits(baselines: seq<Option<Verdicts>>, steps: seq<Step>, i: nat, j: nat, actor: string)
    requires IsVerdictRun(baselines, steps) && i <= j <= |steps| && baselines[i].Some? && NoNotes(steps, i, j)
    ensures baselines[j].Some?
    ensures actor in baselines[j].value <==> actor in baselines[i].value && Stays(steps, i, j, actor)
    ensures actor in baselines[j].value ==> baselines[j].value[actor] == baselines[i].value[actor]
  {
    if i < j {
      BaselineWaits(baselines, steps, i, j - 1, actor);
      assert baselines[j] == After(baselines[j - 1], steps[j - 1]);
      assert Stays(steps, i, j, actor) <==>
             Stays(steps, i, j - 1, actor) && (steps[j - 1].draft || actor in steps[j - 1].current);
    }
  }

  /** What step j owes about an actor whose baseline was last settled before step i: its verdict, unless that held all along. */
  ghost function Pending(nid: string, before: Verdicts, steps: seq<Step>, i: nat, j: nat, actor: string): Option<Event>
    requires i <= j < |steps| && steps[j].notes.Some?
  {
    var now := steps[j].current;
    if actor in now && !(Holds(before, actor, now[actor]) && Stays(steps, i, j, actor)) then
      AnnouncedFor(nid, now, steps[j].notes.value, actor)
    else None
  }

  /**
   Failed fetches lose no change and make up none. However many steps could not read the
   notes, the first one that can reports for each actor exactly the first matching note, if
   the verdict is not the one that the baseline had before them or the actor was gone between.
   */
  lemma PendingIsReported(nid: string, baselines: seq<Option<Verdicts>>, steps: seq<Step>, i: nat, j: nat, actor: string)
    requires IsVerdictRun(baselines, steps) && i <= j < |steps| && baselines[i].Some? && NoNotes(steps, i, j)
    requires !steps[j].draft && steps[j].notes.Some?
    ensures Emitted(nid, baselines[j], steps[j], actor) == Pending(nid, baselines[i].value, steps, i, j, actor)
  {
    BaselineWaits(baselines, steps, i, j, actor);
  }
}
