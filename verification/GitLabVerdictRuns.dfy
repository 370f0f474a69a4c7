/** Verdict steps over many joins: item by item they form a run of the verdict machine. */
module GitLabVerdictRuns {
  import opened Model
  import opened GitLabVerdicts
  import opened GitLab
  import opened GitLabProvider

  /** One round of verdict steps: a poll's join, or its open-set refresh. */
  datatype Stage = Stage(events: seq<Event>, results: map<int, Mr>, notes: int -> Option<seq<Note>>)

  type Baselines = map<string, Verdicts>

  ghost function StageEnd(b: Baselines, st: Stage): Baselines {
    BaselinesAfter(b, st.events, |st.events|, st.results, st.notes)
  }

  ghost predicate IsStageRun(bs: seq<Baselines>, stages: seq<Stage>) {
    |bs| == |stages| + 1 && forall c :: 0 <= c < |stages| ==> bs[c + 1] == StageEnd(bs[c], stages[c])
  }

  const IDLE := Step(map[], true, None)

  /** What event i of a stage means for the verdicts of one item. */
  ghost function StepAt(st: Stage, i: int, nid: string): Step
    requires 0 <= i < |st.events|
  {
    JoinStep(st.events[i], ResultAt(st.results, i), st.notes(i), nid)
  }

  ghost function JoinStep(ev: Event, r: Option<Mr>, notes: Option<seq<Note>>, nid: string): Step {
    if ev.nativeID == nid && StepsVerdicts(ev, r) then Step(CurrentOf(VerdictsIn(r.value)), ev.body.facts.draft, notes) else IDLE
  }

  ghost function BaselineAt(b: Baselines, st: Stage, i: int, nid: string): Option<Verdicts>
    requires 0 <= i <= |st.events|
  {
    BaselineIn(BaselinesAfter(b, st.events, i, st.results, st.notes), nid)
  }

  /** The signal that event i of a stage reports about one item and actor. */
  ghost function ReportAt(b: Baselines, st: Stage, i: int, nid: string, actor: string): Option<Event>
    requires 0 <= i < |st.events|
  {
    if st.events[i].nativeID != nid then None else StepSignal(b, st.events, i, st.results, st.notes, actor)
  }

  // ---- places and positions ----

  /** Where stage n starts among the steps. */
  function Start(stages: seq<Stage>, n: nat): nat
    requires n <= |stages|
  {
    if n == 0 then 0 else Start(stages, n - 1) + |stages[n - 1].events|
  }

  /** The steps of one item over the first n stages, place after place. */
  ghost function StepsOf(stages: seq<Stage>, n: nat, nid: string): (steps: seq<Step>)
    requires n <= |stages|
    ensures |steps| == Start(stages, n)
  {
    if n == 0 then []
    else
      var st := stages[n - 1];
      StepsOf(stages, n - 1, nid) + seq(|st.events|, i requires 0 <= i < |st.events| => StepAt(st, i, nid))
  }

  ghost function BaselinesOf(bs: seq<Baselines>, stages: seq<Stage>, n: nat, nid: string): (baselines: seq<Option<Verdicts>>)
    requires n <= |stages| && |bs| == |stages| + 1
    ensures |baselines| == Start(stages, n)
  {
    if n == 0 then []
    else
      var st := stages[n - 1];
      BaselinesOf(bs, stages, n - 1, nid)
      + seq(|st.events|, i requires 0 <= i < |st.events| => BaselineAt(bs[n - 1], st, i, nid))
  }

  /** One item's baselines over the first n stages, and the last one. */
  ghost function History(bs: seq<Baselines>, stages: seq<Stage>, n: nat, nid: string): seq<Option<Verdicts>>
    requires n <= |stages| && |bs| == |stages| + 1
  {
    BaselinesOf(bs, stages, n, nid) + [BaselineIn(bs[n], nid)]
  }

  /** Places and positions correspond. */
  lemma {:induction false} PlaceOf(bs: seq<Baselines>, stages: seq<Stage>, n: nat, nid: string, c: nat, i: nat)
    requires c < n <= |stages| && |bs| == |stages| + 1 && i < |stages[c].events|
    ensures Start(stages, c) + i < Start(stages, c + 1) <= Start(stages, n)
    ensures StepsOf(stages, n, nid)[Start(stages, c) + i] == StepAt(stages[c], i, nid)
    ensures BaselinesOf(bs, stages, n, nid)[Start(stages, c) + i] == BaselineAt(bs[c], stages[c], i, nid)
  {
    if c < n - 1 {
      PlaceOf(bs, stages, n - 1, nid, c, i);
    }
  }

  lemma {:induction false} PlaceAt(stages: seq<Stage>, n: nat, x: nat) returns (c: nat, i: nat)
    requires n <= |stages| && x < Start(stages, n)
    ensures c < n && i < |stages[c].events| && x == Start(stages, c) + i
  {
    if x < Start(stages, n - 1) {
      c, i := PlaceAt(stages, n - 1, x);
    } else {
      c, i := n - 1, x - Start(stages, n - 1);
    }
  }

  /** Place i of stage c comes before place j of stage d. */
  predicate Before(c: nat, i: nat, d: nat, j: nat) {
    c < d || (c == d && i < j)
  }

  lemma {:induction false} StartGrows(stages: seq<Stage>, c: nat, d: nat)
    requires c <= d <= |stages|
    ensures Start(stages, c) <= Start(stages, d)
  {
    if c < d {
      StartGrows(stages, c, d - 1);
    }
  }

  lemma StartOrder(stages: seq<Stage>, c: nat, i: nat, d: nat, j: nat)
    requires c < |stages| && d < |stages| && i < |stages[c].events| && j < |stages[d].events|
    ensures Before(c, i, d, j) ==> Start(stages, c) + i < Start(stages, d) + j
  {
    if c < d {
      StartGrows(stages, c + 1, d);
    }
  }

  // ---- the run of one item ----

  lemma JoinMoves(b: Baselines, ev: Event, r: Option<Mr>, notes: Option<seq<Note>>, nid: string)
    ensures BaselineIn(BaselineStep(b, ev, r, notes), nid) == After(BaselineIn(b, nid), JoinStep(ev, r, notes, nid))
  {
  }

  lemma PlaceMoves(b: Baselines, st: Stage, i: int, nid: string)
    requires 0 <= i < |st.events|
    ensures BaselineAt(b, st, i + 1, nid) == After(BaselineAt(b, st, i, nid), StepAt(st, i, nid))
  {
    BaselinesStep(b, st.events, i, st.results, st.notes);
    JoinMoves(BaselinesAfter(b, st.events, i, st.results, st.notes), st.events[i], ResultAt(st.results, i), st.notes(i), nid);
  }

  lemma PlaceReports(b: Baselines, st: Stage, i: int, nid: string, actor: string)
    requires 0 <= i < |st.events|
    ensures ReportAt(b, st, i, nid, actor) == Emitted(nid, BaselineAt(b, st, i, nid), StepAt(st, i, nid), actor)
  {
  }

  /** The history at the start of a stage is what was kept then, also where stages without events follow. */
  lemma {:induction false} HistoryStart(bs: seq<Baselines>, stages: seq<Stage>, n: nat, nid: string, c: nat)
    requires IsStageRun(bs, stages) && c <= n <= |stages|
    ensures Start(stages, c) <= Start(stages, n) && History(bs, stages, n, nid)[Start(stages, c)] == BaselineIn(bs[c], nid)
    decreases n - c
  {
    StartGrows(stages, c, n);
    if c < n {
      if stages[c].events == [] {
        HistoryStart(bs, stages, n, nid, c + 1);
      } else {
        PlaceOf(bs, stages, n, nid, c, 0);
      }
    }
  }

  lemma HistoryAt(bs: seq<Baselines>, stages: seq<Stage>, n: nat, nid: string, c: nat, i: nat)
    requires IsStageRun(bs, stages) && c < n <= |stages| && i <= |stages[c].events|
    ensures Start(stages, c) + i <= Start(stages, n)
    ensures History(bs, stages, n, nid)[Start(stages, c) + i] == BaselineAt(bs[c], stages[c], i, nid)
  {
    if i < |stages[c].events| {
      PlaceOf(bs, stages, n, nid, c, i);
    } else {
      HistoryStart(bs, stages, n, nid, c + 1);
    }
  }

  lemma HistoryNext(bs: seq<Baselines>, stages: seq<Stage>, n: nat, nid: string, c: nat, i: nat)
    requires IsStageRun(bs, stages) && c < n <= |stages| && i < |stages[c].events|
    ensures Start(stages, c) + i < Start(stages, n)
    ensures History(bs, stages, n, nid)[Start(stages, c) + i + 1] == After(BaselineAt(bs[c], stages[c], i, nid), StepAt(stages[c], i, nid))
  {
    HistoryAt(bs, stages, n, nid, c, i + 1);
    PlaceMoves(bs[c], stages[c], i, nid);
  }

  /** Over any stages, each item's baselines and steps are a run of the verdict machine. */
  lemma StagesAreVerdictRun(bs: seq<Baselines>, stages: seq<Stage>, n: nat, nid: string)
    requires IsStageRun(bs, stages) && n <= |stages|
    ensures IsVerdictRun(History(bs, stages, n, nid), StepsOf(stages, n, nid))
  {
    var history, steps := History(bs, stages, n, nid), StepsOf(stages, n, nid);
    forall x | 0 <= x < |steps|
      ensures history[x + 1] == After(history[x], steps[x])
    {
      var c, i := PlaceAt(stages, n, x);
      PlaceOf(bs, stages, n, nid, c, i);
      HistoryNext(bs, stages, n, nid, c, i);
    }
  }

  // ---- the machine's laws, stage by stage ----

  ghost predicate Leaves(s: Step, actor: string, v: Verdict) {
    !s.draft && !Holds(s.current, actor, v)
  }

  /** Place k of stage b lies after place i of stage c and not after place j of stage d, and shows the actor without the verdict v. */
  ghost predicate Departs(stages: seq<Stage>, b: nat, k: nat, c: nat, i: nat, d: nat, j: nat, nid: string, actor: string, v: Verdict) {
    && b < |stages| && k < |stages[b].events| && Before(c, i, b, k) && !Before(d, j, b, k)
    && Leaves(StepAt(stages[b], k, nid), actor, v)
  }

  ghost predicate DepartsBetween(stages: seq<Stage>, c: nat, i: nat, d: nat, j: nat, nid: string, actor: string, v: Verdict) {
    exists b: nat, k: nat :: Departs(stages, b, k, c, i, d, j, nid, actor, v)
  }

  /** Position x of a verdict run emits a signal about the actor, for the verdict v. */
  ghost predicate SignalsAt(history: seq<Option<Verdicts>>, steps: seq<Step>, nid: string, actor: string, v: Verdict, x: nat) {
    && x < |steps| && x < |history| && Holds(steps[x].current, actor, v)
    && Emitted(nid, history[x], steps[x], actor).Some?
  }

  predicate IsPlace(stages: seq<Stage>, c: nat, i: nat) {
    c < |stages| && i < |stages[c].events|
  }

  ghost predicate ListsStep(steps: seq<Step>, stages: seq<Stage>, nid: string, c: nat, i: nat)
    requires IsPlace(stages, c, i)
  {
    Start(stages, c) + i < |steps| && steps[Start(stages, c) + i] == StepAt(stages[c], i, nid)
  }

  /** The steps of one item over all stages, told by places. */
  ghost predicate ListsSteps(steps: seq<Step>, stages: seq<Stage>, nid: string) {
    && |steps| == Start(stages, |stages|)
    && forall c: nat, i: nat :: IsPlace(stages, c, i) ==> ListsStep(steps, stages, nid, c, i)
  }

  lemma StepsAreListed(bs: seq<Baselines>, stages: seq<Stage>, nid: string)
    requires |bs| == |stages| + 1
    ensures ListsSteps(StepsOf(stages, |stages|, nid), stages, nid)
  {
    forall c: nat, i: nat | IsPlace(stages, c, i)
      ensures ListsStep(StepsOf(stages, |stages|, nid), stages, nid, c, i)
    {
      PlaceOf(bs, stages, |stages|, nid, c, i);
    }
  }

  lemma ReportIsSignal(bs: seq<Baselines>, stages: seq<Stage>, nid: string, actor: string, c: nat, i: nat)
    requires |bs| == |stages| + 1 && IsPlace(stages, c, i) && ReportAt(bs[c], stages[c], i, nid, actor).Some?
    ensures actor in StepAt(stages[c], i, nid).current
    ensures SignalsAt(History(bs, stages, |stages|, nid), StepsOf(stages, |stages|, nid), nid, actor,
                      StepAt(stages[c], i, nid).current[actor], Start(stages, c) + i)
  {
    PlaceOf(bs, stages, |stages|, nid, c, i);
    PlaceReports(bs[c], stages[c], i, nid, actor);
  }

  lemma PlaceBetween(stages: seq<Stage>, c: nat, i: nat, d: nat, j: nat, z: nat) returns (b: nat, k: nat)
    requires c < |stages| && d < |stages| && i < |stages[c].events| && j < |stages[d].events|
    requires Start(stages, c) + i < z <= Start(stages, d) + j && z < Start(stages, |stages|)
    ensures b < |stages| && k < |stages[b].events| && z == Start(stages, b) + k && Before(c, i, b, k) && !Before(d, j, b, k)
  {
    b, k := PlaceAt(stages, |stages|, z);
    StartOrder(stages, b, k, c, i);
    StartOrder(stages, d, j, b, k);
  }

  lemma SeparatingStep(history: seq<Option<Verdicts>>, steps: seq<Step>, nid: string, actor: string, v: Verdict, w: Verdict, x: nat, y: nat)
      returns (z: nat)
    requires IsVerdictRun(history, steps) && x < y
    requires SignalsAt(history, steps, nid, actor, v, x) && SignalsAt(history, steps, nid, actor, w, y)
    ensures x < z <= y < |steps| && Leaves(steps[z], actor, v)
  {
    SignalsAreSeparated(nid, history, steps, actor, x, y);
    z :| x < z <= y && !steps[z].draft && !Holds(steps[z].current, actor, steps[x].current[actor]);
  }

  lemma DepartsHere(steps: seq<Step>, stages: seq<Stage>, nid: string, actor: string, v: Verdict,
                    c: nat, i: nat, d: nat, j: nat, b: nat, k: nat)
    requires ListsSteps(steps, stages, nid) && IsPlace(stages, b, k) && Before(c, i, b, k) && !Before(d, j, b, k)
    requires Start(stages, b) + k < |steps| && Leaves(steps[Start(stages, b) + k], actor, v)
    ensures DepartsBetween(stages, c, i, d, j, nid, actor, v)
  {
    assert ListsStep(steps, stages, nid, b, k);
    assert Departs(stages, b, k, c, i, d, j, nid, actor, v);
  }

  lemma Departure(steps: seq<Step>, stages: seq<Stage>, nid: string, actor: string, v: Verdict,
                  c: nat, i: nat, d: nat, j: nat, z: nat)
    requires ListsSteps(steps, stages, nid) && IsPlace(stages, c, i) && IsPlace(stages, d, j)
    requires Start(stages, c) + i < z <= Start(stages, d) + j && z < |steps| && Leaves(steps[z], actor, v)
    ensures DepartsBetween(stages, c, i, d, j, nid, actor, v)
  {
    var b, k := PlaceBetween(stages, c, i, d, j, z);
    DepartsHere(steps, stages, nid, actor, v, c, i, d, j, b, k);
  }

  lemma Separation(history: seq<Option<Verdicts>>, steps: seq<Step>, stages: seq<Stage>, nid: string, actor: string,
                   v: Verdict, w: Verdict, c: nat, i: nat, d: nat, j: nat)
    requires IsVerdictRun(history, steps) && ListsSteps(steps, stages, nid)
    requires IsPlace(stages, c, i) && IsPlace(stages, d, j) && Start(stages, c) + i < Start(stages, d) + j
    requires SignalsAt(history, steps, nid, actor, v, Start(stages, c) + i)
    requires SignalsAt(history, steps, nid, actor, w, Start(stages, d) + j)
    ensures DepartsBetween(stages, c, i, d, j, nid, actor, v)
  {
    var z := SeparatingStep(history, steps, nid, actor, v, w, Start(stages, c) + i, Start(stages, d) + j);
    Departure(steps, stages, nid, actor, v, c, i, d, j, z);
  }

  /** No verdict is reported twice: between two signals about one actor the forge answered with another verdict or none. */
  lemma StageSignalsAreSeparated(bs: seq<Baselines>, stages: seq<Stage>, nid: string, actor: string, c: nat, i: nat, d: nat, j: nat)
    requires IsStageRun(bs, stages) && IsPlace(stages, c, i) && IsPlace(stages, d, j) && Before(c, i, d, j)
    requires ReportAt(bs[c], stages[c], i, nid, actor).Some? && ReportAt(bs[d], stages[d], j, nid, actor).Some?
    ensures actor in StepAt(stages[c], i, nid).current
    ensures DepartsBetween(stages, c, i, d, j, nid, actor, StepAt(stages[c], i, nid).current[actor])
  {
    ReportIsSignal(bs, stages, nid, actor, c, i);
    ReportIsSignal(bs, stages, nid, actor, d, j);
    StartOrder(stages, c, i, d, j);
    StagesAreVerdictRun(bs, stages, |stages|, nid);
    StepsAreListed(bs, stages, nid);
    var v, w := StepAt(stages[c], i, nid).current[actor], StepAt(stages[d], j, nid).current[actor];
    Separation(History(bs, stages, |stages|, nid), StepsOf(stages, |stages|, nid), stages, nid, actor, v, w, c, i, d, j);
  }

  /** From position x on, place j of stage d is the first that reads the notes, and the item was seen before x. */
  ghost predicate FirstNotes(bs: seq<Baselines>, stages: seq<Stage>, nid: string, x: nat, d: nat, j: nat) {
    && |bs| == |stages| + 1 && d < |stages| && j < |stages[d].events|
    && x <= Start(stages, d) + j < Start(stages, |stages|)
    && History(bs, stages, |stages|, nid)[x].Some?
    && NoNotes(StepsOf(stages, |stages|, nid), x, Start(stages, d) + j)
    && !StepsOf(stages, |stages|, nid)[Start(stages, d) + j].draft
    && StepsOf(stages, |stages|, nid)[Start(stages, d) + j].notes.Some?
  }

  /** What that place owes about an actor. */
  ghost function PendingSince(bs: seq<Baselines>, stages: seq<Stage>, nid: string, actor: string, x: nat, d: nat, j: nat): Option<Event>
    requires FirstNotes(bs, stages, nid, x, d, j)
  {
    Pending(nid, History(bs, stages, |stages|, nid)[x].value, StepsOf(stages, |stages|, nid), x, Start(stages, d) + j, actor)
  }

  lemma PendingAt(bs: seq<Baselines>, stages: seq<Stage>, nid: string, actor: string, x: nat, d: nat, j: nat)
    requires IsStageRun(bs, stages) && FirstNotes(bs, stages, nid, x, d, j)
    ensures var history, steps, y := History(bs, stages, |stages|, nid), StepsOf(stages, |stages|, nid), Start(stages, d) + j;
            Emitted(nid, history[y], steps[y], actor) == PendingSince(bs, stages, nid, actor, x, d, j)
  {
    StagesAreVerdictRun(bs, stages, |stages|, nid);
    PendingIsReported(nid, History(bs, stages, |stages|, nid), StepsOf(stages, |stages|, nid), x, Start(stages, d) + j, actor);
  }

  /** No change is lost: from a position x on, the first place that reads the notes reports exactly what is pending since x. */
  lemma StageReportsPending(bs: seq<Baselines>, stages: seq<Stage>, nid: string, actor: string, x: nat, d: nat, j: nat)
    requires IsStageRun(bs, stages) && FirstNotes(bs, stages, nid, x, d, j)
    ensures ReportAt(bs[d], stages[d], j, nid, actor) == PendingSince(bs, stages, nid, actor, x, d, j)
  {
    PendingAt(bs, stages, nid, actor, x, d, j);
    PlaceOf(bs, stages, |stages|, nid, d, j);
    PlaceReports(bs[d], stages[d], j, nid, actor);
  }
}
