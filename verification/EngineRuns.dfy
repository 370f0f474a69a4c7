/** Runs of the engine: whole cycles of any connections over one store, and the protocol's laws for them. */
module EngineRuns {
  import opened Model
  import opened EventLog
  import opened Reaping
  import opened Visibility
  import opened Engine
  import opened CycleRuns
  import opened Refinement
  import P = Protocol

  /** One cycle of one connection. */
  datatype Turn = Turn(conn: string, cycle: Record)

  ghost predicate IsTurn(t: Turn) {
    IsCycle(t.conn, t.cycle) && ProviderEvents(ResultOf(t.cycle.env).events)
  }

  /** From the empty database on, each turn finds the log and the cursors as the one before left them. */
  ghost predicate IsEngineRun(turns: seq<Turn>) {
    forall i :: 0 <= i < |turns| ==> TurnAt(turns, i)
  }

  ghost predicate TurnAt(turns: seq<Turn>, i: int)
    requires 0 <= i < |turns|
  {
    IsTurn(turns[i]) && turns[i].cycle.before.rows == RowsAt(turns, i) && turns[i].cycle.before.cursors == CursorsAt(turns, i)
  }

  /** The log after the first n turns. */
  function RowsAt(turns: seq<Turn>, n: nat): seq<Row>
    requires n <= |turns|
  {
    if n == 0 then [] else turns[n - 1].cycle.after.rows
  }

  function CursorsAt(turns: seq<Turn>, n: nat): map<(string, string), string>
    requires n <= |turns|
  {
    if n == 0 then map[] else turns[n - 1].cycle.after.cursors
  }

  // ---- every engine run is a protocol run ----

  function PollOf(t: Turn): P.Poll {
    P.Poll(ResultOf(t.cycle.env).events, ResultOf(t.cycle.env).state)
  }

  /** The cursor was saved by a turn of its connection that succeeded, with that turn's poll. */
  ghost predicate FromTurn(turns: seq<Turn>, n: nat, c: string, saved: P.Saved)
    requires n <= |turns|
  {
    exists i :: 0 <= i < n && turns[i].conn == c && turns[i].cycle.end.Succeeded? && saved.origin == PollOf(turns[i])
  }

  /** The protocol state stands where the first n turns left the store. */
  ghost predicate StandsAt(s: P.State, turns: seq<Turn>, n: nat)
    requires n <= |turns|
  {
    && s.rows == RowsAt(turns, n) && Values(s.cursors) == CursorsAt(turns, n) && s.written == map[]
    && forall c, k :: (c, k) in s.cursors ==> FromTurn(turns, n, c, s.cursors[(c, k)])
  }

  /** State `at` of the run is where turn i starts, and the turn's write, if it made one, is the step taken there. */
  ghost predicate StartsAt(run: seq<P.State>, steps: seq<P.Step>, turns: seq<Turn>, i: nat, at: nat)
    requires i < |turns| && |run| == |steps| + 1
  {
    && at < |run| && StandsAt(run[at], turns, i)
    && (Written(turns[i].cycle.end) ==>
          && at < |steps| && steps[at] == WriteStep(turns[i].conn, turns[i].cycle)
          && run[at + 1].rows == turns[i].cycle.after.rows)
  }

  lemma RunAppend(run: seq<P.State>, steps: seq<P.Step>, step: P.Step)
    requires P.IsRun(run, steps) && P.Enabled(run[|steps|], step)
    ensures P.IsRun(run + [P.Apply(run[|steps|], step)], steps + [step])
  {
    var run', steps' := run + [P.Apply(run[|steps|], step)], steps + [step];
    forall i | 0 <= i < |steps'|
      ensures P.Moves(run', steps', i)
    {
      if i < |steps| {
        assert P.Moves(run, steps, i);
      }
    }
  }

  /** What one turn makes of the protocol state it starts in. */
  function StateAfter(s: P.State, t: Turn): P.State {
    if t.cycle.end.Succeeded? then
      P.State(t.cycle.after.rows, P.Upsert(s.cursors, t.conn, PollOf(t)), map[])
    else P.State(t.cycle.after.rows, s.cursors, map[])
  }

  lemma TurnEnables(turns: seq<Turn>, n: nat, s: P.State)
    requires n < |turns| && TurnAt(turns, n) && StandsAt(s, turns, n) && Written(turns[n].cycle.end)
    ensures var t := turns[n]; var write := WriteStep(t.conn, t.cycle);
            && P.Enabled(s, write)
            && P.Apply(s, write).rows == t.cycle.after.rows
            && P.Apply(s, write).cursors == s.cursors
            && P.Apply(s, write).written == map[t.conn := PollOf(t)]
  {
  }

  lemma TurnLands(turns: seq<Turn>, n: nat, s: P.State)
    requires n < |turns| && TurnAt(turns, n) && StandsAt(s, turns, n)
    ensures StandsAt(StateAfter(s, turns[n]), turns, n + 1)
  {
    var t, s' := turns[n], StateAfter(s, turns[n]);
    if t.cycle.end.Succeeded? {
      SavedValues(s.cursors, t.cycle.after.cursors, t.conn, PollOf(t));
    }
    forall c, k | (c, k) in s'.cursors
      ensures FromTurn(turns, n + 1, c, s'.cursors[(c, k)])
    {
      if (c, k) in s.cursors && s'.cursors[(c, k)] == s.cursors[(c, k)] {
        var i :| 0 <= i < n && turns[i].conn == c && turns[i].cycle.end.Succeeded? && s.cursors[(c, k)].origin == PollOf(turns[i]);
      } else {
        assert s'.cursors[(c, k)].origin == PollOf(turns[n]);
      }
    }
  }

  /** Takes the steps of one more turn. */
  lemma RunTurn(turns: seq<Turn>, n: nat, run: seq<P.State>, steps: seq<P.Step>)
      returns (run': seq<P.State>, steps': seq<P.Step>)
    requires n < |turns| && TurnAt(turns, n) && P.IsRun(run, steps) && StandsAt(run[|steps|], turns, n)
    ensures P.IsRun(run', steps') && run <= run' && steps < steps'
    ensures StartsAt(run', steps', turns, n, |steps|) && StandsAt(run'[|steps'|], turns, n + 1)
  {
    var t, s := turns[n], run[|steps|];
    TurnLands(turns, n, s);
    if Written(t.cycle.end) {
      var write := WriteStep(t.conn, t.cycle);
      TurnEnables(turns, n, s);
      RunAppend(run, steps, write);
      var mid := P.Apply(s, write);
      var next := if t.cycle.end.Succeeded? then P.Save(t.conn) else P.Crash(t.conn);
      RunAppend(run + [mid], steps + [write], next);
      run', steps' := run + [mid] + [P.Apply(mid, next)], steps + [write] + [next];
      assert P.Apply(mid, next) == StateAfter(s, t);
    } else {
      var idle := P.FailedPoll(t.conn);
      RunAppend(run, steps, idle);
      run', steps' := run + [s], steps + [idle];
      assert StateAfter(s, t) == s;
    }
  }

  /**
   Every engine run is a protocol run. It passes through the log and the cursors of every
   turn, takes each turn's write as its step there, and ends where the last turn left the
   store; so what holds over every run of the protocol holds of the engine.
   */
  lemma {:induction false} EngineRunIsProtocolRun(turns: seq<Turn>, n: nat)
      returns (run: seq<P.State>, steps: seq<P.Step>, at: seq<nat>)
    requires IsEngineRun(turns) && n <= |turns|
    ensures P.IsRun(run, steps) && StandsAt(run[|steps|], turns, n)
    ensures |at| == n && forall i :: 0 <= i < n ==> StartsAt(run, steps, turns, i, at[i])
  {
    if n == 0 {
      run, steps, at := [P.START], [], [];
    } else {
      var run0, steps0, at0 := EngineRunIsProtocolRun(turns, n - 1);
      assert TurnAt(turns, n - 1);
      run, steps := RunTurn(turns, n - 1, run0, steps0);
      at := at0 + [|steps0|];
      forall i | 0 <= i < n
        ensures StartsAt(run, steps, turns, i, at[i])
      {
        if i < n - 1 {
          assert StartsAt(run0, steps0, turns, i, at0[i]);
          StartsStill(run0, steps0, run, steps, turns, i, at0[i]);
        }
      }
    }
  }

  lemma StartsStill(run: seq<P.State>, steps: seq<P.Step>, run': seq<P.State>, steps': seq<P.Step>, turns: seq<Turn>, i: nat, at: nat)
    requires i < |turns| && |run| == |steps| + 1 && |run'| == |steps'| + 1 && run <= run' && steps <= steps'
    requires StartsAt(run, steps, turns, i, at)
    ensures StartsAt(run', steps', turns, i, at)
  {
  }

  // ---- the laws, for the engine ----

  /** The log keeps its invariant through every engine run. */
  lemma EngineLogInv(turns: seq<Turn>, n: nat)
    requires IsEngineRun(turns) && n <= |turns|
    ensures LogInv(RowsAt(turns, n))
  {
    var run, steps, at := EngineRunIsProtocolRun(turns, n);
    P.AtLeastOnce(run, steps, |steps|);
  }

  /**
   At least once, for the engine. After any cycles of any connections, whatever failed in
   them, each stored cursor is a value that some succeeded cycle of its connection polled, and
   every event of that poll is in the log.
   */
  lemma EngineAtLeastOnce(turns: seq<Turn>, n: nat, c: string, k: string)
    requires IsEngineRun(turns) && n <= |turns| && (c, k) in CursorsAt(turns, n)
    ensures exists i :: 0 <= i < n && turns[i].conn == c && turns[i].cycle.end.Succeeded?
                        && k in PollOf(turns[i]).cursors && PollOf(turns[i]).cursors[k] == CursorsAt(turns, n)[(c, k)]
                        && P.AllLogged(RowsAt(turns, n), c, PollOf(turns[i]).events)
  {
    var run, steps, at := EngineRunIsProtocolRun(turns, n);
    P.AtLeastOnce(run, steps, |steps|);
    var s := run[|steps|];
    assert (c, k) in s.cursors && Values(s.cursors)[(c, k)] == s.cursors[(c, k)].value;
    assert FromTurn(turns, n, c, s.cursors[(c, k)]);
  }

  /**
   Exit and re-entry, for the engine. A cycle of any engine run that writes a complete sweep
   decides the visibility of every item of its connection.
   */
  lemma EngineReconcileDecides(turns: seq<Turn>, n: nat, nid: string)
    requires IsEngineRun(turns) && n < |turns|
    requires ResultOf(turns[n].cycle.env).complete && Written(turns[n].cycle.end)
    ensures var t := turns[n];
            var rows, rows', events, open := t.cycle.before.rows, t.cycle.after.rows,
                                             ResultOf(t.cycle.env).events, AnswerSet(t.cycle.env.stillOpen);
            var k, f := Item(t.conn, nid), LatestFact(rows, Item(t.conn, nid));
            && (nid !in Swept(events) ==>
                  (Visible(rows', k) <==>
                     Visible(rows, k) && !IsOpenRoled(f.value) && (open.None? || nid in open.value)))
            && (SweptOpen(events, nid) ==>
                  (Visible(rows', k) <==>
                     !(f.Some? && f.value.eventType == ItemObserved && !IsOpen(f.value)
                       && AllRepeated(rows, t.conn, events, nid))))
  {
    var run, steps, at := EngineRunIsProtocolRun(turns, |turns|);
    assert StartsAt(run, steps, turns, n, at[n]) && TurnAt(turns, n);
    P.ReconcileDecides(run, steps, at[n], nid);
  }

  /** Episodes, for the engine: between two removals of one item there is a snapshot of it, to which the later one is keyed. */
  lemma EngineEpisodes(turns: seq<Turn>, n: nat, i: int, j: int)
    requires IsEngineRun(turns) && n <= |turns|
    requires var rows := RowsAt(turns, n);
             0 <= i < j < |rows| && rows[i].eventType == rows[j].eventType == ItemRemoved && KeyOf(rows[i]) == KeyOf(rows[j])
    ensures var rows := RowsAt(turns, n);
            exists m :: i < m < j && rows[m].eventType == ItemObserved && KeyOf(rows[m]) == KeyOf(rows[j])
                        && rows[j].key == RemovedKey(rows[m].id)
                        && forall x :: m < x < j && KeyOf(rows[x]) == KeyOf(rows[j]) ==> !IsFact(rows[x])
  {
    var run, steps, at := EngineRunIsProtocolRun(turns, n);
    P.Episodes(run, steps, |steps|, i, j);
  }
}
