/** Every poll cycle that the engine runs is a short sequence of steps of the protocol. */
module Refinement {
  import opened Reaping
  import opened Engine
  import opened CycleRuns
  import P = Protocol

  ghost predicate Executes(s: P.State, steps: seq<P.Step>, s': P.State)
    decreases |steps|
  {
    if steps == [] then s' == s
    else P.Enabled(s, steps[0]) && Executes(P.Apply(s, steps[0]), steps[1..], s')
  }

  /** The cursor values without the memory of the polls that wrote them. */
  function Values(cursors: map<(string, string), P.Saved>): map<(string, string), string> {
    map c | c in cursors :: cursors[c].value
  }

  /** The protocol state shows the log and the cursors of the store, with no write pending. */
  predicate Shows(s: P.State, conn: string, view: ConnView) {
    s.rows == view.rows && Values(s.cursors) == view.cursors && conn !in s.written
  }

  function WriteStep(conn: string, r: Record): P.Step {
    var result := ResultOf(r.env);
    var poll := P.Poll(result.events, result.state);
    if result.complete then P.WriteComplete(conn, poll, AnswerSet(r.env.stillOpen), r.removals, r.env.now)
    else P.WritePartial(conn, poll, r.env.now)
  }

  /** What the engine does: write and save, write and lose the cursors, or nothing. */
  function StepsOf(conn: string, r: Record): seq<P.Step> {
    if r.end.Succeeded? then [WriteStep(conn, r), P.Save(conn)]
    else if Written(r.end) then [WriteStep(conn, r), P.Crash(conn)]
    else [P.FailedPoll(conn)]
  }

  lemma SavedValues(before: map<(string, string), P.Saved>, after: map<(string, string), string>, conn: string, poll: P.Poll)
    requires Upserted(Values(before), after, conn, poll.cursors)
    ensures Values(P.Upsert(before, conn, poll)) == after
  {
    var upserted := Values(P.Upsert(before, conn, poll));
    forall c, k
      ensures (c, k) in upserted <==> (c, k) in after
      ensures (c, k) in upserted ==> upserted[(c, k)] == after[(c, k)]
    {
      assert (c, k) in Values(before) <==> (c, k) in before;
    }
    forall x
      ensures x in upserted <==> x in after
      ensures x in upserted ==> upserted[x] == after[x]
    {
      var (c, k) := x;
    }
  }

  /**
   Refinement. A finished cycle of the engine moves the store as its protocol steps do.
   */
  lemma CycleRefinesProtocol(conn: string, r: Record, s: P.State) returns (s': P.State)
    requires IsCycle(conn, r) && ProviderEvents(ResultOf(r.env).events)
    requires Shows(s, conn, r.before)
    ensures Executes(s, StepsOf(conn, r), s')
    ensures Shows(s', conn, r.after)
  {
    if Written(r.end) {
      var write := WriteStep(conn, r);
      assert P.Enabled(s, write);
      var mid := P.Apply(s, write);
      assert mid.rows == r.after.rows;
      var next := StepsOf(conn, r)[1];
      assert StepsOf(conn, r)[1..] == [next] && [next][1..] == [];
      s' := P.Apply(mid, next);
      assert Executes(s', [], s') && Executes(mid, [next], s');
      if r.end.Succeeded? {
        SavedValues(s.cursors, r.after.cursors, conn, write.poll);
      }
    } else {
      s' := s;
      assert StepsOf(conn, r)[1..] == [];
    }
  }
}
