/** The signal table: which chips an item carries, in precedence order. */
module States {
  import opened Model

  datatype SignalState =
    | ChangesRequestedState
    | ReviewRequestedState
    | BlockedState
    | MentionedState
    | ReadyToMergeState
    | AutoMergeArmedState
    | ChecksRunningState
    | CheckingState
    | ReviewSubmittedState

  /** Highest precedence first. */
  const PRECEDENCE: seq<SignalState> := [
    ChangesRequestedState,
    ReviewRequestedState,
    BlockedState,
    MentionedState,
    ReadyToMergeState,
    AutoMergeArmedState,
    ChecksRunningState,
    CheckingState,
    ReviewSubmittedState]

  /** The position of a state in the table. */
  function Rank(s: SignalState): (n: nat)
    ensures n < |PRECEDENCE| && PRECEDENCE[n] == s
  {
    match s
    case ChangesRequestedState => 0
    case ReviewRequestedState => 1
    case BlockedState => 2
    case MentionedState => 3
    case ReadyToMergeState => 4
    case AutoMergeArmedState => 5
    case ChecksRunningState => 6
    case CheckingState => 7
    case ReviewSubmittedState => 8
  }

  /** My own review has been submitted. */
  predicate ReviewIsDone(v: Verdict) {
    v == Reviewed || v == Approved || v == ChangesRequested
  }

  function RolesSet(f: Payload): set<Role> {
    set r | r in f.myRoles
  }

  predicate Matches(s: SignalState, f: Payload, roles: set<Role>, hasMention: bool) {
    match s
    case ChangesRequestedState =>
      (Author in roles && f.reviewDecision == ChangesRequested) || (Reviewer in roles && f.myReviewState == ChangesRequested)
    case ReviewRequestedState =>
      (Reviewer in roles || SoleApprover in roles) && !f.draft && !ReviewIsDone(f.myReviewState)
    case BlockedState => (Author in roles || SoleApprover in roles) && !f.draft && f.gate == Blocked
    case MentionedState => hasMention
    case ReadyToMergeState => (Author in roles || SoleApprover in roles) && !f.draft && f.gate == Ready
    case AutoMergeArmedState => (Author in roles || SoleApprover in roles) && !f.draft && f.autoMergeArmed
    case ChecksRunningState => (Author in roles || SoleApprover in roles) && !f.draft && f.checksRunning
    case CheckingState => f.gate == Unknown
    case ReviewSubmittedState => Reviewer in roles && ReviewIsDone(f.myReviewState)
  }

  /** The states among the first n of the table that match. */
  function StatesUpTo(f: Payload, hasMention: bool, n: nat): seq<SignalState>
    requires n <= |PRECEDENCE|
  {
    if n == 0 then []
    else
      StatesUpTo(f, hasMention, n - 1)
      + if Matches(PRECEDENCE[n - 1], f, RolesSet(f), hasMention) then [PRECEDENCE[n - 1]] else []
  }

  function StatesOf(f: Payload, hasMention: bool): seq<SignalState> {
    StatesUpTo(f, hasMention, |PRECEDENCE|)
  }

  method StatesFor(f: Payload, hasMention: bool) returns (states: seq<SignalState>)
    ensures states == StatesOf(f, hasMention)
    ensures forall s :: s in states <==> Matches(s, f, RolesSet(f), hasMention)
    ensures forall i, j :: 0 <= i < j < |states| ==> Rank(states[i]) < Rank(states[j])
  {
    var roles: set<Role> := {};
    for n := 0 to |f.myRoles|
      invariant roles == set r | r in f.myRoles[..n]
    {
      assert f.myRoles[..n + 1] == f.myRoles[..n] + [f.myRoles[n]];
      roles := roles + {f.myRoles[n]};
    }
    assert f.myRoles[..|f.myRoles|] == f.myRoles;
    states := [];
    for n := 0 to |PRECEDENCE|
      invariant states == StatesUpTo(f, hasMention, n)
    {
      if Matches(PRECEDENCE[n], f, roles, hasMention) {
        states := states + [PRECEDENCE[n]];
      }
    }
    StatesAreTheMatches(f, hasMention, |PRECEDENCE|);
  }

  /** The chips are exactly the matching states, each once, in precedence order. */
  lemma {:induction false} StatesAreTheMatches(f: Payload, hasMention: bool, n: nat)
    requires n <= |PRECEDENCE|
    ensures var states := StatesUpTo(f, hasMention, n);
            && (forall s :: s in states <==> Matches(s, f, RolesSet(f), hasMention) && Rank(s) < n)
            && (forall i, j :: 0 <= i < j < |states| ==> Rank(states[i]) < Rank(states[j]))
  {
    if n > 0 {
      StatesAreTheMatches(f, hasMention, n - 1);
      var init, s := StatesUpTo(f, hasMention, n - 1), PRECEDENCE[n - 1];
      RankOfPrecedence(n - 1);
      forall x | Rank(x) < n
        ensures x == s || Rank(x) < n - 1
      {
      }
      assert forall i :: 0 <= i < |init| ==> init[i] in init;
    }
  }

  lemma RankOfPrecedence(n: nat)
    requires n < |PRECEDENCE|
    ensures Rank(PRECEDENCE[n]) == n
  {
  }
}
