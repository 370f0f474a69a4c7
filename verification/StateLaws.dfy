/** What the chips of an item say about it, and how they change with it. */
module StateLaws {
  import opened Model
  import opened States
  import opened FoldView

  predicate IsMine(f: Payload) {
    Author in f.myRoles || SoleApprover in f.myRoles
  }

  /** Of two snapshots of an item, the chip is shown on one exactly when it is on the other. */
  predicate SameChip(f: Payload, g: Payload, hasMention: bool, s: SignalState) {
    s in StatesOf(f, hasMention) <==> s in StatesOf(g, hasMention)
  }

  /**
   The gate of my own item that is no draft is told by one of three chips: of ready, blocked
   and checking, it shows the one that its gate names.
   */
  lemma OwnGateShows(f: Payload, hasMention: bool)
    requires Author in f.myRoles || SoleApprover in f.myRoles
    requires !f.draft && f.gate in {Ready, Blocked, Unknown}
    ensures var gates := set s | s in StatesOf(f, hasMention) && s in {ReadyToMergeState, BlockedState, CheckingState};
            gates == if f.gate == Ready then {ReadyToMergeState} else if f.gate == Blocked then {BlockedState} else {CheckingState}
  {
    StatesAreTheMatches(f, hasMention, |PRECEDENCE|);
  }

  /**
   Turning an item into a draft takes away its review_requested, blocked, ready, auto-merge and
   running chips, and neither touches another chip nor adds one.
   */
  lemma DraftHides(f: Payload, hasMention: bool, s: SignalState)
    ensures s in StatesOf(f.(draft := true), hasMention) <==>
            && s in StatesOf(f, hasMention)
            && s !in {ReviewRequestedState, BlockedState, ReadyToMergeState, AutoMergeArmedState, ChecksRunningState}
  {
    StatesAreTheMatches(f, hasMention, |PRECEDENCE|);
    StatesAreTheMatches(f.(draft := true), hasMention, |PRECEDENCE|);
  }

  /**
   Submitting my review of an item under review replaces review_requested by review_submitted,
   raises changes_requested when that is what I asked for, and leaves the other chips. It mutes
   the item exactly when I am neither its author nor its sole approver.
   */
  lemma SubmittingReview(f: Payload, v: Verdict, hasMention: bool)
    requires Reviewer in f.myRoles && !f.draft
    requires f.myReviewState !in {Reviewed, Approved, ChangesRequested} && v in {Reviewed, Approved, ChangesRequested}
    ensures var g := f.(myReviewState := v);
            var before, after := StatesOf(f, hasMention), StatesOf(g, hasMention);
            && ReviewRequestedState in before && ReviewSubmittedState !in before
            && ReviewRequestedState !in after && ReviewSubmittedState in after
            && (ChangesRequestedState in after <==> ChangesRequestedState in before || v == ChangesRequested)
            && (forall s :: s !in {ReviewRequestedState, ReviewSubmittedState, ChangesRequestedState} ==> SameChip(f, g, hasMention, s))
            && !IsMuted(f) && (IsMuted(g) <==> Author !in f.myRoles && SoleApprover !in f.myRoles)
  {
    StatesAreTheMatches(f, hasMention, |PRECEDENCE|);
    StatesAreTheMatches(f.(myReviewState := v), hasMention, |PRECEDENCE|);
    forall s | s !in {ReviewRequestedState, ReviewSubmittedState, ChangesRequestedState}
      ensures SameChip(f, f.(myReviewState := v), hasMention, s)
    {
      ReviewTouchesNoOther(f, v, hasMention, s);
    }
  }

  lemma ReviewTouchesNoOther(f: Payload, v: Verdict, hasMention: bool, s: SignalState)
    requires s !in {ReviewRequestedState, ReviewSubmittedState, ChangesRequestedState}
    ensures SameChip(f, f.(myReviewState := v), hasMention, s)
  {
    StatesAreTheMatches(f, hasMention, |PRECEDENCE|);
    StatesAreTheMatches(f.(myReviewState := v), hasMention, |PRECEDENCE|);
  }

  /** Without a role that makes the item mine to act on, only a mention and an unknown gate can show. */
  lemma BystanderSees(f: Payload, hasMention: bool, s: SignalState)
    requires Author !in f.myRoles && SoleApprover !in f.myRoles && Reviewer !in f.myRoles
    ensures s in StatesOf(f, hasMention) <==> (s == MentionedState && hasMention) || (s == CheckingState && f.gate == Unknown)
    ensures !IsMuted(f)
  {
    StatesAreTheMatches(f, hasMention, |PRECEDENCE|);
  }

  /** A sole approver sees what the author would, but for the verdicts that are the author's to answer. */
  lemma SoleApproverSees(f: Payload, g: Payload, hasMention: bool, s: SignalState)
    requires f.myRoles == [Author] && g == f.(myRoles := [SoleApprover])
    ensures s !in {ChangesRequestedState, ReviewRequestedState} ==> SameChip(f, g, hasMention, s)
    ensures ChangesRequestedState !in StatesOf(g, hasMention)
    ensures ChangesRequestedState in StatesOf(f, hasMention) <==> f.reviewDecision == ChangesRequested
    ensures ReviewRequestedState !in StatesOf(f, hasMention)
    ensures ReviewRequestedState in StatesOf(g, hasMention) <==> !f.draft && f.myReviewState !in {Reviewed, Approved, ChangesRequested}
  {
    StatesAreTheMatches(f, hasMention, |PRECEDENCE|);
    StatesAreTheMatches(g, hasMention, |PRECEDENCE|);
  }

  /** A mention changes the mention chip alone. */
  lemma MentionAdds(f: Payload, s: SignalState)
    ensures s in StatesOf(f, true) <==> s in StatesOf(f, false) || s == MentionedState
    ensures MentionedState !in StatesOf(f, false)
  {
    StatesAreTheMatches(f, true, |PRECEDENCE|);
    StatesAreTheMatches(f, false, |PRECEDENCE|);
  }

  /** Arming auto-merge on my own item adds the one chip for it, and on a draft none. */
  lemma ArmingAdds(f: Payload, hasMention: bool, s: SignalState)
    requires !f.autoMergeArmed
    ensures s in StatesOf(f.(autoMergeArmed := true), hasMention) <==>
            s in StatesOf(f, hasMention) || (s == AutoMergeArmedState && IsMine(f) && !f.draft)
    ensures AutoMergeArmedState !in StatesOf(f, hasMention)
  {
    StatesAreTheMatches(f, hasMention, |PRECEDENCE|);
    StatesAreTheMatches(f.(autoMergeArmed := true), hasMention, |PRECEDENCE|);
  }

  /** And so do its running checks. */
  lemma RunningAdds(f: Payload, hasMention: bool, s: SignalState)
    requires !f.checksRunning
    ensures s in StatesOf(f.(checksRunning := true), hasMention) <==>
            s in StatesOf(f, hasMention) || (s == ChecksRunningState && IsMine(f) && !f.draft)
    ensures ChecksRunningState !in StatesOf(f, hasMention)
  {
    StatesAreTheMatches(f, hasMention, |PRECEDENCE|);
    StatesAreTheMatches(f.(checksRunning := true), hasMention, |PRECEDENCE|);
  }

  /** The chip that leads: what asks me to act comes before what reports progress. */
  lemma LeadingChip(f: Payload, hasMention: bool)
    requires StatesOf(f, hasMention) != []
    ensures var states := StatesOf(f, hasMention);
            states[0] == if ChangesRequestedState in states then ChangesRequestedState
                         else if ReviewRequestedState in states then ReviewRequestedState
                         else if BlockedState in states then BlockedState
                         else if MentionedState in states then MentionedState
                         else if ReadyToMergeState in states then ReadyToMergeState
                         else if AutoMergeArmedState in states then AutoMergeArmedState
                         else if ChecksRunningState in states then ChecksRunningState
                         else if CheckingState in states then CheckingState
                         else ReviewSubmittedState
  {
    forall s | s in StatesOf(f, hasMention)
      ensures Rank(StatesOf(f, hasMention)[0]) <= Rank(s)
    {
      FirstIsHighest(f, hasMention, s);
    }
  }

  lemma FirstIsHighest(f: Payload, hasMention: bool, s: SignalState)
    requires s in StatesOf(f, hasMention)
    ensures Rank(StatesOf(f, hasMention)[0]) <= Rank(s)
  {
    StatesAreTheMatches(f, hasMention, |PRECEDENCE|);
    var i :| 0 <= i < |StatesOf(f, hasMention)| && StatesOf(f, hasMention)[i] == s;
  }

  // ---- the chips of one role ----

  /** What the author sees on an item that is no draft. */
  lemma OwnChips(pl: Payload, hasMention: bool)
    requires Author in pl.myRoles && Reviewer !in pl.myRoles && !pl.draft
    ensures var states := StatesOf(pl, hasMention);
            && (ReadyToMergeState in states <==> pl.gate == Ready)
            && (BlockedState in states <==> pl.gate == Blocked)
            && (CheckingState in states <==> pl.gate == Unknown)
            && (ChangesRequestedState in states <==> pl.reviewDecision == ChangesRequested)
            && (AutoMergeArmedState in states <==> pl.autoMergeArmed)
            && (ChecksRunningState in states <==> pl.checksRunning)
  {
    StatesAreTheMatches(pl, hasMention, |PRECEDENCE|);
  }

  /** What a mere reviewer sees, and when the row is muted. */
  lemma ReviewerChips(pl: Payload, hasMention: bool)
    requires Reviewer in pl.myRoles && Author !in pl.myRoles && SoleApprover !in pl.myRoles && !pl.draft
    ensures var states, done := StatesOf(pl, hasMention), pl.myReviewState in {Reviewed, Approved, ChangesRequested};
            && (ReviewSubmittedState in states <==> done)
            && (ReviewRequestedState in states <==> !done)
            && (ChangesRequestedState in states <==> pl.myReviewState == ChangesRequested)
            && (IsMuted(pl) <==> done)
  {
    StatesAreTheMatches(pl, hasMention, |PRECEDENCE|);
  }
}
