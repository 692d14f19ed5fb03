/** The operator's transaction and the reconciler keep the invariant. */
module DurableReview {
  import opened Basics
  import Gate = ExecutionGate
  import Outbox = OutboxRepository
  import Ledger = ExecutionAttemptRepository
  import opened DurableState
  import opened DurableInvariants

  // ----- the operator's transaction

  /** The verdict is written once; no decision becomes EXECUTED by it. */
  ghost predicate Rules(s: State, t: State, id: nat, ruled: Approval) {
    && id in s.db.approvals && s.db.approvals[id].verdict.None?
    && ruled == s.db.approvals[id].(verdict := ruled.verdict, modified := ruled.modified) && ruled.verdict.Some?
    && t.db == s.db.(decisions := t.db.decisions, used := t.db.used, outbox := t.db.outbox, approvals := s.db.approvals[id := ruled])
    && t == s.(db := t.db, log := s.log.(source := t.log.source))
    && SameDecisions(s, t) && s.db.used <= t.db.used
    && (forall d | d in s.db.decisions && t.db.decisions[d].state == Gate.Executed :: s.db.decisions[d].state == Gate.Executed)
  }

  /** A sanctioned approval stages exactly one fresh outbox row; any other verdict stages none. */
  ghost predicate Stages(s: State, t: State, id: nat, ruled: Approval, o: nat) {
    if Sanctioned(ruled) then
      && o !in s.db.used && o in t.db.used
      && t.db.outbox == s.db.outbox[o := Outbox.NewRow(ruled.sessionId, ruled.decisionId, ruled.action, SanctionedText(ruled), None)]
      && t.log.source == s.log.source[o := id]
    else t.db.outbox == s.db.outbox && t.log.source == s.log.source
  }

  lemma ReviewShape(s: State, t: State, id: nat, verdict: Verdict, modified: Option<string>, o: nat)
    requires ReviewStep(s, t, id, verdict, modified, o)
    ensures id in t.db.approvals && Rules(s, t, id, t.db.approvals[id]) && Stages(s, t, id, t.db.approvals[id], o)
  {
  }

  lemma RulesKeepsReviews(s: State, t: State, id: nat, ruled: Approval)
    requires ApprovalsOk(s) && StrandedOk(s) && Rules(s, t, id, ruled)
    ensures ApprovalsOk(t) && StrandedOk(t)
  {
    forall a | a in t.db.approvals
      ensures ApprovalOk(t, t.db.approvals[a]) && t.db.approvals[a].decisionId == s.db.approvals[a].decisionId
    {
      assert ApprovalOk(s, s.db.approvals[a]);
    }
    forall d
      ensures HasApproval(t, d) <==> HasApproval(s, d)
      ensures HeldForReview(t, d) <==> HeldForReview(s, d)
    {
      if HasApproval(s, d) {
        var a :| a in s.db.approvals && s.db.approvals[a].decisionId == d;
        assert t.db.approvals[a].decisionId == d;
      }
    }
  }

  lemma StagesKeepsSources(s: State, t: State, id: nat, ruled: Approval, o: nat)
    requires SourcesOk(s) && Rules(s, t, id, ruled) && Stages(s, t, id, ruled, o)
    ensures SourcesOk(t)
  {
    forall q | q in s.db.outbox
      ensures s.log.source[q] != id && SourceOk(t, q)
    {
      assert SourceOk(s, q);
    }
    forall a | a in t.db.approvals && Sanctioned(t.db.approvals[a])
      ensures Staged(t, a)
    {
      if a == id {
        assert t.log.source[o] == a;
      } else {
        assert Staged(s, a);
        var q :| q in s.log.source && s.log.source[q] == a;
        assert q in t.log.source && t.log.source[q] == a;
      }
    }
  }

  /** Old rows stay as they are; a new row has no attempts yet. */
  ghost predicate OutboxGrew(s: State, t: State) {
    && (forall o | o in s.db.outbox :: o in t.db.outbox && t.db.outbox[o] == s.db.outbox[o])
    && (forall o | o in t.db.outbox && o !in s.db.outbox ::
          t.db.outbox[o].status.Pending? && t.db.outbox[o].attempts == 0 && t.db.outbox[o].fencingToken == 1
          && t.db.outbox[o].maxAttempts >= 1)
    && t.log == s.log.(source := t.log.source) && t.passes == s.passes
  }

  lemma ReviewGrows(s: State, t: State, id: nat, ruled: Approval, o: nat)
    requires SourcesOk(s) && Rules(s, t, id, ruled) && Stages(s, t, id, ruled, o)
    ensures OutboxGrew(s, t)
  {
  }

  lemma GrowthKeepsRows(s: State, t: State)
    requires RowsOk(s) && OutboxGrew(s, t)
    ensures RowsOk(t)
  {
  }

  lemma GrowthKeepsPasses(s: State, t: State)
    requires PassesOk(s) && OutboxGrew(s, t)
    ensures PassesOk(t)
  {
  }

  lemma GrowthKeepsCounts(s: State, t: State)
    requires PassesOk(s) && CountsOk(s) && OutboxGrew(s, t)
    ensures CountsOk(t)
  {
  }

  lemma OpenReviewHasNoOutbox(s: State, id: nat)
    requires ApprovalsOk(s) && SourcesOk(s) && id in s.db.approvals && s.db.approvals[id].verdict.None?
    ensures !HasOutbox(s, s.db.approvals[id].decisionId)
  {
  }

  /** The sanctioned decision has no outbox row yet, hence no attempts. */
  lemma ReviewedIsFresh(s: State, id: nat)
    requires DecisionsOk(s) && AttemptsOk(s) && id in s.db.approvals && ApprovalOk(s, s.db.approvals[id])
    requires !HasOutbox(s, s.db.approvals[id].decisionId)
    ensures forall x | x in s.db.attempts :: s.db.attempts[x].decisionId != s.db.approvals[id].decisionId
  {
  }

  lemma GrowthKeepsAttempts(s: State, t: State, d: nat)
    requires AttemptsOk(s) && SameDecisions(s, t) && t.db.attempts == s.db.attempts && t.log.clash == s.log.clash
    requires s.db.used <= t.db.used && t.pipes == s.pipes && t.passes == s.passes
    requires forall o | o in s.db.outbox :: o in t.db.outbox && t.db.outbox[o] == s.db.outbox[o]
    requires forall o | o in t.db.outbox && o !in s.db.outbox :: t.db.outbox[o].decisionId == d
    requires forall x | x in s.db.attempts :: s.db.attempts[x].decisionId != d
    ensures AttemptsOk(t)
  {
  }

  lemma GrowthKeepsExecuted(s: State, t: State)
    requires ExecutedOk(s) && SameDecisions(s, t) && OutboxGrew(s, t)
    requires forall d | d in s.db.decisions && t.db.decisions[d].state == Gate.Executed :: s.db.decisions[d].state == Gate.Executed
    ensures ExecutedOk(t)
  {
  }

  lemma ReviewKeepsRuns(s: State, t: State, id: nat, ruled: Approval)
    requires DecisionsOk(s) && PipesOk(s) && PostsOk(s) && ApprovalsOk(s) && StrandedOk(s) && Rules(s, t, id, ruled)
    ensures DecisionsOk(t) && PipesOk(t) && PostsOk(t) && ApprovalsOk(t) && StrandedOk(t)
  {
    FrameDecisions(s, t);
    FramePipes(s, t);
    FramePosts(s, t);
    RulesKeepsReviews(s, t, id, ruled);
  }

  lemma ReviewKeepsDispatch(s: State, t: State, id: nat, ruled: Approval, o: nat)
    requires SourcesOk(s) && RowsOk(s) && PassesOk(s) && CountsOk(s) && ExecutedOk(s)
    requires Rules(s, t, id, ruled) && Stages(s, t, id, ruled, o)
    ensures SourcesOk(t) && RowsOk(t) && PassesOk(t) && CountsOk(t) && ExecutedOk(t)
  {
    StagesKeepsSources(s, t, id, ruled, o);
    ReviewGrows(s, t, id, ruled, o);
    GrowthKeepsRows(s, t);
    GrowthKeepsPasses(s, t);
    GrowthKeepsCounts(s, t);
    GrowthKeepsExecuted(s, t);
  }

  lemma ReviewKeepsAttempts(s: State, t: State, id: nat, ruled: Approval, o: nat)
    requires DecisionsOk(s) && ApprovalsOk(s) && SourcesOk(s) && AttemptsOk(s)
    requires Rules(s, t, id, ruled) && Stages(s, t, id, ruled, o)
    ensures AttemptsOk(t)
  {
    OpenReviewHasNoOutbox(s, id);
    assert ApprovalOk(s, s.db.approvals[id]);
    ReviewedIsFresh(s, id);
    ReviewGrows(s, t, id, ruled, o);
    GrowthKeepsAttempts(s, t, s.db.approvals[id].decisionId);
  }

  lemma ReviewKeepsInv(s: State, t: State, id: nat, verdict: Verdict, modified: Option<string>, o: nat)
    requires Inv(s) && ReviewStep(s, t, id, verdict, modified, o)
    ensures Inv(t)
  {
    ReviewShape(s, t, id, verdict, modified, o);
    ReviewKeepsRuns(s, t, id, t.db.approvals[id]);
    ReviewKeepsDispatch(s, t, id, t.db.approvals[id], o);
    ReviewKeepsAttempts(s, t, id, t.db.approvals[id], o);
  }

  lemma SweepShape(s: State, t: State, r: Slot, a: SweepAction)
    requires SweepStep(s, t, r, a)
    ensures t == s.(db := s.db.(attempts := t.db.attempts), sweeps := t.sweeps) && SameLedger(s, t)
  {
  }

  // ----- reconciler steps

  lemma LedgerStepKeepsReviews(s: State, t: State)
    requires ApprovalsOk(s) && StrandedOk(s) && t == s.(db := s.db.(attempts := t.db.attempts), sweeps := t.sweeps)
    ensures ApprovalsOk(t) && StrandedOk(t)
  {
  }

  lemma LedgerStepKeepsLedger(s: State, t: State)
    requires AttemptsOk(s) && ExecutedOk(s) && SameLedger(s, t)
    requires t == s.(db := s.db.(attempts := t.db.attempts), sweeps := t.sweeps)
    ensures AttemptsOk(t) && ExecutedOk(t)
  {
    FrameAttempts(s, t);
    FrameExecuted(s, t);
  }

  lemma LedgerStepKeepsRuns(s: State, t: State)
    requires DecisionsOk(s) && PipesOk(s) && PostsOk(s)
    requires t == s.(db := s.db.(attempts := t.db.attempts), sweeps := t.sweeps)
    ensures DecisionsOk(t) && PipesOk(t) && PostsOk(t)
  {
    FrameDecisions(s, t);
    FramePipes(s, t);
    FramePosts(s, t);
  }

  lemma LedgerStepKeepsDispatch(s: State, t: State)
    requires SourcesOk(s) && RowsOk(s) && PassesOk(s) && CountsOk(s)
    requires SameLedger(s, t) && t == s.(db := s.db.(attempts := t.db.attempts), sweeps := t.sweeps)
    ensures SourcesOk(t) && RowsOk(t) && PassesOk(t) && CountsOk(t)
  {
    FrameSources(s, t);
    FrameRows(s, t);
    FramePasses(s, t);
    FrameCounts(s, t);
  }

  lemma LedgerStepKeepsInv(s: State, t: State)
    requires Inv(s) && SameLedger(s, t) && t == s.(db := s.db.(attempts := t.db.attempts), sweeps := t.sweeps)
    ensures Inv(t)
  {
    LedgerStepKeepsRuns(s, t);
    LedgerStepKeepsReviews(s, t);
    LedgerStepKeepsDispatch(s, t);
    LedgerStepKeepsLedger(s, t);
  }

  lemma SweepKeepsInv(s: State, t: State, r: Slot, a: SweepAction)
    requires Inv(s) && SweepStep(s, t, r, a)
    ensures Inv(t)
  {
    SweepShape(s, t, r, a);
    LedgerStepKeepsInv(s, t);
  }
}
