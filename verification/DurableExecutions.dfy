/**
  What a decision that ran without a human says of its execution: its state, its only attempt and what was sent for it.
 */
module DurableExecutions {
  import opened Basics
  import Gate = ExecutionGate
  import Outbox = OutboxRepository
  import Ledger = ExecutionAttemptRepository
  import opened DurableState
  import opened DurableInvariants
  import opened DurablePipeline
  import opened DurableReview
  import opened DurableDispatch
  import opened DurableTheorems
  import opened DurableAttempts

  // ----- decisions and their runs

  /** The state of the decision of a run that executes it. */
  predicate StateFits(pc: Pipe, state: Gate.ExecutionState) {
    match pc
    case Won(_, _, plan) => RunsAlone(plan) ==> state == Gate.Executing
    case Numbered(_, _, _, _) => state == Gate.Executing
    case Attempting(_, _, _, _, _) => state == Gate.Executing
    case Posted(_, _, _) => state == Gate.Executing
    case Settled(_, _, _) => state == Gate.Executing
    case Closing(_, _, _) => state == Gate.Executed
    case Failing(_, _, _, _, _) => state == Gate.Executing || state == Gate.Executed
    case FailNoted(_, _) => state == Gate.Executing || state == Gate.Executed
    case _ => true
  }

  /** A run that executes has a payload, and makes the first attempt of its decision. */
  predicate PlanFits(pc: Pipe) {
    && (pc.Numbered? || pc.Attempting? ==> RunsAlone(pc.plan))
    && (pc.Numbered? ==> pc.number == 1)
  }

  ghost predicate SentFor(log: Log, d: nat) {
    exists y :: y in log.posted && y.decisionId == d
  }

  /** What the pipeline sends for a decision: the plan's approval, or the proposed response, which is not blank. */
  predicate RequestFits(row: Decision, request: Request) {
    if row.action.ApprovePlan? then request == ApprovePlan(row.sessionId)
    else match row.response
      case None => false
      case Some(text) => text != "" && request == Message(row.sessionId, text)
  }

  ghost predicate AckedFor(s: State, d: nat) {
    exists x :: x in s.log.acks && x in s.db.attempts && s.db.attempts[x].decisionId == d
  }

  ghost predicate PipeFits(s: State, pc: Pipe) {
    && PlanFits(pc)
    && (Owns(pc) ==> pc.id in s.db.decisions && StateFits(pc, s.db.decisions[pc.id].state))
    && (AfterPost(pc) ==> SentFor(s.log, pc.id))
  }

  /** A decision that runs alone. */
  ghost predicate Auto(s: State, d: nat) {
    d in s.db.decisions && s.db.decisions[d].gate.autoExecuted
  }

  ghost predicate AutoFits(s: State, d: nat)
    requires d in s.db.decisions
  {
    var state := s.db.decisions[d].state;
    && (state == Gate.Executing || state == Gate.Executed || state == Gate.ExecutionFailed)
    && (state == Gate.Executed ==> AckedFor(s, d))
  }

  ghost predicate PipesFit(s: State) {
    forall w | w in s.pipes :: PipeFits(s, s.pipes[w])
  }

  ghost predicate AutosFit(s: State) {
    forall d | Auto(s, d) :: AutoFits(s, d)
  }

  ghost predicate NumbersFit(s: State) {
    forall x | x in s.db.attempts && Auto(s, s.db.attempts[x].decisionId) :: s.db.attempts[x].attemptNumber == 1
  }

  ghost predicate PostingsFit(s: State) {
    && (forall y | y in s.log.posted :: Auto(s, y.decisionId) && RequestFits(s.db.decisions[y.decisionId], y.request))
    && (forall x | x in s.log.acks :: x in s.db.attempts && SentFor(s.log, s.db.attempts[x].decisionId))
  }

  ghost predicate ExecutionsOk(s: State) {
    PipesFit(s) && AutosFit(s) && NumbersFit(s) && PostingsFit(s)
  }

  // ----- pipeline steps

  /** What a step does to the run itself; `own` is the state of its decision before and after. */
  lemma PipeStates(db: Db, log: Log, w: Slot, pc: Pipe, a: PipeAction, turn: Turn<Pipe>)
    requires turn == PipeTurn(db, log, w, pc, a) && turn.Turn? && Owns(pc)
    requires pc.id in db.decisions && StateFits(pc, db.decisions[pc.id].state) && PlanFits(pc)
    requires a.Number? ==> |Ledger.ForDecision(db.attempts, pc.id)| == 0
    ensures Owns(turn.next) ==> turn.next.id == pc.id && pc.id in turn.db.decisions && StateFits(turn.next, turn.db.decisions[pc.id].state)
    ensures PlanFits(turn.next)
    ensures a.FailDecision? ==> turn.db.decisions[pc.id].state == Gate.ExecutionFailed
  {
  }

  /** Only the own decision changes, and only so. */
  lemma PipeDecisions(db: Db, log: Log, w: Slot, pc: Pipe, a: PipeAction, turn: Turn<Pipe>, d: nat)
    requires turn == PipeTurn(db, log, w, pc, a) && turn.Turn? && d in db.decisions && !a.Insert?
    ensures d in turn.db.decisions && SameProposal(db.decisions[d], turn.db.decisions[d])
    ensures
      || turn.db.decisions[d].state == db.decisions[d].state
      || (pc.Settled? && pc.id == d && turn.db.decisions[d].state == Gate.Executed)
      || (pc.FailNoted? && pc.id == d && turn.db.decisions[d].state == Gate.ExecutionFailed)
  {
  }

  /** What the pipeline's history gains. */
  lemma PipePosts(db: Db, log: Log, w: Slot, pc: Pipe, a: PipeAction, turn: Turn<Pipe>)
    requires turn == PipeTurn(db, log, w, pc, a) && turn.Turn?
    ensures log.posted <= turn.log.posted
    ensures !a.Post? ==> turn.log.posted == log.posted
    ensures a.Post? && pc.Attempting? && Mutates(pc.plan.action) ==>
      turn.log.posted == log.posted + {Posting(pc.id, PlanRequest(pc.job.sessionId, pc.plan))}
    ensures a.Post? ==> pc.Attempting? && turn.db == db
    ensures AfterPost(turn.next) ==> a.Post? || (AfterPost(pc) && turn.next.id == pc.id)
  {
  }

  lemma WonRunFits(s: State, t: State, w: Slot)
    requires Wins(s, t, w)
    ensures PipeFits(t, t.pipes[w])
  {
  }

  lemma MoverFits(s: State, t: State, w: Slot, a: PipeAction)
    requires PipesOk(s) && AttemptsOk(s) && PipeStep(s, t, w, a) && PipeFits(s, s.pipes[w])
    ensures PipeFits(t, t.pipes[w])
  {
    var pc, turn := s.pipes[w], PipeTurn(s.db, s.log, w, s.pipes[w], a);
    PipePosts(s.db, s.log, w, pc, a, turn);
    assert PipeOk(s, pc);
    if a.Insert? {
      InsertOutcome(s, t, w);
      if Wins(s, t, w) {
        WonRunFits(s, t, w);
      }
    } else if Owns(pc) {
      if a.Number? {
        assert Ledger.ForDecision(s.db.attempts, pc.id) == {};
      }
      PipeStates(s.db, s.log, w, pc, a, turn);
      if AfterPost(t.pipes[w]) && a.Post? {
        PostsForOwn(s, t, w, a);
      }
    } else {
      NotOwner(s.db, s.log, w, pc, a, turn);
    }
  }

  lemma PostsForOwn(s: State, t: State, w: Slot, a: PipeAction)
    requires PipesOk(s) && PipeStep(s, t, w, a) && a.Post?
    ensures s.pipes[w].Attempting? && Posting(s.pipes[w].id, PlanRequest(s.pipes[w].job.sessionId, s.pipes[w].plan)) in t.log.posted
    ensures SentFor(t.log, s.pipes[w].id)
    ensures AfterPost(t.pipes[w]) ==> t.pipes[w].id == s.pipes[w].id
  {
    assert PipeOk(s, s.pipes[w]);
    PipePosts(s.db, s.log, w, s.pipes[w], a, PipeTurn(s.db, s.log, w, s.pipes[w], a));
  }

  lemma NotOwner(db: Db, log: Log, w: Slot, pc: Pipe, a: PipeAction, turn: Turn<Pipe>)
    requires turn == PipeTurn(db, log, w, pc, a) && turn.Turn? && !Owns(pc) && !a.Insert?
    ensures !Owns(turn.next) && PlanFits(turn.next)
  {
  }

  lemma OtherFits(s: State, t: State, w: Slot, a: PipeAction, v: Slot)
    requires PipesOk(s) && PipeStep(s, t, w, a) && v in s.pipes && v != w && PipeFits(s, s.pipes[v])
    ensures PipeFits(t, t.pipes[v])
  {
    var pc, turn := s.pipes[w], PipeTurn(s.db, s.log, w, s.pipes[w], a);
    PipePosts(s.db, s.log, w, pc, a, turn);
    if Owns(s.pipes[v]) {
      var d := s.pipes[v].id;
      if a.Insert? {
        InsertOutcome(s, t, w);
      } else {
        PipeDecisions(s.db, s.log, w, pc, a, turn, d);
      }
    }
  }

  lemma PipeKeepsPipes(s: State, t: State, w: Slot, a: PipeAction)
    requires PipesOk(s) && AttemptsOk(s) && PipesFit(s) && PipeStep(s, t, w, a)
    ensures PipesFit(t)
  {
    forall v | v in t.pipes
      ensures PipeFits(t, t.pipes[v])
    {
      if v == w {
        MoverFits(s, t, w, a);
      } else {
        OtherFits(s, t, w, a, v);
      }
    }
  }

  /** Attempts stay, with their decisions and numbers. */
  ghost predicate KeepsAttempts(s: State, t: State) {
    && s.log.acks <= t.log.acks
    && forall x | x in s.db.attempts :: x in t.db.attempts && Ledger.SameAttempt(s.db.attempts[x], t.db.attempts[x])
  }

  lemma AckedStays(s: State, t: State, d: nat)
    requires KeepsAttempts(s, t) && AckedFor(s, d)
    ensures AckedFor(t, d)
  {
    var x :| x in s.log.acks && x in s.db.attempts && s.db.attempts[x].decisionId == d;
    assert x in t.log.acks && x in t.db.attempts && t.db.attempts[x].decisionId == d;
  }

  lemma PipeKeepsLedger(db: Db, log: Log, w: Slot, pc: Pipe, a: PipeAction, turn: Turn<Pipe>, x: nat)
    requires turn == PipeTurn(db, log, w, pc, a) && turn.Turn? && x in db.attempts && x in db.used
    ensures log.acks <= turn.log.acks && x in turn.db.attempts && Ledger.SameAttempt(db.attempts[x], turn.db.attempts[x])
  {
  }

  lemma PipeKeepsAttempts(s: State, t: State, w: Slot, a: PipeAction)
    requires PipeStep(s, t, w, a) && forall x | x in s.db.attempts :: x in s.db.used
    ensures KeepsAttempts(s, t)
  {
    PipeLogsOwn(s.db, s.log, w, s.pipes[w], a, PipeTurn(s.db, s.log, w, s.pipes[w], a));
    forall x | x in s.db.attempts
      ensures x in t.db.attempts && Ledger.SameAttempt(s.db.attempts[x], t.db.attempts[x])
    {
      PipeKeepsLedger(s.db, s.log, w, s.pipes[w], a, PipeTurn(s.db, s.log, w, s.pipes[w], a), x);
    }
  }

  lemma AutoStays(s: State, t: State, w: Slot, a: PipeAction, d: nat)
    requires PipeStep(s, t, w, a) && RunFits(s.db, s.log, w.owner, s.pipes[w]) && KeepsAttempts(s, t) && !a.Insert?
    requires d in s.db.decisions && AutoFits(s, d)
    ensures d in t.db.decisions && AutoFits(t, d)
  {
    var pc, turn := s.pipes[w], PipeTurn(s.db, s.log, w, s.pipes[w], a);
    PipeDecisions(s.db, s.log, w, pc, a, turn, d);
    if s.db.decisions[d].state == Gate.Executed {
      AckedStays(s, t, d);
    }
    if pc.Settled? && pc.id == d {
      assert AckedFor(s, d);
      AckedStays(s, t, d);
    }
  }

  lemma PipeKeepsAutos(s: State, t: State, w: Slot, a: PipeAction)
    requires PipesOk(s) && RunsOk(s) && AutosFit(s) && KeepsAttempts(s, t) && PipeStep(s, t, w, a)
    ensures AutosFit(t)
  {
    assert RunFits(s.db, s.log, w.owner, s.pipes[w]);
    if a.Insert? {
      InsertKeepsAutos(s, t, w);
    } else {
      forall d | Auto(t, d)
        ensures AutoFits(t, d)
      {
        PipeDecisionKeys(s.db, s.log, w, s.pipes[w], a, PipeTurn(s.db, s.log, w, s.pipes[w], a));
        PipeDecisions(s.db, s.log, w, s.pipes[w], a, PipeTurn(s.db, s.log, w, s.pipes[w], a), d);
        assert Auto(s, d);
        AutoStays(s, t, w, a, d);
      }
    }
  }

  lemma PipeDecisionKeys(db: Db, log: Log, w: Slot, pc: Pipe, a: PipeAction, turn: Turn<Pipe>)
    requires turn == PipeTurn(db, log, w, pc, a) && turn.Turn? && !a.Insert?
    ensures turn.db.decisions.Keys == db.decisions.Keys
  {
  }

  lemma InsertKeepsAutos(s: State, t: State, w: Slot)
    requires PipesOk(s) && AutosFit(s) && PipeStep(s, t, w, Insert)
    ensures AutosFit(t)
  {
    InsertOutcome(s, t, w);
    forall d | Auto(t, d)
      ensures AutoFits(t, d)
    {
      if d in s.db.decisions {
        assert Auto(s, d);
        if AckedFor(s, d) {
          assert AckedFor(t, d);
        }
      }
    }
  }

  lemma PipeKeepsNumbers(s: State, t: State, w: Slot, a: PipeAction)
    requires PipesOk(s) && AttemptsOk(s) && PipesFit(s) && NumbersFit(s) && KeepsAttempts(s, t) && PipeStep(s, t, w, a)
    ensures NumbersFit(t)
  {
    assert PipeFits(s, s.pipes[w]);
    PipeProposals(s, t, w, a);
    forall x | x in t.db.attempts && Auto(t, t.db.attempts[x].decisionId)
      ensures t.db.attempts[x].attemptNumber == 1
    {
      NewAttempts(s.db, s.log, w, s.pipes[w], a, PipeTurn(s.db, s.log, w, s.pipes[w], a), x);
      if x in s.db.attempts {
        assert AttemptOk(s, x) && Auto(s, s.db.attempts[x].decisionId);
      }
    }
  }

  lemma NewAttempts(db: Db, log: Log, w: Slot, pc: Pipe, a: PipeAction, turn: Turn<Pipe>, x: nat)
    requires turn == PipeTurn(db, log, w, pc, a) && turn.Turn? && x in turn.db.attempts
    ensures x in db.attempts || (pc.Numbered? && turn.db.attempts[x].attemptNumber == pc.number)
  {
  }

  /** Existing decisions keep their proposals. */
  lemma PipeProposals(s: State, t: State, w: Slot, a: PipeAction)
    requires PipesOk(s) && PipeStep(s, t, w, a)
    ensures forall d | d in s.db.decisions :: d in t.db.decisions && SameProposal(s.db.decisions[d], t.db.decisions[d])
  {
    if a.Insert? {
      InsertOutcome(s, t, w);
    } else {
      forall d | d in s.db.decisions
        ensures d in t.db.decisions && SameProposal(s.db.decisions[d], t.db.decisions[d])
      {
        PipeDecisions(s.db, s.log, w, s.pipes[w], a, PipeTurn(s.db, s.log, w, s.pipes[w], a), d);
      }
    }
  }

  /** The request that a run sends is the one its decision stands for. */
  lemma OwnRequestFits(s: State, w: Slot)
    requires w in s.pipes && s.pipes[w].Attempting? && PipeOk(s, s.pipes[w]) && PlanFits(s.pipes[w])
    ensures Auto(s, s.pipes[w].id)
    ensures RequestFits(s.db.decisions[s.pipes[w].id], PlanRequest(s.pipes[w].job.sessionId, s.pipes[w].plan))
  {
  }

  lemma PipeKeepsPosted(s: State, t: State, w: Slot, a: PipeAction)
    requires PipesOk(s) && PipesFit(s) && PostingsFit(s) && PipeStep(s, t, w, a)
    ensures forall y | y in t.log.posted :: Auto(t, y.decisionId) && RequestFits(t.db.decisions[y.decisionId], y.request)
  {
    assert PipeOk(s, s.pipes[w]) && PipeFits(s, s.pipes[w]);
    PipePosts(s.db, s.log, w, s.pipes[w], a, PipeTurn(s.db, s.log, w, s.pipes[w], a));
    PipeProposals(s, t, w, a);
    if a.Post? {
      OwnRequestFits(s, w);
    }
  }

  lemma PipeKeepsSent(s: State, t: State, w: Slot, a: PipeAction)
    requires PipesFit(s) && RunsOk(s) && PostingsFit(s) && KeepsAttempts(s, t) && PipeStep(s, t, w, a)
    ensures forall x | x in t.log.acks :: x in t.db.attempts && SentFor(t.log, t.db.attempts[x].decisionId)
  {
    var pc, turn := s.pipes[w], PipeTurn(s.db, s.log, w, s.pipes[w], a);
    assert PipeFits(s, pc) && RunFits(s.db, s.log, w.owner, pc);
    PipeLogsOwn(s.db, s.log, w, pc, a, turn);
    PipePosts(s.db, s.log, w, pc, a, turn);
    forall x | x in t.log.acks
      ensures x in t.db.attempts && SentFor(t.log, t.db.attempts[x].decisionId)
    {
      assert x in s.db.attempts && SentFor(s.log, s.db.attempts[x].decisionId);
    }
  }

  lemma PipeKeepsExecutions(s: State, t: State, w: Slot, a: PipeAction)
    requires PipesOk(s) && AttemptsOk(s) && RunsOk(s) && ExecutionsOk(s) && PipeStep(s, t, w, a)
    ensures ExecutionsOk(t)
  {
    PipeKeepsAttempts(s, t, w, a);
    PipeKeepsPipes(s, t, w, a);
    PipeKeepsAutos(s, t, w, a);
    PipeKeepsNumbers(s, t, w, a);
    PipeKeepsPosted(s, t, w, a);
    PipeKeepsSent(s, t, w, a);
  }

  // ----- the other actors leave those decisions alone

  /** A step of another actor: no decision that runs alone changes, nor does a run, and no such attempt appears. */
  ghost predicate Leaves(s: State, t: State) {
    && t.pipes == s.pipes && t.log.posted == s.log.posted && t.log.acks == s.log.acks
    && SameDecisions(s, t) && KeepsAttempts(s, t)
    && (forall d | Auto(s, d) :: t.db.decisions[d] == s.db.decisions[d])
    && (forall x | x in t.db.attempts && x !in s.db.attempts :: !Auto(s, t.db.attempts[x].decisionId))
  }

  lemma LeavesPipes(s: State, t: State)
    requires PipesOk(s) && PipesFit(s) && Leaves(s, t)
    ensures PipesFit(t)
  {
    forall w | w in t.pipes
      ensures PipeFits(t, t.pipes[w])
    {
      assert PipeOk(s, s.pipes[w]) && PipeFits(s, s.pipes[w]);
      if Owns(s.pipes[w]) && s.db.decisions[s.pipes[w].id].gate.autoExecuted {
        assert Auto(s, s.pipes[w].id);
      }
    }
  }

  lemma LeavesAutos(s: State, t: State)
    requires AutosFit(s) && Leaves(s, t)
    ensures AutosFit(t)
  {
    forall d | Auto(t, d)
      ensures AutoFits(t, d)
    {
      assert Auto(s, d);
      if AckedFor(s, d) {
        AckedStays(s, t, d);
      }
    }
  }

  lemma LeavesNumbers(s: State, t: State)
    requires NumbersFit(s) && PostingsFit(s) && Leaves(s, t)
    ensures NumbersFit(t) && PostingsFit(t)
  {
    forall x | x in t.db.attempts && Auto(t, t.db.attempts[x].decisionId)
      ensures t.db.attempts[x].attemptNumber == 1
    {
      assert Auto(s, t.db.attempts[x].decisionId);
    }
    forall y | y in t.log.posted
      ensures Auto(t, y.decisionId) && RequestFits(t.db.decisions[y.decisionId], y.request)
    {
      assert Auto(s, y.decisionId);
    }
  }

  lemma LeavesExecutions(s: State, t: State)
    requires PipesOk(s) && ExecutionsOk(s) && Leaves(s, t)
    ensures ExecutionsOk(t)
  {
    LeavesPipes(s, t);
    LeavesAutos(s, t);
    LeavesNumbers(s, t);
  }

  /** The dispatcher writes to the decision of its item, and records attempts for it, and for no other. */
  lemma PassWritesItem(db: Db, log: Log, p: Slot, pc: Pass, a: PassAction, turn: Turn<Pass>)
    requires turn == PassTurn(db, log, p, pc, a) && turn.Turn?
    ensures forall d | d in db.decisions && (pc.Holding? ==> d != pc.item.decisionId) ::
      d in turn.db.decisions && turn.db.decisions[d] == db.decisions[d]
    ensures forall x | x in turn.db.attempts && x !in db.attempts :: pc.Holding? && turn.db.attempts[x].decisionId == pc.item.decisionId
  {
  }

  lemma PassKeepsAttempts(db: Db, log: Log, p: Slot, pc: Pass, a: PassAction, turn: Turn<Pass>, x: nat)
    requires turn == PassTurn(db, log, p, pc, a) && turn.Turn? && x in db.attempts && x in db.used
    ensures x in turn.db.attempts && Ledger.SameAttempt(db.attempts[x], turn.db.attempts[x])
  {
  }

  lemma ItemIsNotAuto(s: State, p: Slot)
    requires DecisionsOk(s) && ApprovalsOk(s) && SourcesOk(s) && PassesOk(s) && p in s.passes && s.passes[p].Holding?
    ensures !Auto(s, s.passes[p].item.decisionId)
  {
    assert PassOk(s, s.passes[p]);
    if Auto(s, s.passes[p].item.decisionId) {
      AutoHasNoOutbox(s, s.passes[p].item.decisionId);
      assert HasOutbox(s, s.passes[p].item.decisionId);
    }
  }

  lemma PassLeaves(s: State, t: State, p: Slot, a: PassAction)
    requires DecisionsOk(s) && ApprovalsOk(s) && SourcesOk(s) && PassesOk(s) && PassStep(s, t, p, a)
    requires forall x | x in s.db.attempts :: x in s.db.used
    ensures Leaves(s, t)
  {
    var turn := PassTurn(s.db, s.log, p, s.passes[p], a);
    PassShape(s, t, p, a);
    PassWritesItem(s.db, s.log, p, s.passes[p], a, turn);
    if s.passes[p].Holding? {
      ItemIsNotAuto(s, p);
    }
    forall x | x in s.db.attempts
      ensures x in t.db.attempts && Ledger.SameAttempt(s.db.attempts[x], t.db.attempts[x])
    {
      PassKeepsAttempts(s.db, s.log, p, s.passes[p], a, turn, x);
    }
  }

  lemma ReviewDecisions(s: State, t: State, id: nat, verdict: Verdict, modified: Option<string>, o: nat)
    requires ReviewStep(s, t, id, verdict, modified, o)
    ensures id in s.db.approvals && t.db.attempts == s.db.attempts
    ensures forall d | d in s.db.decisions && d != s.db.approvals[id].decisionId :: d in t.db.decisions && t.db.decisions[d] == s.db.decisions[d]
  {
  }

  lemma ReviewLeaves(s: State, t: State, id: nat, verdict: Verdict, modified: Option<string>, o: nat)
    requires DecisionsOk(s) && ApprovalsOk(s) && ReviewStep(s, t, id, verdict, modified, o)
    ensures Leaves(s, t)
  {
    ReviewShape(s, t, id, verdict, modified, o);
    ReviewDecisions(s, t, id, verdict, modified, o);
    assert ApprovalOk(s, s.db.approvals[id]);
  }

  lemma SweepLeaves(s: State, t: State, r: Slot, a: SweepAction)
    requires AttemptsOk(s) && SweepStep(s, t, r, a)
    ensures Leaves(s, t)
  {
    SweepShape(s, t, r, a);
    AttemptsHaveDecisions(s);
    AllSwept(s.db, s.log, r, s.sweeps[r], a, SweepTurn(s.db, s.log, r, s.sweeps[r], a));
  }

  lemma NextKeepsExecutions(s: State, t: State)
    requires DecisionsOk(s) && PipesOk(s) && ApprovalsOk(s) && SourcesOk(s) && PassesOk(s) && AttemptsOk(s)
    requires RunsOk(s) && ExecutionsOk(s) && Next(s, t)
    ensures ExecutionsOk(t)
  {
    var step :| Apply(s, t, step);
    match step
    case PipeMove(w, a) => PipeKeepsExecutions(s, t, w, a);
    case Review(id, verdict, modified, o) =>
      ReviewLeaves(s, t, id, verdict, modified, o);
      LeavesExecutions(s, t);
    case PassMove(p, a) =>
      PassLeaves(s, t, p, a);
      LeavesExecutions(s, t);
    case SweepMove(r, a) =>
      SweepLeaves(s, t, r, a);
      LeavesExecutions(s, t);
  }

  lemma RunInvariants(run: seq<State>, i: nat)
    requires Run(run) && i < |run|
    ensures DecisionsOk(run[i]) && PipesOk(run[i]) && ApprovalsOk(run[i]) && SourcesOk(run[i]) && PassesOk(run[i]) && AttemptsOk(run[i])
  {
    RunKeepsInv(run, i);
  }

  lemma InitExecutions(s: State)
    requires Init(s)
    ensures ExecutionsOk(s)
  {
  }

  lemma {:induction false} RunKeepsExecutions(run: seq<State>, i: nat)
    requires Run(run) && i < |run|
    ensures ExecutionsOk(run[i])
  {
    if i == 0 {
      InitExecutions(run[0]);
    } else {
      RunKeepsExecutions(run, i - 1);
      StepKeepsExecutions(run, i - 1);
    }
  }

  lemma StepKeepsExecutions(run: seq<State>, i: nat)
    requires Run(run) && i + 1 < |run| && ExecutionsOk(run[i])
    ensures ExecutionsOk(run[i + 1])
  {
    RunInvariants(run, i);
    RunKeepsRuns(run, i);
    assert StepAt(run, i);
    NextKeepsExecutions(run[i], run[i + 1]);
  }

  // ----- when no reconciler runs

  /** Where an attempt is exactly, when only its run has touched it. */
  predicate ExactlyAt(pc: Pipe, owner: string, row: Ledger.Row) {
    match pc
    case Attempting(_, _, _, _, progress) =>
      if progress == 0 then row.status.Pending?
      else if progress == 1 then row.status.Claimed? && row.claimOwner == Some(owner)
      else row.status.Executing?
    case Posted(_, _, _) => row.status.Executing?
    case _ => true
  }

  ghost predicate ExactRun(s: State, w: Slot) {
    w in s.pipes && PipeAttempt(s.pipes[w]).Some? && PipeAttempt(s.pipes[w]).value in s.db.attempts ==>
      ExactlyAt(s.pipes[w], w.owner, s.db.attempts[PipeAttempt(s.pipes[w]).value])
  }

  ghost predicate Unswept(s: State) {
    s.sweeps == map[] ==>
      && (forall x | x in s.db.attempts :: !s.db.attempts[x].status.NeedsReconciliation?)
      && (forall w :: ExactRun(s, w))
  }

  lemma PipeStaysExact(db: Db, log: Log, w: Slot, pc: Pipe, a: PipeAction, turn: Turn<Pipe>)
    requires turn == PipeTurn(db, log, w, pc, a) && turn.Turn? && RunFits(db, log, w.owner, pc)
    requires PipeAttempt(pc).Some? ==> ExactlyAt(pc, w.owner, db.attempts[PipeAttempt(pc).value])
    ensures PipeAttempt(turn.next).Some? && PipeAttempt(turn.next).value in turn.db.attempts ==>
              ExactlyAt(turn.next, w.owner, turn.db.attempts[PipeAttempt(turn.next).value])
  {
  }

  lemma PipeNeverEscalates(db: Db, log: Log, w: Slot, pc: Pipe, a: PipeAction, turn: Turn<Pipe>)
    requires turn == PipeTurn(db, log, w, pc, a) && turn.Turn?
    requires forall x | x in db.attempts :: !db.attempts[x].status.NeedsReconciliation?
    ensures forall x | x in turn.db.attempts :: !turn.db.attempts[x].status.NeedsReconciliation?
  {
  }

  lemma PassNeverEscalates(db: Db, log: Log, p: Slot, pc: Pass, a: PassAction, turn: Turn<Pass>)
    requires turn == PassTurn(db, log, p, pc, a) && turn.Turn?
    requires forall x | x in db.attempts :: !db.attempts[x].status.NeedsReconciliation?
    ensures forall x | x in turn.db.attempts :: !turn.db.attempts[x].status.NeedsReconciliation?
  {
  }

  lemma MoverStaysExact(s: State, t: State, w: Slot, a: PipeAction)
    requires RunsOk(s) && ExactRun(s, w) && PipeStep(s, t, w, a)
    ensures ExactRun(t, w)
  {
    assert RunFits(s.db, s.log, w.owner, s.pipes[w]);
    PipeStaysExact(s.db, s.log, w, s.pipes[w], a, PipeTurn(s.db, s.log, w, s.pipes[w], a));
  }

  lemma OtherStaysExact(s: State, t: State, w: Slot, a: PipeAction, v: Slot)
    requires HoldersOk(s) && RunsOk(s) && ExactRun(s, v) && PipeStep(s, t, w, a) && v != w
    requires forall x | x in s.db.attempts :: x in s.db.used
    ensures ExactRun(t, v)
  {
    if v in s.pipes && PipeAttempt(s.pipes[v]).Some? {
      OthersAttemptStays(s, t, w, a, v);
    }
  }

  lemma PipeKeepsUnswept(s: State, t: State, w: Slot, a: PipeAction)
    requires HoldersOk(s) && RunsOk(s) && Unswept(s) && PipeStep(s, t, w, a)
    requires forall x | x in s.db.attempts :: x in s.db.used
    ensures Unswept(t)
  {
    if s.sweeps == map[] {
      PipeNeverEscalates(s.db, s.log, w, s.pipes[w], a, PipeTurn(s.db, s.log, w, s.pipes[w], a));
      forall v
        ensures ExactRun(t, v)
      {
        if v == w {
          MoverStaysExact(s, t, w, a);
        } else {
          OtherStaysExact(s, t, w, a, v);
        }
      }
    }
  }

  lemma OthersAttemptStays(s: State, t: State, w: Slot, a: PipeAction, v: Slot)
    requires HoldersOk(s) && RunsOk(s) && PipeStep(s, t, w, a) && v in s.pipes && v != w && PipeAttempt(s.pipes[v]).Some?
    requires forall x | x in s.db.attempts :: x in s.db.used
    ensures var x := PipeAttempt(s.pipes[v]).value; x in s.db.attempts && x in t.db.attempts && t.db.attempts[x] == s.db.attempts[x]
  {
    assert RunFits(s.db, s.log, v.owner, s.pipes[v]);
    PipeWritesOwn(s.db, s.log, w, s.pipes[w], a, PipeTurn(s.db, s.log, w, s.pipes[w], a), PipeAttempt(s.pipes[v]).value);
  }

  lemma PassKeepsUnswept(s: State, t: State, p: Slot, a: PassAction)
    requires HoldersOk(s) && RunsOk(s) && Unswept(s) && PassStep(s, t, p, a)
    requires forall x | x in s.db.attempts :: x in s.db.used
    ensures Unswept(t) && t.sweeps == s.sweeps
  {
    PassShape(s, t, p, a);
    if s.sweeps == map[] {
      PassNeverEscalates(s.db, s.log, p, s.passes[p], a, PassTurn(s.db, s.log, p, s.passes[p], a));
      forall v
        ensures ExactRun(t, v)
      {
        PassLeavesExact(s, t, p, a, v);
      }
    }
  }

  lemma PassLeavesExact(s: State, t: State, p: Slot, a: PassAction, v: Slot)
    requires HoldersOk(s) && RunsOk(s) && ExactRun(s, v) && PassStep(s, t, p, a)
    requires forall x | x in s.db.attempts :: x in s.db.used
    ensures ExactRun(t, v)
  {
    PassShape(s, t, p, a);
    if v in s.pipes && PipeAttempt(s.pipes[v]).Some? {
      assert RunFits(s.db, s.log, v.owner, s.pipes[v]);
      PassWritesOwn(s.db, s.log, p, s.passes[p], a, PassTurn(s.db, s.log, p, s.passes[p], a), PipeAttempt(s.pipes[v]).value);
    }
  }

  lemma ReviewKeepsUnswept(s: State, t: State, id: nat, verdict: Verdict, modified: Option<string>, o: nat)
    requires Unswept(s) && ReviewStep(s, t, id, verdict, modified, o)
    ensures Unswept(t) && t.sweeps == s.sweeps
  {
    ReviewShape(s, t, id, verdict, modified, o);
    forall v
      ensures ExactRun(s, v) ==> ExactRun(t, v)
    {
    }
  }

  lemma NextKeepsUnswept(s: State, t: State)
    requires HoldersOk(s) && RunsOk(s) && Unswept(s) && Next(s, t) && forall x | x in s.db.attempts :: x in s.db.used
    ensures Unswept(t) && (s.sweeps == map[] ==> t.sweeps == map[])
  {
    var step :| Apply(s, t, step);
    match step
    case PipeMove(w, a) => PipeKeepsUnswept(s, t, w, a);
    case Review(id, verdict, modified, o) => ReviewKeepsUnswept(s, t, id, verdict, modified, o);
    case PassMove(p, a) => PassKeepsUnswept(s, t, p, a);
    case SweepMove(r, a) => SomeSweep(s, t, r, a);
  }

  lemma SomeSweep(s: State, t: State, r: Slot, a: SweepAction)
    requires SweepStep(s, t, r, a)
    ensures s.sweeps != map[] && t.sweeps != map[]
  {
    assert r in s.sweeps && r in t.sweeps;
  }

  lemma {:induction false} RunKeepsUnswept(run: seq<State>, i: nat)
    requires Run(run) && i < |run|
    ensures Unswept(run[i]) && (run[0].sweeps == map[] ==> run[i].sweeps == map[])
  {
    if i > 0 {
      RunKeepsUnswept(run, i - 1);
      StepKeepsUnswept(run, i - 1);
    }
  }

  lemma StepKeepsUnswept(run: seq<State>, i: nat)
    requires Run(run) && i + 1 < |run| && Unswept(run[i])
    ensures Unswept(run[i + 1]) && (run[i].sweeps == map[] ==> run[i + 1].sweeps == map[])
  {
    RunAttemptsOk(run, i);
    RunKeepsRuns(run, i);
    assert StepAt(run, i);
    NextKeepsUnswept(run[i], run[i + 1]);
  }

  // ----- the theorems

  /** After an acknowledged request the attempt is SUCCEEDED, or a reconciler took it: then it is for a human. */
  lemma AcknowledgedMeansSucceeded(run: seq<State>, i: nat, x: nat)
    requires Run(run) && i < |run| && x in run[i].log.acks
    ensures x in run[i].db.attempts
    ensures run[i].db.attempts[x].status.Succeeded? || run[i].db.attempts[x].status.NeedsReconciliation?
    ensures run[0].sweeps == map[] ==> run[i].db.attempts[x].status.Succeeded?
  {
    RunKeepsRuns(run, i);
    RunKeepsUnswept(run, i);
  }

  /** A run between its acknowledged request and its end holds such an attempt, of its own decision. */
  lemma SettledRunsSucceeded(run: seq<State>, i: nat, w: Slot)
    requires Run(run) && i < |run| && w in run[i].pipes && (run[i].pipes[w].Settled? || run[i].pipes[w].Closing?)
    ensures var s, pc := run[i], run[i].pipes[w];
            && pc.att in s.db.attempts && s.db.attempts[pc.att].decisionId == pc.id
            && (s.db.attempts[pc.att].status.Succeeded? || s.db.attempts[pc.att].status.NeedsReconciliation?)
            && (run[0].sweeps == map[] ==> s.db.attempts[pc.att].status.Succeeded?)
            && pc.id in s.db.decisions
            && s.db.decisions[pc.id].state == if pc.Settled? then Gate.Executing else Gate.Executed
  {
    var pc := run[i].pipes[w];
    RunKeepsRuns(run, i);
    RunKeepsExecutions(run, i);
    assert RunFits(run[i].db, run[i].log, w.owner, pc) && PipeFits(run[i], pc);
    AcknowledgedMeansSucceeded(run, i, pc.att);
  }

  /** What was under way when a failure was noted is UNKNOWN_EFFECT after an ambiguous one and FAILED after any other. */
  lemma FailureEndsAttempt(run: seq<State>, i: nat, x: nat)
    requires Run(run) && i < |run| && x in run[i].log.faults && x !in run[i].log.acks
    ensures x in run[i].db.attempts
    ensures var status := run[i].db.attempts[x].status;
            && (status.NeedsReconciliation? || status == if run[i].log.faults[x].Ambiguous? then Ledger.UnknownEffect else Ledger.Failed)
            && (run[0].sweeps == map[] ==> !status.NeedsReconciliation?)
  {
    RunKeepsRuns(run, i);
    RunKeepsUnswept(run, i);
  }

  /**
    A decision that ran alone is EXECUTED only with its one attempt, number 1, SUCCEEDED or for a human, and with a
    request that left for it; it is never in a state of the operator's path.
   */
  lemma ExecutedAloneMeansSucceeded(run: seq<State>, i: nat, d: nat) returns (x: nat, y: Posting)
    requires Run(run) && i < |run| && Auto(run[i], d) && run[i].db.decisions[d].state == Gate.Executed
    ensures x in run[i].db.attempts && run[i].db.attempts[x].decisionId == d && run[i].db.attempts[x].attemptNumber == 1
    ensures forall z | z in run[i].db.attempts && run[i].db.attempts[z].decisionId == d :: z == x
    ensures run[i].db.attempts[x].status.Succeeded? || run[i].db.attempts[x].status.NeedsReconciliation?
    ensures run[0].sweeps == map[] ==> run[i].db.attempts[x].status.Succeeded?
    ensures y in run[i].log.posted && y.decisionId == d && RequestFits(run[i].db.decisions[d], y.request)
  {
    var s := run[i];
    RunKeepsExecutions(run, i);
    assert AutoFits(s, d);
    x :| x in s.log.acks && x in s.db.attempts && s.db.attempts[x].decisionId == d;
    y :| y in s.log.posted && y.decisionId == d;
    AcknowledgedMeansSucceeded(run, i, x);
    UniqueIndexHolds(run, i);
  }

  /** Every request of the pipeline is for a decision that runs alone: its plan approved, or its response, which is not empty. */
  lemma PostedAsProposed(run: seq<State>, i: nat, y: Posting)
    requires Run(run) && i < |run| && y in run[i].log.posted
    ensures Auto(run[i], y.decisionId)
    ensures var row := run[i].db.decisions[y.decisionId];
            && (row.action.ApprovePlan? ==> y.request == ApprovePlan(row.sessionId))
            && (!row.action.ApprovePlan? ==>
                  row.response.Some? && row.response.value != "" && y.request == Message(row.sessionId, row.response.value))
  {
    RunKeepsExecutions(run, i);
  }

  /** A redelivered event stops at the lookup: nothing is proposed, inserted or sent again. */
  lemma RedeliveryStops(s: State, t: State, w: Slot)
    requires PipeStep(s, t, w, LookUp) && KeyTaken(s.db.decisions, s.pipes[w].job.key)
    ensures t == s.(pipes := s.pipes[w := Idle])
  {
  }

  /** And a run that gives up leaves its decision EXECUTION_FAILED. */
  lemma GivingUpFailsDecision(run: seq<State>, i: nat, w: Slot)
    requires Run(run) && i + 1 < |run| && PipeStep(run[i], run[i + 1], w, FailDecision)
    ensures run[i].pipes[w].FailNoted? && run[i].pipes[w].id in run[i + 1].db.decisions
    ensures run[i + 1].db.decisions[run[i].pipes[w].id].state == Gate.ExecutionFailed
  {
    RunKeepsExecutions(run, i);
    assert PipeFits(run[i], run[i].pipes[w]);
  }
}
