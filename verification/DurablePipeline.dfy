/** The steps of pipeline runs keep the invariant. */
module DurablePipeline {
  import opened Basics
  import Gate = ExecutionGate
  import Outbox = OutboxRepository
  import Ledger = ExecutionAttemptRepository
  import opened DurableState
  import opened DurableInvariants

  // ----- what a pipeline step can do

  /** A local move of a run that wins nothing. */
  predicate Local(pc: Pipe, next: Pipe) {
    HasId(next) ==>
      && HasId(pc) && next.id == pc.id && next.job == pc.job
      && (Owns(next) ==> Owns(pc)) && (next.Gated? ==> pc.Gated?) && !next.Won?
      && (HasPlan(next) ==> HasPlan(pc) && next.plan == pc.plan)
      && (next.Numbered? ==> pc.Won?)
      && (pc.Won? ==> next.Numbered? && pc.plan.gate.autoExecuted)
  }

  ghost predicate Moves(s: State, t: State, w: Slot, next: Pipe) {
    w in s.pipes && t.pipes == s.pipes[w := next] && t.passes == s.passes && t.sweeps == s.sweeps
  }

  /** Nothing is inserted and nothing is sent; only execution states and attempt statuses may change. */
  ghost predicate Quiet(s: State, t: State, w: Slot, next: Pipe) {
    && Moves(s, t, w, next) && Local(s.pipes[w], next) && t.log == s.log.(acks := t.log.acks, faults := t.log.faults)
    && t.db == s.db.(decisions := t.db.decisions, attempts := t.db.attempts)
    && SameDecisions(s, t) && SameLedger(s, t)
    && (BeforePost(next) ==> BeforePost(s.pipes[w])) && (AfterPost(next) ==> AfterPost(s.pipes[w]))
    && !(s.pipes[w].Won? && s.pipes[w].plan.gate.requiresHumanReview)
    && (forall d | d in s.db.decisions && t.db.decisions[d].state == Gate.Executed ::
          s.db.decisions[d].state == Gate.Executed || (AfterPost(s.pipes[w]) && d == s.pipes[w].id))
  }

  /** The run draws a fresh decision id and a gate verdict. */
  ghost predicate Decides(s: State, t: State, w: Slot, id: nat, plan: Plan) {
    && w in s.pipes && s.pipes[w].Unseen? && Moves(s, t, w, Gated(s.pipes[w].job, id, plan)) && PlanOk(plan)
    && id !in s.db.used && t.db == s.db.(used := s.db.used + {id}) && t.log == s.log
  }

  /** The run inserts the decision of its key and owns it. */
  ghost predicate Wins(s: State, t: State, w: Slot) {
    w in s.pipes && s.pipes[w].Gated? &&
    var pc := s.pipes[w];
    && Moves(s, t, w, Won(pc.job, pc.id, pc.plan)) && t.log == s.log
    && pc.id !in s.db.decisions && !KeyTaken(s.db.decisions, pc.job.key)
    && t.db == s.db.(decisions := s.db.decisions[
         pc.id := Decision(pc.job.key, pc.job.sessionId, pc.plan.action, pc.plan.response, pc.plan.gate,
                           Gate.InitialState(pc.plan.gate))])
  }

  /** The run queues its review. */
  ghost predicate Queues(s: State, t: State, w: Slot, id: nat) {
    w in s.pipes && s.pipes[w].Won? && s.pipes[w].plan.gate.requiresHumanReview &&
    var pc := s.pipes[w];
    && Moves(s, t, w, Idle) && t.log == s.log && id !in s.db.used
    && t.db == s.db.(used := s.db.used + {id},
                     approvals := s.db.approvals[id := Approval(pc.id, pc.job.sessionId, pc.plan.action, pc.plan.response, None, None)])
  }

  /** The run dies while it holds a decision for review. */
  ghost predicate Dies(s: State, t: State, w: Slot) {
    && w in s.pipes && s.pipes[w].Won? && s.pipes[w].plan.gate.requiresHumanReview
    && Moves(s, t, w, Idle) && t.db == s.db && t.log == s.log.(stranded := s.log.stranded + {s.pipes[w].id})
  }

  /** The run inserts its execution attempt. */
  ghost predicate Records(s: State, t: State, w: Slot, att: nat, now: int) {
    w in s.pipes && s.pipes[w].Numbered? &&
    var pc := s.pipes[w];
    && Moves(s, t, w, Attempting(pc.job, pc.id, pc.plan, att, 0)) && t.log == s.log && att !in s.db.used
    && !Ledger.NumberTaken(s.db.attempts, pc.id, pc.number)
    && t.db == s.db.(used := s.db.used + {att}, attempts := s.db.attempts[att := Ledger.NewRow(pc.id, pc.number, now)])
  }

  /** The run issues its external mutation. */
  ghost predicate Sends(s: State, t: State, w: Slot, next: Pipe) {
    && w in s.pipes && s.pipes[w].Attempting? && Moves(s, t, w, next) && (next.Posted? || next.Failing?)
    && next.id == s.pipes[w].id && next.job == s.pipes[w].job
    && t.db == s.db && t.log == s.log.(posts := s.log.posts + multiset{s.pipes[w].job.key}, posted := t.log.posted)
  }

  /** The own-id check: a fresh id is never the id of an existing row, so a run that goes on has inserted its own row. */
  lemma InsertOutcome(s: State, t: State, w: Slot)
    requires PipesOk(s) && PipeStep(s, t, w, Insert)
    ensures Wins(s, t, w) || Quiet(s, t, w, Idle)
  {
  }

  /** An executing run writes the first attempt of its decision, so its insert cannot clash. */
  lemma CreateOutcome(s: State, t: State, w: Slot, att: nat, now: int, c: Category)
    requires AttemptsOk(s) && PipeStep(s, t, w, CreateAttempt(att, now, c))
    ensures Records(s, t, w, att, now)
  {
  }

  lemma QueueOutcome(s: State, t: State, w: Slot, id: nat)
    requires PipeStep(s, t, w, Queue(id))
    ensures Queues(s, t, w, id)
  {
  }

  lemma DieOutcome(s: State, t: State, w: Slot)
    requires PipeStep(s, t, w, Crash) && s.pipes[w].Won? && s.pipes[w].plan.gate.requiresHumanReview
    ensures Dies(s, t, w)
  {
  }

  lemma PostOutcome(s: State, t: State, w: Slot, failure: Option<Category>)
    requires PipesOk(s) && PipeStep(s, t, w, Post(failure))
    ensures Sends(s, t, w, t.pipes[w])
  {
  }

  lemma QuietTurn(db: Db, log: Log, w: Slot, pc: Pipe, a: PipeAction, turn: Turn<Pipe>)
    requires turn == PipeTurn(db, log, w, pc, a) && turn.Turn?
    requires !a.Decide? && !a.Insert? && !a.Queue? && !a.CreateAttempt? && !a.Post?
    requires a.Crash? ==> !(pc.Won? && pc.plan.gate.requiresHumanReview)
    ensures Local(pc, turn.next) && turn.log == log.(acks := turn.log.acks, faults := turn.log.faults)
    ensures turn.db == db.(decisions := turn.db.decisions, attempts := turn.db.attempts)
    ensures (BeforePost(turn.next) ==> BeforePost(pc)) && (AfterPost(turn.next) ==> AfterPost(pc))
    ensures !(pc.Won? && pc.plan.gate.requiresHumanReview)
    ensures a.MarkExecuted? ==> pc.Settled? && turn.db.decisions == MarkDecision(db.decisions, pc.id, Gate.Executed)
    ensures a.FailDecision? ==> pc.FailNoted? && turn.db.decisions == MarkDecision(db.decisions, pc.id, Gate.ExecutionFailed)
    ensures !a.MarkExecuted? && !a.FailDecision? ==> turn.db.decisions == db.decisions
  {
  }

  lemma QuietAttempt(db: Db, log: Log, w: Slot, pc: Pipe, a: PipeAction, turn: Turn<Pipe>, x: nat)
    requires turn == PipeTurn(db, log, w, pc, a) && turn.Turn? && !a.CreateAttempt? && x in db.attempts
    ensures x in turn.db.attempts && turn.db.attempts[x].decisionId == db.attempts[x].decisionId
    ensures turn.db.attempts[x].attemptNumber == db.attempts[x].attemptNumber
  {
  }

  lemma QuietLedger(db: Db, log: Log, w: Slot, pc: Pipe, a: PipeAction, turn: Turn<Pipe>)
    requires turn == PipeTurn(db, log, w, pc, a) && turn.Turn? && !a.CreateAttempt?
    ensures turn.db.attempts.Keys == db.attempts.Keys
    ensures forall x | x in db.attempts ::
      turn.db.attempts[x].decisionId == db.attempts[x].decisionId
      && turn.db.attempts[x].attemptNumber == db.attempts[x].attemptNumber
  {
    forall x | x in db.attempts
      ensures turn.db.attempts[x].decisionId == db.attempts[x].decisionId
      ensures turn.db.attempts[x].attemptNumber == db.attempts[x].attemptNumber
    {
      QuietAttempt(db, log, w, pc, a, turn, x);
    }
  }

  lemma QuietOutcome(s: State, t: State, w: Slot, a: PipeAction)
    requires PipeStep(s, t, w, a)
    requires !a.Decide? && !a.Insert? && !a.Queue? && !a.CreateAttempt? && !a.Post?
    requires a.Crash? ==> !(s.pipes[w].Won? && s.pipes[w].plan.gate.requiresHumanReview)
    ensures Quiet(s, t, w, t.pipes[w])
  {
    QuietTurn(s.db, s.log, w, s.pipes[w], a, PipeTurn(s.db, s.log, w, s.pipes[w], a));
    QuietLedger(s.db, s.log, w, s.pipes[w], a, PipeTurn(s.db, s.log, w, s.pipes[w], a));
  }

  lemma PipeLeavesOutbox(s: State, t: State, w: Slot, a: PipeAction)
    requires PipeStep(s, t, w, a)
    ensures t.db.outbox == s.db.outbox && s.log.stranded <= t.log.stranded && t.passes == s.passes
    ensures t.log.calls == s.log.calls && t.log.sent == s.log.sent
  {
  }

  // ----- runs and their decisions

  lemma LocalKeepsPipes(s: State, t: State, w: Slot, next: Pipe)
    requires PipesOk(s) && SameDecisions(s, t) && s.db.used <= t.db.used
    requires Moves(s, t, w, next) && Local(s.pipes[w], next)
    ensures PipesOk(t)
  {
  }

  lemma SendKeepsPipes(s: State, t: State, w: Slot, next: Pipe)
    requires PipesOk(s) && Sends(s, t, w, next)
    ensures PipesOk(t)
  {
  }

  lemma DecideKeepsPipes(s: State, t: State, w: Slot, id: nat, plan: Plan)
    requires DecisionsOk(s) && PipesOk(s) && Decides(s, t, w, id, plan)
    ensures PipesOk(t)
  {
  }

  lemma WinKeepsPipes(s: State, t: State, w: Slot)
    requires DecisionsOk(s) && PipesOk(s) && Wins(s, t, w)
    ensures DecisionsOk(t) && PipesOk(t)
  {
    assert PipeOk(s, s.pipes[w]);
    forall v | v in t.pipes
      ensures PipeOk(t, t.pipes[v])
    {
      assert PipeOk(s, s.pipes[v]);
    }
  }

  // ----- external mutations

  /** Two runs never both own the decision of one key. */
  lemma OwnersDiffer(s: State, v: Slot, w: Slot)
    requires DecisionsOk(s) && PipesOk(s) && v in s.pipes && w in s.pipes && v != w
    requires Owns(s.pipes[v]) && Owns(s.pipes[w])
    ensures s.pipes[v].job.key != s.pipes[w].job.key
  {
  }

  lemma SendLeavesOthers(s: State, t: State, w: Slot, next: Pipe, v: Slot)
    requires DecisionsOk(s) && PipesOk(s) && PostsOk(s) && Sends(s, t, w, next) && v in s.pipes && v != w
    ensures PostOk(t, t.pipes[v])
  {
    assert PostOk(s, s.pipes[v]);
    if Owns(s.pipes[v]) {
      OwnersDiffer(s, v, w);
    }
  }

  lemma SendKeepsPosts(s: State, t: State, w: Slot, next: Pipe)
    requires DecisionsOk(s) && PipesOk(s) && PostsOk(s) && Sends(s, t, w, next)
    ensures PostsOk(t)
  {
    assert PipeOk(s, s.pipes[w]) && PostOk(s, s.pipes[w]);
    forall v | v in t.pipes
      ensures PostOk(t, t.pipes[v])
    {
      if v != w {
        SendLeavesOthers(s, t, w, next, v);
      }
    }
  }

  lemma WinKeepsPosts(s: State, t: State, w: Slot)
    requires PostsOk(s) && Wins(s, t, w)
    ensures PostsOk(t)
  {
    forall k | k in t.log.posts
      ensures KeyTaken(t.db.decisions, k)
    {
      var d :| d in s.db.decisions && s.db.decisions[d].key == k;
      assert d in t.db.decisions && t.db.decisions[d].key == k;
    }
    forall v | v in t.pipes
      ensures PostOk(t, t.pipes[v])
    {
      assert PostOk(s, s.pipes[v]);
    }
  }

  lemma MoveKeepsPosts(s: State, t: State, w: Slot, next: Pipe)
    requires PostsOk(s) && SameDecisions(s, t) && t.log.posts == s.log.posts && Moves(s, t, w, next) && PostOk(s, next)
    ensures PostsOk(t)
  {
  }

  // ----- approvals and stranded reviews

  lemma QueueKeepsApprovals(s: State, t: State, w: Slot, id: nat)
    requires PipesOk(s) && ApprovalsOk(s) && Queues(s, t, w, id)
    ensures ApprovalsOk(t)
  {
    var pc := s.pipes[w];
    assert PipeOk(s, pc) && !HasApproval(s, pc.id);
    forall v | v in t.pipes && t.pipes[v].Won?
      ensures !HasApproval(t, t.pipes[v].id)
    {
      assert v != w && !HasApproval(s, s.pipes[v].id) && PipeOk(s, s.pipes[v]);
    }
  }

  lemma WinKeepsApprovals(s: State, t: State, w: Slot)
    requires ApprovalsOk(s) && Wins(s, t, w)
    ensures ApprovalsOk(t)
  {
  }

  /** A move changes who holds decision `d` for review only through the moving run. */
  lemma HeldByOthers(s: State, t: State, w: Slot, next: Pipe, d: nat)
    requires Moves(s, t, w, next)
    requires !(s.pipes[w].Won? && s.pipes[w].id == d) && !(next.Won? && next.id == d)
    ensures HeldForReview(t, d) <==> HeldForReview(s, d)
  {
    if HeldForReview(s, d) {
      var v :| v in s.pipes && s.pipes[v].Won? && s.pipes[v].id == d;
      assert s.pipes[v] == t.pipes[v];
    }
    if HeldForReview(t, d) {
      var v :| v in t.pipes && t.pipes[v].Won? && t.pipes[v].id == d;
      assert s.pipes[v] == t.pipes[v];
    }
  }

  lemma HeldByNobodyElse(s: State, t: State, w: Slot)
    requires PipesOk(s) && Moves(s, t, w, Idle) && s.pipes[w].Won?
    ensures HeldForReview(s, s.pipes[w].id) && !HeldForReview(t, s.pipes[w].id)
  {
  }

  lemma QueueKeepsStranded(s: State, t: State, w: Slot, id: nat)
    requires PipesOk(s) && ApprovalsOk(s) && StrandedOk(s) && Queues(s, t, w, id)
    ensures StrandedOk(t)
  {
    var mine := s.pipes[w].id;
    HeldByNobodyElse(s, t, w);
    assert id !in s.db.approvals && t.db.approvals[id].decisionId == mine;
    forall d
      ensures HasApproval(t, d) <==> HasApproval(s, d) || d == mine
      ensures d != mine ==> (HeldForReview(t, d) <==> HeldForReview(s, d))
    {
      if HasApproval(s, d) {
        var a :| a in s.db.approvals && s.db.approvals[a].decisionId == d;
        assert t.db.approvals[a].decisionId == d;
      }
      if d != mine {
        HeldByOthers(s, t, w, Idle, d);
      }
    }
  }

  lemma DieKeepsStranded(s: State, t: State, w: Slot)
    requires PipesOk(s) && ApprovalsOk(s) && StrandedOk(s) && Dies(s, t, w)
    ensures StrandedOk(t)
  {
    var mine := s.pipes[w].id;
    HeldByNobodyElse(s, t, w);
    assert PipeOk(s, s.pipes[w]) && !HasApproval(s, mine);
    forall d
      ensures HasApproval(t, d) <==> HasApproval(s, d)
      ensures d != mine ==> (HeldForReview(t, d) <==> HeldForReview(s, d))
    {
      if d != mine {
        HeldByOthers(s, t, w, Idle, d);
      }
    }
  }

  lemma WinKeepsStranded(s: State, t: State, w: Slot)
    requires StrandedOk(s) && Wins(s, t, w)
    ensures StrandedOk(t)
  {
    var mine := s.pipes[w].id;
    assert t.pipes[w].Won? && t.pipes[w].id == mine;
    forall d
      ensures HasApproval(t, d) <==> HasApproval(s, d)
      ensures d != mine ==> (HeldForReview(t, d) <==> HeldForReview(s, d))
    {
      if d != mine {
        HeldByOthers(s, t, w, t.pipes[w], d);
      }
    }
  }

  lemma MoveKeepsStranded(s: State, t: State, w: Slot, next: Pipe)
    requires PipesOk(s) && StrandedOk(s) && SameDecisions(s, t) && Moves(s, t, w, next) && !next.Won?
    requires t.db.approvals == s.db.approvals && t.log.stranded == s.log.stranded
    requires !(s.pipes[w].Won? && s.pipes[w].plan.gate.requiresHumanReview)
    ensures StrandedOk(t)
  {
    assert PipeOk(s, s.pipes[w]);
    forall d | d in s.db.decisions && s.db.decisions[d].gate.requiresHumanReview
      ensures (HasApproval(t, d) <==> HasApproval(s, d)) && (HeldForReview(t, d) <==> HeldForReview(s, d))
    {
      HeldByOthers(s, t, w, next, d);
    }
    FrameStranded(s, t);
  }

  // ----- attempts and EXECUTED

  lemma WinKeepsAttempts(s: State, t: State, w: Slot)
    requires AttemptsOk(s) && Wins(s, t, w)
    ensures AttemptsOk(t)
  {
  }

  lemma RecordKeepsAttempts(s: State, t: State, w: Slot, att: nat, now: int)
    requires DecisionsOk(s) && PipesOk(s) && ApprovalsOk(s) && SourcesOk(s) && PassesOk(s) && AttemptsOk(s)
    requires Records(s, t, w, att, now)
    ensures AttemptsOk(t)
  {
    var pc := s.pipes[w];
    assert PipeOk(s, pc);
    AutoHasNoOutbox(s, pc.id);
    forall p | p in t.passes && t.passes[p].Holding?
      ensures t.passes[p].item.decisionId != pc.id
    {
      assert PassOk(s, s.passes[p]);
    }
    NewAttempt(s, t, att, pc.id, pc.number, now);
  }

  lemma MoveKeepsAttempts(s: State, t: State, w: Slot, next: Pipe)
    requires AttemptsOk(s) && SameDecisions(s, t) && SameLedger(s, t) && t.db.outbox == s.db.outbox && s.db.used <= t.db.used
    requires Moves(s, t, w, next) && !next.Won?
    requires next.Numbered? ==> s.pipes[w].Won? && next.id == s.pipes[w].id
    ensures AttemptsOk(t)
  {
    FrameAttempts(s, t);
  }

  lemma WinKeepsExecuted(s: State, t: State, w: Slot)
    requires ExecutedOk(s) && Wins(s, t, w)
    ensures ExecutedOk(t)
  {
  }

  lemma QuietKeepsExecuted(s: State, t: State, w: Slot, next: Pipe)
    requires PipesOk(s) && PostsOk(s) && ExecutedOk(s) && Quiet(s, t, w, next)
    ensures ExecutedOk(t)
  {
    assert PipeOk(s, s.pipes[w]) && PostOk(s, s.pipes[w]);
    FrameExecuted(s, t);
  }

  // ----- every kind of pipeline step

  lemma FrameDispatch(s: State, t: State)
    requires RowsOk(s) && PassesOk(s) && CountsOk(s) && t.db.outbox == s.db.outbox && t.passes == s.passes
    requires t.log.grants == s.log.grants && t.log.marks == s.log.marks && t.log.calls == s.log.calls
    ensures RowsOk(t) && PassesOk(t) && CountsOk(t)
  {
    FrameRows(s, t);
    FramePasses(s, t);
    FrameCounts(s, t);
  }

  /** What no move but a win or a queued review touches. */
  ghost predicate Aside(s: State, t: State) {
    && SameDecisions(s, t) && s.db.used <= t.db.used
    && t.db.outbox == s.db.outbox && t.db.approvals == s.db.approvals && t.passes == s.passes
    && t.log == s.log.(posts := t.log.posts, posted := t.log.posted, acks := t.log.acks, faults := t.log.faults,
                       stranded := t.log.stranded)
  }

  lemma MoveKeepsAside(s: State, t: State, w: Slot, next: Pipe)
    requires DecisionsOk(s) && ApprovalsOk(s) && SourcesOk(s) && RowsOk(s) && PassesOk(s) && CountsOk(s)
    requires Aside(s, t) && Moves(s, t, w, next) && !next.Won?
    ensures DecisionsOk(t) && ApprovalsOk(t) && SourcesOk(t) && RowsOk(t) && PassesOk(t) && CountsOk(t)
  {
    FrameDecisions(s, t);
    FrameApprovals(s, t);
    FrameSources(s, t);
    FrameDispatch(s, t);
  }

  lemma QuietKeepsRuns(s: State, t: State, w: Slot, next: Pipe)
    requires PipesOk(s) && PostsOk(s) && Quiet(s, t, w, next)
    ensures PipesOk(t) && PostsOk(t)
  {
    assert PostOk(s, s.pipes[w]);
    LocalKeepsPipes(s, t, w, next);
    MoveKeepsPosts(s, t, w, next);
  }

  lemma QuietKeepsTheRest(s: State, t: State, w: Slot, next: Pipe)
    requires PipesOk(s) && StrandedOk(s) && AttemptsOk(s) && Quiet(s, t, w, next)
    ensures StrandedOk(t) && AttemptsOk(t)
  {
    MoveKeepsStranded(s, t, w, next);
    MoveKeepsAttempts(s, t, w, next);
  }

  lemma QuietKeepsInv(s: State, t: State, w: Slot, next: Pipe)
    requires Inv(s) && Quiet(s, t, w, next)
    ensures Inv(t)
  {
    MoveKeepsAside(s, t, w, next);
    QuietKeepsRuns(s, t, w, next);
    QuietKeepsTheRest(s, t, w, next);
    QuietKeepsExecuted(s, t, w, next);
  }

  lemma DecideKeepsTheRest(s: State, t: State, w: Slot, id: nat, plan: Plan)
    requires DecisionsOk(s) && PipesOk(s) && PostsOk(s) && StrandedOk(s) && AttemptsOk(s) && ExecutedOk(s)
    requires Decides(s, t, w, id, plan)
    ensures PipesOk(t) && PostsOk(t) && StrandedOk(t) && AttemptsOk(t) && ExecutedOk(t)
  {
    var next := Gated(s.pipes[w].job, id, plan);
    DecideKeepsPipes(s, t, w, id, plan);
    MoveKeepsPosts(s, t, w, next);
    MoveKeepsStranded(s, t, w, next);
    MoveKeepsAttempts(s, t, w, next);
    FrameExecuted(s, t);
  }

  lemma DecideKeepsInv(s: State, t: State, w: Slot, id: nat, plan: Plan)
    requires Inv(s) && Decides(s, t, w, id, plan)
    ensures Inv(t)
  {
    MoveKeepsAside(s, t, w, Gated(s.pipes[w].job, id, plan));
    DecideKeepsTheRest(s, t, w, id, plan);
  }

  lemma WinKeepsReviews(s: State, t: State, w: Slot)
    requires ApprovalsOk(s) && StrandedOk(s) && SourcesOk(s) && Wins(s, t, w)
    ensures ApprovalsOk(t) && StrandedOk(t) && SourcesOk(t)
  {
    WinKeepsApprovals(s, t, w);
    WinKeepsStranded(s, t, w);
    FrameSources(s, t);
  }

  lemma WinKeepsRuns(s: State, t: State, w: Slot)
    requires DecisionsOk(s) && PipesOk(s) && PostsOk(s) && AttemptsOk(s) && ExecutedOk(s) && Wins(s, t, w)
    ensures DecisionsOk(t) && PipesOk(t) && PostsOk(t) && AttemptsOk(t) && ExecutedOk(t)
  {
    WinKeepsPipes(s, t, w);
    WinKeepsPosts(s, t, w);
    WinKeepsAttempts(s, t, w);
    WinKeepsExecuted(s, t, w);
  }

  lemma WinKeepsInv(s: State, t: State, w: Slot)
    requires Inv(s) && Wins(s, t, w)
    ensures Inv(t)
  {
    WinKeepsRuns(s, t, w);
    WinKeepsReviews(s, t, w);
    FrameDispatch(s, t);
  }

  lemma QueueKeepsSources(s: State, t: State, w: Slot, id: nat)
    requires ApprovalsOk(s) && SourcesOk(s) && Queues(s, t, w, id)
    ensures SourcesOk(t)
  {
    assert id !in s.db.approvals;
    FrameSources(s, t);
  }

  lemma StopKeepsRuns(s: State, t: State, w: Slot)
    requires DecisionsOk(s) && PipesOk(s) && PostsOk(s) && AttemptsOk(s) && ExecutedOk(s)
    requires Moves(s, t, w, Idle) && SameDecisions(s, t) && SameLedger(s, t) && s.db.used <= t.db.used
    requires t.db.decisions == s.db.decisions && t.db.outbox == s.db.outbox
    requires t.log.posts == s.log.posts && t.log.calls == s.log.calls
    ensures DecisionsOk(t) && PipesOk(t) && PostsOk(t) && AttemptsOk(t) && ExecutedOk(t)
  {
    FrameDecisions(s, t);
    LocalKeepsPipes(s, t, w, Idle);
    MoveKeepsPosts(s, t, w, Idle);
    MoveKeepsAttempts(s, t, w, Idle);
    FrameExecuted(s, t);
  }

  lemma QueueKeepsInv(s: State, t: State, w: Slot, id: nat)
    requires Inv(s) && Queues(s, t, w, id)
    ensures Inv(t)
  {
    StopKeepsRuns(s, t, w);
    QueueKeepsApprovals(s, t, w, id);
    QueueKeepsStranded(s, t, w, id);
    QueueKeepsSources(s, t, w, id);
    FrameDispatch(s, t);
  }

  lemma DieKeepsInv(s: State, t: State, w: Slot)
    requires Inv(s) && Dies(s, t, w)
    ensures Inv(t)
  {
    MoveKeepsAside(s, t, w, Idle);
    StopKeepsRuns(s, t, w);
    DieKeepsStranded(s, t, w);
  }

  lemma RecordKeepsTheRest(s: State, t: State, w: Slot, att: nat, now: int)
    requires PipesOk(s) && PostsOk(s) && StrandedOk(s) && ExecutedOk(s) && Records(s, t, w, att, now)
    ensures PipesOk(t) && PostsOk(t) && StrandedOk(t) && ExecutedOk(t)
  {
    var pc := s.pipes[w];
    var next := Attempting(pc.job, pc.id, pc.plan, att, 0);
    assert PostOk(s, pc);
    LocalKeepsPipes(s, t, w, next);
    MoveKeepsPosts(s, t, w, next);
    MoveKeepsStranded(s, t, w, next);
    FrameExecuted(s, t);
  }

  lemma RecordKeepsInv(s: State, t: State, w: Slot, att: nat, now: int)
    requires Inv(s) && Records(s, t, w, att, now)
    ensures Inv(t)
  {
    MoveKeepsAside(s, t, w, Attempting(s.pipes[w].job, s.pipes[w].id, s.pipes[w].plan, att, 0));
    RecordKeepsTheRest(s, t, w, att, now);
    RecordKeepsAttempts(s, t, w, att, now);
  }

  lemma SendKeepsTheRest(s: State, t: State, w: Slot, next: Pipe)
    requires DecisionsOk(s) && PipesOk(s) && PostsOk(s) && StrandedOk(s) && AttemptsOk(s) && ExecutedOk(s) && Sends(s, t, w, next)
    ensures PipesOk(t) && PostsOk(t) && StrandedOk(t) && AttemptsOk(t) && ExecutedOk(t)
  {
    SendKeepsPipes(s, t, w, next);
    SendKeepsPosts(s, t, w, next);
    MoveKeepsStranded(s, t, w, next);
    MoveKeepsAttempts(s, t, w, next);
    FrameExecuted(s, t);
  }

  lemma SendKeepsInv(s: State, t: State, w: Slot, next: Pipe)
    requires Inv(s) && Sends(s, t, w, next)
    ensures Inv(t)
  {
    MoveKeepsAside(s, t, w, next);
    SendKeepsTheRest(s, t, w, next);
  }

  lemma PipeKeepsInv(s: State, t: State, w: Slot, a: PipeAction)
    requires Inv(s) && PipeStep(s, t, w, a)
    ensures Inv(t)
  {
    if a.Insert? {
      InsertOutcome(s, t, w);
      if Wins(s, t, w) {
        WinKeepsInv(s, t, w);
      } else {
        QuietKeepsInv(s, t, w, Idle);
      }
    } else {
      OtherStepKeepsInv(s, t, w, a);
    }
  }

  lemma DecisionStepKeepsInv(s: State, t: State, w: Slot, a: PipeAction)
    requires Inv(s) && PipeStep(s, t, w, a) && a.Decide?
    ensures Inv(t)
  {
    Gate.AutoExecutionExcludesReview(a.inputs);
    DecideKeepsInv(s, t, w, a.freshId, t.pipes[w].plan);
  }

  lemma QueueStepKeepsInv(s: State, t: State, w: Slot, a: PipeAction)
    requires Inv(s) && PipeStep(s, t, w, a) && a.Queue?
    ensures Inv(t)
  {
    QueueOutcome(s, t, w, a.freshId);
    QueueKeepsInv(s, t, w, a.freshId);
  }

  lemma CrashStepKeepsInv(s: State, t: State, w: Slot, a: PipeAction)
    requires Inv(s) && PipeStep(s, t, w, a) && a.Crash? && s.pipes[w].Won? && s.pipes[w].plan.gate.requiresHumanReview
    ensures Inv(t)
  {
    DieOutcome(s, t, w);
    DieKeepsInv(s, t, w);
  }

  lemma AttemptStepKeepsInv(s: State, t: State, w: Slot, a: PipeAction)
    requires Inv(s) && PipeStep(s, t, w, a) && a.CreateAttempt?
    ensures Inv(t)
  {
    CreateOutcome(s, t, w, a.freshId, a.now, a.onClash);
    RecordKeepsInv(s, t, w, a.freshId, a.now);
  }

  lemma PostStepKeepsInv(s: State, t: State, w: Slot, a: PipeAction)
    requires Inv(s) && PipeStep(s, t, w, a) && a.Post?
    ensures Inv(t)
  {
    PostOutcome(s, t, w, a.failure);
    SendKeepsInv(s, t, w, t.pipes[w]);
  }

  lemma QuietStepKeepsInv(s: State, t: State, w: Slot, a: PipeAction)
    requires Inv(s) && PipeStep(s, t, w, a)
    requires !a.Decide? && !a.Insert? && !a.Queue? && !a.CreateAttempt? && !a.Post?
    requires a.Crash? ==> !(s.pipes[w].Won? && s.pipes[w].plan.gate.requiresHumanReview)
    ensures Inv(t)
  {
    QuietOutcome(s, t, w, a);
    QuietKeepsInv(s, t, w, t.pipes[w]);
  }

  lemma OtherStepKeepsInv(s: State, t: State, w: Slot, a: PipeAction)
    requires Inv(s) && PipeStep(s, t, w, a) && !a.Insert?
    ensures Inv(t)
  {
    if a.Decide? {
      DecisionStepKeepsInv(s, t, w, a);
    } else if a.Queue? {
      QueueStepKeepsInv(s, t, w, a);
    } else if a.CreateAttempt? {
      AttemptStepKeepsInv(s, t, w, a);
    } else if a.Post? {
      PostStepKeepsInv(s, t, w, a);
    } else if a.Crash? && s.pipes[w].Won? && s.pipes[w].plan.gate.requiresHumanReview {
      CrashStepKeepsInv(s, t, w, a);
    } else {
      QuietStepKeepsInv(s, t, w, a);
    }
  }
}
