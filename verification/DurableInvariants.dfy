/**
  The inductive invariant of the durable execution protocol, group by group, and what each group depends on: a frame
  lemma says that a step which leaves those parts alone keeps the group.
 */
module DurableInvariants {
  import opened Basics
  import Gate = ExecutionGate
  import Outbox = OutboxRepository
  import Ledger = ExecutionAttemptRepository
  import opened DurableState

  // ----- classes of program counters

  predicate HasId(pc: Pipe) {
    !pc.Idle? && !pc.Begun? && !pc.Unseen?
  }

  predicate HasPlan(pc: Pipe) {
    pc.Gated? || pc.Won? || pc.Numbered? || pc.Attempting?
  }

  /** Runs whose own row is the canonical decision. */
  predicate Owns(pc: Pipe) {
    HasId(pc) && !pc.Gated?
  }

  predicate BeforePost(pc: Pipe) {
    pc.Won? || pc.Numbered? || pc.Attempting?
  }

  predicate AfterPost(pc: Pipe) {
    pc.Posted? || pc.Settled? || pc.Closing?
  }

  predicate PlanOk(plan: Plan) {
    plan.gate.autoExecuted ==> !plan.gate.requiresHumanReview && Mutates(plan.action)
  }

  // ----- decisions and pipeline runs

  ghost predicate DecisionsOk(s: State) {
    && (forall d | d in s.db.decisions :: d in s.db.used)
    && (forall d | d in s.db.decisions :: s.db.decisions[d].gate.autoExecuted ==> !s.db.decisions[d].gate.requiresHumanReview)
    && (forall d, e | d in s.db.decisions && e in s.db.decisions && d != e :: s.db.decisions[d].key != s.db.decisions[e].key)
  }

  /** The row holds the run's proposal. */
  predicate HoldsProposal(row: Decision, plan: Plan) {
    row.gate == plan.gate && row.action == plan.action && row.response == plan.response
  }

  ghost predicate PipeOk(s: State, pc: Pipe) {
    && (HasId(pc) ==> pc.id in s.db.used)
    && (HasPlan(pc) ==> PlanOk(pc.plan))
    && (pc.Gated? ==> pc.id !in s.db.decisions)
    && (Owns(pc) ==> pc.id in s.db.decisions && s.db.decisions[pc.id].key == pc.job.key && s.db.decisions[pc.id].sessionId == pc.job.sessionId)
    && (Owns(pc) && HasPlan(pc) ==> HoldsProposal(s.db.decisions[pc.id], pc.plan))
    && (Owns(pc) && !pc.Won? ==> s.db.decisions[pc.id].gate.autoExecuted)
  }

  ghost predicate PipesOk(s: State) {
    && (forall w | w in s.pipes :: PipeOk(s, s.pipes[w]))
    && (forall v, w | v in s.pipes && w in s.pipes && v != w && HasId(s.pipes[v]) && HasId(s.pipes[w]) ::
          s.pipes[v].id != s.pipes[w].id)
  }

  // ----- the pipeline's external mutations

  ghost predicate PostOk(s: State, pc: Pipe) {
    && (BeforePost(pc) ==> s.log.posts[pc.job.key] == 0)
    && (AfterPost(pc) ==> s.log.posts[pc.job.key] == 1)
  }

  ghost predicate PostsOk(s: State) {
    && (forall k :: s.log.posts[k] <= 1)
    && (forall k | k in s.log.posts :: KeyTaken(s.db.decisions, k))
    && (forall d | d in s.db.decisions :: s.log.posts[s.db.decisions[d].key] > 0 ==> s.db.decisions[d].gate.autoExecuted)
    && (forall w | w in s.pipes :: PostOk(s, s.pipes[w]))
  }

  // ----- approvals

  ghost predicate HasApproval(s: State, d: nat) {
    exists a :: a in s.db.approvals && s.db.approvals[a].decisionId == d
  }

  ghost predicate HeldForReview(s: State, d: nat) {
    exists w :: w in s.pipes && s.pipes[w].Won? && s.pipes[w].id == d
  }

  ghost predicate ApprovalOk(s: State, a: Approval) {
    a.decisionId in s.db.decisions && s.db.decisions[a.decisionId].gate.requiresHumanReview
    && s.db.decisions[a.decisionId].sessionId == a.sessionId
    && s.db.decisions[a.decisionId].action == a.action && s.db.decisions[a.decisionId].response == a.proposed
  }

  ghost predicate ApprovalsOk(s: State) {
    && (forall a | a in s.db.approvals :: a in s.db.used && ApprovalOk(s, s.db.approvals[a]))
    && (forall a, b | a in s.db.approvals && b in s.db.approvals && a != b :: s.db.approvals[a].decisionId != s.db.approvals[b].decisionId)
    && (forall w | w in s.pipes && s.pipes[w].Won? :: !HasApproval(s, s.pipes[w].id))
  }

  ghost predicate StrandedOk(s: State) {
    && (forall d | d in s.log.stranded :: d in s.db.decisions && s.db.decisions[d].gate.requiresHumanReview)
    && (forall d | d in s.log.stranded :: !HasApproval(s, d) && !HeldForReview(s, d))
    && (forall d | d in s.db.decisions && s.db.decisions[d].gate.requiresHumanReview ::
          HasApproval(s, d) || HeldForReview(s, d) || d in s.log.stranded)
  }

  // ----- outbox rows and where they come from

  ghost predicate SourceOk(s: State, o: nat) {
    o in s.db.outbox && o in s.log.source && s.log.source[o] in s.db.approvals &&
    var row, a := s.db.outbox[o], s.db.approvals[s.log.source[o]];
    && Sanctioned(a)
    && row.decisionId == a.decisionId && row.sessionId == a.sessionId && row.action == a.action
    && row.payload == SanctionedText(a)
  }

  ghost predicate Staged(s: State, a: nat) {
    exists o :: o in s.log.source && s.log.source[o] == a
  }

  ghost predicate SourcesOk(s: State) {
    && s.log.source.Keys == s.db.outbox.Keys
    && (forall o | o in s.db.outbox :: o in s.db.used && SourceOk(s, o))
    && (forall o, q | o in s.log.source && q in s.log.source && o != q :: s.log.source[o] != s.log.source[q])
    && (forall a | a in s.db.approvals && Sanctioned(s.db.approvals[a]) :: Staged(s, a))
  }

  // ----- tokens, claims and marks of one outbox row

  ghost predicate RowOk(s: State, o: nat) {
    o in s.db.outbox &&
    var row := s.db.outbox[o];
    && row.fencingToken == row.attempts + 1
    && row.maxAttempts >= 1
    && (row.status.Pending? <==> row.attempts == 0)
    && s.log.marks[o] == (if Outbox.Terminal(row) then 1 else 0)
  }

  ghost predicate RowsOk(s: State) {
    && (forall o | o in s.db.outbox :: RowOk(s, o))
    && (forall o, t :: s.log.grants[(o, t)] == if o in s.db.outbox && 2 <= t <= s.db.outbox[o].fencingToken then 1 else 0)
    && (forall o | o in s.log.marks :: o in s.db.outbox)
  }

  // ----- dispatcher passes

  ghost predicate ItemOk(s: State, item: Item) {
    item.id in s.db.outbox && item == ItemOf(item.id, s.db.outbox[item.id])
  }

  function Todo(pc: Pass): seq<Item> {
    if pc.Resting? then [] else pc.todo
  }

  /** The pass still holds row `o` from its scan and has not tried to claim it. */
  predicate Awaits(pc: Pass, o: nat) {
    exists i | 0 <= i < |Todo(pc)| :: Todo(pc)[i].id == o
  }

  predicate BeforeDispatch(stage: Stage) {
    stage.Granted? || stage.Recorded? || stage.Leased? || stage.Started? || stage.Shown? || stage.Ready?
  }

  /** The pass holds a claim on `o` that it has not yet used for an external call. */
  predicate MayCall(pc: Pass, o: nat) {
    pc.Holding? && pc.item.id == o && BeforeDispatch(pc.stage)
  }

  ghost predicate TodoOk(t: Outbox.Table, todo: seq<Item>) {
    && (forall i | 0 <= i < |todo| :: todo[i].id in t && todo[i] == ItemOf(todo[i].id, t[todo[i].id]))
    && (forall i, j | 0 <= i < j < |todo| :: todo[i].id != todo[j].id)
  }

  ghost predicate PassOk(s: State, pc: Pass) {
    && TodoOk(s.db.outbox, Todo(pc))
    && (pc.Holding? ==>
          && ItemOk(s, pc.item)
          && 2 <= pc.token <= s.db.outbox[pc.item.id].fencingToken
          && pc.number == pc.token - 1
          && pc.max == s.db.outbox[pc.item.id].maxAttempts
          && (pc.stage.Settling? && pc.stage.result.Delivered? ==> s.log.calls[pc.item.id] > 0))
  }

  ghost predicate PassesOk(s: State) {
    && (forall p | p in s.passes :: PassOk(s, s.passes[p]))
    && (forall p, q | p in s.passes && q in s.passes && p != q && s.passes[p].Holding? && s.passes[q].Holding? ::
          s.passes[p].item.id != s.passes[q].item.id || s.passes[p].token != s.passes[q].token)
  }

  // ----- counting passes

  function Awaiting(passes: map<Slot, Pass>, o: nat): set<Slot> {
    set p | p in passes && Awaits(passes[p], o)
  }

  function Callers(passes: map<Slot, Pass>, o: nat): set<Slot> {
    set p | p in passes && MayCall(passes[p], o)
  }

  /** Every pass that still awaits the row can push `attempts` one past what the scan saw. */
  ghost predicate CountOk(s: State, o: nat) {
    && o in s.db.outbox
    && s.db.outbox[o].attempts + |Awaiting(s.passes, o)| <= s.db.outbox[o].maxAttempts + Max(|s.passes|, 1) - 1
    && s.log.calls[o] + |Callers(s.passes, o)| <= s.db.outbox[o].attempts
  }

  ghost predicate CountsOk(s: State) {
    && (forall o | o in s.db.outbox :: CountOk(s, o))
    && (forall o | o in s.log.calls :: o in s.db.outbox)
  }

  // ----- the attempt ledger

  ghost predicate HasOutbox(s: State, d: nat) {
    exists o :: o in s.db.outbox && s.db.outbox[o].decisionId == d
  }

  ghost predicate AttemptOk(s: State, x: nat) {
    x in s.db.attempts && s.db.attempts[x].decisionId in s.db.decisions &&
    var row := s.db.attempts[x];
    && (s.db.decisions[row.decisionId].gate.autoExecuted || HasOutbox(s, row.decisionId))
    && (forall o | o in s.db.outbox && s.db.outbox[o].decisionId == row.decisionId :: 1 <= row.attemptNumber <= s.db.outbox[o].attempts)
  }

  ghost predicate AttemptsOk(s: State) {
    && !s.log.clash
    && (forall x | x in s.db.attempts :: x in s.db.used && AttemptOk(s, x))
    && (forall x, y | x in s.db.attempts && y in s.db.attempts && x != y ::
          s.db.attempts[x].decisionId != s.db.attempts[y].decisionId || s.db.attempts[x].attemptNumber != s.db.attempts[y].attemptNumber)
    && (forall w, x | w in s.pipes && (s.pipes[w].Won? || s.pipes[w].Numbered?) && x in s.db.attempts ::
          s.db.attempts[x].decisionId != s.pipes[w].id)
    && (forall p, x | p in s.passes && s.passes[p].Holding? && s.passes[p].stage.Granted? && x in s.db.attempts ::
          s.db.attempts[x].decisionId != s.passes[p].item.decisionId || s.db.attempts[x].attemptNumber != s.passes[p].number)
  }

  // ----- what EXECUTED means

  ghost predicate CalledFor(s: State, d: nat) {
    exists o :: o in s.db.outbox && s.db.outbox[o].decisionId == d && s.log.calls[o] > 0
  }

  ghost predicate ExecutedOk(s: State) {
    forall d | d in s.db.decisions && s.db.decisions[d].state == Gate.Executed ::
      s.log.posts[s.db.decisions[d].key] > 0 || CalledFor(s, d)
  }

  ghost predicate Inv(s: State) {
    DecisionsOk(s) && PipesOk(s) && PostsOk(s) && ApprovalsOk(s) && StrandedOk(s) && SourcesOk(s)
    && RowsOk(s) && PassesOk(s) && CountsOk(s) && AttemptsOk(s) && ExecutedOk(s)
  }

  // ----- the invariant holds initially

  lemma InitInv(s: State)
    requires Init(s)
    ensures Inv(s)
  {
  }

  // ----- what a step may touch

  predicate SameProposal(a: Decision, b: Decision) {
    a.key == b.key && a.sessionId == b.sessionId && a.action == b.action && a.response == b.response && a.gate == b.gate
  }

  /** Decision rows keep everything but their execution state. */
  ghost predicate SameDecisions(s: State, t: State) {
    && t.db.decisions.Keys == s.db.decisions.Keys
    && forall d | d in s.db.decisions :: SameProposal(s.db.decisions[d], t.db.decisions[d])
  }

  ghost predicate SameLedger(s: State, t: State) {
    && t.log.clash == s.log.clash && t.db.attempts.Keys == s.db.attempts.Keys
    && forall x | x in s.db.attempts ::
         t.db.attempts[x].decisionId == s.db.attempts[x].decisionId && t.db.attempts[x].attemptNumber == s.db.attempts[x].attemptNumber
  }

  /** Outbox rows keep their order columns; tokens and attempts never go back. */
  ghost predicate KeptOrders(a: Outbox.Table, b: Outbox.Table) {
    && a.Keys == b.Keys
    && forall o | o in a ::
         Outbox.SameOrder(a[o], b[o]) && a[o].attempts <= b[o].attempts && a[o].fencingToken <= b[o].fencingToken
  }

  // ----- pipeline steps: decisions, runs and external mutations

  lemma FrameDecisions(s: State, t: State)
    requires DecisionsOk(s) && SameDecisions(s, t) && s.db.used <= t.db.used
    ensures DecisionsOk(t)
  {
  }

  lemma FramePipes(s: State, t: State)
    requires PipesOk(s) && SameDecisions(s, t) && s.db.used <= t.db.used && t.pipes == s.pipes
    ensures PipesOk(t)
  {
  }

  lemma FramePosts(s: State, t: State)
    requires PostsOk(s) && SameDecisions(s, t) && t.log.posts == s.log.posts
    requires forall w | w in t.pipes :: PostOk(s, t.pipes[w])
    ensures PostsOk(t)
  {
    forall k | k in t.log.posts
      ensures KeyTaken(t.db.decisions, k)
    {
      var d :| d in s.db.decisions && s.db.decisions[d].key == k;
      assert d in t.db.decisions;
    }
  }

  lemma FrameApprovals(s: State, t: State)
    requires ApprovalsOk(s) && SameDecisions(s, t) && s.db.used <= t.db.used && t.db.approvals == s.db.approvals
    requires forall w | w in t.pipes && t.pipes[w].Won? :: w in s.pipes && s.pipes[w] == t.pipes[w]
    ensures ApprovalsOk(t)
  {
  }

  /** Any other step keeps the set of runs that hold a decision for review. */
  lemma FrameStranded(s: State, t: State)
    requires StrandedOk(s) && SameDecisions(s, t) && t.log.stranded == s.log.stranded
    requires forall d | d in s.db.decisions && s.db.decisions[d].gate.requiresHumanReview ::
               (HasApproval(t, d) <==> HasApproval(s, d)) && (HeldForReview(t, d) <==> HeldForReview(s, d))
    ensures StrandedOk(t)
  {
  }

  // ----- the remaining groups over pipeline steps

  /** Sources do not depend on decisions, runs or passes. */
  lemma FrameSources(s: State, t: State)
    requires SourcesOk(s) && KeptOrders(s.db.outbox, t.db.outbox) && t.log.source == s.log.source
    requires s.db.used <= t.db.used
    requires forall a | a in s.db.approvals :: a in t.db.approvals && t.db.approvals[a] == s.db.approvals[a]
    requires forall a | a in t.db.approvals && a !in s.db.approvals :: !Sanctioned(t.db.approvals[a])
    ensures SourcesOk(t)
  {
    forall o | o in t.db.outbox
      ensures SourceOk(t, o)
    {
      assert SourceOk(s, o);
    }
    forall a | a in t.db.approvals && Sanctioned(t.db.approvals[a])
      ensures Staged(t, a)
    {
      assert Staged(s, a);
    }
  }

  lemma FrameRows(s: State, t: State)
    requires RowsOk(s) && t.db.outbox == s.db.outbox && t.log.grants == s.log.grants && t.log.marks == s.log.marks
    ensures RowsOk(t)
  {
  }

  lemma FramePasses(s: State, t: State)
    requires PassesOk(s) && t.db.outbox == s.db.outbox && t.log.calls == s.log.calls && t.passes == s.passes
    ensures PassesOk(t)
  {
  }

  lemma FrameCounts(s: State, t: State)
    requires CountsOk(s) && t.db.outbox == s.db.outbox && t.log.calls == s.log.calls && t.passes == s.passes
    ensures CountsOk(t)
  {
  }

  lemma FrameAttempts(s: State, t: State)
    requires AttemptsOk(s) && SameDecisions(s, t) && SameLedger(s, t) && KeptOrders(s.db.outbox, t.db.outbox) && s.db.used <= t.db.used
    requires forall w | w in t.pipes && (t.pipes[w].Won? || t.pipes[w].Numbered?) ::
               w in s.pipes && (s.pipes[w].Won? || s.pipes[w].Numbered?) && s.pipes[w].id == t.pipes[w].id
    requires forall p | p in t.passes && t.passes[p].Holding? && t.passes[p].stage.Granted? :: p in s.passes && s.passes[p] == t.passes[p]
    ensures AttemptsOk(t)
  {
    forall x | x in t.db.attempts
      ensures AttemptOk(t, x)
    {
      assert AttemptOk(s, x);
      if HasOutbox(s, s.db.attempts[x].decisionId) {
        var o :| o in s.db.outbox && s.db.outbox[o].decisionId == s.db.attempts[x].decisionId;
        assert o in t.db.outbox;
      }
    }
  }

  lemma FrameExecuted(s: State, t: State)
    requires ExecutedOk(s) && KeptOrders(s.db.outbox, t.db.outbox) && s.log.posts <= t.log.posts && s.log.calls <= t.log.calls
    requires forall d | d in t.db.decisions && t.db.decisions[d].state == Gate.Executed ::
               || (d in s.db.decisions && s.db.decisions[d].state == Gate.Executed && s.db.decisions[d].key == t.db.decisions[d].key)
               || t.log.posts[t.db.decisions[d].key] > 0 || CalledFor(t, d)
    ensures ExecutedOk(t)
  {
  }

  lemma AutoHasNoOutbox(s: State, d: nat)
    requires DecisionsOk(s) && ApprovalsOk(s) && SourcesOk(s) && d in s.db.decisions && s.db.decisions[d].gate.autoExecuted
    ensures !HasOutbox(s, d) && !HasApproval(s, d)
  {
  }

  /** Inserting attempt `n` of decision `d`, whoever does it. */
  lemma NewAttempt(s: State, t: State, att: nat, d: nat, n: nat, now: int)
    requires AttemptsOk(s) && att !in s.db.attempts && !Ledger.NumberTaken(s.db.attempts, d, n)
    requires t.db.attempts == s.db.attempts[att := Ledger.NewRow(d, n, now)] && att in t.db.used && s.db.used <= t.db.used
    requires t.db.decisions == s.db.decisions && t.db.outbox == s.db.outbox && t.log.clash == s.log.clash
    requires d in s.db.decisions && (s.db.decisions[d].gate.autoExecuted || HasOutbox(s, d))
    requires forall o | o in s.db.outbox && s.db.outbox[o].decisionId == d :: 1 <= n <= s.db.outbox[o].attempts
    requires forall w | w in t.pipes && (t.pipes[w].Won? || t.pipes[w].Numbered?) ::
               w in s.pipes && s.pipes[w] == t.pipes[w] && t.pipes[w].id != d
    requires forall p | p in t.passes && t.passes[p].Holding? && t.passes[p].stage.Granted? ::
               p in s.passes && s.passes[p] == t.passes[p] && (t.passes[p].item.decisionId != d || t.passes[p].number != n)
    ensures AttemptsOk(t)
  {
  }
}
