/** What every run of the durable execution protocol guarantees. */
module DurableTheorems {
  import opened Basics
  import Gate = ExecutionGate
  import Outbox = OutboxRepository
  import Ledger = ExecutionAttemptRepository
  import opened DurableState
  import opened DurableInvariants
  import opened DurablePipeline
  import opened DurableReview
  import opened DurableDispatch
  import JulesClient

  // ----- the invariant holds in every run

  /** Every step of every actor keeps the invariant. */
  lemma StepKeepsInv(s: State, t: State, step: Step)
    requires Inv(s) && Apply(s, t, step)
    ensures Inv(t)
  {
    match step
    case PipeMove(w, a) => PipeKeepsInv(s, t, w, a);
    case Review(id, verdict, modified, outboxId) => ReviewKeepsInv(s, t, id, verdict, modified, outboxId);
    case PassMove(p, a) => PassKeepsInv(s, t, p, a);
    case SweepMove(r, a) => SweepKeepsInv(s, t, r, a);
  }

  lemma NextKeepsInv(s: State, t: State)
    requires Inv(s) && Next(s, t)
    ensures Inv(t)
  {
    var step :| Apply(s, t, step);
    StepKeepsInv(s, t, step);
  }

  /** Every state of every run satisfies the invariant. */
  lemma {:induction false} RunKeepsInv(run: seq<State>, i: nat)
    requires Run(run) && i < |run|
    ensures Inv(run[i])
  {
    if i == 0 {
      InitInv(run[0]);
    } else {
      RunKeepsInv(run, i - 1);
      assert StepAt(run, i - 1);
      NextKeepsInv(run[i - 1], run[i]);
    }
  }

  // ----- exclusivity of external mutations

  /** Whatever interleaves, crashes or is redelivered, the pipeline mutates at most once per idempotency key. */
  lemma PipelineMutatesAtMostOnce(run: seq<State>, i: nat, key: Key)
    requires Run(run) && i < |run|
    ensures run[i].log.posts[key] <= 1
  {
    RunKeepsInv(run, i);
  }

  /** And each mutation is one request of the client, so at most one POST leaves for each key, whatever the replies. */
  lemma PipelineFetchesAtMostOnce(run: seq<State>, i: nat, key: Key, worlds: seq<JulesClient.World>, maxRetries: int)
    requires Run(run) && i < |run| && |worlds| == run[i].log.posts[key]
    ensures JulesClient.MutationFetches(worlds, JulesClient.POST, maxRetries) <= 1
  {
    PipelineMutatesAtMostOnce(run, i, key);
    JulesClient.MutationsAreNotRepeated(worlds, JulesClient.POST, maxRetries);
  }

  /**
    Pipeline and dispatcher never both act on one decision: a decision the pipeline mutated for was cleared to run
    alone, and has no approval, no outbox row and no dispatcher call; a dispatched one was cleared by a human.
   */
  lemma OneActorPerDecision(run: seq<State>, i: nat, d: nat)
    requires Run(run) && i < |run| && d in run[i].db.decisions
    ensures var s := run[i];
            && (s.log.posts[s.db.decisions[d].key] > 0 ==>
                  s.db.decisions[d].gate.autoExecuted && !HasApproval(s, d) && !HasOutbox(s, d) && !CalledFor(s, d))
            && (CalledFor(s, d) ==>
                  s.db.decisions[d].gate.requiresHumanReview && !s.db.decisions[d].gate.autoExecuted
                  && s.log.posts[s.db.decisions[d].key] == 0)
  {
    var s := run[i];
    RunKeepsInv(run, i);
    if s.db.decisions[d].gate.autoExecuted {
      AutoHasNoOutbox(s, d);
    }
    if CalledFor(s, d) {
      var o :| o in s.db.outbox && s.db.outbox[o].decisionId == d && s.log.calls[o] > 0;
      assert SourceOk(s, o) && ApprovalOk(s, s.db.approvals[s.log.source[o]]);
    }
  }

  /** EXECUTED is never written without an external mutation for that decision. */
  lemma ExecutedMeansMutated(run: seq<State>, i: nat, d: nat)
    requires Run(run) && i < |run| && d in run[i].db.decisions && run[i].db.decisions[d].state == Gate.Executed
    ensures run[i].log.posts[run[i].db.decisions[d].key] == 1 || CalledFor(run[i], d)
  {
    RunKeepsInv(run, i);
  }

  // ----- approvals and outbox rows

  ghost predicate HasSanction(s: State, d: nat) {
    exists a :: a in s.db.approvals && s.db.approvals[a].decisionId == d && Sanctioned(s.db.approvals[a])
  }

  /** At most one approval and one outbox row per decision, and an outbox row exactly when the approval is sanctioned. */
  lemma OutboxExactlyWhenSanctioned(run: seq<State>, i: nat, d: nat)
    requires Run(run) && i < |run|
    ensures var s := run[i];
            && (HasOutbox(s, d) <==> HasSanction(s, d))
            && (forall a, b | a in s.db.approvals && b in s.db.approvals
                  && s.db.approvals[a].decisionId == d && s.db.approvals[b].decisionId == d :: a == b)
            && (forall o, q | o in s.db.outbox && q in s.db.outbox
                  && s.db.outbox[o].decisionId == d && s.db.outbox[q].decisionId == d :: o == q)
  {
    var s := run[i];
    RunKeepsInv(run, i);
    if HasOutbox(s, d) {
      var o :| o in s.db.outbox && s.db.outbox[o].decisionId == d;
      assert SourceOk(s, o);
    }
    if HasSanction(s, d) {
      var a :| a in s.db.approvals && s.db.approvals[a].decisionId == d && Sanctioned(s.db.approvals[a]);
      assert Staged(s, a);
      var o :| o in s.log.source && s.log.source[o] == a;
      assert o in s.db.outbox && SourceOk(s, o);
    }
    forall o, q | o in s.db.outbox && q in s.db.outbox && s.db.outbox[o].decisionId == d && s.db.outbox[q].decisionId == d
      ensures o == q
    {
      assert SourceOk(s, o) && SourceOk(s, q);
      assert s.log.source[o] == s.log.source[q];
    }
  }

  /** What the operator rules on is what was proposed: the approval has the decision's session, action and response. */
  lemma ReviewedAsProposed(run: seq<State>, i: nat, a: nat)
    requires Run(run) && i < |run| && a in run[i].db.approvals
    ensures var approval := run[i].db.approvals[a];
            && approval.decisionId in run[i].db.decisions
            && var row := run[i].db.decisions[approval.decisionId];
               && row.gate.requiresHumanReview && !row.gate.autoExecuted
               && approval.sessionId == row.sessionId && approval.action == row.action && approval.proposed == row.response
  {
    RunKeepsInv(run, i);
    assert ApprovalOk(run[i], run[i].db.approvals[a]);
  }

  // ----- the unique index on attempts

  /** The insert of an attempt never violates the unique index, in the pipeline or in the dispatcher. */
  lemma UniqueIndexHolds(run: seq<State>, i: nat)
    requires Run(run) && i < |run|
    ensures !run[i].log.clash
    ensures forall x, y | x in run[i].db.attempts && y in run[i].db.attempts && x != y ::
              run[i].db.attempts[x].decisionId != run[i].db.attempts[y].decisionId
              || run[i].db.attempts[x].attemptNumber != run[i].db.attempts[y].attemptNumber
  {
    RunKeepsInv(run, i);
  }

  // ----- fencing tokens, attempts and calls

  /** With W dispatcher slots: the token is one past the attempts, and scans overshoot the limit by at most W - 1. */
  lemma AttemptsAreBounded(run: seq<State>, i: nat, o: nat)
    requires Run(run) && i < |run| && o in run[i].db.outbox
    ensures var row, w := run[i].db.outbox[o], Max(|run[i].passes|, 1);
            && row.fencingToken == row.attempts + 1
            && row.attempts <= row.maxAttempts + w - 1
            && run[i].log.calls[o] <= row.attempts
  {
    RunKeepsInv(run, i);
    assert RowOk(run[i], o) && CountOk(run[i], o);
  }

  /** So the client makes at most one fetch for each attempt of a row. */
  lemma FetchesAreBounded(run: seq<State>, i: nat, o: nat, worlds: seq<JulesClient.World>, maxRetries: int)
    requires Run(run) && i < |run| && o in run[i].db.outbox && |worlds| == run[i].log.calls[o]
    ensures JulesClient.MutationFetches(worlds, JulesClient.POST, maxRetries) <= run[i].db.outbox[o].attempts
  {
    AttemptsAreBounded(run, i, o);
    JulesClient.MutationsAreNotRepeated(worlds, JulesClient.POST, maxRetries);
  }

  /** Each token from 2 up to the current one has been granted to exactly one claim, and no other token ever was. */
  lemma TokenGrantedExactlyOnce(run: seq<State>, i: nat, o: nat, token: nat)
    requires Run(run) && i < |run| && o in run[i].db.outbox
    ensures run[i].log.grants[(o, token)] == if 2 <= token <= run[i].db.outbox[o].fencingToken then 1 else 0
  {
    RunKeepsInv(run, i);
  }

  /** At most one terminal mark of a row ever succeeds, and it has succeeded exactly when the row is terminal. */
  lemma OneTerminalMark(run: seq<State>, i: nat, o: nat)
    requires Run(run) && i < |run| && o in run[i].db.outbox
    ensures run[i].log.marks[o] == if Outbox.Terminal(run[i].db.outbox[o]) then 1 else 0
  {
    RunKeepsInv(run, i);
    assert RowOk(run[i], o);
  }

  lemma MarkIsNewest(s: State, t: State, p: Slot, o: nat)
    requires RowsOk(s) && PassesOk(s) && PassStep(s, t, p, Settle) && t.log.marks[o] > s.log.marks[o]
    ensures s.passes[p].Holding? && s.passes[p].item.id == o && o in s.db.outbox
    ensures s.passes[p].token == s.db.outbox[o].fencingToken
  {
  }

  lemma NewestToken(s: State, p: Slot, o: nat)
    requires PassesOk(s) && p in s.passes && s.passes[p].Holding? && s.passes[p].item.id == o && o in s.db.outbox
    requires s.passes[p].token == s.db.outbox[o].fencingToken
    ensures forall q | q in s.passes && q != p && s.passes[q].Holding? && s.passes[q].item.id == o ::
              s.passes[q].token < s.passes[p].token
  {
  }

  lemma GrantedTokens(s: State, o: nat)
    requires RowsOk(s) && o in s.db.outbox
    ensures forall token: nat :: s.log.grants[(o, token)] > 0 ==> token <= s.db.outbox[o].fencingToken
  {
  }

  lemma RunRowsAndPasses(run: seq<State>, i: nat)
    requires Run(run) && i < |run|
    ensures RowsOk(run[i]) && PassesOk(run[i])
  {
    RunKeepsInv(run, i);
  }

  /** A terminal mark succeeds only for the pass with the newest claim of the row. */
  lemma TerminalMarkIsNewest(run: seq<State>, i: nat, p: Slot, o: nat)
    requires Run(run) && i + 1 < |run| && PassStep(run[i], run[i + 1], p, Settle)
    requires run[i + 1].log.marks[o] > run[i].log.marks[o]
    ensures run[i].passes[p].Holding? && run[i].passes[p].item.id == o
    ensures forall token: nat :: run[i].log.grants[(o, token)] > 0 ==> token <= run[i].passes[p].token
    ensures forall q | q in run[i].passes && q != p && run[i].passes[q].Holding? && run[i].passes[q].item.id == o ::
              run[i].passes[q].token < run[i].passes[p].token
  {
    RunRowsAndPasses(run, i);
    MarkIsNewest(run[i], run[i + 1], p, o);
    NewestToken(run[i], p, o);
    GrantedTokens(run[i], o);
  }

  lemma NextKeepsTerminal(s: State, t: State, o: nat)
    requires SourcesOk(s) && Next(s, t) && o in s.db.outbox && Outbox.Terminal(s.db.outbox[o])
    ensures o in t.db.outbox && t.db.outbox[o] == s.db.outbox[o]
  {
    var step :| Apply(s, t, step);
    match step
    case PipeMove(w, a) => PipeLeavesOutbox(s, t, w, a);
    case Review(id, verdict, modified, q) => ReviewShape(s, t, id, verdict, modified, q);
    case SweepMove(r, a) => SweepShape(s, t, r, a);
    case PassMove(p, a) => PassKeepsTerminal(s.db, s.log, p, s.passes[p], a, PassTurn(s.db, s.log, p, s.passes[p], a), o);
  }

  lemma RunPasses(run: seq<State>, i: nat)
    requires Run(run) && i < |run|
    ensures PassesOk(run[i])
  {
    RunKeepsInv(run, i);
  }

  lemma RunSources(run: seq<State>, i: nat)
    requires Run(run) && i < |run|
    ensures SourcesOk(run[i])
  {
    RunKeepsInv(run, i);
  }

  /** COMPLETED, FAILED and UNCERTAIN are absorbing: the whole row is frozen for the rest of the run. */
  lemma {:induction false} TerminalRowsAreFrozen(run: seq<State>, i: nat, j: nat, o: nat)
    requires Run(run) && i <= j < |run| && o in run[i].db.outbox && Outbox.Terminal(run[i].db.outbox[o])
    ensures o in run[j].db.outbox && run[j].db.outbox[o] == run[i].db.outbox[o]
    decreases j
  {
    if i < j {
      TerminalRowsAreFrozen(run, i, j - 1, o);
      RunSources(run, j - 1);
      assert StepAt(run, j - 1);
      NextKeepsTerminal(run[j - 1], run[j], o);
    }
  }

  // ----- reviews that are lost

  /**
    A decision that awaits approval has an approval row, or a live run that is about to write it, or lost its run in
    between; the three exclude each other.
   */
  lemma ReviewIsQueuedHeldOrStranded(run: seq<State>, i: nat, d: nat)
    requires Run(run) && i < |run|
    requires d in run[i].db.decisions && run[i].db.decisions[d].gate.requiresHumanReview
    ensures var s := run[i];
            && (HasApproval(s, d) || HeldForReview(s, d) || d in s.log.stranded)
            && !(HasApproval(s, d) && HeldForReview(s, d))
            && !(d in s.log.stranded && (HasApproval(s, d) || HeldForReview(s, d)))
  {
    RunKeepsInv(run, i);
  }

  lemma NextKeepsStranded(s: State, t: State)
    requires Next(s, t)
    ensures s.log.stranded <= t.log.stranded
  {
    var step :| Apply(s, t, step);
    match step
    case PipeMove(w, a) => PipeLeavesOutbox(s, t, w, a);
    case Review(id, verdict, modified, q) => ReviewShape(s, t, id, verdict, modified, q);
    case SweepMove(r, a) => SweepShape(s, t, r, a);
    case PassMove(p, a) => PassShape(s, t, p, a);
  }

  lemma {:induction false} StrandedGrows(run: seq<State>, i: nat, j: nat)
    requires Run(run) && i <= j < |run|
    ensures run[i].log.stranded <= run[j].log.stranded
    decreases j
  {
    if i < j {
      StrandedGrows(run, i, j - 1);
      assert StepAt(run, j - 1);
      NextKeepsStranded(run[j - 1], run[j]);
    }
  }

  lemma StrandedIsLost(s: State, d: nat)
    requires Inv(s) && d in s.log.stranded
    ensures !HasApproval(s, d) && !HasOutbox(s, d) && !CalledFor(s, d)
  {
    assert !HasApproval(s, d);
    forall o | o in s.db.outbox
      ensures s.db.outbox[o].decisionId != d
    {
      assert SourceOk(s, o);
    }
  }

  /** A stranded review stays stranded: redelivery skips it, so no approval is ever queued and nothing is ever dispatched. */
  lemma StrandedForever(run: seq<State>, i: nat, j: nat, d: nat)
    requires Run(run) && i <= j < |run| && d in run[i].log.stranded
    ensures d in run[j].log.stranded && !HasApproval(run[j], d) && !HasOutbox(run[j], d) && !CalledFor(run[j], d)
  {
    RunKeepsInv(run, j);
    StrandedGrows(run, i, j);
    StrandedIsLost(run[j], d);
  }

  // ----- rows that are abandoned

  /** In flight at the limit, and no pass holds the row or is about to claim it. */
  ghost predicate Abandoned(s: State, o: nat) {
    && o in s.db.outbox && AtLimit(s.db.outbox[o])
    && forall p | p in s.passes :: LeavesAlone(s.passes[p], o)
  }

  predicate LeavesAlone(pc: Pass, o: nat) {
    (pc.Holding? ==> pc.item.id != o) && forall i | 0 <= i < |Todo(pc)| :: Todo(pc)[i].id != o
  }

  predicate AtLimit(row: Outbox.Row) {
    Outbox.InFlight(row) && row.attempts >= row.maxAttempts
  }

  lemma PassLeavesRow(db: Db, log: Log, p: Slot, pc: Pass, a: PassAction, turn: Turn<Pass>, o: nat)
    requires turn == PassTurn(db, log, p, pc, a) && turn.Turn? && LeavesAlone(pc, o) && o in db.outbox
    ensures o in turn.db.outbox && turn.db.outbox[o] == db.outbox[o]
  {
    PassTables(db, log, p, pc, a, turn);
    PassOutbox(db, log, p, pc, a, turn);
    assert a.ClaimNext? ==> Todo(pc)[0].id != o;
  }

  lemma ScanStaysAway(t: Outbox.Table, found: seq<nat>, now: int, o: nat)
    requires forall id | id in found :: id in t && Outbox.Scannable(t[id], now)
    requires o in t && AtLimit(t[o])
    ensures LeavesAlone(Working(Items(t, found)), o)
  {
    forall i | 0 <= i < |found|
      ensures Items(t, found)[i].id != o
    {
      assert found[i] in found;
    }
  }

  lemma PassStaysAway(db: Db, log: Log, p: Slot, pc: Pass, a: PassAction, turn: Turn<Pass>, o: nat)
    requires turn == PassTurn(db, log, p, pc, a) && turn.Turn? && LeavesAlone(pc, o) && o in db.outbox && AtLimit(db.outbox[o])
    ensures LeavesAlone(turn.next, o)
  {
    if a.Scan? {
      ScanStaysAway(db.outbox, a.found, a.now, o);
    } else if a.ClaimNext? {
      assert Todo(pc)[0].id != o && forall i | 0 <= i < |pc.todo| - 1 :: pc.todo[1..][i] == Todo(pc)[i + 1];
    } else {
      PassIsLocal(db, log, p, pc, a, turn);
      assert Todo(turn.next) == [] || Todo(turn.next) == Todo(pc);
    }
  }

  lemma NextKeepsAbandoned(s: State, t: State, o: nat)
    requires SourcesOk(s) && Next(s, t) && Abandoned(s, o)
    ensures Abandoned(t, o) && t.db.outbox[o] == s.db.outbox[o]
  {
    var step :| Apply(s, t, step);
    match step
    case PipeMove(w, a) => PipeLeavesOutbox(s, t, w, a);
    case Review(id, verdict, modified, q) => ReviewShape(s, t, id, verdict, modified, q);
    case SweepMove(r, a) => SweepShape(s, t, r, a);
    case PassMove(p, a) => PassStepKeepsAbandoned(s, t, p, a, o);
  }

  lemma PassStepKeepsAbandoned(s: State, t: State, p: Slot, a: PassAction, o: nat)
    requires PassStep(s, t, p, a) && Abandoned(s, o)
    ensures Abandoned(t, o) && t.db.outbox[o] == s.db.outbox[o]
  {
    var turn := PassTurn(s.db, s.log, p, s.passes[p], a);
    PassLeavesRow(s.db, s.log, p, s.passes[p], a, turn, o);
    PassStaysAway(s.db, s.log, p, s.passes[p], a, turn, o);
  }

  /** A row whose last attempt died stays in flight, untouched, for the rest of the run. */
  lemma {:induction false} AbandonedForever(run: seq<State>, i: nat, j: nat, o: nat)
    requires Run(run) && i <= j < |run| && Abandoned(run[i], o)
    ensures Abandoned(run[j], o) && run[j].db.outbox[o] == run[i].db.outbox[o]
    decreases j
  {
    if i < j {
      AbandonedForever(run, i, j - 1, o);
      RunSources(run, j - 1);
      assert StepAt(run, j - 1);
      NextKeepsAbandoned(run[j - 1], run[j], o);
    }
  }
}
