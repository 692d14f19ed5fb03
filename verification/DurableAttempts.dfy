/** How the pipeline's own executions end: their attempts in the ledger, their decisions, and what they sent. */
module DurableAttempts {
  import opened Basics
  import Gate = ExecutionGate
  import Outbox = OutboxRepository
  import Ledger = ExecutionAttemptRepository
  import opened DurableState
  import opened DurableInvariants
  import opened DurablePipeline
  import opened DurableReview
  import opened DurableDispatch
  import opened DurableTheorems

  // ----- who works on an attempt

  function PipeAttempt(pc: Pipe): Option<nat> {
    match pc
    case Attempting(_, _, _, att, _) => Some(att)
    case Posted(_, _, att) => Some(att)
    case Settled(_, _, att) => Some(att)
    case Closing(_, _, att) => Some(att)
    case Failing(_, _, tried, _, _) => tried
    case _ => None
  }

  function PassAttempt(pc: Pass): Option<nat> {
    if pc.Holding? then pc.att else None
  }

  /** No two runs, and no run and pass, work on the same attempt. */
  ghost predicate HoldersOk(s: State) {
    && (forall w | w in s.pipes && PipeAttempt(s.pipes[w]).Some? :: PipeAttempt(s.pipes[w]).value in s.db.used)
    && (forall p | p in s.passes && PassAttempt(s.passes[p]).Some? :: PassAttempt(s.passes[p]).value in s.db.used)
    && (forall v, w | v in s.pipes && w in s.pipes && v != w && PipeAttempt(s.pipes[v]).Some? ::
          PipeAttempt(s.pipes[v]) != PipeAttempt(s.pipes[w]))
    && (forall w, p | w in s.pipes && p in s.passes && PipeAttempt(s.pipes[w]).Some? ::
          PipeAttempt(s.pipes[w]) != PassAttempt(s.passes[p]))
  }

  // ----- where an attempt is while its run lasts

  /** What a run has made of its attempt; a reconciler may have taken it away. */
  predicate StatusFits(pc: Pipe, row: Ledger.Row) {
    || row.status.NeedsReconciliation?
    || match pc
       case Attempting(_, _, _, _, progress) => if progress == 0 then row.status.Pending? || row.status.Claimed? else Leased(row)
       case Posted(_, _, _) => Leased(row)
       case Failing(_, _, _, leased, _) => if leased then Leased(row) else row.status.Pending? || row.status.Claimed?
       case _ => false
  }

  predicate Leased(row: Ledger.Row) {
    row.status.Claimed? || row.status.Executing?
  }

  ghost predicate RunFits(db: Db, log: Log, owner: string, pc: Pipe) {
    PipeAttempt(pc).Some? ==>
      var x := PipeAttempt(pc).value;
      && x in db.attempts && db.attempts[x].decisionId == pc.id
      && x !in log.faults
      && (pc.Attempting? || pc.Posted? ==> x !in log.acks)
      && (pc.Settled? || pc.Closing? ==> x in log.acks)
      && (x !in log.acks ==> StatusFits(pc, db.attempts[x]))
  }

  /** What a noted failure makes of an attempt that was under way. */
  predicate FaultFits(status: Ledger.Status, c: Category) {
    match c
    case Ambiguous => status.UnknownEffect?
    case Permanent => status.Failed?
    case Transient => status.Failed?
  }

  /** Acknowledged attempts, and those that a failure was noted for, have their result, or were handed to a human. */
  ghost predicate ResultsFit(t: Ledger.Table, log: Log) {
    && (forall x | x in log.acks :: x in t && (t[x].status.Succeeded? || t[x].status.NeedsReconciliation?))
    && (forall x | x in log.faults && x !in log.acks ::
          x in t && (FaultFits(t[x].status, log.faults[x]) || t[x].status.NeedsReconciliation?))
  }

  ghost predicate RunsOk(s: State) {
    && (forall w | w in s.pipes :: RunFits(s.db, s.log, w.owner, s.pipes[w]))
    && ResultsFit(s.db.attempts, s.log)
  }

  // ----- what each kind of step writes

  lemma PipeHolds(db: Db, log: Log, w: Slot, pc: Pipe, a: PipeAction, turn: Turn<Pipe>)
    requires turn == PipeTurn(db, log, w, pc, a) && turn.Turn?
    ensures db.used <= turn.db.used
    ensures PipeAttempt(turn.next).Some? ==>
      || PipeAttempt(turn.next) == PipeAttempt(pc)
      || (a.CreateAttempt? && PipeAttempt(turn.next) == Some(a.freshId) && a.freshId !in db.used && a.freshId in turn.db.used)
  {
  }

  lemma PassHolds(db: Db, log: Log, p: Slot, pc: Pass, a: PassAction, turn: Turn<Pass>)
    requires turn == PassTurn(db, log, p, pc, a) && turn.Turn?
    ensures db.used <= turn.db.used
    ensures PassAttempt(turn.next).Some? ==>
      || PassAttempt(turn.next) == PassAttempt(pc)
      || (a.RecordAttempt? && PassAttempt(turn.next) == Some(a.freshId) && a.freshId !in db.used && a.freshId in turn.db.used)
  {
  }

  lemma PipeKeepsHolders(s: State, t: State, w: Slot, a: PipeAction)
    requires HoldersOk(s) && PipeStep(s, t, w, a)
    ensures HoldersOk(t)
  {
    PipeHolds(s.db, s.log, w, s.pipes[w], a, PipeTurn(s.db, s.log, w, s.pipes[w], a));
  }

  lemma PassKeepsHolders(s: State, t: State, p: Slot, a: PassAction)
    requires HoldersOk(s) && PassStep(s, t, p, a)
    ensures HoldersOk(t)
  {
    PassHolds(s.db, s.log, p, s.passes[p], a, PassTurn(s.db, s.log, p, s.passes[p], a));
  }

  /** The pipeline writes to its own attempt only. */
  lemma PipeWritesOwn(db: Db, log: Log, w: Slot, pc: Pipe, a: PipeAction, turn: Turn<Pipe>, x: nat)
    requires turn == PipeTurn(db, log, w, pc, a) && turn.Turn? && x in db.attempts && Some(x) != PipeAttempt(pc)
    requires a.CreateAttempt? ==> x in db.used
    ensures x in turn.db.attempts && turn.db.attempts[x] == db.attempts[x]
  {
  }

  lemma PipeLogsOwn(db: Db, log: Log, w: Slot, pc: Pipe, a: PipeAction, turn: Turn<Pipe>)
    requires turn == PipeTurn(db, log, w, pc, a) && turn.Turn?
    ensures turn.log.acks == (if a.Succeed? && pc.Posted? then log.acks + {pc.att} else log.acks)
    ensures turn.log.faults == if a.NoteFailure? && pc.Failing? && pc.tried.Some? && pc.leased then log.faults[pc.tried.value := pc.category]
                               else log.faults
  {
  }

  /** Starting and giving up an attempt. */
  lemma PipeTakesAttempt(db: Db, log: Log, w: Slot, pc: Pipe, a: PipeAction, turn: Turn<Pipe>)
    requires turn == PipeTurn(db, log, w, pc, a) && turn.Turn? && RunFits(db, log, w.owner, pc)
    requires !a.ClaimAttempt? && !a.StartAttempt? && !a.Succeed? && !a.MarkExecuted?
    requires a.CreateAttempt? && pc.Numbered? ==>
               !Ledger.NumberTaken(db.attempts, pc.id, pc.number) && a.freshId !in log.acks && a.freshId !in log.faults
    ensures RunFits(turn.db, turn.log, w.owner, turn.next)
  {
  }

  /** What a run makes of its own attempt. */
  lemma PipeKeepsOwn(db: Db, log: Log, w: Slot, pc: Pipe, a: PipeAction, turn: Turn<Pipe>)
    requires turn == PipeTurn(db, log, w, pc, a) && turn.Turn? && RunFits(db, log, w.owner, pc)
    requires a.CreateAttempt? && pc.Numbered? ==>
               !Ledger.NumberTaken(db.attempts, pc.id, pc.number) && a.freshId !in log.acks && a.freshId !in log.faults
    ensures RunFits(turn.db, turn.log, w.owner, turn.next)
  {
    if !a.ClaimAttempt? && !a.StartAttempt? && !a.Succeed? && !a.MarkExecuted? {
      PipeTakesAttempt(db, log, w, pc, a, turn);
    }
  }

  lemma PipeKeepsResults(db: Db, log: Log, w: Slot, pc: Pipe, a: PipeAction, turn: Turn<Pipe>)
    requires turn == PipeTurn(db, log, w, pc, a) && turn.Turn? && RunFits(db, log, w.owner, pc) && ResultsFit(db.attempts, log)
    requires forall x | x in db.attempts :: x in db.used
    ensures ResultsFit(turn.db.attempts, turn.log)
  {
    PipeLogsOwn(db, log, w, pc, a, turn);
    forall x | x in db.attempts && Some(x) != PipeAttempt(pc)
      ensures x in turn.db.attempts && turn.db.attempts[x] == db.attempts[x]
    {
      PipeWritesOwn(db, log, w, pc, a, turn, x);
    }
  }

  /** And so does the dispatcher. */
  lemma PassWritesOwn(db: Db, log: Log, p: Slot, pc: Pass, a: PassAction, turn: Turn<Pass>, x: nat)
    requires turn == PassTurn(db, log, p, pc, a) && turn.Turn? && x in db.attempts && Some(x) != PassAttempt(pc)
    requires a.RecordAttempt? ==> x in db.used
    ensures x in turn.db.attempts && turn.db.attempts[x] == db.attempts[x]
  {
  }

  /** A resolved attempt is out of the reach of every statement but the escalation. */
  lemma PassKeepsResolved(db: Db, log: Log, p: Slot, pc: Pass, a: PassAction, turn: Turn<Pass>, x: nat)
    requires turn == PassTurn(db, log, p, pc, a) && turn.Turn? && x in db.attempts && Ledger.Resolved(db.attempts[x])
    requires a.RecordAttempt? ==> x in db.used
    ensures x in turn.db.attempts && turn.db.attempts[x] == db.attempts[x]
  {
  }

  /** What a reconciler can do to an attempt whose decision exists. */
  lemma SweepWrites(db: Db, log: Log, r: Slot, pc: Sweep, a: SweepAction, turn: Turn<Sweep>, x: nat)
    requires turn == SweepTurn(db, log, r, pc, a) && turn.Turn? && x in db.attempts && db.attempts[x].decisionId in db.decisions
    ensures x in turn.db.attempts && Ledger.SameAttempt(db.attempts[x], turn.db.attempts[x])
    ensures var row, row' := db.attempts[x], turn.db.attempts[x];
            || row'.status.NeedsReconciliation? || row' == row
            || (row'.status.Claimed? && (row.status.Pending? || Leased(row)))
  {
  }

  // ----- every step keeps runs and results

  lemma OtherRunsStay(s: State, t: State, w: Slot, a: PipeAction, v: Slot)
    requires HoldersOk(s) && RunsOk(s) && PipeStep(s, t, w, a) && v in s.pipes && v != w
    requires forall x | x in s.db.attempts :: x in s.db.used
    ensures RunFits(t.db, t.log, v.owner, t.pipes[v])
  {
    var turn := PipeTurn(s.db, s.log, w, s.pipes[w], a);
    PipeLogsOwn(s.db, s.log, w, s.pipes[w], a, turn);
    assert RunFits(s.db, s.log, v.owner, s.pipes[v]);
    if PipeAttempt(s.pipes[v]).Some? {
      PipeWritesOwn(s.db, s.log, w, s.pipes[w], a, turn, PipeAttempt(s.pipes[v]).value);
    }
  }

  lemma PipeKeepsRuns(s: State, t: State, w: Slot, a: PipeAction)
    requires AttemptsOk(s) && HoldersOk(s) && RunsOk(s) && PipeStep(s, t, w, a)
    ensures RunsOk(t)
  {
    var turn := PipeTurn(s.db, s.log, w, s.pipes[w], a);
    assert RunFits(s.db, s.log, w.owner, s.pipes[w]);
    if a.CreateAttempt? {
      CreateOutcome(s, t, w, a.freshId, a.now, a.onClash);
    }
    PipeKeepsOwn(s.db, s.log, w, s.pipes[w], a, turn);
    PipeKeepsResults(s.db, s.log, w, s.pipes[w], a, turn);
    forall v | v in t.pipes
      ensures RunFits(t.db, t.log, v.owner, t.pipes[v])
    {
      if v != w {
        OtherRunsStay(s, t, w, a, v);
      }
    }
  }

  lemma PassLeavesRun(s: State, t: State, p: Slot, a: PassAction, w: Slot)
    requires HoldersOk(s) && PassStep(s, t, p, a) && w in s.pipes && RunFits(s.db, s.log, w.owner, s.pipes[w])
    requires forall x | x in s.db.attempts :: x in s.db.used
    ensures RunFits(t.db, t.log, w.owner, t.pipes[w])
  {
    PassShape(s, t, p, a);
    if PipeAttempt(s.pipes[w]).Some? {
      PassWritesOwn(s.db, s.log, p, s.passes[p], a, PassTurn(s.db, s.log, p, s.passes[p], a), PipeAttempt(s.pipes[w]).value);
    }
  }

  lemma ResultsStay(before: Ledger.Table, after: Ledger.Table, log: Log, log': Log)
    requires ResultsFit(before, log) && log'.acks == log.acks && log'.faults == log.faults
    requires forall x | x in before && Ledger.Resolved(before[x]) :: x in after && after[x] == before[x]
    ensures ResultsFit(after, log')
  {
  }

  lemma PassKeepsResults(s: State, t: State, p: Slot, a: PassAction)
    requires PassStep(s, t, p, a) && ResultsFit(s.db.attempts, s.log) && forall x | x in s.db.attempts :: x in s.db.used
    ensures ResultsFit(t.db.attempts, t.log)
  {
    PassShape(s, t, p, a);
    forall x | x in s.db.attempts && Ledger.Resolved(s.db.attempts[x])
      ensures x in t.db.attempts && t.db.attempts[x] == s.db.attempts[x]
    {
      PassKeepsResolved(s.db, s.log, p, s.passes[p], a, PassTurn(s.db, s.log, p, s.passes[p], a), x);
    }
    ResultsStay(s.db.attempts, t.db.attempts, s.log, t.log);
  }

  lemma PassKeepsRuns(s: State, t: State, p: Slot, a: PassAction)
    requires AttemptsOk(s) && HoldersOk(s) && RunsOk(s) && PassStep(s, t, p, a)
    ensures RunsOk(t)
  {
    PassKeepsResults(s, t, p, a);
    PassShape(s, t, p, a);
    forall w | w in t.pipes
      ensures RunFits(t.db, t.log, w.owner, t.pipes[w])
    {
      PassLeavesRun(s, t, p, a, w);
    }
  }

  /** Every attempt stays, is handed to a human, or is taken from whoever was still to resolve it. */
  ghost predicate Swept(before: Ledger.Table, after: Ledger.Table) {
    forall x | x in before ::
      && x in after && Ledger.SameAttempt(before[x], after[x])
      && (after[x].status.NeedsReconciliation? || after[x] == before[x]
          || (after[x].status.Claimed? && (before[x].status.Pending? || Leased(before[x]))))
  }

  lemma SweptFits(s: State, t: State, w: Slot)
    requires w in s.pipes && RunFits(s.db, s.log, w.owner, s.pipes[w]) && Swept(s.db.attempts, t.db.attempts) && t.log == s.log
    ensures RunFits(t.db, t.log, w.owner, s.pipes[w])
  {
  }

  lemma AttemptsHaveDecisions(s: State)
    requires AttemptsOk(s)
    ensures forall x | x in s.db.attempts :: s.db.attempts[x].decisionId in s.db.decisions
  {
    forall x | x in s.db.attempts
      ensures s.db.attempts[x].decisionId in s.db.decisions
    {
      assert AttemptOk(s, x);
    }
  }

  lemma SweepKeepsRuns(s: State, t: State, r: Slot, a: SweepAction)
    requires AttemptsOk(s) && RunsOk(s) && SweepStep(s, t, r, a)
    ensures RunsOk(t)
  {
    SweepShape(s, t, r, a);
    AttemptsHaveDecisions(s);
    AllSwept(s.db, s.log, r, s.sweeps[r], a, SweepTurn(s.db, s.log, r, s.sweeps[r], a));
    SweptResults(s.db.attempts, t.db.attempts, s.log);
    forall w | w in t.pipes
      ensures RunFits(t.db, t.log, w.owner, t.pipes[w])
    {
      SweptFits(s, t, w);
    }
  }

  lemma SweptResults(before: Ledger.Table, after: Ledger.Table, log: Log)
    requires Swept(before, after) && ResultsFit(before, log)
    ensures ResultsFit(after, log)
  {
  }

  lemma AllSwept(db: Db, log: Log, r: Slot, pc: Sweep, a: SweepAction, turn: Turn<Sweep>)
    requires turn == SweepTurn(db, log, r, pc, a) && turn.Turn?
    requires forall x | x in db.attempts :: db.attempts[x].decisionId in db.decisions
    ensures Swept(db.attempts, turn.db.attempts)
  {
    forall x | x in db.attempts
      ensures x in turn.db.attempts && Ledger.SameAttempt(db.attempts[x], turn.db.attempts[x])
      ensures || turn.db.attempts[x].status.NeedsReconciliation? || turn.db.attempts[x] == db.attempts[x]
              || (turn.db.attempts[x].status.Claimed? && (db.attempts[x].status.Pending? || Leased(db.attempts[x])))
    {
      SweepWrites(db, log, r, pc, a, turn, x);
    }
  }

  lemma ReviewKeepsRuns(s: State, t: State, id: nat, verdict: Verdict, modified: Option<string>, o: nat)
    requires HoldersOk(s) && RunsOk(s) && ReviewStep(s, t, id, verdict, modified, o)
    ensures HoldersOk(t) && RunsOk(t)
  {
    ReviewShape(s, t, id, verdict, modified, o);
    forall w | w in t.pipes
      ensures RunFits(t.db, t.log, w.owner, t.pipes[w])
    {
      assert RunFits(s.db, s.log, w.owner, s.pipes[w]);
    }
  }

  lemma NextKeepsRuns(s: State, t: State)
    requires AttemptsOk(s) && HoldersOk(s) && RunsOk(s) && Next(s, t)
    ensures HoldersOk(t) && RunsOk(t)
  {
    var step :| Apply(s, t, step);
    match step
    case PipeMove(w, a) =>
      PipeKeepsHolders(s, t, w, a);
      PipeKeepsRuns(s, t, w, a);
    case Review(id, verdict, modified, o) => ReviewKeepsRuns(s, t, id, verdict, modified, o);
    case PassMove(p, a) =>
      PassKeepsHolders(s, t, p, a);
      PassKeepsRuns(s, t, p, a);
    case SweepMove(r, a) =>
      SweepKeepsRuns(s, t, r, a);
      SweepShape(s, t, r, a);
  }

  lemma RunAttemptsOk(run: seq<State>, i: nat)
    requires Run(run) && i < |run|
    ensures AttemptsOk(run[i])
  {
    RunKeepsInv(run, i);
  }

  lemma {:induction false} RunKeepsRuns(run: seq<State>, i: nat)
    requires Run(run) && i < |run|
    ensures HoldersOk(run[i]) && RunsOk(run[i])
  {
    if i > 0 {
      RunKeepsRuns(run, i - 1);
      RunAttemptsOk(run, i - 1);
      assert StepAt(run, i - 1);
      NextKeepsRuns(run[i - 1], run[i]);
    }
  }
}
