/** How outbox rows end: what a terminal status says of the fault that its last claim met, and what can still follow. */
module DurableEndings {
  import opened Basics
  import Gate = ExecutionGate
  import Outbox = OutboxRepository
  import Ledger = ExecutionAttemptRepository
  import opened DurableState
  import opened DurableInvariants
  import opened DurablePipeline
  import opened DurableReview
  import opened DurableDispatch
  import opened DurableTheorems
  import opened DurableSendings
  import opened DurableScenarios

  // ----- from the fault to the result

  /** What a pass settles on, by the fault it met; `number` is the attempt's and `max` the row's limit. */
  predicate Fits(result: Result, cause: Option<Category>, number: nat, max: nat) {
    match result
    case Delivered => cause == None
    case Uncertain => cause == Some(Ambiguous)
    case Final => cause == Some(Permanent) || (cause == Some(Transient) && number >= max)
    case Retry => cause == Some(Transient) && number < max
  }

  /** A failure that will be retried leaves the outbox alone; and an attempt is recorded right after the claim. */
  predicate StageOk(pc: Pass) {
    pc.Holding? ==>
      && (pc.stage.Settling? ==>
            Fits(pc.stage.result, pc.stage.cause, pc.number, pc.max) && (pc.stage.result.Retry? ==> pc.stage.done == 0))
      && (!pc.stage.Granted? ==> pc.att.Some?)
  }

  /** A terminal row, by the fault that its last claim met: none, an ambiguous one, or one that ends it for good. */
  predicate EndedBy(row: Outbox.Row, cause: Option<Category>) {
    match row.status
    case Completed => cause == None
    case Uncertain => cause == Some(Ambiguous)
    case Failed => cause == Some(Permanent) || (cause == Some(Transient) && row.attempts >= row.maxAttempts)
    case _ => false
  }

  ghost predicate StagesOk(s: State) {
    forall p | p in s.passes :: StageOk(s.passes[p])
  }

  ghost predicate EndingsOk(s: State) {
    && (forall o | o in s.db.outbox && Outbox.Terminal(s.db.outbox[o]) ::
          o in s.log.endings && EndedBy(s.db.outbox[o], s.log.endings[o]))
    && (forall o | o in s.log.endings :: o in s.db.outbox && Outbox.Terminal(s.db.outbox[o]))
  }

  lemma PassKeepsStage(db: Db, log: Log, p: Slot, pc: Pass, a: PassAction, turn: Turn<Pass>)
    requires turn == PassTurn(db, log, p, pc, a) && turn.Turn? && StageOk(pc)
    ensures StageOk(turn.next)
  {
  }

  /** Which steps write an ending: a mark that succeeds. */
  lemma PassEndings(db: Db, log: Log, p: Slot, pc: Pass, a: PassAction, turn: Turn<Pass>)
    requires turn == PassTurn(db, log, p, pc, a) && turn.Turn?
    ensures !a.Settle? ==> turn.log.endings == log.endings
    ensures a.Settle? ==> pc.Holding? && pc.stage.Settling?
    ensures a.Settle? && pc.stage.done != 1 ==> turn.log.endings == log.endings && turn.db.outbox == db.outbox
    ensures a.Settle? && pc.stage.done == 1 ==>
      var r := Outbox.Resolve(db.outbox, pc.item.id, p.owner, pc.token, OutboxStatus(pc.stage.result), None);
      turn.db.outbox == r.0 && turn.log.endings == if r.1 then log.endings[pc.item.id := pc.stage.cause] else log.endings
  {
  }

  /** No other step makes a row terminal. */
  lemma PassLeavesOpen(db: Db, log: Log, p: Slot, pc: Pass, a: PassAction, turn: Turn<Pass>, o: nat)
    requires turn == PassTurn(db, log, p, pc, a) && turn.Turn? && !a.Settle? && o in turn.db.outbox
    ensures o in db.outbox && (Outbox.Terminal(turn.db.outbox[o]) <==> Outbox.Terminal(db.outbox[o]))
    ensures Outbox.Terminal(db.outbox[o]) ==> turn.db.outbox[o] == db.outbox[o]
  {
    PassTables(db, log, p, pc, a, turn);
    PassOutbox(db, log, p, pc, a, turn);
  }

  lemma MarkEnds(s: State, t: State, p: Slot, o: nat)
    requires RowsOk(s) && PassesOk(s) && p in s.passes && s.passes[p].Holding? && StageOk(s.passes[p])
    requires s.passes[p].stage.Settling? && s.passes[p].stage.done == 1 && s.passes[p].item.id == o && o in s.db.outbox
    requires Outbox.HeldUnder(s.db.outbox[o], p.owner, s.passes[p].token)
    requires t.db.outbox == Outbox.Resolve(s.db.outbox, o, p.owner, s.passes[p].token, OutboxStatus(s.passes[p].stage.result), None).0
    ensures o in t.db.outbox && EndedBy(t.db.outbox[o], s.passes[p].stage.cause)
  {
    assert PassOk(s, s.passes[p]) && RowOk(s, o);
  }

  lemma SettleKeepsEndings(s: State, t: State, p: Slot)
    requires RowsOk(s) && PassesOk(s) && StagesOk(s) && EndingsOk(s) && PassStep(s, t, p, Settle)
    ensures EndingsOk(t)
  {
    var pc := s.passes[p];
    PassEndings(s.db, s.log, p, pc, Settle, PassTurn(s.db, s.log, p, pc, Settle));
    assert PassOk(s, pc) && StageOk(pc);
    if pc.stage.done == 1 && Outbox.HeldUnder(s.db.outbox[pc.item.id], p.owner, pc.token) {
      MarkEnds(s, t, p, pc.item.id);
    }
  }

  lemma PassKeepsEndings(s: State, t: State, p: Slot, a: PassAction)
    requires RowsOk(s) && PassesOk(s) && StagesOk(s) && EndingsOk(s) && PassStep(s, t, p, a)
    ensures EndingsOk(t)
  {
    if a.Settle? {
      SettleKeepsEndings(s, t, p);
    } else {
      var turn := PassTurn(s.db, s.log, p, s.passes[p], a);
      PassEndings(s.db, s.log, p, s.passes[p], a, turn);
      PassShape(s, t, p, a);
      forall o | o in t.db.outbox
        ensures Outbox.Terminal(t.db.outbox[o]) <==> Outbox.Terminal(s.db.outbox[o])
        ensures Outbox.Terminal(s.db.outbox[o]) ==> t.db.outbox[o] == s.db.outbox[o]
      {
        PassLeavesOpen(s.db, s.log, p, s.passes[p], a, turn, o);
      }
    }
  }

  /** Rows stay, and new ones are pending. */
  lemma FrameEndings(s: State, t: State)
    requires EndingsOk(s) && t.log.endings == s.log.endings
    requires forall o | o in s.db.outbox :: o in t.db.outbox && t.db.outbox[o] == s.db.outbox[o]
    requires forall o | o in t.db.outbox && o !in s.db.outbox :: t.db.outbox[o].status.Pending?
    ensures EndingsOk(t)
  {
  }

  lemma NextKeepsEndings(s: State, t: State)
    requires SourcesOk(s) && RowsOk(s) && PassesOk(s) && StagesOk(s) && EndingsOk(s) && Next(s, t)
    ensures StagesOk(t) && EndingsOk(t)
  {
    var step :| Apply(s, t, step);
    match step
    case PipeMove(w, a) => PipeLeavesEndings(s, t, w, a);
    case Review(id, verdict, modified, q) => ReviewLeavesEndings(s, t, id, verdict, modified, q);
    case SweepMove(r, a) =>
      SweepShape(s, t, r, a);
      FrameEndings(s, t);
    case PassMove(p, a) =>
      PassKeepsEndings(s, t, p, a);
      PassKeepsStage(s.db, s.log, p, s.passes[p], a, PassTurn(s.db, s.log, p, s.passes[p], a));
  }

  lemma PipeLeavesEndings(s: State, t: State, w: Slot, a: PipeAction)
    requires EndingsOk(s) && PipeStep(s, t, w, a)
    ensures EndingsOk(t) && t.passes == s.passes
  {
    PipeLeavesOutbox(s, t, w, a);
    assert t.log.endings == s.log.endings;
    FrameEndings(s, t);
  }

  lemma ReviewLeavesEndings(s: State, t: State, id: nat, verdict: Verdict, modified: Option<string>, q: nat)
    requires SourcesOk(s) && EndingsOk(s) && ReviewStep(s, t, id, verdict, modified, q)
    ensures EndingsOk(t) && t.passes == s.passes
  {
    ReviewShape(s, t, id, verdict, modified, q);
    FrameEndings(s, t);
  }

  lemma RunRows(run: seq<State>, i: nat)
    requires Run(run) && i < |run|
    ensures SourcesOk(run[i]) && RowsOk(run[i]) && PassesOk(run[i])
  {
    RunKeepsInv(run, i);
  }

  lemma {:induction false} RunKeepsEndings(run: seq<State>, i: nat)
    requires Run(run) && i < |run|
    ensures StagesOk(run[i]) && EndingsOk(run[i])
  {
    if i > 0 {
      RunKeepsEndings(run, i - 1);
      RunRows(run, i - 1);
      assert StepAt(run, i - 1);
      NextKeepsEndings(run[i - 1], run[i]);
    }
  }

  /**
    In every run a terminal row tells how its last claim went: COMPLETED without a fault, UNCERTAIN after an ambiguous
    one, FAILED after a permanent one or a transient one at the limit; and rows without a mark are not terminal.
   */
  lemma RowEndsByItsFault(run: seq<State>, i: nat, o: nat)
    requires Run(run) && i < |run| && o in run[i].db.outbox
    ensures var row, endings := run[i].db.outbox[o], run[i].log.endings;
            && (Outbox.Terminal(row) <==> o in endings)
            && (row.status.Completed? <==> o in endings && endings[o] == None)
            && (row.status.Uncertain? <==> o in endings && endings[o] == Some(Ambiguous))
            && (row.status.Failed? <==> o in endings && (endings[o] == Some(Permanent) || endings[o] == Some(Transient)))
            && (o in endings && endings[o] == Some(Transient) ==> row.attempts >= row.maxAttempts)
  {
    RunKeepsEndings(run, i);
  }

  // ----- calls for a terminal row

  lemma ClaimSkipsTerminal(s: State, t: State, p: Slot, now: int, leaseMs: int, o: nat)
    requires PassStep(s, t, p, ClaimNext(now, leaseMs)) && o in s.db.outbox && Outbox.Terminal(s.db.outbox[o])
    ensures !MayCall(t.passes[p], o) && t.log.calls == s.log.calls
  {
  }

  /** Nobody gains the right to call for a terminal row, and whoever uses it loses it. */
  lemma PassCalls(s: State, t: State, p: Slot, a: PassAction, o: nat)
    requires PassStep(s, t, p, a) && o in s.db.outbox && Outbox.Terminal(s.db.outbox[o])
    ensures t.log.calls[o] + Bit(MayCall(t.passes[p], o)) <= s.log.calls[o] + Bit(MayCall(s.passes[p], o))
  {
    if a.ClaimNext? {
      ClaimSkipsTerminal(s, t, p, a.now, a.leaseMs, o);
    } else if !a.Scan? {
      PassShape(s, t, p, a);
      PassIsLocal(s.db, s.log, p, s.passes[p], a, PassTurn(s.db, s.log, p, s.passes[p], a));
    }
  }

  lemma NextCalls(s: State, t: State, o: nat)
    requires Next(s, t) && o in s.db.outbox && Outbox.Terminal(s.db.outbox[o])
    ensures t.log.calls[o] + |Callers(t.passes, o)| <= s.log.calls[o] + |Callers(s.passes, o)|
  {
    var step :| Apply(s, t, step);
    match step
    case PipeMove(w, a) => PipeLeavesOutbox(s, t, w, a);
    case Review(id, verdict, modified, q) => ReviewShape(s, t, id, verdict, modified, q);
    case SweepMove(r, a) => SweepShape(s, t, r, a);
    case PassMove(p, a) =>
      PassCalls(s, t, p, a, o);
      Recount(s.passes, p, t.passes[p], o);
  }

  /** Once a row is terminal, only passes that had claimed it before and not yet called can still call, once each. */
  lemma {:induction false} CallsAfterTheEnd(run: seq<State>, i: nat, j: nat, o: nat)
    requires Run(run) && i <= j < |run| && o in run[i].db.outbox && Outbox.Terminal(run[i].db.outbox[o])
    ensures run[j].log.calls[o] + |Callers(run[j].passes, o)| <= run[i].log.calls[o] + |Callers(run[i].passes, o)|
    decreases j
  {
    if i < j {
      CallsAfterTheEnd(run, i, j - 1, o);
      CallsStep(run, i, j - 1, o);
    }
  }

  lemma CallsStep(run: seq<State>, i: nat, j: nat, o: nat)
    requires Run(run) && i <= j < |run| - 1 && o in run[i].db.outbox && Outbox.Terminal(run[i].db.outbox[o])
    ensures run[j + 1].log.calls[o] + |Callers(run[j + 1].passes, o)| <= run[j].log.calls[o] + |Callers(run[j].passes, o)|
  {
    TerminalRowsAreFrozen(run, i, j, o);
    assert StepAt(run, j);
    NextCalls(run[j], run[j + 1], o);
  }

  // ----- and when such a call does follow

  lemma Join(run: seq<State>, path: seq<State>) returns (longer: seq<State>)
    requires Run(run) && Path(path) && path[0] == run[|run| - 1]
    ensures Run(longer) && |longer| >= |run| && longer[|run| - 1] == run[|run| - 1] && longer[|longer| - 1] == path[|path| - 1]
  {
    longer := run + path[1..];
    forall k | 0 <= k < |longer| - 1
      ensures StepAt(longer, k)
    {
      if k < |run| - 1 {
        assert StepAt(run, k);
      } else {
        assert StepAt(path, k - (|run| - 1));
      }
    }
  }

  /** How far a pass is from its call. */
  function Distance(stage: Stage): nat {
    match stage
    case Granted => 6
    case Recorded => 5
    case Leased => 4
    case Started => 3
    case Shown => 2
    case Ready => 1
    case _ => 0
  }

  /** The next step towards the call is always enabled. */
  lemma OneCloser(s: State, t: State, p: Slot, o: nat) returns (u: State)
    requires Reaches(s, t) && p in t.passes && StageOk(t.passes[p]) && MayCall(t.passes[p], o)
    requires t.passes[p].stage != Ready && (t.passes[p].stage.Granted? ==> AttemptsOk(t))
    ensures Reaches(s, u) && u.log.calls == t.log.calls && p in u.passes && MayCall(u.passes[p], o) && StageOk(u.passes[p])
    ensures u.passes[p].item == t.passes[p].item && Distance(u.passes[p].stage) == Distance(t.passes[p].stage) - 1
    ensures !u.passes[p].stage.Granted?
  {
    var pc := t.passes[p];
    match pc.stage {
      case Granted =>
        var att := FreshId(t.db.used);
        assert !Ledger.NumberTaken(t.db.attempts, pc.item.decisionId, pc.number);
        PassOne(s, t, p, RecordAttempt(att, 0));
        u := Moved(t, p, RecordAttempt(att, 0));
      case Recorded =>
        PassOne(s, t, p, LeaseLedger(0, 0));
        u := Moved(t, p, LeaseLedger(0, 0));
      case Leased =>
        PassOne(s, t, p, StartLedger);
        u := Moved(t, p, StartLedger);
      case Started =>
        PassOne(s, t, p, StartOutbox);
        u := Moved(t, p, StartOutbox);
      case Shown =>
        PassOne(s, t, p, StartDecision);
        u := Moved(t, p, StartDecision);
    }
  }

  lemma {:induction false} CallFollows(s: State, t: State, p: Slot, o: nat) returns (u: State)
    requires Reaches(s, t) && p in t.passes && StageOk(t.passes[p]) && MayCall(t.passes[p], o)
    requires (t.passes[p].stage.Granted? ==> AttemptsOk(t)) && !RequestOf(t.passes[p].item).Refused?
    ensures Reaches(s, u) && u.log.calls == t.log.calls + multiset{o}
    decreases Distance(t.passes[p].stage)
  {
    if t.passes[p].stage == Ready {
      PassOne(s, t, p, Dispatch(None));
      u := Moved(t, p, Dispatch(None));
    } else {
      var closer := OneCloser(s, t, p, o);
      u := CallFollows(s, closer, p, o);
    }
  }

  ghost predicate CalledAgain(s: State, o: nat) {
    exists t :: Reaches(s, t) && t.log.calls[o] > s.log.calls[o]
  }

  lemma CalledAgainNeedsCaller(run: seq<State>, o: nat)
    requires Run(run) && o in run[|run| - 1].db.outbox && Outbox.Terminal(run[|run| - 1].db.outbox[o])
    requires CalledAgain(run[|run| - 1], o)
    ensures Callers(run[|run| - 1].passes, o) != {} && !RequestOf(ItemOf(o, run[|run| - 1].db.outbox[o])).Refused?
  {
    var s := run[|run| - 1];
    var t :| Reaches(s, t) && t.log.calls[o] > s.log.calls[o];
    var path :| Leads(path, s, t);
    var longer := Join(run, path);
    CallsAfterTheEnd(longer, |run| - 1, |longer| - 1, o);
    TerminalRowsAreFrozen(longer, |run| - 1, |longer| - 1, o);
    RunKeepsSendings(longer, |longer| - 1);
    assert o in t.log.calls;
  }

  /**
    A terminal row is called for again in some continuation exactly when some pass had claimed it before its end and has
    yet to call, and its request is one that leaves: the fence stops the marks, not that call.
   */
  lemma CalledAgainExactlyWhen(run: seq<State>, o: nat)
    requires Run(run) && o in run[|run| - 1].db.outbox && Outbox.Terminal(run[|run| - 1].db.outbox[o])
    ensures CalledAgain(run[|run| - 1], o) <==>
              Callers(run[|run| - 1].passes, o) != {} && !RequestOf(ItemOf(o, run[|run| - 1].db.outbox[o])).Refused?
  {
    if CalledAgain(run[|run| - 1], o) {
      CalledAgainNeedsCaller(run, o);
    }
    if Callers(run[|run| - 1].passes, o) != {} && !RequestOf(ItemOf(o, run[|run| - 1].db.outbox[o])).Refused? {
      CallerIsEnough(run, o);
    }
  }

  lemma CallerIsEnough(run: seq<State>, o: nat)
    requires Run(run) && o in run[|run| - 1].db.outbox && Callers(run[|run| - 1].passes, o) != {}
    requires !RequestOf(ItemOf(o, run[|run| - 1].db.outbox[o])).Refused?
    ensures CalledAgain(run[|run| - 1], o)
  {
    var s := run[|run| - 1];
    var p :| p in Callers(s.passes, o);
    RunAttempts(run, |run| - 1);
    RunKeepsEndings(run, |run| - 1);
    CallerCalls(s, p, o);
  }

  lemma RunAttempts(run: seq<State>, i: nat)
    requires Run(run) && i < |run|
    ensures PassesOk(run[i]) && AttemptsOk(run[i])
  {
    RunKeepsInv(run, i);
  }

  lemma CallerCalls(s: State, p: Slot, o: nat)
    requires PassesOk(s) && AttemptsOk(s) && StagesOk(s) && p in s.passes && MayCall(s.passes[p], o)
    requires o in s.db.outbox && !RequestOf(ItemOf(o, s.db.outbox[o])).Refused?
    ensures CalledAgain(s, o)
  {
    assert PassOk(s, s.passes[p]);
    Stay(s);
    var u := CallFollows(s, s, p, o);
  }

  /** So a row that ended after an ambiguous call is never called for again, unless another pass already held a claim on it. */
  lemma UncertainIsNotSentAgain(run: seq<State>, i: nat, j: nat, o: nat)
    requires Run(run) && i <= j < |run| && o in run[i].db.outbox && o in run[i].log.endings && run[i].log.endings[o] == Some(Ambiguous)
    requires forall p | p in run[i].passes :: !MayCall(run[i].passes[p], o)
    ensures run[j].log.calls[o] <= run[i].log.calls[o] && o in run[j].db.outbox && run[j].db.outbox[o].status.Uncertain?
  {
    RowEndsByItsFault(run, i, o);
    CallsAfterTheEnd(run, i, j, o);
    TerminalRowsAreFrozen(run, i, j, o);
    assert Callers(run[i].passes, o) == {};
  }
}
