/**
  The durable execution protocol as one transition system over shared tables.

  Any number of pipeline runs, dispatcher passes and reconciler sweeps
  interleave, each holding a program counter and locals. Every SQL statement
  (and the operator's transaction) is one atomic step. Clock readings, leases,
  AI proposals, effect outcomes and error categories are parameters of the
  steps, so they are arbitrary. A crash, or an exception that leaves the run,
  drops the locals. No lock is assumed to be exclusive.
 */
module DurableState {
  import opened Basics
  import Gate = ExecutionGate
  import Outbox = OutboxRepository
  import Ledger = ExecutionAttemptRepository

  type Key = string

  /** One concurrent activity of the process `owner`; a process may overlap with itself. */
  datatype Slot = Slot(owner: string, index: nat)

  datatype Category = Permanent | Transient | Ambiguous

  datatype Job = Job(sessionId: string, key: Key)

  datatype Plan = Plan(action: Gate.Action, response: Option<string>, gate: Gate.Gate)

  /** A decision row; `gate` is a history column, the verdict that the row was inserted with. */
  datatype Decision = Decision(
    key: Key, sessionId: string, action: Gate.Action, response: Option<string>, gate: Gate.Gate, state: Gate.ExecutionState)

  datatype Verdict = Approved | Edited | Rejected | Cancelled

  datatype Approval = Approval(
    decisionId: nat, sessionId: string, action: Gate.Action, proposed: Option<string>,
    modified: Option<string>, verdict: Option<Verdict>)

  predicate Sanctioned(a: Approval) {
    a.verdict == Some(Approved) || a.verdict == Some(Edited)
  }

  /** The text the operator sanctioned. */
  function SanctionedText(a: Approval): string {
    if a.modified.Some? then a.modified.value else if a.proposed.Some? then a.proposed.value else ""
  }

  // ----- the pipeline: one call of processActivity

  datatype Pipe =
    | Idle
    | Begun(job: Job)
    | Unseen(job: Job)
    | Gated(job: Job, id: nat, plan: Plan)
    | Won(job: Job, id: nat, plan: Plan)
    | Numbered(job: Job, id: nat, plan: Plan, number: nat)
    | Attempting(job: Job, id: nat, plan: Plan, att: nat, progress: nat)
    | Posted(job: Job, id: nat, att: nat)
    | Settled(job: Job, id: nat, att: nat)
    | Closing(job: Job, id: nat, att: nat)
    | Failing(job: Job, id: nat, tried: Option<nat>, leased: bool, category: Category)
    | FailNoted(job: Job, id: nat)

  datatype PipeAction =
    | Begin(newJob: Job)
    | LookUp
    | Decide(inputs: Gate.Inputs, freshId: nat)
    | Insert
    | Queue(freshId: nat)
    | Finish
    | Number
    | CreateAttempt(freshId: nat, now: int, onClash: Category)
    | ClaimAttempt(now: int, leaseMs: int)
    | StartAttempt
    | Post(failure: Option<Category>)
    | Throw(thrown: Category)
    | Succeed
    | MarkExecuted
    | NoteFailure
    | FailDecision
    | Crash

  // ----- the dispatcher: one call of dispatchOnce

  datatype Item = Item(id: nat, sessionId: string, decisionId: nat, action: Gate.Action, payload: string)

  /** What leaves for Jules; Refused fails the client's validation before anything is fetched. */
  datatype Request = ApprovePlan(sessionId: string) | Message(sessionId: string, text: string) | Refused

  /** An approved plan is approved and everything else becomes a message: neither the action nor a plan's text is carried. */
  function RequestOf(item: Item): Request {
    if item.action.ApprovePlan? then ApprovePlan(item.sessionId)
    else if item.payload == "" then Refused
    else Message(item.sessionId, item.payload)
  }

  /** The pipeline's own request: a plan is approved without its text, anything else sends the response. */
  function PlanRequest(sessionId: string, plan: Plan): Request {
    if plan.action.ApprovePlan? then ApprovePlan(sessionId)
    else if plan.response.None? || plan.response.value == "" then Refused
    else Message(sessionId, plan.response.value)
  }

  /** One external call of the pipeline. */
  datatype Posting = Posting(decisionId: nat, request: Request)

  /** One external call of the dispatcher. */
  datatype Sending = Sending(item: Item, request: Request)

  datatype Result = Delivered | Uncertain | Final | Retry

  datatype Stage =
    | Granted | Recorded | Leased | Started | Shown | Ready
    | Caught(category: Category)
    | Settling(result: Result, done: nat, cause: Option<Category>)

  datatype Pass =
    | Resting
    | Working(todo: seq<Item>)
    | Holding(todo: seq<Item>, item: Item, token: nat, number: nat, max: nat, att: Option<nat>, stage: Stage)

  datatype PassAction =
    | Scan(now: int, found: seq<nat>)
    | ClaimNext(now: int, leaseMs: int)
    | RecordAttempt(freshId: nat, now: int)
    | LeaseLedger(now: int, leaseMs: int)
    | StartLedger
    | StartOutbox
    | StartDecision
    | Dispatch(failure: Option<Category>)
    | ThrowInTry(thrown: Category)
    | Classify
    | Settle
    | EndPass

  // ----- the reconciler: one call of reconcileOnce

  datatype Sweep =
    | Asleep
    | Sweeping(stale: seq<nat>)
    | Recovered(stale: seq<nat>, att: nat)

  datatype SweepAction =
    | FindStale(now: int, leaseMs: int, found: seq<nat>)
    | Recover(now: int, leaseMs: int)
    | Escalate
    | FailOrphan
    | EndSweep

  datatype Step =
    | PipeMove(w: Slot, pipe: PipeAction)
    | Review(approvalId: nat, verdict: Verdict, modified: Option<string>, freshId: nat)
    | PassMove(p: Slot, pass: PassAction)
    | SweepMove(r: Slot, sweep: SweepAction)

  /** The shared tables; `used` holds every identifier generated so far. */
  datatype Db = Db(
    used: set<nat>,
    decisions: map<nat, Decision>,
    approvals: map<nat, Approval>,
    outbox: Outbox.Table,
    attempts: Ledger.Table)

  /**
    History: `posts` and `calls` count external mutations by idempotency key and by outbox row, `posted` and `sent` keep
    every request of the pipeline and of the dispatcher, `grants` and `marks` count claims by (row, token) and successful
    terminal marks by row, `endings` keeps the fault behind a terminal mark, or none, `acks` holds the attempts that the
    pipeline marked after an acknowledged request and `faults` those under way when it noted a failure, `source` links an
    outbox row to its approval, `stranded` holds decisions whose run died before queueing the review, and `clash` records
    a unique-index violation.
   */
  datatype Log = Log(
    posts: multiset<Key>,
    posted: set<Posting>,
    acks: set<nat>,
    faults: map<nat, Category>,
    endings: map<nat, Option<Category>>,
    calls: multiset<nat>,
    sent: set<Sending>,
    grants: multiset<(nat, nat)>,
    marks: multiset<nat>,
    source: map<nat, nat>,
    stranded: set<nat>,
    clash: bool)

  datatype State = State(db: Db, log: Log, pipes: map<Slot, Pipe>, passes: map<Slot, Pass>, sweeps: map<Slot, Sweep>)

  /** What one step does: nothing when it is not enabled, else new tables, new history and a new local state. */
  datatype Turn<Pc> = Stuck | Turn(db: Db, log: Log, next: Pc)

  // ----- decision table

  ghost predicate KeyTaken(t: map<nat, Decision>, key: Key) {
    exists d :: d in t && t[d].key == key
  }

  /** INSERT ... ON CONFLICT DO NOTHING on the unique idempotency key. */
  ghost function InsertDecision(t: map<nat, Decision>, id: nat, row: Decision): map<nat, Decision> {
    if KeyTaken(t, row.key) then t else t[id := row]
  }

  /** The row that the insert returns: the new one, or the one that already has the key. */
  ghost function CanonicalId(t: map<nat, Decision>, id: nat, key: Key): nat {
    if KeyTaken(t, key) then
      var d :| d in t && t[d].key == key;
      d
    else id
  }

  function MarkDecision(t: map<nat, Decision>, id: nat, state: Gate.ExecutionState): map<nat, Decision> {
    if id in t then t[id := t[id].(state := state)] else t
  }

  // ----- pipeline steps

  predicate Mutates(a: Gate.Action) {
    a.ApprovePlan? || a.Respond? || a.RequestChanges?
  }

  predicate RunsAlone(plan: Plan) {
    !plan.gate.requiresHumanReview && plan.gate.autoExecuted && Gate.HasExecutablePayload(plan.action, plan.response)
  }

  function EffectStatus(c: Category): Ledger.Status {
    if c.Ambiguous? then Ledger.UnknownEffect else Ledger.Failed
  }

  /** Where an exception inside the execution block leads. */
  function Thrown(pc: Pipe, c: Category): Option<Pipe> {
    match pc
    case Numbered(job, id, _, _) => Some(Failing(job, id, None, false, c))
    case Attempting(job, id, _, att, progress) => Some(Failing(job, id, Some(att), progress > 0, c))
    case Posted(job, id, att) => Some(Failing(job, id, Some(att), true, c))
    case Settled(job, id, att) => Some(Failing(job, id, Some(att), true, c))
    case Closing(job, id, att) => Some(Failing(job, id, Some(att), true, c))
    case _ => None
  }

  ghost function PipeTurn(db: Db, log: Log, w: Slot, pc: Pipe, a: PipeAction): Turn<Pipe> {
    match a
    case Begin(job) =>
      if pc.Idle? then Turn(db, log, Begun(job)) else Stuck
    case LookUp =>
      if !pc.Begun? then Stuck
      else Turn(db, log, if KeyTaken(db.decisions, pc.job.key) then Idle else Unseen(pc.job))
    case Decide(inputs, id) =>
      if !pc.Unseen? || id in db.used then Stuck
      else
        var plan := Plan(inputs.action, inputs.response, Gate.Chain(inputs));
        Turn(db.(used := db.used + {id}), log, Gated(pc.job, id, plan))
    case Insert =>
      if !pc.Gated? then Stuck
      else
        var row := Decision(
          pc.job.key, pc.job.sessionId, pc.plan.action, pc.plan.response, pc.plan.gate, Gate.InitialState(pc.plan.gate));
        var mine := CanonicalId(db.decisions, pc.id, pc.job.key) == pc.id;
        Turn(db.(decisions := InsertDecision(db.decisions, pc.id, row)), log,
             if mine then Won(pc.job, pc.id, pc.plan) else Idle)
    case Queue(id) =>
      if !pc.Won? || !pc.plan.gate.requiresHumanReview || id in db.used then Stuck
      else
        var row := Approval(pc.id, pc.job.sessionId, pc.plan.action, pc.plan.response, None, None);
        Turn(db.(used := db.used + {id}, approvals := db.approvals[id := row]), log, Idle)
    case Finish =>
      if pc.Won? && !pc.plan.gate.requiresHumanReview && !RunsAlone(pc.plan) then Turn(db, log, Idle)
      else if pc.Closing? then Turn(db, log, Idle)
      else Stuck
    case Number =>
      if !pc.Won? || !RunsAlone(pc.plan) then Stuck
      else Turn(db, log, Numbered(pc.job, pc.id, pc.plan, |Ledger.ForDecision(db.attempts, pc.id)| + 1))
    case CreateAttempt(att, now, onClash) =>
      if !pc.Numbered? || att in db.used then Stuck
      else if Ledger.NumberTaken(db.attempts, pc.id, pc.number) then
        Turn(db.(used := db.used + {att}), log.(clash := true), Failing(pc.job, pc.id, Some(att), false, onClash))
      else
        Turn(db.(used := db.used + {att}, attempts := db.attempts[att := Ledger.NewRow(pc.id, pc.number, now)]), log,
             Attempting(pc.job, pc.id, pc.plan, att, 0))
    case ClaimAttempt(now, leaseMs) =>
      if !pc.Attempting? || pc.progress != 0 then Stuck
      else Turn(db.(attempts := Ledger.ClaimPending(db.attempts, pc.att, w.owner, now, leaseMs)), log, pc.(progress := 1))
    case StartAttempt =>
      if !pc.Attempting? || pc.progress != 1 then Stuck
      else Turn(db.(attempts := Ledger.StartExecuting(db.attempts, pc.att, w.owner, None)), log, pc.(progress := 2))
    case Post(failure) =>
      if !pc.Attempting? || pc.progress != 2 then Stuck
      else
        var next := if failure.Some? then Failing(pc.job, pc.id, Some(pc.att), true, failure.value)
                    else Posted(pc.job, pc.id, pc.att);
        Turn(db,
             if Mutates(pc.plan.action)
             then log.(posts := log.posts + multiset{pc.job.key},
                       posted := log.posted + {Posting(pc.id, PlanRequest(pc.job.sessionId, pc.plan))})
             else log,
             next)
    case Throw(c) =>
      var next := Thrown(pc, c);
      if next.Some? then Turn(db, log, next.value) else Stuck
    case Succeed =>
      if !pc.Posted? then Stuck
      else Turn(db.(attempts := Ledger.Resolve(db.attempts, pc.att, None, None, Ledger.Succeeded)),
                log.(acks := log.acks + {pc.att}), Settled(pc.job, pc.id, pc.att))
    case MarkExecuted =>
      if !pc.Settled? then Stuck
      else Turn(db.(decisions := MarkDecision(db.decisions, pc.id, Gate.Executed)), log, Closing(pc.job, pc.id, pc.att))
    case NoteFailure =>
      if !pc.Failing? then Stuck
      else
        var noted := if pc.tried.Some?
                     then Ledger.Resolve(db.attempts, pc.tried.value, None, None, EffectStatus(pc.category))
                     else db.attempts;
        Turn(db.(attempts := noted),
             if pc.tried.Some? && pc.leased then log.(faults := log.faults[pc.tried.value := pc.category]) else log,
             FailNoted(pc.job, pc.id))
    case FailDecision =>
      if !pc.FailNoted? then Stuck
      else Turn(db.(decisions := MarkDecision(db.decisions, pc.id, Gate.ExecutionFailed)), log, Idle)
    case Crash =>
      Turn(db, if pc.Won? && pc.plan.gate.requiresHumanReview then log.(stranded := log.stranded + {pc.id}) else log, Idle)
  }

  // ----- the operator's transaction

  ghost function ReviewTurn(db: Db, log: Log, id: nat, verdict: Verdict, modified: Option<string>, outboxId: nat): Turn<()> {
    if id !in db.approvals || db.approvals[id].verdict.Some? then Stuck
    else
      var a := db.approvals[id].(verdict := Some(verdict), modified := modified);
      var approvals := db.approvals[id := a];
      if !Sanctioned(a) then
        Turn(db.(approvals := approvals, decisions := MarkDecision(db.decisions, a.decisionId, Gate.Blocked)), log, ())
      else if outboxId in db.used then Stuck
      else
        var row := Outbox.NewRow(a.sessionId, a.decisionId, a.action, SanctionedText(a), None);
        Turn(db.(approvals := approvals,
                 decisions := MarkDecision(db.decisions, a.decisionId, Gate.DispatchRequested),
                 used := db.used + {outboxId},
                 outbox := db.outbox[outboxId := row]),
             log.(source := log.source[outboxId := id]), ())
  }

  // ----- dispatcher steps

  function ItemOf(id: nat, row: Outbox.Row): Item {
    Item(id, row.sessionId, row.decisionId, row.action, row.payload)
  }

  function Items(t: Outbox.Table, found: seq<nat>): (items: seq<Item>)
    requires forall id | id in found :: id in t
    ensures |items| == |found|
    ensures forall i | 0 <= i < |found| :: items[i] == ItemOf(found[i], t[found[i]])
  {
    if found == [] then [] else [ItemOf(found[0], t[found[0]])] + Items(t, found[1..])
  }

  function ResultOf(c: Category, number: nat, max: nat): Result {
    if c.Ambiguous? then Uncertain
    else if number >= max || c.Permanent? then Final
    else Retry
  }

  function LedgerStatus(r: Result): Ledger.Status {
    match r
    case Delivered => Ledger.Succeeded
    case Uncertain => Ledger.UnknownEffect
    case Final => Ledger.Failed
    case Retry => Ledger.Failed
  }

  function OutboxStatus(r: Result): Outbox.Status {
    match r
    case Delivered => Outbox.Completed
    case Uncertain => Outbox.Uncertain
    case _ => Outbox.Failed
  }

  function DecisionState(r: Result): Gate.ExecutionState {
    match r
    case Delivered => Gate.Executed
    case Uncertain => Gate.UnknownEffect
    case _ => Gate.ExecutionFailed
  }

  /** One statement of the settling sequence: ledger, outbox, decision, session. */
  function SettleTurn(db: Db, log: Log, p: Slot, pc: Pass): Turn<Pass>
    requires pc.Holding? && pc.stage.Settling?
  {
    var r := pc.stage.result;
    var on := pc.(stage := Settling(r, pc.stage.done + 1, pc.stage.cause));
    var off := Working(pc.todo);
    if pc.att.None? then Stuck
    else if pc.stage.done == 0 then
      Turn(db.(attempts := Ledger.Resolve(db.attempts, pc.att.value, Some(p.owner), Some(pc.token), LedgerStatus(r))), log,
           if r.Retry? then off else on)
    else if pc.stage.done == 1 then
      var (t, ok) := Outbox.Resolve(db.outbox, pc.item.id, p.owner, pc.token, OutboxStatus(r), None);
      Turn(db.(outbox := t),
           if ok then log.(marks := log.marks + multiset{pc.item.id}, endings := log.endings[pc.item.id := pc.stage.cause]) else log,
           on)
    else if pc.stage.done == 2 then
      Turn(db.(decisions := MarkDecision(db.decisions, pc.item.decisionId, DecisionState(r))), log,
           if r.Delivered? then on else off)
    else Turn(db, log, off)
  }

  ghost function PassTurn(db: Db, log: Log, p: Slot, pc: Pass, a: PassAction): Turn<Pass> {
    match a
    case Scan(now, found) =>
      if !pc.Resting? || |found| > 10 || !Distinct(found) then Stuck
      else if forall id | id in found :: id in db.outbox && Outbox.Scannable(db.outbox[id], now) then
        Turn(db, log, Working(Items(db.outbox, found)))
      else Stuck
    case ClaimNext(now, leaseMs) =>
      if !pc.Working? || pc.todo == [] then Stuck
      else
        var item := pc.todo[0];
        var (t, claimed) := Outbox.Claim(db.outbox, item.id, p.owner, now, leaseMs);
        if claimed.None? then Turn(db, log, Working(pc.todo[1..]))
        else
          var row := claimed.value;
          Turn(db.(outbox := t), log.(grants := log.grants + multiset{(item.id, row.fencingToken)}),
               Holding(pc.todo[1..], item, row.fencingToken, row.attempts, row.maxAttempts, None, Granted))
    case RecordAttempt(att, now) =>
      if !pc.Holding? || !pc.stage.Granted? || att in db.used then Stuck
      else if Ledger.NumberTaken(db.attempts, pc.item.decisionId, pc.number) then
        Turn(db.(used := db.used + {att}), log.(clash := true), Resting)
      else
        Turn(db.(used := db.used + {att},
                 attempts := db.attempts[att := Ledger.NewRow(pc.item.decisionId, pc.number, now)]), log,
             pc.(att := Some(att), stage := Recorded))
    case LeaseLedger(now, leaseMs) =>
      if !pc.Holding? || !pc.stage.Recorded? || pc.att.None? then Stuck
      else Turn(db.(attempts := Ledger.ClaimPending(db.attempts, pc.att.value, p.owner, now, leaseMs)), log, pc.(stage := Leased))
    case StartLedger =>
      if !pc.Holding? || !pc.stage.Leased? || pc.att.None? then Stuck
      else Turn(db.(attempts := Ledger.StartExecuting(db.attempts, pc.att.value, p.owner, Some(pc.token))), log, pc.(stage := Started))
    case StartOutbox =>
      if !pc.Holding? || !pc.stage.Started? then Stuck
      else Turn(db.(outbox := Outbox.StartExecuting(db.outbox, pc.item.id, p.owner, pc.token).0), log, pc.(stage := Shown))
    case StartDecision =>
      if !pc.Holding? || !pc.stage.Shown? then Stuck
      else Turn(db.(decisions := MarkDecision(db.decisions, pc.item.decisionId, Gate.Executing)), log, pc.(stage := Ready))
    case Dispatch(failure) =>
      if !pc.Holding? || !pc.stage.Ready? || RequestOf(pc.item).Refused? then Stuck
      else
        var next := if failure.Some? then Caught(failure.value) else Settling(Delivered, 0, None);
        Turn(db, log.(calls := log.calls + multiset{pc.item.id}, sent := log.sent + {Sending(pc.item, RequestOf(pc.item))}),
             pc.(stage := next))
    case ThrowInTry(c) =>
      if pc.Holding? && (pc.stage.Ready? || (pc.stage.Settling? && pc.stage.result.Delivered?))
      then Turn(db, log, pc.(stage := Caught(c)))
      else Stuck
    case Classify =>
      if !pc.Holding? || !pc.stage.Caught? then Stuck
      else Turn(db, log, pc.(stage := Settling(ResultOf(pc.stage.category, pc.number, pc.max), 0, Some(pc.stage.category))))
    case Settle =>
      if !pc.Holding? || !pc.stage.Settling? then Stuck else SettleTurn(db, log, p, pc)
    case EndPass =>
      Turn(db, log, Resting)
  }

  // ----- reconciler steps

  ghost function SweepTurn(db: Db, log: Log, r: Slot, pc: Sweep, a: SweepAction): Turn<Sweep> {
    match a
    case FindStale(now, leaseMs, found) =>
      if pc.Asleep? && forall id | id in found :: id in db.attempts && Ledger.Stale(db.attempts[id], now, leaseMs)
      then Turn(db, log, Sweeping(found))
      else Stuck
    case Recover(now, leaseMs) =>
      if !pc.Sweeping? || pc.stale == [] then Stuck
      else
        var (t, ok) := Ledger.RecoverStale(db.attempts, pc.stale[0], r.owner, now, leaseMs);
        Turn(db.(attempts := t), log, if ok then Recovered(pc.stale[1..], pc.stale[0]) else Sweeping(pc.stale[1..]))
    case Escalate =>
      if !pc.Recovered? then Stuck
      else Turn(db.(attempts := Ledger.MarkNeedsReconciliation(db.attempts, pc.att)), log, Sweeping(pc.stale))
    case FailOrphan =>
      if !pc.Recovered? || pc.att !in db.attempts || db.attempts[pc.att].decisionId in db.decisions then Stuck
      else Turn(db.(attempts := Ledger.Resolve(db.attempts, pc.att, None, None, Ledger.Failed)), log, Sweeping(pc.stale))
    case EndSweep =>
      Turn(db, log, Asleep)
  }

  // ----- runs

  ghost predicate PipeStep(s: State, t: State, w: Slot, a: PipeAction) {
    w in s.pipes &&
    var turn := PipeTurn(s.db, s.log, w, s.pipes[w], a);
    turn.Turn? && t == s.(db := turn.db, log := turn.log, pipes := s.pipes[w := turn.next])
  }

  ghost predicate ReviewStep(s: State, t: State, id: nat, verdict: Verdict, modified: Option<string>, outboxId: nat) {
    var turn := ReviewTurn(s.db, s.log, id, verdict, modified, outboxId);
    turn.Turn? && t == s.(db := turn.db, log := turn.log)
  }

  ghost predicate PassStep(s: State, t: State, p: Slot, a: PassAction) {
    p in s.passes &&
    var turn := PassTurn(s.db, s.log, p, s.passes[p], a);
    turn.Turn? && t == s.(db := turn.db, log := turn.log, passes := s.passes[p := turn.next])
  }

  ghost predicate SweepStep(s: State, t: State, r: Slot, a: SweepAction) {
    r in s.sweeps &&
    var turn := SweepTurn(s.db, s.log, r, s.sweeps[r], a);
    turn.Turn? && t == s.(db := turn.db, log := turn.log, sweeps := s.sweeps[r := turn.next])
  }

  ghost predicate Apply(s: State, t: State, step: Step) {
    match step
    case PipeMove(w, a) => PipeStep(s, t, w, a)
    case Review(id, verdict, modified, outboxId) => ReviewStep(s, t, id, verdict, modified, outboxId)
    case PassMove(p, a) => PassStep(s, t, p, a)
    case SweepMove(r, a) => SweepStep(s, t, r, a)
  }

  ghost predicate Next(s: State, t: State) {
    exists step :: Apply(s, t, step)
  }

  const EMPTY_DB := Db({}, map[], map[], map[], map[])

  const EMPTY_LOG := Log(multiset{}, {}, {}, map[], map[], multiset{}, {}, multiset{}, multiset{}, map[], {}, false)

  /** Empty tables and everything at rest, with any number of slots of each kind. */
  ghost predicate Init(s: State) {
    && s.db == EMPTY_DB && s.log == EMPTY_LOG
    && (forall w | w in s.pipes :: s.pipes[w].Idle?)
    && (forall p | p in s.passes :: s.passes[p].Resting?)
    && (forall r | r in s.sweeps :: s.sweeps[r].Asleep?)
  }

  ghost predicate StepAt(run: seq<State>, i: nat)
    requires i + 1 < |run|
  {
    Next(run[i], run[i + 1])
  }

  ghost predicate Run(run: seq<State>) {
    && |run| > 0 && Init(run[0])
    && forall i | 0 <= i < |run| - 1 :: StepAt(run, i)
  }
}
