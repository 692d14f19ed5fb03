/** Runs that exist: the bounds and the exceptions of the durable protocol are all reached. */
module DurableScenarios {
  import opened Basics
  import Gate = ExecutionGate
  import Outbox = OutboxRepository
  import Ledger = ExecutionAttemptRepository
  import opened DurableState
  import opened DurableInvariants
  import opened DurableTheorems
  import opened DurableSendings

  ghost predicate Path(run: seq<State>) {
    |run| > 0 && forall i | 0 <= i < |run| - 1 :: StepAt(run, i)
  }

  ghost predicate Leads(run: seq<State>, s: State, t: State) {
    Path(run) && run[0] == s && run[|run| - 1] == t
  }

  ghost predicate Reaches(s: State, t: State) {
    exists run :: Leads(run, s, t)
  }

  lemma Stay(s: State)
    ensures Reaches(s, s)
  {
    assert Leads([s], s, s);
  }

  lemma Extend(s: State, t: State, u: State, step: Step)
    requires Reaches(s, t) && Apply(t, u, step)
    ensures Reaches(s, u)
  {
    var run :| Leads(run, s, t);
    var longer := run + [u];
    forall i | 0 <= i < |longer| - 1
      ensures StepAt(longer, i)
    {
      assert i < |run| - 1 ==> StepAt(run, i);
    }
    assert Leads(longer, s, u);
  }

  /** A pass's move, when it is enabled. */
  ghost function Moved(t: State, p: Slot, a: PassAction): State
    requires p in t.passes && PassTurn(t.db, t.log, p, t.passes[p], a).Turn?
  {
    var turn := PassTurn(t.db, t.log, p, t.passes[p], a);
    t.(db := turn.db, log := turn.log, passes := t.passes[p := turn.next])
  }

  lemma PassOne(s: State, t: State, p: Slot, a: PassAction)
    requires Reaches(s, t) && p in t.passes && PassTurn(t.db, t.log, p, t.passes[p], a).Turn?
    ensures Reaches(s, Moved(t, p, a))
  {
    Extend(s, t, Moved(t, p, a), PassMove(p, a));
  }

  // ----- one decision under review

  /** A rule asks for a human, whatever the action. */
  function ReviewInputs(action: Gate.Action, response: Option<string>): Gate.Inputs {
    Gate.Inputs(action, response, Gate.Low, 1.0, Gate.Low, [Gate.RuleEvaluation(false, Some(Gate.RequireHuman), "")],
                Gate.Options(Gate.Assisted, false, false, 0.85), false)
  }

  function PlanFor(action: Gate.Action, response: Option<string>): Plan {
    Plan(action, response, Gate.Chain(ReviewInputs(action, response)))
  }

  lemma PlanIsReviewed(action: Gate.Action, response: Option<string>)
    ensures var gate := PlanFor(action, response).gate;
            gate.requiresHumanReview && !gate.autoExecuted && Gate.InitialState(gate) == Gate.AwaitingApproval
  {
    var i := ReviewInputs(action, response);
    assert Gate.FailsWith(i.rules[0], Gate.RequireHuman);
    assert !Gate.PolicyVerdict(i.rules, i.risk).isHardBlocked && Gate.PolicyVerdict(i.rules, i.risk).requiresHumanReview;
  }

  function ReviewRow(a: Approval): Decision {
    Decision("key", a.sessionId, a.action, a.proposed, PlanFor(a.action, a.proposed).gate, Gate.AwaitingApproval)
  }

  /** A run that has inserted the decision for review and not yet queued it. */
  lemma HeldReview(s: State, w: Slot, a: Approval) returns (t: State)
    requires Init(s) && w in s.pipes
    ensures Reaches(s, t) && t.passes == s.passes && t.log == EMPTY_LOG
    ensures t.pipes == s.pipes[w := Won(Job(a.sessionId, "key"), a.decisionId, PlanFor(a.action, a.proposed))]
    ensures t.db == EMPTY_DB.(used := {a.decisionId}, decisions := map[a.decisionId := ReviewRow(a)])
  {
    var job, d, plan := Job(a.sessionId, "key"), a.decisionId, PlanFor(a.action, a.proposed);
    PlanIsReviewed(a.action, a.proposed);
    Stay(s);
    var s1 := s.(pipes := s.pipes[w := Begun(job)]);
    Extend(s, s, s1, PipeMove(w, Begin(job)));
    var s2 := s1.(pipes := s1.pipes[w := Unseen(job)]);
    Extend(s, s1, s2, PipeMove(w, LookUp));
    var s3 := s2.(pipes := s2.pipes[w := Gated(job, d, plan)], db := s2.db.(used := {d}));
    assert s2.db.used + {d} == {d};
    Extend(s, s2, s3, PipeMove(w, Decide(ReviewInputs(a.action, a.proposed), d)));
    t := s3.(pipes := s3.pipes[w := Won(job, d, plan)], db := s3.db.(decisions := map[d := ReviewRow(a)]));
    assert !KeyTaken(s3.db.decisions, "key");
    assert s3.db.decisions[d := ReviewRow(a)] == map[d := ReviewRow(a)];
    Extend(s, s3, t, PipeMove(w, Insert));
    assert t.pipes == s.pipes[w := Won(job, d, plan)];
  }

  /** A crash between the decision insert and the approval insert is reachable: the review is stranded. */
  lemma ReviewCanBeStranded(s: State, w: Slot, a: Approval)
    requires Init(s) && w in s.pipes
    ensures exists t :: Reaches(s, t) && a.decisionId in t.log.stranded && t.db.decisions == map[a.decisionId := ReviewRow(a)]
              && t.db.approvals == map[]
  {
    var held := HeldReview(s, w, a);
    PlanIsReviewed(a.action, a.proposed);
    var t := held.(pipes := held.pipes[w := Idle], log := held.log.(stranded := held.log.stranded + {a.decisionId}));
    Extend(s, held, t, PipeMove(w, Crash));
  }

  // ----- a sanctioned row

  predicate Open(row: Outbox.Row) {
    row.status.Pending? || (Outbox.InFlight(row) && row.claimExpiry.Some?)
  }

  /** A clock reading at which an open row's lease has run out. */
  function Late(row: Outbox.Row): int {
    if row.claimExpiry.Some? then row.claimExpiry.value + 1 else 0
  }

  ghost predicate NumbersUpTo(t: Ledger.Table, n: int) {
    forall x | x in t :: t[x].attemptNumber <= n
  }

  /** No pass is active, and the row can still be claimed some time. */
  ghost predicate Calm(s: State, o: nat, attempts: nat) {
    && (forall p | p in s.passes :: s.passes[p].Resting?)
    && o in s.db.outbox && s.db.outbox[o].attempts == attempts && s.db.outbox[o].maxAttempts == 3
    && Open(s.db.outbox[o]) && NumbersUpTo(s.db.attempts, attempts)
  }

  function OutboxId(a: Approval): nat {
    a.decisionId + 2
  }

  /** The approval is in place, and so is its row, with nothing sent for it yet. */
  ghost predicate InPlace(t: State, a: Approval) {
    && t.db.approvals == map[a.decisionId + 1 := a] && t.db.decisions.Keys == {a.decisionId}
    && t.db.outbox == map[OutboxId(a) := Outbox.NewRow(a.sessionId, a.decisionId, a.action, SanctionedText(a), None)]
    && t.db.attempts == map[] && t.log.calls == multiset{} && t.log.sent == {}
  }

  function Pending(a: Approval): Approval {
    a.(verdict := None, modified := None)
  }

  lemma QueuedReview(s: State, w: Slot, a: Approval) returns (t: State)
    requires Init(s) && w in s.pipes
    ensures Reaches(s, t) && t.passes == s.passes && t.log == EMPTY_LOG
    ensures t.db.used == {a.decisionId, a.decisionId + 1} && t.db.decisions.Keys == {a.decisionId}
    ensures t.db.approvals == map[a.decisionId + 1 := Pending(a)] && t.db.outbox == map[] && t.db.attempts == map[]
  {
    var held := HeldReview(s, w, a);
    PlanIsReviewed(a.action, a.proposed);
    var d := a.decisionId;
    t := held.(pipes := held.pipes[w := Idle],
               db := held.db.(used := held.db.used + {d + 1}, approvals := held.db.approvals[d + 1 := Pending(a)]));
    Extend(s, held, t, PipeMove(w, Queue(d + 1)));
  }

  lemma SanctionedRow(s: State, w: Slot, a: Approval) returns (t: State)
    requires Init(s) && w in s.pipes && Sanctioned(a)
    ensures Reaches(s, t) && Calm(t, OutboxId(a), 0) && t.passes == s.passes && InPlace(t, a)
  {
    var d := a.decisionId;
    var queued := QueuedReview(s, w, a);
    var row := Outbox.NewRow(a.sessionId, d, a.action, SanctionedText(a), None);
    t := queued.(
      db := queued.db.(approvals := queued.db.approvals[d + 1 := a],
                       decisions := MarkDecision(queued.db.decisions, d, Gate.DispatchRequested),
                       used := queued.db.used + {d + 2}, outbox := queued.db.outbox[d + 2 := row]),
      log := queued.log.(source := queued.log.source[d + 2 := d + 1]));
    Extend(s, queued, t, Review(d + 1, a.verdict.value, a.modified, d + 2));
    assert t.db.approvals == map[d + 1 := a] && t.db.outbox == map[d + 2 := row];
  }

  // ----- one pass and one row

  function Scanned(s: State, p: Slot, o: nat): State
    requires o in s.db.outbox
  {
    s.(passes := s.passes[p := Working([ItemOf(o, s.db.outbox[o])])])
  }

  lemma ScanOne(s: State, t: State, p: Slot, o: nat)
    requires Reaches(s, t) && p in t.passes && t.passes[p].Resting? && o in t.db.outbox && Open(t.db.outbox[o])
    requires t.db.outbox[o].attempts < t.db.outbox[o].maxAttempts
    ensures Reaches(s, Scanned(t, p, o))
  {
    var now := Late(t.db.outbox[o]);
    assert Items(t.db.outbox, [o]) == [ItemOf(o, t.db.outbox[o])];
    Extend(s, t, Scanned(t, p, o), PassMove(p, Scan(now, [o])));
  }

  /** Claims by a pass that holds exactly this row; the limit is not looked at. */
  function Claimed(t: State, p: Slot, o: nat): State
    requires p in t.passes && o in t.db.outbox && t.passes[p].Working? && |t.passes[p].todo| == 1
  {
    var row := Outbox.ClaimedRow(t.db.outbox[o], p.owner, Late(t.db.outbox[o]), 0);
    t.(db := t.db.(outbox := t.db.outbox[o := row]), log := t.log.(grants := t.log.grants + multiset{(o, row.fencingToken)}),
       passes := t.passes[p := Holding([], t.passes[p].todo[0], row.fencingToken, row.attempts, row.maxAttempts, None, Granted)])
  }

  lemma ClaimOne(s: State, t: State, p: Slot, o: nat)
    requires Reaches(s, t) && p in t.passes && o in t.db.outbox && Open(t.db.outbox[o])
    requires t.passes[p].Working? && |t.passes[p].todo| == 1 && t.passes[p].todo[0].id == o
    ensures Reaches(s, Claimed(t, p, o))
  {
    assert t.passes[p].todo[1..] == [];
    Extend(s, t, Claimed(t, p, o), PassMove(p, ClaimNext(Late(t.db.outbox[o]), 0)));
  }

  /** One pass scans and claims. */
  lemma TakeOne(s: State, t: State, p: Slot, o: nat, attempts: nat) returns (u: State)
    requires Reaches(s, t) && Calm(t, o, attempts) && p in t.passes && attempts < 3
    ensures Reaches(s, u) && u == Claimed(Scanned(t, p, o), p, o)
  {
    ScanOne(s, t, p, o);
    ClaimOne(s, Scanned(t, p, o), p, o);
    u := Claimed(Scanned(t, p, o), p, o);
  }

  /** One pass scans, claims and dies. */
  lemma SpendOne(s: State, t: State, p: Slot, o: nat, attempts: nat) returns (u: State)
    requires Reaches(s, t) && Calm(t, o, attempts) && p in t.passes && attempts < 3
    ensures Reaches(s, u) && Calm(u, o, attempts + 1) && u.passes.Keys == t.passes.Keys
  {
    var claimed := TakeOne(s, t, p, o, attempts);
    u := claimed.(passes := claimed.passes[p := Resting]);
    Extend(s, claimed, u, PassMove(p, EndPass));
  }

  // ----- a dispatch

  lemma {:induction false} FreshId(used: set<nat>) returns (id: nat)
    ensures id !in used && forall x | x in used :: x < id
  {
    if used == {} {
      id := 0;
    } else {
      var x :| x in used;
      var y := FreshId(used - {x});
      id := x + y + 1;
      forall z | z in used
        ensures z < id
      {
        assert z == x || z in used - {x};
      }
    }
  }

  /** The pass has claimed the row, and the row is still its own. */
  ghost predicate HoldsRow(t: State, p: Slot, o: nat, stage: Stage) {
    && p in t.passes && t.passes[p].Holding? && t.passes[p].todo == [] && t.passes[p].stage == stage
    && o in t.db.outbox && t.passes[p].item == ItemOf(o, t.db.outbox[o])
    && Outbox.HeldUnder(t.db.outbox[o], p.owner, t.passes[p].token) && t.db.outbox[o].claimExpiry.Some?
    && (stage.Granted? <==> t.passes[p].att.None?)
  }

  lemma TakenIsOwned(t: State, p: Slot, o: nat, attempts: nat)
    requires Calm(t, o, attempts) && p in t.passes && attempts < 3
    ensures var u := Claimed(Scanned(t, p, o), p, o);
            HoldsRow(u, p, o, Granted) && u.passes[p].number == attempts + 1 && u.db.outbox[o].status.Claimed?
  {
  }

  /** Only the ledger and the pass's own place change while the attempt is recorded, leased and started. */
  ghost predicate Aside(t: State, u: State, p: Slot) {
    && p in t.passes && p in u.passes && u == t.(db := t.db.(used := u.db.used, attempts := u.db.attempts), passes := u.passes)
    && u.passes == t.passes[p := u.passes[p]]
    && t.passes[p].Holding? && u.passes[p].Holding?
    && u.passes[p] == t.passes[p].(att := u.passes[p].att, stage := u.passes[p].stage)
  }

  lemma Record(s: State, t: State, p: Slot, o: nat) returns (u: State)
    requires Reaches(s, t) && HoldsRow(t, p, o, Granted) && NumbersUpTo(t.db.attempts, t.passes[p].number - 1)
    ensures Reaches(s, u) && HoldsRow(u, p, o, Recorded) && Aside(t, u, p) && NumbersUpTo(u.db.attempts, t.passes[p].number)
  {
    var att := FreshId(t.db.used);
    assert !Ledger.NumberTaken(t.db.attempts, t.passes[p].item.decisionId, t.passes[p].number);
    PassOne(s, t, p, RecordAttempt(att, 0));
    u := Moved(t, p, RecordAttempt(att, 0));
  }

  lemma Lease(s: State, t: State, p: Slot, o: nat) returns (u: State)
    requires Reaches(s, t) && HoldsRow(t, p, o, Recorded) && NumbersUpTo(t.db.attempts, t.passes[p].number)
    ensures Reaches(s, u) && HoldsRow(u, p, o, Started) && Aside(t, u, p) && NumbersUpTo(u.db.attempts, t.passes[p].number)
  {
    PassOne(s, t, p, LeaseLedger(0, 0));
    var leased := Moved(t, p, LeaseLedger(0, 0));
    PassOne(s, leased, p, StartLedger);
    u := Moved(leased, p, StartLedger);
  }

  /** The row and the decision are marked, and the request leaves. */
  lemma Deliver(s: State, t: State, p: Slot, o: nat) returns (u: State)
    requires Reaches(s, t) && HoldsRow(t, p, o, Started) && t.db.outbox[o].status.Claimed? && !RequestOf(t.passes[p].item).Refused?
    ensures Reaches(s, u) && HoldsRow(u, p, o, Settling(Delivered, 0, None))
    ensures u.passes == t.passes[p := t.passes[p].(stage := Settling(Delivered, 0, None))]
    ensures u.db == t.db.(outbox := t.db.outbox[o := t.db.outbox[o].(status := Outbox.Executing)], decisions := u.db.decisions)
    ensures u.db.decisions.Keys == t.db.decisions.Keys
    ensures u.log == t.log.(calls := t.log.calls + multiset{o},
                            sent := t.log.sent + {Sending(t.passes[p].item, RequestOf(t.passes[p].item))})
  {
    PassOne(s, t, p, StartOutbox);
    var shown := Moved(t, p, StartOutbox);
    PassOne(s, shown, p, StartDecision);
    var ready := Moved(shown, p, StartDecision);
    PassOne(s, ready, p, Dispatch(None));
    u := Moved(ready, p, Dispatch(None));
  }

  lemma DispatchOne(s: State, t: State, p: Slot, o: nat, attempts: nat) returns (u: State)
    requires Reaches(s, t) && Calm(t, o, attempts) && p in t.passes && attempts < 3
    requires !RequestOf(ItemOf(o, t.db.outbox[o])).Refused?
    ensures Reaches(s, u) && HoldsRow(u, p, o, Settling(Delivered, 0, None)) && u.passes.Keys == t.passes.Keys
    ensures forall q | q in u.passes && q != p :: u.passes[q].Resting?
    ensures u.db.outbox[o].attempts == attempts + 1 && u.db.outbox[o].maxAttempts == 3 && NumbersUpTo(u.db.attempts, attempts + 1)
    ensures ItemOf(o, u.db.outbox[o]) == ItemOf(o, t.db.outbox[o]) && u.db.approvals == t.db.approvals
    ensures u.db.decisions.Keys == t.db.decisions.Keys && u.log.calls == t.log.calls + multiset{o}
    ensures u.log.sent == t.log.sent + {Sending(ItemOf(o, t.db.outbox[o]), RequestOf(ItemOf(o, t.db.outbox[o])))}
  {
    var taken := TakeOne(s, t, p, o, attempts);
    TakenIsOwned(t, p, o, attempts);
    var recorded := Record(s, taken, p, o);
    var started := Lease(s, recorded, p, o);
    u := Deliver(s, started, p, o);
  }

  /** The three marks that follow an acknowledged request. */
  lemma MarkDelivered(s: State, t: State, p: Slot, o: nat) returns (u: State)
    requires Reaches(s, t) && HoldsRow(t, p, o, Settling(Delivered, 0, None)) && t.db.outbox[o].decisionId in t.db.decisions
    ensures Reaches(s, u) && u.db.approvals == t.db.approvals && u.log.sent == t.log.sent
    ensures o in u.db.outbox && u.db.outbox[o].status.Completed?
    ensures t.db.outbox[o].decisionId in u.db.decisions && u.db.decisions[t.db.outbox[o].decisionId].state == Gate.Executed
  {
    PassOne(s, t, p, Settle);
    var first := Moved(t, p, Settle);
    PassOne(s, first, p, Settle);
    var second := Moved(first, p, Settle);
    PassOne(s, second, p, Settle);
    u := Moved(second, p, Settle);
  }

  /** Every sanctioned approval that stands for a request has a run in which the request leaves, and all marks follow. */
  lemma RequestCanLeave(s: State, w: Slot, p: Slot, a: Approval) returns (t: State)
    requires Init(s) && w in s.pipes && p in s.passes && Sanctioned(a) && !SanctionedRequest(a).Refused?
    ensures Reaches(s, t) && t.db.approvals == map[a.decisionId + 1 := a]
    ensures exists x :: t.log.sent == {x} && x.item.decisionId == a.decisionId && x.request == SanctionedRequest(a)
    ensures OutboxId(a) in t.db.outbox && t.db.outbox[OutboxId(a)].status.Completed?
    ensures a.decisionId in t.db.decisions && t.db.decisions[a.decisionId].state == Gate.Executed
  {
    var staged := SanctionedRow(s, w, a);
    var item := ItemOf(OutboxId(a), staged.db.outbox[OutboxId(a)]);
    var sent := DispatchOne(s, staged, p, OutboxId(a), 0);
    assert sent.log.sent == {Sending(item, RequestOf(item))};
    t := MarkDelivered(s, sent, p, OutboxId(a));
  }

  /**
    For every approval an operator sanctions and every text: there is a run in which the text reaches Jules if and only if
    it is not an approval of a plan, the text is not empty, and it is the operator's, or the proposal that was not edited.
   */
  lemma TextReachesExactlyWhen(s: State, w: Slot, p: Slot, a: Approval, text: string)
    requires Init(s) && w in s.pipes && p in s.passes && Sanctioned(a)
    ensures (exists t :: Reaches(s, t) && Has(t, a) && TextSent(t, a, text)) <==>
              !a.action.ApprovePlan? && text != "" && (a.modified == Some(text) || (a.modified == None && a.proposed == Some(text)))
  {
    forall t | Reaches(s, t) && Has(t, a) && TextSent(t, a, text)
      ensures !a.action.ApprovePlan? && text != "" && (a.modified == Some(text) || (a.modified == None && a.proposed == Some(text)))
    {
      var run :| Leads(run, s, t);
      var id :| id in t.db.approvals && t.db.approvals[id] == a;
      TextSentOnlyWhen(run, |run| - 1, id, text);
    }
    EditWins(a);
    if !a.action.ApprovePlan? && SanctionedText(a) == text != "" {
      var t := RequestCanLeave(s, w, p, a);
      assert t.db.approvals[a.decisionId + 1] == a;
      assert Has(t, a) && TextSent(t, a, text);
    }
  }

  ghost predicate Has(s: State, a: Approval) {
    exists id :: id in s.db.approvals && s.db.approvals[id] == a
  }

  /** A plan approved with edits is carried out in full, COMPLETED and EXECUTED, and the edit never leaves. */
  lemma EditedPlanLosesText(s: State, w: Slot, p: Slot, d: nat, sessionId: string, text: string)
    requires Init(s) && w in s.pipes && p in s.passes
    ensures exists t :: Reaches(s, t) && Has(t, Approval(d, sessionId, Gate.ApprovePlan, None, Some(text), Some(Edited)))
              && d in t.db.decisions && t.db.decisions[d].state == Gate.Executed
              && exists x :: t.log.sent == {x} && x.item.payload == text && x.request == ApprovePlan(sessionId)
  {
    var a := Approval(d, sessionId, Gate.ApprovePlan, None, Some(text), Some(Edited));
    var t := RequestCanLeave(s, w, p, a);
    assert t.db.approvals[d + 1] == a;
    var x :| t.log.sent == {x} && x.item.decisionId == d && x.request == SanctionedRequest(a);
    assert x in t.log.sent;
    PayloadIsText(s, t, d + 1, x);
  }

  lemma PayloadIsText(s: State, t: State, id: nat, x: Sending)
    requires Init(s) && Reaches(s, t) && id in t.db.approvals && x in t.log.sent
    requires t.db.approvals[id].decisionId == x.item.decisionId
    ensures x.item.payload == SanctionedText(t.db.approvals[id])
  {
    var run :| Leads(run, s, t);
    RunKeepsSendings(run, |run| - 1);
    RunSources(run, |run| - 1);
    assert SourceOk(t, x.item.id);
    OneApproval(run, |run| - 1, id, t.log.source[x.item.id]);
  }

  // ----- the same row dispatched again

  /** Dispatch, then a crash before the marks. */
  lemma DispatchAndDie(s: State, t: State, p: Slot, o: nat, attempts: nat) returns (u: State)
    requires Reaches(s, t) && Calm(t, o, attempts) && p in t.passes && attempts < 3
    requires !RequestOf(ItemOf(o, t.db.outbox[o])).Refused?
    ensures Reaches(s, u) && Calm(u, o, attempts + 1) && u.passes.Keys == t.passes.Keys
    ensures u.log.calls[o] == t.log.calls[o] + 1 && ItemOf(o, u.db.outbox[o]) == ItemOf(o, t.db.outbox[o])
  {
    var sent := DispatchOne(s, t, p, o, attempts);
    u := sent.(passes := sent.passes[p := Resting]);
    Extend(s, sent, u, PassMove(p, EndPass));
  }

  /** The bound on calls is reached: a row can be dispatched on every one of its attempts. */
  lemma {:induction false} EveryAttemptCanCall(s: State, w: Slot, p: Slot, a: Approval, n: nat) returns (t: State)
    requires Init(s) && w in s.pipes && p in s.passes && Sanctioned(a) && !SanctionedRequest(a).Refused? && n <= 3
    ensures Reaches(s, t) && Calm(t, OutboxId(a), n) && t.passes.Keys == s.passes.Keys
    ensures t.log.calls[OutboxId(a)] == t.db.outbox[OutboxId(a)].attempts == n
    ensures !RequestOf(ItemOf(OutboxId(a), t.db.outbox[OutboxId(a)])).Refused?
  {
    if n == 0 {
      t := SanctionedRow(s, w, a);
    } else {
      var before := EveryAttemptCanCall(s, w, p, a, n - 1);
      t := DispatchAndDie(s, before, p, OutboxId(a), n - 1);
    }
  }

  /** When the last attempt dies after its call, the row is abandoned: by AbandonedForever it stays so. */
  lemma LastAttemptCanDie(s: State, w: Slot, p: Slot, a: Approval)
    requires Init(s) && w in s.pipes && p in s.passes && Sanctioned(a) && !SanctionedRequest(a).Refused?
    ensures exists t :: Reaches(s, t) && Abandoned(t, OutboxId(a)) && t.log.calls[OutboxId(a)] == 3
  {
    var t := EveryAttemptCanCall(s, w, p, a, 3);
    ReachableRows(s, t, OutboxId(a));
    assert Abandoned(t, OutboxId(a));
  }

  lemma ReachableRows(s: State, t: State, o: nat)
    requires Init(s) && Reaches(s, t) && o in t.db.outbox
    ensures t.db.outbox[o].status.Pending? <==> t.db.outbox[o].attempts == 0
  {
    var run :| Leads(run, s, t);
    RunRowsAndPasses(run, |run| - 1);
    assert RowOk(t, o);
  }

  // ----- the overshoot of maxAttempts

  /** All passes of a set scan the same row before any of them claims it. */
  lemma {:induction false} ScanAll(s: State, t: State, ps: set<Slot>, o: nat) returns (u: State)
    requires Reaches(s, t) && ps <= t.passes.Keys && o in t.db.outbox && Open(t.db.outbox[o])
    requires t.db.outbox[o].attempts < t.db.outbox[o].maxAttempts
    requires forall p | p in ps :: t.passes[p].Resting?
    ensures Reaches(s, u) && u.db == t.db && u.passes.Keys == t.passes.Keys
    ensures forall p | p in ps :: u.passes[p] == Working([ItemOf(o, t.db.outbox[o])])
    ensures forall p | p in t.passes && p !in ps :: u.passes[p] == t.passes[p]
  {
    if ps == {} {
      u := t;
    } else {
      var p :| p in ps;
      var v := ScanAll(s, t, ps - {p}, o);
      ScanOne(s, v, p, o);
      u := Scanned(v, p, o);
    }
  }

  /** Then every one of them claims it, each after the previous lease has run out. */
  lemma {:induction false} ClaimAll(s: State, t: State, ps: set<Slot>, o: nat) returns (u: State)
    requires Reaches(s, t) && ps <= t.passes.Keys && o in t.db.outbox && Open(t.db.outbox[o])
    requires forall p | p in ps :: t.passes[p].Working? && |t.passes[p].todo| == 1 && t.passes[p].todo[0].id == o
    ensures Reaches(s, u) && o in u.db.outbox && Open(u.db.outbox[o]) && u.passes.Keys == t.passes.Keys
    ensures u.db.outbox[o].attempts == t.db.outbox[o].attempts + |ps|
    ensures u.db.outbox[o].maxAttempts == t.db.outbox[o].maxAttempts
    ensures forall p | p in t.passes && p !in ps :: u.passes[p] == t.passes[p]
  {
    if ps == {} {
      u := t;
    } else {
      var p :| p in ps;
      var v := ClaimAll(s, t, ps - {p}, o);
      ClaimOne(s, v, p, o);
      u := Claimed(v, p, o);
      assert |ps| == |ps - {p}| + 1;
    }
  }

  /**
    The bound of AttemptsAreBounded is attained for every number of dispatcher slots. In particular attempts stay
    within maxAttempts in all runs exactly when there is a single slot.
   */
  lemma OvershootIsAttained(s: State, w: Slot, p: Slot)
    requires Init(s) && w in s.pipes && p in s.passes
    ensures exists t :: Reaches(s, t) && 2 in t.db.outbox
              && t.db.outbox[2].attempts == t.db.outbox[2].maxAttempts + |t.passes| - 1 && t.passes.Keys == s.passes.Keys
  {
    var t0 := SanctionedRow(s, w, Approval(0, "session", Gate.Respond, Some("yes"), None, Some(Approved)));
    var t1 := SpendOne(s, t0, p, 2, 0);
    var t2 := SpendOne(s, t1, p, 2, 1);
    var t3 := ScanAll(s, t2, t2.passes.Keys, 2);
    var t4 := ClaimAll(s, t3, t3.passes.Keys, 2);
    assert |t4.passes| == |t4.passes.Keys|;
  }

  /** Single slot: never more attempts than allowed. Two or more: some run goes beyond. */
  lemma LimitHoldsExactlyForOneSlot(s: State, w: Slot, p: Slot)
    requires Init(s) && w in s.pipes && p in s.passes
    ensures |s.passes| == 1 <==>
      forall t, o | Reaches(s, t) && o in t.db.outbox :: t.db.outbox[o].attempts <= t.db.outbox[o].maxAttempts
  {
    assert |s.passes| == |s.passes.Keys| >= 1 by {
      assert s.passes.Keys == {p} + (s.passes.Keys - {p});
    }
    if |s.passes| == 1 {
      forall t, o | Reaches(s, t) && o in t.db.outbox
        ensures t.db.outbox[o].attempts <= t.db.outbox[o].maxAttempts
      {
        var run :| Leads(run, s, t);
        assert Run(run);
        AttemptsAreBounded(run, |run| - 1, o);
        SlotsStay(run, |run| - 1);
      }
    } else {
      OvershootIsAttained(s, w, p);
      var t :| Reaches(s, t) && 2 in t.db.outbox
        && t.db.outbox[2].attempts == t.db.outbox[2].maxAttempts + |t.passes| - 1 && t.passes.Keys == s.passes.Keys;
      assert |t.passes| == |t.passes.Keys| == |s.passes|;
    }
  }

  /** No step adds or removes a slot. */
  lemma {:induction false} SlotsStay(run: seq<State>, i: nat)
    requires Run(run) && i < |run|
    ensures run[i].passes.Keys == run[0].passes.Keys && |run[i].passes| == |run[0].passes|
  {
    if i > 0 {
      SlotsStay(run, i - 1);
      assert StepAt(run, i - 1);
      NextKeepsSlots(run[i - 1], run[i]);
    }
    assert |run[i].passes| == |run[i].passes.Keys| && |run[0].passes| == |run[0].passes.Keys|;
  }

  lemma NextKeepsSlots(s: State, t: State)
    requires Next(s, t)
    ensures t.passes.Keys == s.passes.Keys
  {
  }
}
