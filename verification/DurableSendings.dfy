/** What the dispatcher's requests carry of what an operator sanctioned. */
module DurableSendings {
  import opened Basics
  import Gate = ExecutionGate
  import Outbox = OutboxRepository
  import opened DurableState
  import opened DurableInvariants
  import opened DurablePipeline
  import opened DurableReview
  import opened DurableDispatch
  import opened DurableTheorems

  /** Every request is the one its row stands for, and only rows that stand for a request are ever called for. */
  ghost predicate SendingsOk(s: State) {
    && (forall x | x in s.log.sent :: ItemOk(s, x.item) && x.request == RequestOf(x.item) && !x.request.Refused?)
    && (forall o | o in s.log.calls :: o in s.db.outbox && !RequestOf(ItemOf(o, s.db.outbox[o])).Refused?)
  }

  /** No row disappears or changes its order columns. */
  ghost predicate KeepsRows(s: State, t: State) {
    forall o | o in s.db.outbox :: o in t.db.outbox && Outbox.SameOrder(s.db.outbox[o], t.db.outbox[o])
  }

  lemma FrameSendings(s: State, t: State)
    requires SendingsOk(s) && KeepsRows(s, t) && t.log.calls == s.log.calls && t.log.sent == s.log.sent
    ensures SendingsOk(t)
  {
  }

  lemma PassKeepsSendings(s: State, t: State, p: Slot, a: PassAction)
    requires PassesOk(s) && SendingsOk(s) && PassStep(s, t, p, a)
    ensures SendingsOk(t)
  {
    PassShape(s, t, p, a);
    if a.Dispatch? {
      PassIsLocal(s.db, s.log, p, s.passes[p], a, PassTurn(s.db, s.log, p, s.passes[p], a));
      assert PassOk(s, s.passes[p]);
    } else {
      FrameSendings(s, t);
    }
  }

  lemma PipeKeepsSendings(s: State, t: State, w: Slot, a: PipeAction)
    requires SendingsOk(s) && PipeStep(s, t, w, a)
    ensures SendingsOk(t)
  {
    PipeLeavesOutbox(s, t, w, a);
    FrameSendings(s, t);
  }

  lemma ReviewKeepsSendings(s: State, t: State, id: nat, verdict: Verdict, modified: Option<string>, q: nat)
    requires SourcesOk(s) && SendingsOk(s) && ReviewStep(s, t, id, verdict, modified, q)
    ensures SendingsOk(t)
  {
    ReviewShape(s, t, id, verdict, modified, q);
    FrameSendings(s, t);
  }

  lemma SweepKeepsSendings(s: State, t: State, r: Slot, a: SweepAction)
    requires SendingsOk(s) && SweepStep(s, t, r, a)
    ensures SendingsOk(t)
  {
    SweepShape(s, t, r, a);
    FrameSendings(s, t);
  }

  lemma NextKeepsSendings(s: State, t: State)
    requires PassesOk(s) && SourcesOk(s) && SendingsOk(s) && Next(s, t)
    ensures SendingsOk(t)
  {
    var step :| Apply(s, t, step);
    match step
    case PipeMove(w, a) => PipeKeepsSendings(s, t, w, a);
    case Review(id, verdict, modified, q) => ReviewKeepsSendings(s, t, id, verdict, modified, q);
    case SweepMove(r, a) => SweepKeepsSendings(s, t, r, a);
    case PassMove(p, a) => PassKeepsSendings(s, t, p, a);
  }

  lemma InitSendings(s: State)
    requires Init(s)
    ensures SendingsOk(s)
  {
  }

  lemma StepKeepsSendings(run: seq<State>, i: nat)
    requires Run(run) && i + 1 < |run| && SendingsOk(run[i])
    ensures SendingsOk(run[i + 1])
  {
    RunPasses(run, i);
    RunSources(run, i);
    assert StepAt(run, i);
    NextKeepsSendings(run[i], run[i + 1]);
  }

  lemma {:induction false} RunKeepsSendings(run: seq<State>, i: nat)
    requires Run(run) && i < |run|
    ensures SendingsOk(run[i])
  {
    if i == 0 {
      InitSendings(run[0]);
    } else {
      RunKeepsSendings(run, i - 1);
      StepKeepsSendings(run, i - 1);
    }
  }

  /** The request that an approval stands for, once sanctioned. */
  function SanctionedRequest(a: Approval): Request {
    if a.action.ApprovePlan? then ApprovePlan(a.sessionId)
    else if SanctionedText(a) == "" then Refused
    else Message(a.sessionId, SanctionedText(a))
  }

  lemma ItemIsSanctioned(s: State, o: nat) returns (a: nat)
    requires SourcesOk(s) && o in s.db.outbox
    ensures a in s.db.approvals && Sanctioned(s.db.approvals[a]) && s.db.approvals[a].decisionId == s.db.outbox[o].decisionId
    ensures RequestOf(ItemOf(o, s.db.outbox[o])) == SanctionedRequest(s.db.approvals[a])
  {
    assert SourceOk(s, o);
    a := s.log.source[o];
  }

  /** Every request of the dispatcher is the one that the approval of its decision stands for, and that is sanctioned. */
  lemma RequestsAreSanctioned(run: seq<State>, i: nat, x: Sending) returns (a: nat)
    requires Run(run) && i < |run| && x in run[i].log.sent
    ensures a in run[i].db.approvals && Sanctioned(run[i].db.approvals[a])
    ensures run[i].db.approvals[a].decisionId == x.item.decisionId
    ensures x.request == SanctionedRequest(run[i].db.approvals[a]) && !x.request.Refused?
    // the plan's approval; or the operator's text as a message, and the proposal only where the operator left none
    ensures var approval := run[i].db.approvals[a];
            if approval.action.ApprovePlan? then x.request == ApprovePlan(approval.sessionId)
            else match approval.modified
              case Some(edit) => edit != "" && x.request == Message(approval.sessionId, edit)
              case None => approval.proposed.Some? && approval.proposed.value != ""
                           && x.request == Message(approval.sessionId, approval.proposed.value)
  {
    RunKeepsSendings(run, i);
    RunSources(run, i);
    a := ItemIsSanctioned(run[i], x.item.id);
    EditWins(run[i].db.approvals[a]);
  }

  /** The edit wins over the proposal. */
  lemma EditWins(a: Approval)
    ensures SanctionedText(a) == match a.modified case Some(edit) => edit case None => match a.proposed case Some(p) => p case None => ""
  {
  }

  /** This text has left for Jules as the message that this approval stands for. */
  ghost predicate TextSent(s: State, a: Approval, text: string) {
    exists x :: x in s.log.sent && x.item.decisionId == a.decisionId && x.request == Message(a.sessionId, text)
  }

  lemma OneApproval(run: seq<State>, i: nat, a: nat, b: nat)
    requires Run(run) && i < |run| && a in run[i].db.approvals && b in run[i].db.approvals
    requires run[i].db.approvals[a].decisionId == run[i].db.approvals[b].decisionId
    ensures a == b
  {
    OutboxExactlyWhenSanctioned(run, i, run[i].db.approvals[a].decisionId);
  }

  /** In no run does a plan's text, an empty text, or any text but the operator's edit, else the proposal, reach Jules. */
  lemma TextSentOnlyWhen(run: seq<State>, i: nat, a: nat, text: string)
    requires Run(run) && i < |run| && a in run[i].db.approvals && TextSent(run[i], run[i].db.approvals[a], text)
    ensures var approval := run[i].db.approvals[a];
            && !approval.action.ApprovePlan? && text != ""
            && (approval.modified == Some(text) || (approval.modified == None && approval.proposed == Some(text)))
  {
    var approval := run[i].db.approvals[a];
    var x :| x in run[i].log.sent && x.item.decisionId == approval.decisionId && x.request == Message(approval.sessionId, text);
    var b := RequestsAreSanctioned(run, i, x);
    OneApproval(run, i, a, b);
  }

  /** A sanctioned message without text is never sent, and its decision is never marked EXECUTED. */
  lemma EmptyTextIsNeverExecuted(run: seq<State>, i: nat, a: nat)
    requires Run(run) && i < |run| && a in run[i].db.approvals && SanctionedRequest(run[i].db.approvals[a]).Refused?
    ensures var d := run[i].db.approvals[a].decisionId;
            !CalledFor(run[i], d) && (d in run[i].db.decisions ==> run[i].db.decisions[d].state != Gate.Executed)
  {
    var s := run[i];
    var d := s.db.approvals[a].decisionId;
    RunKeepsSendings(run, i);
    RunSources(run, i);
    forall o | o in s.db.outbox && s.db.outbox[o].decisionId == d
      ensures s.log.calls[o] == 0
    {
      var b := ItemIsSanctioned(s, o);
      OneApproval(run, i, a, b);
    }
    if d in s.db.decisions && s.db.decisions[d].state == Gate.Executed {
      ExecutedMeansMutated(run, i, d);
      OneActorPerDecision(run, i, d);
      assert HasApproval(s, d);
    }
  }
}
