/**
  The operator's side: the decision and approval tables as classes, and the route that resolves one review. Its
  transaction is shown to be the single atomic step that the transition system takes.
 */
module OperatorReview {
  import opened Basics
  import opened DurableState
  import Gate = ExecutionGate
  import Outbox = OutboxRepository
  import Precedents

  class DecisionRepository {
    var rows: map<nat, Decision>

    constructor ()
      ensures rows == map[]
    {
      rows := map[];
    }

    method FindByIdempotencyKey(key: Key) returns (found: Option<nat>)
      ensures found.Some? <==> KeyTaken(rows, key)
      ensures found.Some? ==> found.value in rows && rows[found.value].key == key
    {
      var rest := rows.Keys;
      found := None;
      while rest != {}
        invariant rest <= rows.Keys
        invariant forall id | id in rows && id !in rest :: rows[id].key != key
        decreases rest
      {
        var id :| id in rest;
        rest := rest - {id};
        if rows[id].key == key {
          return Some(id);
        }
      }
    }

    /** The insert is a no-op on a key that is taken; either way a row with the key comes back. */
    method Create(id: nat, row: Decision) returns (canonical: nat)
      requires id !in rows
      modifies this
      ensures rows == InsertDecision(old(rows), id, row)
      ensures canonical in rows && rows[canonical].key == row.key
      ensures canonical == id <==> !KeyTaken(old(rows), row.key)
    {
      var existing := FindByIdempotencyKey(row.key);
      if existing.None? {
        rows := rows[id := row];
        return id;
      }
      canonical := existing.value;
    }

    method MarkExecuted(id: nat, state: Gate.ExecutionState)
      modifies this
      ensures rows == MarkDecision(old(rows), id, state)
    {
      if id in rows {
        rows := rows[id := rows[id].(state := state)];
      }
    }
  }

  class ApprovalRepository {
    var rows: map<nat, Approval>

    constructor ()
      ensures rows == map[]
    {
      rows := map[];
    }

    /** Only a pending row takes a verdict. */
    method UpdateStatus(id: nat, verdict: Verdict, modified: Option<string>) returns (updated: Option<Approval>)
      modifies this
      ensures updated.Some? <==> id in old(rows) && old(rows)[id].verdict.None?
      ensures updated.Some? ==> updated.value == old(rows)[id].(verdict := Some(verdict), modified := modified)
      ensures rows == if updated.Some? then old(rows)[id := updated.value] else old(rows)
    {
      if id !in rows || rows[id].verdict.Some? {
        return None;
      }
      updated := Some(rows[id].(verdict := Some(verdict), modified := modified));
      rows := rows[id := updated.value];
    }
  }

  // ----- the route

  datatype Response = Resolved | NotFound | AlreadyResolved

  /** Exactly the transition system's review step on the three tables, or nothing at all. */
  method Post(
    approvals: ApprovalRepository, decisions: DecisionRepository, outbox: Outbox.Repository,
    id: nat, verdict: Verdict, modified: Option<string>, outboxId: nat, ghost db: Db, ghost log: Log)
    returns (response: Response)
    requires db.decisions == decisions.rows && db.approvals == approvals.rows && db.outbox == outbox.rows
    requires outboxId !in db.used && db.outbox.Keys <= db.used
    modifies approvals, decisions, outbox
    ensures var turn := ReviewTurn(db, log, id, verdict, modified, outboxId);
            if turn.Turn?
            then response == Resolved && decisions.rows == turn.db.decisions && approvals.rows == turn.db.approvals
                 && outbox.rows == turn.db.outbox
            else response != Resolved && decisions.rows == old(decisions.rows) && approvals.rows == old(approvals.rows)
                 && outbox.rows == old(outbox.rows)
    ensures response == NotFound <==> id !in old(approvals.rows)
    // a sanctioned action is staged once, with the operator's text, and the proposal only where the operator left none
    ensures response == Resolved && (verdict.Approved? || verdict.Edited?) ==>
      var a := old(approvals.rows)[id];
      && outboxId in outbox.rows && outbox.rows == old(outbox.rows)[outboxId := outbox.rows[outboxId]]
      && outbox.rows[outboxId].sessionId == a.sessionId && outbox.rows[outboxId].decisionId == a.decisionId
      && outbox.rows[outboxId].action == a.action && outbox.rows[outboxId].status.Pending?
      && (modified.Some? ==> outbox.rows[outboxId].payload == modified.value)
      && (modified.None? && a.proposed.Some? ==> outbox.rows[outboxId].payload == a.proposed.value)
      && (modified.None? && a.proposed.None? ==> outbox.rows[outboxId].payload == "")
    ensures response == Resolved && !(verdict.Approved? || verdict.Edited?) ==> outbox.rows == old(outbox.rows)
    ensures response == Resolved && old(approvals.rows)[id].decisionId in old(decisions.rows) ==>
      decisions.rows[old(approvals.rows)[id].decisionId].state
      == if verdict.Approved? || verdict.Edited? then Gate.DispatchRequested else Gate.Blocked
    ensures response == Resolved ==>
      id in approvals.rows && approvals.rows[id].verdict == Some(verdict) && approvals.rows[id].modified == modified
  {
    if id !in approvals.rows {
      return NotFound;
    }
    if approvals.rows[id].verdict.Some? {
      return AlreadyResolved;
    }
    var updated := approvals.UpdateStatus(id, verdict, modified);
    var u := updated.value;
    if verdict.Approved? || verdict.Edited? {
      var approvedPayload :=
        if modified.Some? then modified.value else if u.proposed.Some? then u.proposed.value else "";
      decisions.MarkExecuted(u.decisionId, Gate.DispatchRequested);
      var inserted := outbox.Create(outboxId, u.sessionId, u.decisionId, u.action, approvedPayload, None);
    }
    if verdict.Rejected? || verdict.Cancelled? {
      decisions.MarkExecuted(u.decisionId, Gate.Blocked);
    }
    response := Resolved;
  }

  /** What the operator did, as it is recorded on the decision. */
  function DeriveHumanAction(verdict: Verdict, modified: Option<string>, proposed: Option<string>): string {
    match verdict
    case Approved => if modified.Some? && modified != proposed then "APPROVED_AFTER_EDIT" else "APPROVED_UNCHANGED"
    case Edited => "APPROVED_AFTER_EDIT"
    case Rejected => "REJECTED"
    case Cancelled => "CANCELLED"
  }

  /** A successful decision becomes positive evidence exactly when the operator's verdict sanctioned its dispatch. */
  lemma PositiveEvidenceNeedsSanction(a: Approval, outcome: string)
    requires a.verdict.Some? && (outcome == "SUCCESS" || outcome == "PARTIAL_SUCCESS")
    ensures Precedents.PolarityOf(
              Precedents.Classify(Some(outcome), Some(DeriveHumanAction(a.verdict.value, a.modified, a.proposed)))).PositiveOnly?
            <==> Sanctioned(a)
  {
  }
}
