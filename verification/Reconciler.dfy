/**
  The reconciler's pass over the attempt ledger as it runs when nobody else moves. It replays nothing: every stale attempt
  is re-leased and handed to a human, or failed when its decision is gone.
 */
module Reconciler {
  import opened Basics
  import opened DurableState
  import opened OperatorReview
  import opened OutboxDispatcher
  import Outbox = OutboxRepository
  import Ledger = ExecutionAttemptRepository

  datatype Tally = Tally(scanned: nat, recovered: nat, reDriven: nat, succeeded: nat, escalated: nat)

  /** Where a stale attempt ends; `running` is the safety state when its turn comes. */
  function Verdict(row: Ledger.Row, running: bool, decisions: map<nat, Decision>): Ledger.Status {
    if running && row.decisionId !in decisions then Ledger.Failed else Ledger.NeedsReconciliation
  }

  /** An attempt that had its turn: resolved for good, under a token that fences its former owner. */
  ghost predicate Handled(row: Ledger.Row, row': Ledger.Row, running: bool, decisions: map<nat, Decision>) {
    && Ledger.SameAttempt(row, row') && row'.fencingToken == row.fencingToken + 1
    && row'.status == Verdict(row, running, decisions)
  }

  /** Exactly the attempts in `turns` have had theirs. */
  ghost predicate HandledExactly(
    before: Ledger.Table, after: Ledger.Table, turns: set<nat>, running: set<nat>, decisions: map<nat, Decision>)
  {
    && after.Keys == before.Keys
    && forall id | id in before ::
         if id in turns then Handled(before[id], after[id], id in running, decisions) else after[id] == before[id]
  }

  /** One stale attempt. */
  method Resolve(id: nat, running: bool, now: int, owner: string, leaseMs: int, ledger: Ledger.Repository, decisions: DecisionRepository)
    returns (recovered: bool)
    modifies ledger
    ensures recovered <==>
      id in old(ledger.rows) && (Ledger.Lapsed(old(ledger.rows)[id], now) || old(ledger.rows)[id].status.Pending?)
    ensures !recovered ==> ledger.rows == old(ledger.rows)
    ensures recovered ==>
      Ledger.OnlyRow(old(ledger.rows), ledger.rows, id)
      && Handled(old(ledger.rows)[id], ledger.rows[id], running, decisions.rows)
  {
    recovered := ledger.RecoverStale(id, owner, now, leaseMs);
    if !recovered {
      return;
    }
    ghost var before := old(ledger.rows);
    Ledger.LeaseIsDetermined(before, ledger.rows, id, owner, now, leaseMs);
    if running && ledger.rows[id].decisionId !in decisions.rows {
      var failed := ledger.MarkFailed(id, None, None);
    } else {
      ledger.MarkNeedsReconciliation(id);
    }
  }

  /**
    One pass that nobody disturbs: exactly the stale attempts are resolved, each counted as recovered and escalated, none
    re-driven. `clock` and `running` are what the store's clock and the kill switch say at each attempt's turn.
   */
  method ReconcileOnce(
    now: int, clock: map<nat, int>, running: set<nat>, owner: string, leaseMs: int,
    ledger: Ledger.Repository, decisions: DecisionRepository)
    returns (counts: Tally, ghost stale: set<nat>)
    requires forall id | id in ledger.rows :: id in clock && clock[id] >= now
    modifies ledger
    ensures stale == set id | id in old(ledger.rows) && Ledger.Stale(old(ledger.rows)[id], now, leaseMs)
    ensures HandledExactly(old(ledger.rows), ledger.rows, stale, running, decisions.rows)
    ensures counts == Tally(|stale|, |stale|, 0, 0, |stale|)
    ensures forall id | id in old(ledger.rows) ::
      var row := old(ledger.rows)[id];
      && (id in stale <==>
            || (row.status.Pending? && now - row.createdAt > leaseMs)
            || ((row.status.Claimed? || row.status.Executing?) && row.claimExpiry.Some? && now > row.claimExpiry.value))
      && (id in stale ==>
            if id in running && row.decisionId !in decisions.rows then ledger.rows[id].status.Failed?
            else ledger.rows[id].status.NeedsReconciliation?)
  {
    var found := ledger.FindStaleAttempts(now, leaseMs);
    stale := found;
    counts := Tally(|found|, 0, 0, 0, 0);
    var rest := found;
    while rest != {}
      invariant rest <= stale && counts.recovered + |rest| == |stale|
      invariant counts == Tally(|stale|, counts.recovered, 0, 0, counts.recovered)
      invariant HandledExactly(old(ledger.rows), ledger.rows, stale - rest, running, decisions.rows)
      decreases rest
    {
      var id :| id in rest;
      ghost var before, todo := ledger.rows, rest;
      var recovered := Resolve(id, id in running, clock[id], owner, leaseMs, ledger, decisions);
      rest := rest - {id};
      TurnHandles(old(ledger.rows), before, ledger.rows, stale, todo, id, running, decisions.rows);
      if recovered {
        counts := counts.(recovered := counts.recovered + 1, escalated := counts.escalated + 1);
      }
    }
    assert stale - {} == stale;
  }

  lemma TurnHandles(
    before: Ledger.Table, t: Ledger.Table, t': Ledger.Table, stale: set<nat>, rest: set<nat>, id: nat, running: set<nat>,
    decisions: map<nat, Decision>)
    requires rest <= stale && id in rest && id in before && HandledExactly(before, t, stale - rest, running, decisions)
    requires Ledger.OnlyRow(t, t', id) && Handled(t[id], t'[id], id in running, decisions)
    ensures HandledExactly(before, t', stale - (rest - {id}), running, decisions)
    ensures |rest - {id}| == |rest| - 1
  {
  }

  /**
    A dispatch that succeeds under a later claim of its row is handed to a human all the same, once its lease has passed:
    the row is COMPLETED and the decision EXECUTED, while the attempt asks for reconciliation. Under the first claim it
    ends SUCCEEDED.
   */
  method SuccessAfterRetryIsEscalated(
    item: Item, w: World, now: int, clock: map<nat, int>, running: set<nat>, owner: string, leaseMs: int,
    ledger: Ledger.Repository, outbox: Outbox.Repository, decisions: DecisionRepository)
    requires w.attemptId !in ledger.rows && item.decisionId in decisions.rows && Fault(w, item).None?
    requires Claimable(outbox.rows, item.id, w.now) && now > w.ledgerNow + leaseMs
    requires !Ledger.NumberTaken(ledger.rows, item.decisionId, outbox.rows[item.id].attempts + 1)
    requires clock.Keys == ledger.rows.Keys + {w.attemptId} && forall id | id in clock :: clock[id] >= now
    modifies ledger, outbox, decisions
    ensures item.id in outbox.rows && outbox.rows[item.id].status.Completed?
    ensures item.decisionId in decisions.rows && decisions.rows[item.decisionId].state.Executed?
    ensures w.attemptId in ledger.rows && ledger.rows[w.attemptId].status ==
      if old(outbox.rows)[item.id].fencingToken == 1 then Ledger.Succeeded else Ledger.NeedsReconciliation
  {
    var outcome, sent := ProcessItem(item, w, owner, leaseMs, "", ledger, outbox, decisions);
    assert outcome == Dispatched(Delivered);
    var counts, stale := ReconcileOnce(now, clock, running, owner, leaseMs, ledger, decisions);
  }
}
