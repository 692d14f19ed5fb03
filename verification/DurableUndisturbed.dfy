/**
  The steps of one actor when no other moves in between: what a dispatcher pass does with one item from claim to result,
  and a reconciler sweep with one attempt, value by value.
 */
module DurableUndisturbed {
  import opened Basics
  import Gate = ExecutionGate
  import Outbox = OutboxRepository
  import Ledger = ExecutionAttemptRepository
  import opened DurableState

  /** The steps of one pass, one after the other. */
  ghost function Play(db: Db, log: Log, p: Slot, pc: Pass, actions: seq<PassAction>): Turn<Pass>
    decreases |actions|
  {
    if actions == [] then Turn(db, log, pc)
    else match PassTurn(db, log, p, pc, actions[0])
      case Stuck => Stuck
      case Turn(db', log', next) => Play(db', log', p, next, actions[1..])
  }

  lemma PlayFirst(db: Db, log: Log, p: Slot, pc: Pass, a: PassAction, rest: seq<PassAction>)
    requires PassTurn(db, log, p, pc, a).Turn?
    ensures var turn := PassTurn(db, log, p, pc, a); Play(db, log, p, pc, [a] + rest) == Play(turn.db, turn.log, p, turn.next, rest)
  {
    assert ([a] + rest)[1..] == rest;
  }

  lemma {:induction false} PlayThen(db: Db, log: Log, p: Slot, pc: Pass, first: seq<PassAction>, rest: seq<PassAction>)
    requires Play(db, log, p, pc, first).Turn?
    ensures var turn := Play(db, log, p, pc, first); Play(db, log, p, pc, first + rest) == Play(turn.db, turn.log, p, turn.next, rest)
    decreases |first|
  {
    if first == [] {
      assert first + rest == rest;
    } else {
      var turn := PassTurn(db, log, p, pc, first[0]);
      PlayThen(turn.db, turn.log, p, turn.next, first[1..], rest);
      assert (first + rest)[1..] == first[1..] + rest;
    }
  }

  // ----- from the claim to the request

  function Preparation(now: int, leaseMs: int, att: nat, ledgerNow: int): seq<PassAction> {
    [ClaimNext(now, leaseMs)] + ([RecordAttempt(att, ledgerNow)] + ([LeaseLedger(ledgerNow, leaseMs)] + ([StartLedger]
      + ([StartOutbox] + ([StartDecision] + [])))))
  }

  /** The decision row after its state is set, if there is one. */
  function WithState(t: map<nat, Decision>, d: nat, state: Gate.ExecutionState): map<nat, Decision> {
    if d in t then t[d := t[d].(state := state)] else t
  }

  function ClaimedBy(row: Outbox.Row, owner: string, expiry: int): Outbox.Row {
    Outbox.Row(row.sessionId, row.decisionId, row.action, row.payload, Outbox.Claimed, Some(owner), Some(expiry),
               row.fencingToken + 1, row.attempts + 1, row.maxAttempts, row.lastError)
  }

  lemma ClaimTurn(db: Db, log: Log, p: Slot, todo: seq<Item>, item: Item, now: int, leaseMs: int)
    requires item.id in db.outbox
    requires var row := db.outbox[item.id];
             row.status.Pending? || ((row.status.Claimed? || row.status.Executing?) && row.claimExpiry.Some? && row.claimExpiry.value < now)
    ensures var row := db.outbox[item.id];
            PassTurn(db, log, p, Working([item] + todo), ClaimNext(now, leaseMs))
            == Turn(db.(outbox := db.outbox[item.id := ClaimedBy(row, p.owner, now + leaseMs)]),
                    log.(grants := log.grants + multiset{(item.id, row.fencingToken + 1)}),
                    Holding(todo, item, row.fencingToken + 1, row.attempts + 1, row.maxAttempts, None, Granted))
  {
    assert ([item] + todo)[0] == item && ([item] + todo)[1..] == todo;
  }

  lemma Prepares(db: Db, log: Log, p: Slot, todo: seq<Item>, item: Item, now: int, leaseMs: int, att: nat, ledgerNow: int)
    requires item.id in db.outbox && att !in db.used && att !in db.attempts
    requires var row := db.outbox[item.id];
             row.status.Pending? || ((row.status.Claimed? || row.status.Executing?) && row.claimExpiry.Some? && row.claimExpiry.value < now)
    requires !Ledger.NumberTaken(db.attempts, item.decisionId, db.outbox[item.id].attempts + 1)
    ensures var row := db.outbox[item.id];
            var token, number := row.fencingToken + 1, row.attempts + 1;
            var r := Play(db, log, p, Working([item] + todo), Preparation(now, leaseMs, att, ledgerNow));
            && r.Turn? && r.next == Holding(todo, item, token, number, row.maxAttempts, Some(att), Ready)
            && r.log == log.(grants := log.grants + multiset{(item.id, token)})
            && r.db == Db(
                 db.used + {att}, WithState(db.decisions, item.decisionId, Gate.Executing), db.approvals,
                 db.outbox[item.id := Outbox.Row(
                   row.sessionId, row.decisionId, row.action, row.payload, Outbox.Executing, Some(p.owner), Some(now + leaseMs),
                   token, number, row.maxAttempts, row.lastError)],
                 db.attempts[att := Ledger.Row(
                   item.decisionId, number, if token == 2 then Ledger.Executing else Ledger.Claimed, Some(p.owner),
                   Some(ledgerNow + leaseMs), 2, ledgerNow)])
  {
    var row := db.outbox[item.id];
    var token, number := row.fencingToken + 1, row.attempts + 1;
    var pc1 := Holding(todo, item, token, number, row.maxAttempts, None, Granted);
    var db1 := db.(outbox := db.outbox[item.id := ClaimedBy(row, p.owner, now + leaseMs)]);
    var log1 := log.(grants := log.grants + multiset{(item.id, token)});
    ClaimTurn(db, log, p, todo, item, now, leaseMs);
    var created := Ledger.Row(item.decisionId, number, Ledger.Pending, None, None, 1, ledgerNow);
    var pc2, db2 := pc1.(att := Some(att), stage := Recorded), db1.(used := db.used + {att}, attempts := db.attempts[att := created]);
    assert PassTurn(db1, log1, p, pc1, RecordAttempt(att, ledgerNow)) == Turn(db2, log1, pc2);
    PrepareLedger(db2, log1, p, pc2, leaseMs, ledgerNow, db.attempts, created);
    PlayFirst(db, log, p, Working([item] + todo), ClaimNext(now, leaseMs),
              [RecordAttempt(att, ledgerNow)] + LedgerSteps(ledgerNow, leaseMs));
    PlayFirst(db1, log1, p, pc1, RecordAttempt(att, ledgerNow), LedgerSteps(ledgerNow, leaseMs));
  }

  function LedgerSteps(ledgerNow: int, leaseMs: int): seq<PassAction> {
    [LeaseLedger(ledgerNow, leaseMs)] + ([StartLedger] + ([StartOutbox] + ([StartDecision] + [])))
  }

  /** The lease and the three marks before the request. */
  lemma PrepareLedger(db: Db, log: Log, p: Slot, pc: Pass, leaseMs: int, ledgerNow: int, others: Ledger.Table, recorded: Ledger.Row)
    requires pc.Holding? && pc.stage.Recorded? && pc.att.Some? && db.attempts == others[pc.att.value := recorded]
    requires recorded.status.Pending? && recorded.fencingToken == 1
    requires pc.item.id in db.outbox && db.outbox[pc.item.id].status.Claimed?
    requires db.outbox[pc.item.id].claimOwner == Some(p.owner) && db.outbox[pc.item.id].fencingToken == pc.token
    ensures Play(db, log, p, pc, LedgerSteps(ledgerNow, leaseMs)) ==
            Turn(db.(outbox := db.outbox[pc.item.id := db.outbox[pc.item.id].(status := Outbox.Executing)],
                     decisions := WithState(db.decisions, pc.item.decisionId, Gate.Executing),
                     attempts := others[pc.att.value := Ledger.Row(
                       recorded.decisionId, recorded.attemptNumber, if pc.token == 2 then Ledger.Executing else Ledger.Claimed,
                       Some(p.owner), Some(ledgerNow + leaseMs), 2, recorded.createdAt)]),
                 log, pc.(stage := Ready))
  {
    var att := pc.att.value;
    var leased := Ledger.Row(recorded.decisionId, recorded.attemptNumber, Ledger.Claimed, Some(p.owner), Some(ledgerNow + leaseMs), 2,
                             recorded.createdAt);
    var db1 := db.(attempts := others[att := leased]);
    assert db.attempts[att := leased] == others[att := leased];
    assert PassTurn(db, log, p, pc, LeaseLedger(ledgerNow, leaseMs)) == Turn(db1, log, pc.(stage := Leased));
    var started := if pc.token == 2 then leased.(status := Ledger.Executing) else leased;
    var db2 := db1.(attempts := others[att := started]);
    assert others[att := leased][att := started] == others[att := started];
    assert others[att := leased][att := leased] == others[att := leased];
    assert PassTurn(db1, log, p, pc.(stage := Leased), StartLedger) == Turn(db2, log, pc.(stage := Started));
    var db3 := db2.(outbox := db.outbox[pc.item.id := db.outbox[pc.item.id].(status := Outbox.Executing)]);
    assert PassTurn(db2, log, p, pc.(stage := Started), StartOutbox) == Turn(db3, log, pc.(stage := Shown));
    var db4 := db3.(decisions := WithState(db.decisions, pc.item.decisionId, Gate.Executing));
    assert PassTurn(db3, log, p, pc.(stage := Shown), StartDecision) == Turn(db4, log, pc.(stage := Ready));
    PlayFirst(db, log, p, pc, LeaseLedger(ledgerNow, leaseMs), [StartLedger] + ([StartOutbox] + ([StartDecision] + [])));
    PlayFirst(db1, log, p, pc.(stage := Leased), StartLedger, [StartOutbox] + ([StartDecision] + []));
    PlayFirst(db2, log, p, pc.(stage := Started), StartOutbox, [StartDecision] + []);
    PlayFirst(db3, log, p, pc.(stage := Shown), StartDecision, []);
  }

  // ----- from the request to the result

  /** What the request makes of the pass: delivered, or settled by the fault; `called` says whether it left. */
  lemma Requests(db: Db, log: Log, p: Slot, pc: Pass, fault: Option<Category>, called: bool)
    returns (actions: seq<PassAction>, result: Result)
    requires pc.Holding? && pc.stage.Ready? && (if called then !RequestOf(pc.item).Refused? else fault.Some?)
    ensures Play(db, log, p, pc, actions) ==
            Turn(db,
                 if called then log.(calls := log.calls + multiset{pc.item.id}, sent := log.sent + {Sending(pc.item, RequestOf(pc.item))})
                 else log,
                 pc.(stage := Settling(result, 0, fault)))
    ensures result == match fault
              case None => Delivered
              case Some(Ambiguous) => Uncertain
              case Some(Permanent) => Final
              case Some(Transient) => if pc.number >= pc.max then Final else Retry
  {
    var log1 := if called then log.(calls := log.calls + multiset{pc.item.id}, sent := log.sent + {Sending(pc.item, RequestOf(pc.item))})
                else log;
    if fault.None? {
      actions, result := [Dispatch(None)] + [], Delivered;
      PlayFirst(db, log, p, pc, Dispatch(None), []);
    } else {
      var a := if called then Dispatch(fault) else ThrowInTry(fault.value);
      var caught := pc.(stage := Caught(fault.value));
      assert PassTurn(db, log, p, pc, a) == Turn(db, log1, caught);
      result := ResultOf(fault.value, pc.number, pc.max);
      actions := [a] + ([Classify] + []);
      PlayFirst(db, log, p, pc, a, [Classify] + []);
      PlayFirst(db, log1, p, caught, Classify, []);
    }
  }

  /** The marks of a result, by a pass that still holds its row and whose attempt is in flight. */
  lemma Settles(db: Db, log: Log, p: Slot, pc: Pass, r: Result, cause: Option<Category>) returns (actions: seq<PassAction>)
    requires pc.Holding? && pc.stage == Settling(r, 0, cause) && pc.att.Some? && pc.att.value in db.attempts
    requires var row := db.attempts[pc.att.value]; (row.status.Claimed? || row.status.Executing?) && row.claimOwner == Some(p.owner)
    requires pc.item.id in db.outbox && db.outbox[pc.item.id].status.Executing?
    requires db.outbox[pc.item.id].claimOwner == Some(p.owner) && db.outbox[pc.item.id].fencingToken == pc.token
    ensures var id, att, d := pc.item.id, pc.att.value, pc.item.decisionId;
            var t := Play(db, log, p, pc, actions);
            && t.Turn? && t.next == Working(pc.todo)
            && t.db == db.(attempts := t.db.attempts, outbox := t.db.outbox, decisions := t.db.decisions)
            && t.db.attempts == db.attempts[att := db.attempts[att].(
                 status := if db.attempts[att].fencingToken != pc.token then db.attempts[att].status
                           else match r
                             case Delivered => Ledger.Succeeded
                             case Uncertain => Ledger.UnknownEffect
                             case _ => Ledger.Failed)]
            && t.db.outbox == db.outbox[id := db.outbox[id].(
                 status := match r
                   case Delivered => Outbox.Completed
                   case Uncertain => Outbox.Uncertain
                   case Final => Outbox.Failed
                   case Retry => Outbox.Executing)]
            && t.log.calls == log.calls && t.log.sent == log.sent
            && t.db.decisions == match r
                 case Delivered => WithState(db.decisions, d, Gate.Executed)
                 case Uncertain => WithState(db.decisions, d, Gate.UnknownEffect)
                 case Final => WithState(db.decisions, d, Gate.ExecutionFailed)
                 case Retry => db.decisions
  {
    var id, att, d := pc.item.id, pc.att.value, pc.item.decisionId;
    var db1 := PassTurn(db, log, p, pc, Settle).db;
    assert db.attempts[att := db.attempts[att]] == db.attempts;
    assert db.outbox[id := db.outbox[id]] == db.outbox;
    if r.Retry? {
      actions := [Settle] + [];
      PlayFirst(db, log, p, pc, Settle, []);
    } else {
      var pc1, pc2 := pc.(stage := Settling(r, 1, cause)), pc.(stage := Settling(r, 2, cause));
      assert PassTurn(db, log, p, pc, Settle) == Turn(db1, log, pc1);
      var turn2 := PassTurn(db1, log, p, pc1, Settle);
      assert turn2.Turn? && turn2.next == pc2;
      var rest := Closes(turn2.db, turn2.log, p, pc2);
      actions := [Settle] + ([Settle] + rest);
      PlayFirst(db, log, p, pc, Settle, [Settle] + rest);
      PlayFirst(db1, log, p, pc1, Settle, rest);
    }
  }

  /** The decision's mark, and the session's after a delivery. */
  lemma Closes(db: Db, log: Log, p: Slot, pc: Pass) returns (actions: seq<PassAction>)
    requires pc.Holding? && pc.stage.Settling? && pc.stage.done == 2 && pc.att.Some? && !pc.stage.result.Retry?
    ensures Play(db, log, p, pc, actions) ==
            Turn(db.(decisions := WithState(db.decisions, pc.item.decisionId,
                                            match pc.stage.result
                                            case Delivered => Gate.Executed
                                            case Uncertain => Gate.UnknownEffect
                                            case _ => Gate.ExecutionFailed)),
                 log, Working(pc.todo))
  {
    var turn := PassTurn(db, log, p, pc, Settle);
    if pc.stage.result.Delivered? {
      actions := [Settle] + ([Settle] + []);
      PlayFirst(db, log, p, pc, Settle, [Settle] + []);
      PlayFirst(turn.db, turn.log, p, turn.next, Settle, []);
    } else {
      actions := [Settle] + [];
      PlayFirst(db, log, p, pc, Settle, []);
    }
  }

  /** From the request to the last mark. */
  lemma Finishes(db: Db, log: Log, p: Slot, pc: Pass, fault: Option<Category>, called: bool)
    returns (actions: seq<PassAction>, r: Result)
    requires pc.Holding? && pc.stage.Ready? && (if called then !RequestOf(pc.item).Refused? else fault.Some?)
    requires pc.att.Some? && pc.att.value in db.attempts
    requires var row := db.attempts[pc.att.value]; (row.status.Claimed? || row.status.Executing?) && row.claimOwner == Some(p.owner)
    requires pc.item.id in db.outbox && db.outbox[pc.item.id].status.Executing?
    requires db.outbox[pc.item.id].claimOwner == Some(p.owner) && db.outbox[pc.item.id].fencingToken == pc.token
    ensures r == match fault
              case None => Delivered
              case Some(Ambiguous) => Uncertain
              case Some(Permanent) => Final
              case Some(Transient) => if pc.number >= pc.max then Final else Retry
    ensures var id, att, d := pc.item.id, pc.att.value, pc.item.decisionId;
            var t := Play(db, log, p, pc, actions);
            && t.Turn? && t.next == Working(pc.todo)
            && t.db == db.(attempts := t.db.attempts, outbox := t.db.outbox, decisions := t.db.decisions)
            && t.log.calls == (if called then log.calls + multiset{id} else log.calls)
            && t.log.sent == (if called then log.sent + {Sending(pc.item, RequestOf(pc.item))} else log.sent)
            && t.db.attempts == db.attempts[att := db.attempts[att].(
                 status := if db.attempts[att].fencingToken != pc.token then db.attempts[att].status
                           else if r.Delivered? then Ledger.Succeeded
                           else if r.Uncertain? then Ledger.UnknownEffect else Ledger.Failed)]
            && t.db.outbox == db.outbox[id := db.outbox[id].(
                 status := if r.Delivered? then Outbox.Completed else if r.Uncertain? then Outbox.Uncertain
                           else if r.Final? then Outbox.Failed else Outbox.Executing)]
            && t.db.decisions == if r.Retry? then db.decisions
                 else WithState(db.decisions, d, if r.Delivered? then Gate.Executed else if r.Uncertain? then Gate.UnknownEffect
                                                 else Gate.ExecutionFailed)
  {
    var request, marks;
    request, r := Requests(db, log, p, pc, fault, called);
    var asked := Play(db, log, p, pc, request);
    marks := Settles(asked.db, asked.log, p, asked.next, r, fault);
    actions := request + marks;
    PlayThen(db, log, p, pc, request, marks);
  }

  // ----- one item, from the claim to the result

  lemma StateTwice(t: map<nat, Decision>, d: nat, a: Gate.ExecutionState, b: Gate.ExecutionState)
    ensures WithState(WithState(t, d, a), d, b) == WithState(t, d, b)
  {
  }

  /**
    An undisturbed item in the transition system, for every fault: an ambiguous one leaves the row UNCERTAIN, the attempt
    UNKNOWN_EFFECT and the decision in UNKNOWN_EFFECT; a transient one below the limit leaves the row in flight, the attempt
    FAILED and the decision EXECUTING; a permanent one, or a transient one at the limit, fails all three; none completes
    them. The attempt follows only under the row's first claim.
   */
  lemma ItemAlone(
    db: Db, log: Log, p: Slot, todo: seq<Item>, item: Item, now: int, leaseMs: int, att: nat, ledgerNow: int,
    fault: Option<Category>, called: bool)
    returns (actions: seq<PassAction>, r: Result)
    requires item.id in db.outbox && att !in db.used && att !in db.attempts
    requires var row := db.outbox[item.id];
             row.status.Pending? || ((row.status.Claimed? || row.status.Executing?) && row.claimExpiry.Some? && row.claimExpiry.value < now)
    requires !Ledger.NumberTaken(db.attempts, item.decisionId, db.outbox[item.id].attempts + 1)
    requires if called then !RequestOf(item).Refused? else fault.Some?
    ensures r == match fault
              case None => Delivered
              case Some(Ambiguous) => Uncertain
              case Some(Permanent) => Final
              case Some(Transient) => if db.outbox[item.id].attempts + 1 >= db.outbox[item.id].maxAttempts then Final else Retry
    ensures var row := db.outbox[item.id];
            var token, number := row.fencingToken + 1, row.attempts + 1;
            var t := Play(db, log, p, Working([item] + todo), actions);
            && t.Turn? && t.next == Working(todo) && t.db.approvals == db.approvals && t.db.used == db.used + {att}
            && t.log.calls == (if called then log.calls + multiset{item.id} else log.calls)
            && t.log.sent == (if called then log.sent + {Sending(item, RequestOf(item))} else log.sent)
            && t.db.outbox == db.outbox[item.id := Outbox.Row(
                 row.sessionId, row.decisionId, row.action, row.payload,
                 match r
                 case Delivered => Outbox.Completed
                 case Uncertain => Outbox.Uncertain
                 case Final => Outbox.Failed
                 case Retry => Outbox.Executing,
                 Some(p.owner), Some(now + leaseMs), token, number, row.maxAttempts, row.lastError)]
            && t.db.attempts == db.attempts[att := Ledger.Row(
                 item.decisionId, number,
                 if token != 2 then Ledger.Claimed else if r.Delivered? then Ledger.Succeeded
                 else if r.Uncertain? then Ledger.UnknownEffect else Ledger.Failed,
                 Some(p.owner), Some(ledgerNow + leaseMs), 2, ledgerNow)]
            && t.db.decisions == WithState(
                 db.decisions, item.decisionId,
                 match r
                 case Delivered => Gate.Executed
                 case Uncertain => Gate.UnknownEffect
                 case Final => Gate.ExecutionFailed
                 case Retry => Gate.Executing)
  {
    var pc := Working([item] + todo);
    var preparation := Preparation(now, leaseMs, att, ledgerNow);
    Prepares(db, log, p, todo, item, now, leaseMs, att, ledgerNow);
    var ready := Play(db, log, p, pc, preparation);
    var rest;
    rest, r := Finishes(ready.db, ready.log, p, ready.next, fault, called);
    actions := preparation + rest;
    PlayThen(db, log, p, pc, preparation, rest);
    StateTwice(db.decisions, item.decisionId, Gate.Executing,
               match r case Delivered => Gate.Executed case Uncertain => Gate.UnknownEffect case _ => Gate.ExecutionFailed);
  }

  // ----- one attempt of a sweep

  /** A sweep that has taken an attempt hands it to a human, or fails it when its decision is gone. */
  lemma AttemptAlone(db: Db, log: Log, r: Slot, stale: seq<nat>, x: nat, now: int, leaseMs: int)
    requires x in db.attempts
    ensures var row := db.attempts[x];
            var first := SweepTurn(db, log, r, Sweeping([x] + stale), Recover(now, leaseMs));
            if row.status.Pending? || ((row.status.Claimed? || row.status.Executing?) && row.claimExpiry.Some? && row.claimExpiry.value < now)
            then
              && first.Turn? && first.next == Recovered(stale, x)
              && var human := SweepTurn(first.db, first.log, r, first.next, Escalate);
              && human.Turn? && human.next == Sweeping(stale)
              && human.db == db.(attempts := db.attempts[x := Ledger.Row(
                   row.decisionId, row.attemptNumber, Ledger.NeedsReconciliation, Some(r.owner), Some(now + leaseMs),
                   row.fencingToken + 1, row.createdAt)])
              && var gone := SweepTurn(first.db, first.log, r, first.next, FailOrphan);
              && (gone.Turn? <==> row.decisionId !in db.decisions)
              && (gone.Turn? ==> gone.next == Sweeping(stale) && gone.db == db.(attempts := db.attempts[x := Ledger.Row(
                   row.decisionId, row.attemptNumber, Ledger.Failed, Some(r.owner), Some(now + leaseMs),
                   row.fencingToken + 1, row.createdAt)]))
            else first == Turn(db, log, Sweeping(stale))
  {
    assert ([x] + stale)[0] == x && ([x] + stale)[1..] == stale;
  }
}
