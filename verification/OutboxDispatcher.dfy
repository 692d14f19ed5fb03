/**
  The dispatcher's pass over the outbox as it runs when nobody else moves: the tables it leaves behind, row by row. What
  is left of this when other actors interleave is the subject of DurableState.
 */
module OutboxDispatcher {
  import opened Basics
  import opened DurableState
  import opened OperatorReview
  import Gate = ExecutionGate
  import Outbox = OutboxRepository
  import Ledger = ExecutionAttemptRepository

  /** What the outside contributes to one item: clock readings, a fresh id, and how Jules and the client's validation fail. */
  datatype World = World(
    now: int, ledgerNow: int, attemptId: nat, lookup: Option<Category>, refusal: Category, reply: Option<Category>)

  /** Clashed throws out of the pass: the ledger already has an attempt with that number. */
  datatype Outcome = Skipped | Clashed | Dispatched(result: Result)

  function Fault(w: World, item: Item): Option<Category> {
    if w.lookup.Some? then w.lookup
    else if RequestOf(item).Refused? then Some(w.refusal)
    else w.reply
  }

  /** How an item ends, by what went wrong and by whether this is its last attempt. */
  function Ending(w: World, item: Item, number: nat, max: nat): Result {
    match Fault(w, item)
    case None => Delivered
    case Some(c) => ResultOf(c, number, max)
  }

  predicate Claimable(t: Outbox.Table, id: nat, now: int) {
    id in t && Outbox.CanClaim(t[id], now)
  }

  /** The ledger's own token is 2 after its claim; marks under any other outbox token miss. */
  function LedgerEnd(token: nat, r: Result): Ledger.Status {
    if token == 2 then LedgerStatus(r) else Ledger.Claimed
  }

  /** The attempt is recorded and leased; its mark moves it on exactly when this is the first claim of the outbox row. */
  method Record(ledger: Ledger.Repository, w: World, item: Item, owner: string, number: nat, token: nat, leaseMs: int)
    returns (ok: bool)
    requires w.attemptId !in ledger.rows
    modifies ledger
    ensures ok <==> !Ledger.NumberTaken(old(ledger.rows), item.decisionId, number)
    ensures !ok ==> ledger.rows == old(ledger.rows)
    ensures ok ==> w.attemptId in ledger.rows
    ensures ok ==>
      var row := Ledger.Leased(Ledger.NewRow(item.decisionId, number, w.ledgerNow), owner, w.ledgerNow, leaseMs);
      ledger.rows == old(ledger.rows)[w.attemptId := if token == 2 then row.(status := Ledger.Executing) else row]
  {
    ok := ledger.Create(w.attemptId, item.decisionId, number, w.ledgerNow);
    if ok {
      ghost var before := ledger.rows;
      var _ := ledger.ClaimPending(w.attemptId, owner, w.ledgerNow, leaseMs);
      Ledger.LeaseIsDetermined(before, ledger.rows, w.attemptId, owner, w.ledgerNow, leaseMs);
      before := ledger.rows;
      var started := ledger.MarkExecuting(w.attemptId, owner, Some(token));
      Ledger.MoveIsDetermined(before, ledger.rows, w.attemptId, Ledger.Executing);
    }
  }

  /** The mark of one result on the ledger. */
  method SettleAttempt(ledger: Ledger.Repository, id: nat, owner: string, token: nat, result: Result)
    requires id in ledger.rows && Ledger.InFlight(ledger.rows[id]) && ledger.rows[id].claimOwner == Some(owner)
    modifies ledger
    ensures ledger.rows == if old(ledger.rows)[id].fencingToken == token
                           then old(ledger.rows)[id := old(ledger.rows)[id].(status := LedgerStatus(result))]
                           else old(ledger.rows)
  {
    ghost var before := ledger.rows;
    var ok: bool;
    match result {
      case Delivered => ok := ledger.MarkSucceeded(id, Some(owner), Some(token));
      case Uncertain => ok := ledger.MarkUnknownEffect(id, Some(owner), Some(token));
      case _ => ok := ledger.MarkFailed(id, Some(owner), Some(token));
    }
    Ledger.EndIsDetermined(before, ledger.rows, id, Some(owner), Some(token), LedgerStatus(result), ok);
  }

  /** The mark of one result on the outbox; a failure that will be retried leaves none. */
  method SettleRow(outbox: Outbox.Repository, id: nat, owner: string, token: nat, error: string, result: Result)
    requires id in outbox.rows && Outbox.HeldUnder(outbox.rows[id], owner, token)
    modifies outbox
    ensures Outbox.OnlyRow(old(outbox.rows), outbox.rows, id)
    ensures result.Retry? ==> outbox.rows == old(outbox.rows)
    ensures !result.Retry? ==>
      && outbox.rows[id].status == OutboxStatus(result) && Outbox.Closed(outbox.rows[id])
      && Outbox.SameOrder(old(outbox.rows)[id], outbox.rows[id]) && Outbox.SameHold(old(outbox.rows)[id], outbox.rows[id])
  {
    match result {
      case Delivered => var _ := outbox.MarkCompleted(id, owner, token);
      case Uncertain => var _ := outbox.MarkUncertain(id, owner, error, token);
      case Final => var _ := outbox.MarkFailed(id, owner, error, token);
      case Retry =>
    }
  }

  /** The calls to Jules: the session is looked up, then the plan approved or the text sent. */
  method Send(item: Item, w: World) returns (sent: Option<Request>, fault: Option<Category>)
    ensures fault == Fault(w, item)
    ensures sent == if w.lookup.None? && !RequestOf(item).Refused? then Some(RequestOf(item)) else None
  {
    sent, fault := None, w.lookup;
    if fault.None? {
      if item.action.ApprovePlan? {
        sent, fault := Some(ApprovePlan(item.sessionId)), w.reply;
      } else if item.payload == "" {
        fault := Some(w.refusal);
      } else {
        sent, fault := Some(Message(item.sessionId, item.payload)), w.reply;
      }
    }
  }

  /** A claimed row after its turn is out of reach, or in this owner's hands until the lease ends. */
  ghost predicate Stands(row: Outbox.Row, owner: string, limit: int, outcome: Outcome) {
    if outcome.Dispatched? && !outcome.result.Retry?
    then row.status == OutboxStatus(outcome.result) && Outbox.Closed(row)
    else
      && Outbox.HeldOnlyBy(row, owner, row.fencingToken) && Outbox.LeasedUntil(row, limit)
      && (outcome.Dispatched? ==> row.status.Executing?)
  }

  ghost predicate RowAfter(before: Outbox.Table, after: Outbox.Table, id: nat, owner: string, limit: int, outcome: Outcome) {
    && id in before && Outbox.OnlyRow(before, after, id) && Outbox.SameOrder(before[id], after[id])
    && after[id].attempts == before[id].attempts + 1 && after[id].fencingToken == before[id].fencingToken + 1
    && Stands(after[id], owner, limit, outcome)
  }

  /** The ledger gains one row, and it has `status`; unless resolved, it is leased until `limit`. */
  ghost predicate Gains(
    before: Ledger.Table, after: Ledger.Table, id: nat, recorded: Ledger.Row, status: Ledger.Status, limit: int)
  {
    && after.Keys == before.Keys + {id} && (forall x | x in before :: x in after && after[x] == before[x])
    && Ledger.SameAttempt(after[id], recorded) && after[id].status == status
    && (Ledger.InFlight(after[id]) ==> Ledger.LeasedUntil(after[id], limit))
  }

  lemma StartKeepsHold(before: Outbox.Table, after: Outbox.Table, id: nat, owner: string, token: nat, limit: int, updated: bool)
    requires id in before && Outbox.HeldOnlyBy(before[id], owner, token) && Outbox.LeasedUntil(before[id], limit)
    requires before[id].status.Claimed? && Outbox.Starts(before, after, id, owner, token, updated)
    ensures updated && Outbox.HeldOnlyBy(after[id], owner, token) && Outbox.LeasedUntil(after[id], limit)
  {
    Outbox.HoldIsDetermined(before[id], owner, token, limit);
  }

  /** Claims the row and has it under way. */
  method Grab(outbox: Outbox.Repository, id: nat, owner: string, now: int, leaseMs: int) returns (claimed: Option<Outbox.Row>)
    modifies outbox
    ensures claimed.Some? <==> Claimable(old(outbox.rows), id, now)
    ensures claimed.None? ==> outbox.rows == old(outbox.rows)
    ensures claimed.Some? ==>
      && RowAfter(old(outbox.rows), outbox.rows, id, owner, now + leaseMs, Clashed)
      && outbox.rows[id] == claimed.value && Outbox.HeldUnder(claimed.value, owner, claimed.value.fencingToken)
      && claimed.value.status.Claimed?
  {
    claimed := outbox.ClaimRow(id, owner, now, leaseMs);
    if claimed.Some? {
      Outbox.HoldIsDetermined(claimed.value, owner, old(outbox.rows)[id].fencingToken + 1, now + leaseMs);
    }
  }

  /** From the row's mark on: the calls and what they leave behind. */
  method Execute(
    item: Item, w: World, owner: string, error: string, number: nat, token: nat, max: nat, ghost limit: int,
    ledger: Ledger.Repository, outbox: Outbox.Repository, decisions: DecisionRepository)
    returns (result: Result, sent: Option<Request>)
    requires w.attemptId in ledger.rows && Ledger.InFlight(ledger.rows[w.attemptId])
    requires ledger.rows[w.attemptId].claimOwner == Some(owner)
    requires item.id in outbox.rows && outbox.rows[item.id].status.Claimed? && outbox.rows[item.id].fencingToken == token
    requires Outbox.HeldOnlyBy(outbox.rows[item.id], owner, token) && Outbox.LeasedUntil(outbox.rows[item.id], limit)
    modifies ledger, outbox, decisions
    ensures result == Ending(w, item, number, max)
    ensures sent == if w.lookup.None? && !RequestOf(item).Refused? then Some(RequestOf(item)) else None
    ensures Outbox.OnlyRow(old(outbox.rows), outbox.rows, item.id)
    ensures Outbox.SameOrder(old(outbox.rows)[item.id], outbox.rows[item.id])
    ensures Outbox.SameHold(old(outbox.rows)[item.id], outbox.rows[item.id])
    ensures Stands(outbox.rows[item.id], owner, limit, Dispatched(result))
    ensures ledger.rows == if old(ledger.rows)[w.attemptId].fencingToken == token
                           then old(ledger.rows)[w.attemptId := old(ledger.rows)[w.attemptId].(status := LedgerStatus(result))]
                           else old(ledger.rows)
    ensures decisions.rows == MarkDecision(old(decisions.rows), item.decisionId,
                                           if result.Retry? then Gate.Executing else DecisionState(result))
  {
    ghost var shown := outbox.rows;
    var updated := outbox.MarkExecuting(item.id, owner, token);
    StartKeepsHold(shown, outbox.rows, item.id, owner, token, limit, updated);
    decisions.MarkExecuted(item.decisionId, Gate.Executing);
    var fault: Option<Category>;
    sent, fault := Send(item, w);
    result := if fault.None? then Delivered else ResultOf(fault.value, number, max);
    SettleAttempt(ledger, w.attemptId, owner, token, result);
    SettleRow(outbox, item.id, owner, token, error, result);
    if !result.Retry? {
      decisions.MarkExecuted(item.decisionId, DecisionState(result));
    }
  }

  /**
    One item, from claim to result. Its row ends out of reach, or, to be retried, in this owner's hands until the lease
    ends. The ledger's attempt ends with the result exactly when this was the row's first claim, and stays claimed after
    any later one.
   */
  method ProcessItem(
    item: Item, w: World, owner: string, leaseMs: int, error: string,
    ledger: Ledger.Repository, outbox: Outbox.Repository, decisions: DecisionRepository)
    returns (outcome: Outcome, sent: Option<Request>)
    requires w.attemptId !in ledger.rows
    modifies ledger, outbox, decisions
    ensures outcome.Skipped? <==> !Claimable(old(outbox.rows), item.id, w.now)
    ensures outcome.Skipped? ==> outbox.rows == old(outbox.rows)
    ensures !outcome.Skipped? ==>
      && RowAfter(old(outbox.rows), outbox.rows, item.id, owner, w.now + leaseMs, outcome)
      && (outcome.Clashed? <==> Ledger.NumberTaken(old(ledger.rows), item.decisionId, old(outbox.rows)[item.id].attempts + 1))
    ensures outcome.Dispatched? ==>
      var row := old(outbox.rows)[item.id];
      && outcome.result == Ending(w, item, row.attempts + 1, row.maxAttempts)
      && Gains(old(ledger.rows), ledger.rows, w.attemptId, Ledger.NewRow(item.decisionId, row.attempts + 1, w.ledgerNow),
               LedgerEnd(row.fencingToken + 1, outcome.result), w.ledgerNow + leaseMs)
      && decisions.rows == MarkDecision(old(decisions.rows), item.decisionId,
                                        if outcome.result.Retry? then Gate.Executing else DecisionState(outcome.result))
    ensures !outcome.Dispatched? ==> ledger.rows == old(ledger.rows) && decisions.rows == old(decisions.rows)
    ensures sent == if outcome.Dispatched? && w.lookup.None? && !RequestOf(item).Refused? then Some(RequestOf(item)) else None
    // which fault gives which result
    ensures outcome.Dispatched? ==>
      var row := old(outbox.rows)[item.id];
      var refused := !item.action.ApprovePlan? && item.payload == "";
      var fault := if w.lookup.Some? then w.lookup else if refused then Some(w.refusal) else w.reply;
      && (outcome.result.Delivered? <==> fault == None)
      && (outcome.result.Uncertain? <==> fault == Some(Ambiguous))
      && (outcome.result.Retry? <==> fault == Some(Transient) && row.attempts + 1 < row.maxAttempts)
      && (outcome.result.Final? <==> fault == Some(Permanent) || (fault == Some(Transient) && row.attempts + 1 >= row.maxAttempts))
    // and what each result leaves in the three tables
    ensures outcome.Dispatched? ==>
      var status := outbox.rows[item.id].status;
      match outcome.result
      case Delivered => status.Completed?
      case Uncertain => status.Uncertain?
      case Final => status.Failed?
      case Retry => status.Executing?
    ensures outcome.Dispatched? && old(outbox.rows)[item.id].fencingToken == 1 ==>
      var status := ledger.rows[w.attemptId].status;
      match outcome.result
      case Delivered => status.Succeeded?
      case Uncertain => status.UnknownEffect?
      case _ => status.Failed?
    ensures outcome.Dispatched? && item.decisionId in old(decisions.rows) ==>
      var state := decisions.rows[item.decisionId].state;
      match outcome.result
      case Delivered => state.Executed?
      case Uncertain => state.UnknownEffect?
      case Final => state.ExecutionFailed?
      case Retry => state.Executing?
    // the plan approved, or the text sent; a text that is empty never is
    ensures sent.Some? ==>
      && outcome.Dispatched? && w.lookup.None?
      && sent.value == if item.action.ApprovePlan? then ApprovePlan(item.sessionId) else Message(item.sessionId, item.payload)
    ensures outcome.Dispatched? && w.lookup.None? && (item.action.ApprovePlan? || item.payload != "") ==> sent.Some?
    ensures !item.action.ApprovePlan? && item.payload == "" ==> sent.None?
  {
    var claimed := Grab(outbox, item.id, owner, w.now, leaseMs);
    if claimed.None? {
      return Skipped, None;
    }
    var number, token := claimed.value.attempts, claimed.value.fencingToken;
    var recorded := Record(ledger, w, item, owner, number, token, leaseMs);
    if !recorded {
      return Clashed, None;
    }
    var result: Result;
    result, sent := Execute(item, w, owner, error, number, token, claimed.value.maxAttempts, w.now + leaseMs, ledger, outbox, decisions);
    EndingMeans(w, item, number, claimed.value.maxAttempts);
    ResultMeans(result);
    outcome := Dispatched(result);
  }

  lemma EndingMeans(w: World, item: Item, number: nat, max: nat)
    ensures var refused := !item.action.ApprovePlan? && item.payload == "";
            var fault := if w.lookup.Some? then w.lookup else if refused then Some(w.refusal) else w.reply;
            var result := Ending(w, item, number, max);
            && (result.Delivered? <==> fault == None)
            && (result.Uncertain? <==> fault == Some(Ambiguous))
            && (result.Retry? <==> fault == Some(Transient) && number < max)
            && (result.Final? <==> fault == Some(Permanent) || (fault == Some(Transient) && number >= max))
  {
  }

  lemma ResultMeans(r: Result)
    ensures match r
            case Delivered => OutboxStatus(r).Completed? && LedgerStatus(r).Succeeded? && DecisionState(r).Executed?
            case Uncertain => OutboxStatus(r).Uncertain? && LedgerStatus(r).UnknownEffect? && DecisionState(r).UnknownEffect?
            case Final => OutboxStatus(r).Failed? && LedgerStatus(r).Failed? && DecisionState(r).ExecutionFailed?
            case Retry => LedgerStatus(r).Failed?
  {
  }

  // ----- one pass

  datatype Counts = Counts(scanned: nat, dispatched: nat, succeeded: nat, failed: nat, uncertain: nat)

  const NOTHING := Counts(0, 0, 0, 0, 0)

  function Counted(c: Counts, outcome: Outcome): Counts {
    if !outcome.Dispatched? then c
    else
      var d := c.(dispatched := c.dispatched + 1);
      match outcome.result
      case Delivered => d.(succeeded := d.succeeded + 1)
      case Uncertain => d.(uncertain := d.uncertain + 1)
      case _ => d.(failed := d.failed + 1)
  }

  /** A row that had its turn in this pass. */
  ghost predicate Moved(row: Outbox.Row, row': Outbox.Row, owner: string) {
    && Outbox.SameOrder(row, row') && row'.attempts == row.attempts + 1 && row'.fencingToken == row.fencingToken + 1
    && (Outbox.Closed(row') || Outbox.HeldOnlyBy(row', owner, row'.fencingToken))
  }

  /** Exactly the rows in `turns` have had theirs. */
  ghost predicate MovedExactly(before: Outbox.Table, after: Outbox.Table, turns: seq<nat>, owner: string) {
    && after.Keys == before.Keys
    && forall id | id in before :: if id in turns then Moved(before[id], after[id], owner) else after[id] == before[id]
  }

  /** What was sent: for rows that had their turn, none twice, and what the row asked for. */
  ghost predicate SentFor(before: Outbox.Table, turns: seq<nat>, sent: map<nat, Request>) {
    forall id | id in sent :: id in turns && id in before && sent[id] == RequestOf(ItemOf(id, before[id]))
  }

  lemma TurnMoves(before: Outbox.Table, t: Outbox.Table, t': Outbox.Table, found: seq<nat>, n: nat, owner: string, limit: int, outcome: Outcome)
    requires Distinct(found) && n < |found| && MovedExactly(before, t, found[..n], owner)
    requires RowAfter(t, t', found[n], owner, limit, outcome)
    ensures MovedExactly(before, t', found[..n + 1], owner)
  {
    assert found[..n + 1] == found[..n] + [found[n]];
    assert found[n] !in found[..n];
  }

  predicate EndsAs(row: Outbox.Row, r: Result) {
    if r.Retry? then Outbox.InFlight(row) else row.status == OutboxStatus(r)
  }

  /** How the rows ended that had their turn: each as its result says, and a retried one still in flight. */
  ghost predicate Ended(after: Outbox.Table, turns: seq<nat>, results: seq<Result>) {
    && |results| <= |turns|
    && (forall i | 0 <= i < |results| :: turns[i] in after && EndsAs(after[turns[i]], results[i]))
  }

  /** A row that counts as succeeded was sent for. */
  predicate SuccessesSent(turns: seq<nat>, results: seq<Result>, sent: map<nat, Request>) {
    |results| <= |turns| && forall i | 0 <= i < |results| :: results[i].Delivered? ==> turns[i] in sent
  }

  ghost predicate CountedBy(c: Counts, results: seq<Result>) {
    && c.dispatched == |results|
    && c.succeeded == multiset(results)[Delivered] && c.uncertain == multiset(results)[Uncertain]
    && c.failed == multiset(results)[Final] + multiset(results)[Retry]
  }

  lemma TurnEnds(t: Outbox.Table, t': Outbox.Table, found: seq<nat>, n: nat, results: seq<Result>, owner: string, limit: int, r: Result)
    requires Distinct(found) && n < |found| && |results| == n && Ended(t, found[..n], results)
    requires RowAfter(t, t', found[n], owner, limit, Dispatched(r))
    ensures Ended(t', found[..n + 1], results + [r])
  {
    if r.Retry? {
      assert Outbox.HeldUnder(t'[found[n]], owner, t'[found[n]].fencingToken);
    }
    forall i | 0 <= i < n
      ensures t'[found[i]] == t[found[i]]
    {
      assert found[i] == found[..n][i] && found[i] != found[n];
    }
  }

  lemma ResultCounts(c: Counts, results: seq<Result>, r: Result)
    requires CountedBy(c, results)
    ensures CountedBy(Counted(c, Dispatched(r)), results + [r])
  {
  }

  lemma ClashEnds(t: Outbox.Table, t': Outbox.Table, found: seq<nat>, n: nat, results: seq<Result>)
    requires Distinct(found) && n < |found| && |results| == n && Ended(t, found[..n], results) && Outbox.OnlyRow(t, t', found[n])
    ensures Ended(t', found[..n + 1], results)
  {
    forall i | 0 <= i < n
      ensures t'[found[i]] == t[found[i]]
    {
      assert found[i] == found[..n][i] && found[i] != found[n];
    }
  }

  /** From the n-th on: clock readings are not before the scan's, and the identifiers are new. */
  predicate Ready(worlds: seq<World>, n: nat, now: int, t: Ledger.Table) {
    && (forall j | n <= j < |worlds| :: worlds[j].now >= now && worlds[j].attemptId !in t)
    && (forall i, j | n <= i < j < |worlds| :: worlds[i].attemptId != worlds[j].attemptId)
  }

  lemma StaysReady(worlds: seq<World>, n: nat, now: int, before: Ledger.Table, after: Ledger.Table)
    requires n < |worlds| && Ready(worlds, n, now, before) && after.Keys <= before.Keys + {worlds[n].attemptId}
    ensures Ready(worlds, n + 1, now, after)
  {
    forall j | n + 1 <= j < |worlds|
      ensures worlds[j].now >= now && worlds[j].attemptId !in after
    {
      assert worlds[j].attemptId !in before.Keys && worlds[n].attemptId != worlds[j].attemptId;
    }
  }

  /** After `n` turns that did not clash. */
  ghost predicate Progress(
    scan: Outbox.Table, t: Outbox.Table, found: seq<nat>, n: nat, owner: string,
    counts: Counts, sent: map<nat, Request>, results: seq<Result>)
  {
    && |results| == n <= |found| && counts.scanned == |found| && CountedBy(counts, results)
    && MovedExactly(scan, t, found[..n], owner) && SentFor(scan, found[..n], sent) && Ended(t, found[..n], results)
    && SuccessesSent(found, results, sent)
  }

  function Sent(sent: map<nat, Request>, id: nat, request: Option<Request>): map<nat, Request> {
    if request.Some? then sent[id := request.value] else sent
  }

  lemma TurnSends(scan: Outbox.Table, found: seq<nat>, n: nat, sent: map<nat, Request>, request: Option<Request>)
    requires n < |found| && found[n] in scan && SentFor(scan, found[..n], sent)
    requires request.Some? ==> request.value == RequestOf(ItemOf(found[n], scan[found[n]]))
    ensures SentFor(scan, found[..n + 1], Sent(sent, found[n], request))
  {
    assert found[..n + 1] == found[..n] + [found[n]];
  }

  lemma TurnSucceeds(
    found: seq<nat>, n: nat, sent: map<nat, Request>, request: Option<Request>, results: seq<Result>, outcome: Outcome)
    requires |results| == n < |found| && SuccessesSent(found, results, sent)
    requires outcome == Dispatched(Delivered) ==> request.Some?
    ensures SuccessesSent(found, if outcome.Dispatched? then results + [outcome.result] else results, Sent(sent, found[n], request))
  {
    var sent' := Sent(sent, found[n], request);
    assert forall i | 0 <= i < n && results[i].Delivered? :: found[i] in sent';
  }

  /** After `n` turns that did not clash and one that did. */
  ghost predicate Stopped(
    scan: Outbox.Table, t: Outbox.Table, found: seq<nat>, n: nat, owner: string,
    counts: Counts, sent: map<nat, Request>, results: seq<Result>)
  {
    && |results| == n < |found| && counts.scanned == |found| && CountedBy(counts, results)
    && MovedExactly(scan, t, found[..n + 1], owner) && SentFor(scan, found[..n + 1], sent) && Ended(t, found[..n + 1], results)
    && SuccessesSent(found, results, sent)
  }

  lemma TurnStops(
    scan: Outbox.Table, t: Outbox.Table, t': Outbox.Table, found: seq<nat>, n: nat, owner: string, limit: int,
    request: Option<Request>, counts: Counts, sent: map<nat, Request>, results: seq<Result>)
    requires Distinct(found) && n < |found| && found[n] in scan && Progress(scan, t, found, n, owner, counts, sent, results)
    requires RowAfter(t, t', found[n], owner, limit, Clashed)
    requires request.Some? ==> request.value == RequestOf(ItemOf(found[n], scan[found[n]]))
    ensures Stopped(scan, t', found, n, owner, counts, Sent(sent, found[n], request), results)
  {
    TurnMoves(scan, t, t', found, n, owner, limit, Clashed);
    ClashEnds(t, t', found, n, results);
    TurnSends(scan, found, n, sent, request);
    TurnSucceeds(found, n, sent, request, results, Clashed);
  }

  lemma TurnProgresses(
    scan: Outbox.Table, t: Outbox.Table, t': Outbox.Table, found: seq<nat>, n: nat, owner: string, limit: int, r: Result,
    request: Option<Request>, counts: Counts, sent: map<nat, Request>, results: seq<Result>)
    requires Distinct(found) && n < |found| && found[n] in scan && Progress(scan, t, found, n, owner, counts, sent, results)
    requires RowAfter(t, t', found[n], owner, limit, Dispatched(r)) && (r.Delivered? ==> request.Some?)
    requires request.Some? ==> request.value == RequestOf(ItemOf(found[n], scan[found[n]]))
    ensures Progress(scan, t', found, n + 1, owner, Counted(counts, Dispatched(r)), Sent(sent, found[n], request), results + [r])
  {
    TurnMoves(scan, t, t', found, n, owner, limit, Dispatched(r));
    TurnEnds(t, t', found, n, results, owner, limit, r);
    TurnSends(scan, found, n, sent, request);
    TurnSucceeds(found, n, sent, request, results, Dispatched(r));
    ResultCounts(counts, results, r);
  }

  /** The turn of the n-th row that the scan found. */
  method TakeTurn(
    ghost scan: Outbox.Table, ghost found: seq<nat>, ghost n: nat, now: int, w: World, owner: string, leaseMs: int, error: string,
    item: Item, ledger: Ledger.Repository, outbox: Outbox.Repository, decisions: DecisionRepository,
    before: Counts, earlier: map<nat, Request>, past: seq<Result>)
    returns (clashed: bool, counts: Counts, sent: map<nat, Request>, results: seq<Result>)
    requires Distinct(found) && n < |found| && found[n] in scan && item == ItemOf(found[n], scan[found[n]])
    requires Outbox.Scannable(scan[found[n]], now) && w.now >= now && w.attemptId !in ledger.rows
    requires Progress(scan, outbox.rows, found, n, owner, before, earlier, past)
    modifies ledger, outbox, decisions
    ensures ledger.rows.Keys <= old(ledger.rows).Keys + {w.attemptId}
    ensures if clashed then Stopped(scan, outbox.rows, found, n, owner, counts, sent, results)
            else Progress(scan, outbox.rows, found, n + 1, owner, counts, sent, results)
  {
    ghost var rows := outbox.rows;
    assert found[n] !in found[..n];
    var outcome, request := ProcessItem(item, w, owner, leaseMs, error, ledger, outbox, decisions);
    counts, sent, results := before, Sent(earlier, item.id, request), past;
    clashed := outcome.Clashed?;
    if clashed {
      TurnStops(scan, rows, outbox.rows, found, n, owner, w.now + leaseMs, request, before, earlier, past);
    } else {
      counts, results := Counted(before, outcome), past + [outcome.result];
      TurnProgresses(scan, rows, outbox.rows, found, n, owner, w.now + leaseMs, outcome.result, request, before, earlier, past);
    }
  }

  /** The turns of all rows that the scan found, until one of them clashes. */
  method DispatchAll(
    found: seq<nat>, now: int, worlds: seq<World>, owner: string, leaseMs: int, error: string,
    ledger: Ledger.Repository, outbox: Outbox.Repository, decisions: DecisionRepository)
    returns (counts: Counts, threw: bool, sent: map<nat, Request>, results: seq<Result>, n: nat)
    requires Distinct(found) && forall id | id in found :: id in outbox.rows && Outbox.Scannable(outbox.rows[id], now)
    requires |found| <= |worlds| && Ready(worlds, 0, now, ledger.rows)
    modifies ledger, outbox, decisions
    ensures n <= |found| && (if threw then n == |results| + 1 else n == |results| == |found|)
    ensures counts.scanned == |found| && CountedBy(counts, results) && Ended(outbox.rows, found[..n], results)
    ensures SuccessesSent(found, results, sent)
    ensures MovedExactly(old(outbox.rows), outbox.rows, found[..n], owner) && SentFor(old(outbox.rows), found[..n], sent)
    ensures n == 0 ==> ledger.rows == old(ledger.rows) && decisions.rows == old(decisions.rows)
  {
    ghost var scan := outbox.rows;
    var items := Items(outbox.rows, found);
    counts, threw, sent, results, n := NOTHING.(scanned := |found|), false, map[], [], 0;
    while n < |found|
      invariant Progress(scan, outbox.rows, found, n, owner, counts, sent, results) && !threw
      invariant Ready(worlds, n, now, ledger.rows)
      invariant n == 0 ==> ledger.rows == old(ledger.rows) && decisions.rows == old(decisions.rows)
    {
      ghost var attempts := ledger.rows;
      threw, counts, sent, results := TakeTurn(
        scan, found, n, now, worlds[n], owner, leaseMs, error, items[n], ledger, outbox, decisions, counts, sent, results);
      StaysReady(worlds, n, now, attempts, ledger.rows);
      n := n + 1;
      if threw {
        return;
      }
    }
  }

  /**
    One pass that nobody disturbs. It stops at once unless the safety state is RUNNING. Every scanned row gets its turn,
    so none is skipped, and ends as its result says; no other row changes; every row is sent for at most once, with what
    it asked for when it was scanned. A clash in the ledger throws away the rest of the pass.
   */
  method DispatchOnce(
    running: bool, now: int, worlds: seq<World>, owner: string, leaseMs: int, error: string,
    ledger: Ledger.Repository, outbox: Outbox.Repository, decisions: DecisionRepository)
    returns (counts: Counts, threw: bool, sent: map<nat, Request>, results: seq<Result>, turns: seq<nat>)
    requires |worlds| == 10 && Ready(worlds, 0, now, ledger.rows)
    modifies ledger, outbox, decisions
    ensures !running ==> counts == NOTHING && turns == [] && !threw
    ensures MovedExactly(old(outbox.rows), outbox.rows, turns, owner) && Ended(outbox.rows, turns, results)
    ensures Distinct(turns) && forall id | id in turns :: id in old(outbox.rows) && Outbox.Scannable(old(outbox.rows)[id], now)
    ensures running && !threw && |turns| < 10 ==>
      forall id | id in old(outbox.rows) && Outbox.Scannable(old(outbox.rows)[id], now) :: id in turns
    ensures SentFor(old(outbox.rows), turns, sent) && SuccessesSent(turns, results, sent)
    ensures CountedBy(counts, results) && (if threw then |turns| == |results| + 1 else |turns| == |results| == counts.scanned)
    ensures turns == [] ==> ledger.rows == old(ledger.rows) && decisions.rows == old(decisions.rows)
  {
    if !running {
      return NOTHING, false, map[], [], [];
    }
    var claimable := outbox.FindClaimable(10, now);
    var n: nat;
    counts, threw, sent, results, n := DispatchAll(claimable, now, worlds, owner, leaseMs, error, ledger, outbox, decisions);
    turns := claimable[..n];
    assert n == |claimable| ==> turns == claimable;
  }
}
