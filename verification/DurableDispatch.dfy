/** The steps of dispatcher passes keep the invariant. */
module DurableDispatch {
  import opened Basics
  import Gate = ExecutionGate
  import Outbox = OutboxRepository
  import Ledger = ExecutionAttemptRepository
  import opened DurableState
  import opened DurableInvariants

  /** Which kinds of step touch which table. */
  lemma PassTables(db: Db, log: Log, p: Slot, pc: Pass, a: PassAction, turn: Turn<Pass>)
    requires turn == PassTurn(db, log, p, pc, a) && turn.Turn?
    ensures db.used <= turn.db.used && turn.db.approvals == db.approvals
    ensures !a.StartDecision? && !a.Settle? ==> turn.db.decisions == db.decisions
    ensures !a.RecordAttempt? && !a.LeaseLedger? && !a.StartLedger? && !a.Settle? ==> turn.db.attempts == db.attempts
    ensures !a.ClaimNext? && !a.StartOutbox? && !a.Settle? ==> turn.db.outbox == db.outbox
    ensures !a.RecordAttempt? ==> turn.db.used == db.used
  {
  }

  /** And which part of the history. */
  lemma PassHistory(db: Db, log: Log, p: Slot, pc: Pass, a: PassAction, turn: Turn<Pass>)
    requires turn == PassTurn(db, log, p, pc, a) && turn.Turn?
    ensures turn.log == log.(calls := turn.log.calls, sent := turn.log.sent, grants := turn.log.grants,
                             marks := turn.log.marks, endings := turn.log.endings, clash := turn.log.clash)
    ensures !a.RecordAttempt? ==> turn.log.clash == log.clash
    ensures !a.Dispatch? ==> turn.log.calls == log.calls && turn.log.sent == log.sent
    ensures !a.ClaimNext? ==> turn.log.grants == log.grants
    ensures !a.Settle? ==> turn.log.marks == log.marks
  {
  }

  lemma ClaimKeepsOrders(t: Outbox.Table, id: nat, owner: string, now: int, leaseMs: int)
    ensures KeptOrders(t, Outbox.Claim(t, id, owner, now, leaseMs).0)
  {
  }

  lemma StartKeepsOrders(t: Outbox.Table, id: nat, owner: string, token: nat)
    ensures KeptOrders(t, Outbox.StartExecuting(t, id, owner, token).0)
  {
  }

  lemma MarkKeepsOrders(t: Outbox.Table, id: nat, owner: string, token: nat, status: Outbox.Status)
    ensures KeptOrders(t, Outbox.Resolve(t, id, owner, token, status, None).0)
  {
  }

  /** The statement that each kind of step sends to the outbox. */
  lemma PassOutbox(db: Db, log: Log, p: Slot, pc: Pass, a: PassAction, turn: Turn<Pass>)
    requires turn == PassTurn(db, log, p, pc, a) && turn.Turn?
    ensures a.ClaimNext? ==> pc.Working? && |pc.todo| > 0
    ensures a.ClaimNext? ==> turn.db.outbox == Outbox.Claim(db.outbox, pc.todo[0].id, p.owner, a.now, a.leaseMs).0
    ensures a.StartOutbox? ==> pc.Holding? && turn.db.outbox == Outbox.StartExecuting(db.outbox, pc.item.id, p.owner, pc.token).0
    ensures a.Settle? ==> pc.Holding? && pc.stage.Settling?
    ensures a.Settle? && pc.stage.done != 1 ==> turn.db.outbox == db.outbox
    ensures a.Settle? && pc.stage.done == 1 ==>
      turn.db.outbox == Outbox.Resolve(db.outbox, pc.item.id, p.owner, pc.token, OutboxStatus(pc.stage.result), None).0
  {
  }

  lemma PassOrders(db: Db, log: Log, p: Slot, pc: Pass, a: PassAction, turn: Turn<Pass>)
    requires turn == PassTurn(db, log, p, pc, a) && turn.Turn?
    ensures KeptOrders(db.outbox, turn.db.outbox)
  {
    PassOutbox(db, log, p, pc, a, turn);
    if a.ClaimNext? {
      ClaimKeepsOrders(db.outbox, pc.todo[0].id, p.owner, a.now, a.leaseMs);
    } else if a.StartOutbox? {
      StartKeepsOrders(db.outbox, pc.item.id, p.owner, pc.token);
    } else if a.Settle? {
      MarkKeepsOrders(db.outbox, pc.item.id, p.owner, pc.token, OutboxStatus(pc.stage.result));
    } else {
      PassTables(db, log, p, pc, a, turn);
      PassHistory(db, log, p, pc, a, turn);
    }
  }

  lemma PassLedger(db: Db, log: Log, p: Slot, pc: Pass, a: PassAction, turn: Turn<Pass>)
    requires turn == PassTurn(db, log, p, pc, a) && turn.Turn? && !a.RecordAttempt?
    ensures turn.db.attempts.Keys == db.attempts.Keys
    ensures forall x | x in db.attempts ::
      turn.db.attempts[x].decisionId == db.attempts[x].decisionId
      && turn.db.attempts[x].attemptNumber == db.attempts[x].attemptNumber
  {
    PassTables(db, log, p, pc, a, turn);
    PassHistory(db, log, p, pc, a, turn);
  }

  lemma PassShape(s: State, t: State, p: Slot, a: PassAction)
    requires PassStep(s, t, p, a)
    ensures p in t.passes && t == s.(db := t.db, log := t.log, passes := s.passes[p := t.passes[p]])
    ensures s.db.used <= t.db.used && t.db.approvals == s.db.approvals
    ensures t.log == s.log.(calls := t.log.calls, sent := t.log.sent, grants := t.log.grants, marks := t.log.marks,
                            endings := t.log.endings, clash := t.log.clash)
    ensures SameDecisions(s, t) && KeptOrders(s.db.outbox, t.db.outbox)
    ensures !a.RecordAttempt? ==> SameLedger(s, t)
    ensures !a.Dispatch? ==> t.log.calls == s.log.calls && t.log.sent == s.log.sent
  {
    var turn := PassTurn(s.db, s.log, p, s.passes[p], a);
    PassTables(s.db, s.log, p, s.passes[p], a, turn);
    PassHistory(s.db, s.log, p, s.passes[p], a, turn);
    PassOrders(s.db, s.log, p, s.passes[p], a, turn);
    PassDecisions(s.db, s.log, p, s.passes[p], a, turn);
    if !a.RecordAttempt? {
      PassLedger(s.db, s.log, p, s.passes[p], a, turn);
    }
  }

  lemma PassDecisions(db: Db, log: Log, p: Slot, pc: Pass, a: PassAction, turn: Turn<Pass>)
    requires turn == PassTurn(db, log, p, pc, a) && turn.Turn?
    ensures turn.db.decisions.Keys == db.decisions.Keys
    ensures forall d | d in db.decisions :: SameProposal(db.decisions[d], turn.db.decisions[d])
  {
    PassTables(db, log, p, pc, a, turn);
    PassHistory(db, log, p, pc, a, turn);
  }

  // ----- dispatcher steps

  lemma SubsetSize<T>(a: set<T>, b: set<T>)
    requires a <= b
    ensures |a| <= |b|
  {
    assert b == a + (b - a);
  }

  /** A move that neither scans nor claims: the to-do list stays, and the right to call is at most given up. */
  predicate PassLocal(pc: Pass, next: Pass, dispatched: bool) {
    || next.Resting?
    || (pc.Holding? && next == Working(pc.todo))
    || (pc.Holding? && next.Holding?
        && next.todo == pc.todo && next.item == pc.item && next.token == pc.token && next.number == pc.number && next.max == pc.max
        && !next.stage.Granted?
        && (BeforeDispatch(next.stage) ==> BeforeDispatch(pc.stage) && !dispatched)
        && (next.stage.Settling? && next.stage.result.Delivered? ==>
              dispatched || (pc.stage.Settling? && pc.stage.result.Delivered?)))
  }

  lemma PassIsLocal(db: Db, log: Log, p: Slot, pc: Pass, a: PassAction, turn: Turn<Pass>)
    requires turn == PassTurn(db, log, p, pc, a) && turn.Turn? && !a.Scan? && !a.ClaimNext?
    ensures PassLocal(pc, turn.next, a.Dispatch?)
    ensures a.Dispatch? ==>
      pc.Holding? && pc.stage.Ready? && turn.next.Holding? && !BeforeDispatch(turn.next.stage)
    ensures a.Dispatch? ==> turn.log.calls == log.calls + multiset{pc.item.id}
    ensures a.Dispatch? ==> turn.log.sent == log.sent + {Sending(pc.item, RequestOf(pc.item))} && !RequestOf(pc.item).Refused?
  {
  }

  lemma LocalKeepsPasses(s: State, t: State, p: Slot, a: PassAction)
    requires PassesOk(s) && PassStep(s, t, p, a) && !a.Scan? && !a.ClaimNext?
    ensures PassesOk(t)
  {
    PassShape(s, t, p, a);
    PassIsLocal(s.db, s.log, p, s.passes[p], a, PassTurn(s.db, s.log, p, s.passes[p], a));
    assert PassOk(s, s.passes[p]);
    LocalPassesOk(s, t, p, a.Dispatch?);
  }

  lemma LocalPassesOk(s: State, t: State, p: Slot, dispatched: bool)
    requires PassesOk(s) && p in s.passes && p in t.passes && t.passes == s.passes[p := t.passes[p]]
    requires KeptOrders(s.db.outbox, t.db.outbox) && PassLocal(s.passes[p], t.passes[p], dispatched)
    requires if dispatched
             then s.passes[p].Holding? && t.log.calls == s.log.calls + multiset{s.passes[p].item.id}
             else t.log.calls == s.log.calls
    ensures PassesOk(t)
  {
    assert PassOk(s, s.passes[p]);
    forall q | q in t.passes
      ensures PassOk(t, t.passes[q])
    {
      assert PassOk(s, s.passes[q]);
      TodoStaysOk(s.db.outbox, t.db.outbox, Todo(s.passes[q]));
    }
  }

  lemma ScanKeepsPasses(s: State, t: State, p: Slot, now: int, found: seq<nat>)
    requires PassesOk(s) && PassStep(s, t, p, Scan(now, found))
    ensures PassesOk(t)
  {
    PassShape(s, t, p, Scan(now, found));
    ScannedOk(s.db.outbox, found);
    forall q | q in t.passes
      ensures PassOk(t, t.passes[q])
    {
      assert PassOk(s, s.passes[q]);
    }
  }

  lemma ScannedOk(t: Outbox.Table, found: seq<nat>)
    requires Distinct(found) && forall id | id in found :: id in t
    ensures TodoOk(t, Items(t, found))
  {
  }

  lemma TodoStaysOk(a: Outbox.Table, b: Outbox.Table, todo: seq<Item>)
    requires TodoOk(a, todo) && forall o | o in a :: o in b && Outbox.SameOrder(a[o], b[o])
    ensures TodoOk(b, todo)
    ensures todo != [] ==> TodoOk(b, todo[1..])
  {
  }

  /** What a claim does to the claimed row and to the pass, when it succeeds. */
  ghost predicate ClaimedBy(s: State, t: State, p: Slot) {
    p in s.passes && p in t.passes && s.passes[p].Working? && s.passes[p].todo != [] &&
    var item := s.passes[p].todo[0];
    item.id in s.db.outbox && item.id in t.db.outbox &&
    var row, old_ := t.db.outbox[item.id], s.db.outbox[item.id];
    && row.fencingToken == old_.fencingToken + 1 && row.attempts == old_.attempts + 1 && row.status.Claimed?
    && Outbox.SameOrder(old_, row) && !Outbox.Terminal(old_)
    && t.db.outbox == s.db.outbox[item.id := row]
    && t.passes == s.passes[p := Holding(s.passes[p].todo[1..], item, row.fencingToken, row.attempts, row.maxAttempts, None, Granted)]
    && t.log == s.log.(grants := s.log.grants + multiset{(item.id, row.fencingToken)})
  }

  /** A claim on a row that is taken or gone only drops the item. */
  ghost predicate Skipped(s: State, t: State, p: Slot) {
    p in s.passes && p in t.passes && s.passes[p].Working? && s.passes[p].todo != []
    && t == s.(passes := s.passes[p := Working(s.passes[p].todo[1..])])
  }

  lemma ClaimOutcome(s: State, t: State, p: Slot, now: int, leaseMs: int)
    requires PassStep(s, t, p, ClaimNext(now, leaseMs))
    ensures Skipped(s, t, p) || ClaimedBy(s, t, p)
  {
  }

  lemma SkipKeepsPasses(s: State, t: State, p: Slot)
    requires PassesOk(s) && Skipped(s, t, p)
    ensures PassesOk(t)
  {
  }

  lemma ClaimKeepsPasses(s: State, t: State, p: Slot)
    requires RowsOk(s) && PassesOk(s) && ClaimedBy(s, t, p)
    ensures PassesOk(t)
  {
    var item := s.passes[p].todo[0];
    assert PassOk(s, s.passes[p]) && RowOk(s, item.id);
    assert Todo(s.passes[p])[0] == item;
    forall q | q in t.passes
      ensures PassOk(t, t.passes[q])
    {
      assert PassOk(s, s.passes[q]);
      TodoStaysOk(s.db.outbox, t.db.outbox, Todo(s.passes[q]));
    }
  }

  lemma PassKeepsPasses(s: State, t: State, p: Slot, a: PassAction)
    requires RowsOk(s) && PassesOk(s) && PassStep(s, t, p, a)
    ensures PassesOk(t)
  {
    if a.Scan? {
      ScanKeepsPasses(s, t, p, a.now, a.found);
    } else if a.ClaimNext? {
      ClaimOutcome(s, t, p, a.now, a.leaseMs);
      if Skipped(s, t, p) {
        SkipKeepsPasses(s, t, p);
      } else {
        ClaimKeepsPasses(s, t, p);
      }
    } else {
      LocalKeepsPasses(s, t, p, a);
    }
  }

  // rows

  lemma ClaimKeepsRows(s: State, t: State, p: Slot)
    requires RowsOk(s) && ClaimedBy(s, t, p)
    ensures RowsOk(t)
  {
    var id := s.passes[p].todo[0].id;
    assert RowOk(s, id);
    forall o | o in t.db.outbox
      ensures RowOk(t, o)
    {
      assert RowOk(s, o);
    }
  }

  /** Marking a row as executing changes nothing that is counted. */
  lemma StartKeepsRows(s: State, t: State, id: nat, owner: string, token: nat)
    requires RowsOk(s) && t.log.grants == s.log.grants && t.log.marks == s.log.marks
    requires t.db.outbox == Outbox.StartExecuting(s.db.outbox, id, owner, token).0
    ensures RowsOk(t)
  {
    forall o | o in t.db.outbox
      ensures RowOk(t, o)
    {
      assert RowOk(s, o);
    }
  }

  /** Resolving a row changes nothing that is counted but a first terminal mark. */
  lemma MarkKeepsRows(s: State, t: State, id: nat, owner: string, token: nat, status: Outbox.Status)
    requires RowsOk(s) && t.log.grants == s.log.grants
    requires var r := Outbox.Resolve(s.db.outbox, id, owner, token, status, None);
             t.db.outbox == r.0 && t.log.marks == if r.1 then s.log.marks + multiset{id} else s.log.marks
    requires status.Completed? || status.Failed? || status.Uncertain?
    ensures RowsOk(t)
  {
    forall o | o in t.db.outbox
      ensures RowOk(t, o)
    {
      assert RowOk(s, o);
    }
  }

  lemma SettleMarks(db: Db, log: Log, p: Slot, pc: Pass, turn: Turn<Pass>)
    requires turn == PassTurn(db, log, p, pc, Settle) && turn.Turn?
    ensures pc.Holding? && pc.stage.Settling? && turn.log.grants == log.grants
    ensures pc.stage.done != 1 ==> turn.db.outbox == db.outbox && turn.log.marks == log.marks
    ensures pc.stage.done == 1 ==>
      var r := Outbox.Resolve(db.outbox, pc.item.id, p.owner, pc.token, OutboxStatus(pc.stage.result), None);
      turn.db.outbox == r.0 && turn.log.marks == if r.1 then log.marks + multiset{pc.item.id} else log.marks
  {
  }

  lemma PassKeepsRows(s: State, t: State, p: Slot, a: PassAction)
    requires RowsOk(s) && PassStep(s, t, p, a)
    ensures RowsOk(t)
  {
    var pc, turn := s.passes[p], PassTurn(s.db, s.log, p, s.passes[p], a);
    PassTables(s.db, s.log, p, pc, a, turn);
    PassHistory(s.db, s.log, p, pc, a, turn);
    if a.ClaimNext? {
      ClaimOutcome(s, t, p, a.now, a.leaseMs);
      if Skipped(s, t, p) {
        FrameRows(s, t);
      } else {
        ClaimKeepsRows(s, t, p);
      }
    } else if a.StartOutbox? {
      PassOutbox(s.db, s.log, p, pc, a, turn);
      StartKeepsRows(s, t, pc.item.id, p.owner, pc.token);
    } else if a.Settle? {
      SettleMarks(s.db, s.log, p, pc, turn);
      if pc.stage.done == 1 {
        MarkKeepsRows(s, t, pc.item.id, p.owner, pc.token, OutboxStatus(pc.stage.result));
      } else {
        FrameRows(s, t);
      }
    } else {
      FrameRows(s, t);
    }
  }

  // counts

  lemma AttemptsOnlyByClaim(db: Db, log: Log, p: Slot, pc: Pass, a: PassAction, turn: Turn<Pass>)
    requires turn == PassTurn(db, log, p, pc, a) && turn.Turn? && !a.ClaimNext?
    ensures forall o | o in db.outbox :: o in turn.db.outbox && turn.db.outbox[o].attempts == db.outbox[o].attempts
  {
  }

  lemma LocalKeepsCounts(s: State, t: State, p: Slot, a: PassAction)
    requires CountsOk(s) && PassesOk(s) && PassStep(s, t, p, a) && !a.Scan? && !a.ClaimNext?
    ensures CountsOk(t)
  {
    var pc, turn := s.passes[p], PassTurn(s.db, s.log, p, s.passes[p], a);
    PassShape(s, t, p, a);
    PassIsLocal(s.db, s.log, p, pc, a, turn);
    AttemptsOnlyByClaim(s.db, s.log, p, pc, a, turn);
    assert PassOk(s, pc);
    LocalCounts(s, t, p, a.Dispatch?);
  }

  function Bit(b: bool): int {
    if b then 1 else 0
  }

  lemma SizeAfterOne<T>(a: set<T>, b: set<T>, p: T)
    requires a - {p} == b - {p}
    ensures |b| == |a| - Bit(p in a) + Bit(p in b)
  {
    assert a == if p in a then (a - {p}) + {p} else a - {p};
    assert b == if p in b then (b - {p}) + {p} else b - {p};
  }

  /** Moving one pass changes each count by what that pass contributes. */
  lemma Recount(passes: map<Slot, Pass>, p: Slot, next: Pass, o: nat)
    requires p in passes
    ensures |Awaiting(passes[p := next], o)| == |Awaiting(passes, o)| - Bit(Awaits(passes[p], o)) + Bit(Awaits(next, o))
    ensures |Callers(passes[p := next], o)| == |Callers(passes, o)| - Bit(MayCall(passes[p], o)) + Bit(MayCall(next, o))
  {
    SizeAfterOne(Awaiting(passes, o), Awaiting(passes[p := next], o), p);
    SizeAfterOne(Callers(passes, o), Callers(passes[p := next], o), p);
  }

  /** Awaited rows of a to-do list, with and without its head. */
  lemma AwaitsTail(pc: Pass, next: Pass, o: nat)
    requires pc.Working? && pc.todo != [] && Todo(next) == pc.todo[1..]
    requires forall i, j | 0 <= i < j < |pc.todo| :: pc.todo[i].id != pc.todo[j].id
    ensures Awaits(next, o) <==> Awaits(pc, o) && o != pc.todo[0].id
  {
    assert forall i | 0 <= i < |Todo(next)| :: Todo(next)[i] == pc.todo[i + 1];
    if Awaits(pc, o) && o != pc.todo[0].id {
      var i :| 0 <= i < |pc.todo| && pc.todo[i].id == o;
      assert Todo(next)[i - 1].id == o;
    }
    if Awaits(next, o) {
      var i :| 0 <= i < |Todo(next)| && Todo(next)[i].id == o;
      assert Todo(pc)[i + 1].id == o;
    }
  }

  lemma LocalCounts(s: State, t: State, p: Slot, dispatched: bool)
    requires CountsOk(s) && p in s.passes && p in t.passes && t.passes == s.passes[p := t.passes[p]]
    requires t.db.outbox.Keys == s.db.outbox.Keys && PassLocal(s.passes[p], t.passes[p], dispatched)
    requires forall o | o in s.db.outbox ::
               t.db.outbox[o].attempts == s.db.outbox[o].attempts && t.db.outbox[o].maxAttempts == s.db.outbox[o].maxAttempts
    requires if dispatched
             then s.passes[p].Holding? && BeforeDispatch(s.passes[p].stage) && s.passes[p].item.id in s.db.outbox
                  && t.passes[p].Holding? && !BeforeDispatch(t.passes[p].stage)
                  && t.log.calls == s.log.calls + multiset{s.passes[p].item.id}
             else t.log.calls == s.log.calls
    ensures CountsOk(t)
  {
    assert t.passes.Keys == s.passes.Keys;
    assert Todo(t.passes[p]) == [] || Todo(t.passes[p]) == Todo(s.passes[p]);
    forall o | o in t.db.outbox
      ensures CountOk(t, o)
    {
      assert CountOk(s, o);
      Recount(s.passes, p, t.passes[p], o);
      assert Awaits(t.passes[p], o) ==> Awaits(s.passes[p], o);
    }
  }

  lemma ScanKeepsCounts(s: State, t: State, p: Slot, now: int, found: seq<nat>)
    requires RowsOk(s) && CountsOk(s) && PassStep(s, t, p, Scan(now, found))
    ensures CountsOk(t)
  {
    assert t.passes.Keys == s.passes.Keys;
    var next := t.passes[p];
    assert Todo(next) == Items(s.db.outbox, found) && Todo(s.passes[p]) == [];
    forall o | o in t.db.outbox
      ensures CountOk(t, o)
    {
      assert CountOk(s, o) && RowOk(s, o);
      Recount(s.passes, p, next, o);
      if Awaits(next, o) {
        SubsetSize(Awaiting(t.passes, o), t.passes.Keys);
        var i :| 0 <= i < |found| && Items(s.db.outbox, found)[i].id == o;
        assert found[i] == o && Outbox.Scannable(s.db.outbox[o], now);
      }
    }
  }

  lemma SkipKeepsCounts(s: State, t: State, p: Slot)
    requires PassesOk(s) && CountsOk(s) && Skipped(s, t, p)
    ensures CountsOk(t)
  {
    assert t.passes.Keys == s.passes.Keys;
    assert PassOk(s, s.passes[p]) && Todo(s.passes[p]) == s.passes[p].todo;
    forall o | o in t.db.outbox
      ensures CountOk(t, o)
    {
      assert CountOk(s, o);
      Recount(s.passes, p, t.passes[p], o);
      AwaitsTail(s.passes[p], t.passes[p], o);
    }
  }

  lemma ClaimKeepsCounts(s: State, t: State, p: Slot)
    requires PassesOk(s) && CountsOk(s) && ClaimedBy(s, t, p)
    ensures CountsOk(t)
  {
    assert t.passes.Keys == s.passes.Keys;
    assert PassOk(s, s.passes[p]) && Todo(s.passes[p]) == s.passes[p].todo;
    var next := t.passes[p];
    assert Todo(s.passes[p])[0] == next.item;
    forall o | o in t.db.outbox
      ensures CountOk(t, o)
    {
      assert CountOk(s, o);
      Recount(s.passes, p, next, o);
      AwaitsTail(s.passes[p], next, o);
      assert MayCall(next, o) <==> o == next.item.id;
      assert Awaits(s.passes[p], next.item.id);
    }
  }

  lemma PassKeepsCounts(s: State, t: State, p: Slot, a: PassAction)
    requires RowsOk(s) && PassesOk(s) && CountsOk(s) && PassStep(s, t, p, a)
    ensures CountsOk(t)
  {
    if a.Scan? {
      ScanKeepsCounts(s, t, p, a.now, a.found);
    } else if a.ClaimNext? {
      ClaimOutcome(s, t, p, a.now, a.leaseMs);
      if Skipped(s, t, p) {
        SkipKeepsCounts(s, t, p);
      } else {
        ClaimKeepsCounts(s, t, p);
      }
    } else {
      LocalKeepsCounts(s, t, p, a);
    }
  }

  // the ledger

  /** The row a pass has claimed is the only one of its decision, and its attempt number has been reached. */
  lemma ClaimedRowIsTheOnlyOne(s: State, p: Slot)
    requires ApprovalsOk(s) && SourcesOk(s) && RowsOk(s) && PassesOk(s) && p in s.passes && s.passes[p].Holding?
    ensures var pc := s.passes[p];
            && pc.item.decisionId in s.db.decisions && HasOutbox(s, pc.item.decisionId)
            && forall o | o in s.db.outbox && s.db.outbox[o].decisionId == pc.item.decisionId ::
                 1 <= pc.number <= s.db.outbox[o].attempts
  {
    var pc := s.passes[p];
    assert PassOk(s, pc) && SourceOk(s, pc.item.id) && RowOk(s, pc.item.id);
    assert ApprovalOk(s, s.db.approvals[s.log.source[pc.item.id]]);
    forall o | o in s.db.outbox && s.db.outbox[o].decisionId == pc.item.decisionId
      ensures o == pc.item.id
    {
      assert SourceOk(s, o);
    }
  }

  lemma RecordInserts(s: State, t: State, p: Slot, att: nat, now: int)
    requires AttemptsOk(s) && PassStep(s, t, p, RecordAttempt(att, now))
    ensures var pc := s.passes[p];
            && pc.Holding? && pc.stage.Granted? && att !in s.db.used
            && !Ledger.NumberTaken(s.db.attempts, pc.item.decisionId, pc.number)
            && t.db == s.db.(used := s.db.used + {att},
                             attempts := s.db.attempts[att := Ledger.NewRow(pc.item.decisionId, pc.number, now)])
            && t.log == s.log && t.pipes == s.pipes
            && t.passes == s.passes[p := pc.(att := Some(att), stage := Recorded)]
  {
  }

  lemma RecordKeepsAttempts(s: State, t: State, p: Slot, att: nat, now: int)
    requires DecisionsOk(s) && PipesOk(s) && ApprovalsOk(s) && SourcesOk(s) && RowsOk(s) && PassesOk(s) && AttemptsOk(s)
    requires PassStep(s, t, p, RecordAttempt(att, now))
    ensures AttemptsOk(t)
  {
    var pc := s.passes[p];
    RecordInserts(s, t, p, att, now);
    ClaimedRowIsTheOnlyOne(s, p);
    var d := pc.item.decisionId;
    assert att !in s.db.attempts;
    forall w | w in t.pipes && (t.pipes[w].Won? || t.pipes[w].Numbered?)
      ensures t.pipes[w].id != d
    {
      RunHasNoOutbox(s, w);
    }
    forall q | q in t.passes && t.passes[q].Holding? && t.passes[q].stage.Granted?
      ensures q != p && s.passes[q] == t.passes[q] && (t.passes[q].item.decisionId != d || t.passes[q].number != pc.number)
    {
      PassesOnOneDecision(s, p, q);
    }
    NewAttempt(s, t, att, d, pc.number, now);
  }

  /** Two passes that hold claims for one decision hold different attempt numbers. */
  lemma PassesOnOneDecision(s: State, p: Slot, q: Slot)
    requires ApprovalsOk(s) && SourcesOk(s) && PassesOk(s) && p in s.passes && q in s.passes && p != q
    requires s.passes[p].Holding? && s.passes[q].Holding?
    ensures s.passes[p].item.decisionId != s.passes[q].item.decisionId || s.passes[p].number != s.passes[q].number
  {
  }

  /** A decision that a run still holds has no outbox row. */
  lemma RunHasNoOutbox(s: State, w: Slot)
    requires DecisionsOk(s) && PipesOk(s) && ApprovalsOk(s) && SourcesOk(s)
    requires w in s.pipes && (s.pipes[w].Won? || s.pipes[w].Numbered?)
    ensures !HasOutbox(s, s.pipes[w].id)
  {
    var pc := s.pipes[w];
    assert PipeOk(s, pc);
    if pc.Numbered? {
      AutoHasNoOutbox(s, pc.id);
    } else {
      assert !HasApproval(s, pc.id);
      forall o | o in s.db.outbox
        ensures s.db.outbox[o].decisionId != pc.id
      {
        assert SourceOk(s, o);
      }
    }
  }

  lemma ClaimKeepsAttempt(s: State, t: State, p: Slot, x: nat)
    requires AttemptOk(s, x) && ClaimedBy(s, t, p) && t.db == s.db.(outbox := t.db.outbox)
    ensures AttemptOk(t, x)
  {
    var d := s.db.attempts[x].decisionId;
    if HasOutbox(s, d) {
      var o :| o in s.db.outbox && s.db.outbox[o].decisionId == d;
      assert o in t.db.outbox && t.db.outbox[o].decisionId == d;
    }
  }

  /** The claim's attempt number is above every attempt that its decision has. */
  lemma NewClaimIsUnnumbered(s: State, t: State, p: Slot, x: nat)
    requires RowsOk(s) && PassesOk(s) && AttemptOk(s, x) && ClaimedBy(s, t, p)
    ensures var next := t.passes[p];
            s.db.attempts[x].decisionId != next.item.decisionId || s.db.attempts[x].attemptNumber != next.number
  {
  }

  lemma ClaimKeepsAttempts(s: State, t: State, p: Slot)
    requires RowsOk(s) && PassesOk(s) && AttemptsOk(s) && ClaimedBy(s, t, p)
    requires t.pipes == s.pipes && t.db == s.db.(outbox := t.db.outbox)
    ensures AttemptsOk(t)
  {
    forall x | x in t.db.attempts
      ensures AttemptOk(t, x)
      ensures t.db.attempts[x].decisionId != t.passes[p].item.decisionId || t.db.attempts[x].attemptNumber != t.passes[p].number
    {
      ClaimKeepsAttempt(s, t, p, x);
      NewClaimIsUnnumbered(s, t, p, x);
    }
  }

  lemma LocalKeepsAttempts(s: State, t: State, p: Slot, a: PassAction)
    requires AttemptsOk(s) && PassStep(s, t, p, a) && !a.RecordAttempt? && !a.ClaimNext?
    ensures AttemptsOk(t)
  {
    PassShape(s, t, p, a);
    if !a.Scan? {
      PassIsLocal(s.db, s.log, p, s.passes[p], a, PassTurn(s.db, s.log, p, s.passes[p], a));
    }
    assert !(t.passes[p].Holding? && t.passes[p].stage.Granted?);
    FrameAttempts(s, t);
  }

  lemma SkipKeepsAttempts(s: State, t: State, p: Slot)
    requires AttemptsOk(s) && Skipped(s, t, p)
    ensures AttemptsOk(t)
  {
  }

  lemma PassKeepsAttempts(s: State, t: State, p: Slot, a: PassAction)
    requires DecisionsOk(s) && PipesOk(s) && ApprovalsOk(s) && SourcesOk(s) && RowsOk(s) && PassesOk(s) && AttemptsOk(s)
    requires PassStep(s, t, p, a)
    ensures AttemptsOk(t)
  {
    if a.RecordAttempt? {
      RecordKeepsAttempts(s, t, p, a.freshId, a.now);
    } else if a.ClaimNext? {
      ClaimOutcome(s, t, p, a.now, a.leaseMs);
      if Skipped(s, t, p) {
        SkipKeepsAttempts(s, t, p);
      } else {
        PassTables(s.db, s.log, p, s.passes[p], a, PassTurn(s.db, s.log, p, s.passes[p], a));
        PassHistory(s.db, s.log, p, s.passes[p], a, PassTurn(s.db, s.log, p, s.passes[p], a));
        ClaimKeepsAttempts(s, t, p);
      }
    } else {
      LocalKeepsAttempts(s, t, p, a);
    }
  }

  // EXECUTED, and everything together

  /** The dispatcher writes EXECUTED only after a delivered call. */
  lemma PassWritesExecuted(db: Db, log: Log, p: Slot, pc: Pass, a: PassAction, turn: Turn<Pass>)
    requires turn == PassTurn(db, log, p, pc, a) && turn.Turn?
    ensures log.calls <= turn.log.calls
    ensures forall d | d in turn.db.decisions && turn.db.decisions[d].state == Gate.Executed ::
      d in db.decisions &&
      (turn.db.decisions[d] == db.decisions[d]
       || (pc.Holding? && d == pc.item.decisionId && pc.stage.Settling? && pc.stage.result.Delivered?))
  {
    PassTables(db, log, p, pc, a, turn);
    PassHistory(db, log, p, pc, a, turn);
  }

  lemma PassKeepsExecuted(s: State, t: State, p: Slot, a: PassAction)
    requires PassesOk(s) && ExecutedOk(s) && PassStep(s, t, p, a)
    ensures ExecutedOk(t)
  {
    var pc := s.passes[p];
    PassShape(s, t, p, a);
    PassWritesExecuted(s.db, s.log, p, pc, a, PassTurn(s.db, s.log, p, pc, a));
    assert PassOk(s, pc);
    if pc.Holding? && pc.stage.Settling? && pc.stage.result.Delivered? {
      assert pc.item.id in t.db.outbox && t.log.calls[pc.item.id] > 0;
      assert CalledFor(t, pc.item.decisionId);
    }
    FrameExecuted(s, t);
  }

  lemma PassKeepsTheRest(s: State, t: State)
    requires DecisionsOk(s) && PipesOk(s) && PostsOk(s) && ApprovalsOk(s) && StrandedOk(s) && SourcesOk(s)
    requires SameDecisions(s, t) && KeptOrders(s.db.outbox, t.db.outbox) && s.db.used <= t.db.used
    requires t.db.approvals == s.db.approvals && t.pipes == s.pipes
    requires t.log.posts == s.log.posts && t.log.stranded == s.log.stranded && t.log.source == s.log.source
    ensures DecisionsOk(t) && PipesOk(t) && PostsOk(t) && ApprovalsOk(t) && StrandedOk(t) && SourcesOk(t)
  {
    FrameDecisions(s, t);
    FramePipes(s, t);
    FramePosts(s, t);
    FrameApprovals(s, t);
    forall d
      ensures (HasApproval(t, d) <==> HasApproval(s, d)) && (HeldForReview(t, d) <==> HeldForReview(s, d))
    {
    }
    FrameStranded(s, t);
    FrameSources(s, t);
  }

  lemma PassKeepsInv(s: State, t: State, p: Slot, a: PassAction)
    requires Inv(s) && PassStep(s, t, p, a)
    ensures Inv(t)
  {
    PassShape(s, t, p, a);
    PassKeepsTheRest(s, t);
    PassKeepsRows(s, t, p, a);
    PassKeepsPasses(s, t, p, a);
    PassKeepsCounts(s, t, p, a);
    PassKeepsAttempts(s, t, p, a);
    PassKeepsExecuted(s, t, p, a);
  }

  lemma PassKeepsTerminal(db: Db, log: Log, p: Slot, pc: Pass, a: PassAction, turn: Turn<Pass>, o: nat)
    requires turn == PassTurn(db, log, p, pc, a) && turn.Turn? && o in db.outbox && Outbox.Terminal(db.outbox[o])
    ensures o in turn.db.outbox && turn.db.outbox[o] == db.outbox[o]
  {
  }
}
