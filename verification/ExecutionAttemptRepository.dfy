/** The durable ledger of execution attempts, statement by statement. */
module ExecutionAttemptRepository {
  import opened Basics

  datatype Status = Pending | Claimed | Executing | Succeeded | Failed | UnknownEffect | NeedsReconciliation

  datatype Row = Row(
    decisionId: nat, attemptNumber: nat, status: Status,
    claimOwner: Option<string>, claimExpiry: Option<int>, fencingToken: nat, createdAt: int)

  type Table = map<nat, Row>

  predicate InFlight(row: Row) {
    row.status.Claimed? || row.status.Executing?
  }

  predicate Resolved(row: Row) {
    !row.status.Pending? && !InFlight(row)
  }

  predicate Lapsed(row: Row, now: int) {
    InFlight(row) && row.claimExpiry.Some? && row.claimExpiry.value < now
  }

  /** The unique index on (decisionId, attemptNumber). */
  ghost predicate NumberTaken(t: Table, decisionId: nat, attemptNumber: nat) {
    exists x :: x in t && t[x].decisionId == decisionId && t[x].attemptNumber == attemptNumber
  }

  function ForDecision(t: Table, decisionId: nat): set<nat> {
    set x | x in t && t[x].decisionId == decisionId
  }

  predicate Stale(row: Row, now: int, leaseMs: int) {
    Lapsed(row, now) || (row.status.Pending? && row.createdAt < now - leaseMs)
  }

  function NewRow(decisionId: nat, attemptNumber: nat, now: int): Row {
    Row(decisionId, attemptNumber, Pending, None, None, 1, now)
  }

  function Leased(row: Row, owner: string, now: int, leaseMs: int): Row {
    row.(status := Claimed, claimOwner := Some(owner), claimExpiry := Some(now + leaseMs), fencingToken := row.fencingToken + 1)
  }

  function ClaimPending(t: Table, id: nat, owner: string, now: int, leaseMs: int): Table {
    if id in t && t[id].status.Pending? then t[id := Leased(t[id], owner, now, leaseMs)] else t
  }

  function RecoverStale(t: Table, id: nat, owner: string, now: int, leaseMs: int): (Table, bool) {
    if id in t && (Lapsed(t[id], now) || t[id].status.Pending?)
    then (t[id := Leased(t[id], owner, now, leaseMs)], true)
    else (t, false)
  }

  /** An optional owner or token that is absent adds no condition. */
  predicate Matches(row: Row, owner: Option<string>, token: Option<nat>) {
    (owner.Some? ==> row.claimOwner == owner) && (token.Some? ==> row.fencingToken == token.value)
  }

  function StartExecuting(t: Table, id: nat, owner: string, token: Option<nat>): Table {
    if id in t && Matches(t[id], Some(owner), token) && t[id].status.Claimed? then t[id := t[id].(status := Executing)] else t
  }

  /** Success, failure and unknown effect share this guard. */
  function Resolve(t: Table, id: nat, owner: Option<string>, token: Option<nat>, status: Status): Table {
    if id in t && Matches(t[id], owner, token) && InFlight(t[id]) then t[id := t[id].(status := status)] else t
  }

  /** Unguarded: it overwrites any status. */
  function MarkNeedsReconciliation(t: Table, id: nat): Table {
    if id in t then t[id := t[id].(status := NeedsReconciliation)] else t
  }

  // ----- what the statements promise

  /** The columns that no statement after the insert writes. */
  predicate SameAttempt(a: Row, b: Row) {
    a.decisionId == b.decisionId && a.attemptNumber == b.attemptNumber && a.createdAt == b.createdAt
  }

  predicate SameLease(a: Row, b: Row) {
    a.claimOwner == b.claimOwner && a.claimExpiry == b.claimExpiry && a.fencingToken == b.fencingToken
  }

  ghost predicate OnlyRow(before: Table, after: Table, id: nat) {
    before.Keys == after.Keys && forall x | x in before && x != id :: after[x] == before[x]
  }

  /** A mark by `owner` under `token` takes effect, and by nobody else or under another token. */
  ghost predicate HeldOnlyBy(row: Row, owner: string, token: nat) {
    InFlight(row) && forall o: string, k: nat :: Matches(row, Some(o), Some(k)) <==> o == owner && k == token
  }

  /** No reconciler finds the row up to `limit`, and every one does after it. */
  ghost predicate LeasedUntil(row: Row, limit: int) {
    forall now: int, leaseMs: int :: Stale(row, now, leaseMs) <==> now > limit
  }

  /** A lease on the row, for one owner and under a token that fences every earlier one. */
  ghost predicate Leases(before: Table, after: Table, id: nat, owner: string, now: int, leaseMs: int) {
    && id in before && OnlyRow(before, after, id)
    && after[id].status.Claimed? && SameAttempt(before[id], after[id])
    && HeldOnlyBy(after[id], owner, before[id].fencingToken + 1)
    && LeasedUntil(after[id], now + leaseMs)
  }

  /** A new status, on the same terms. */
  ghost predicate Moves(before: Table, after: Table, id: nat, status: Status) {
    && id in before && OnlyRow(before, after, id)
    && after[id].status == status && SameAttempt(before[id], after[id]) && SameLease(before[id], after[id])
  }

  /** The three results: for a row in flight whose owner and token match what was given, and never stale again. */
  ghost predicate Ends(before: Table, after: Table, id: nat, owner: Option<string>, token: Option<nat>, status: Status, ok: bool) {
    && (ok <==> id in before && InFlight(before[id]) && Matches(before[id], owner, token))
    && (if ok then Moves(before, after, id, status) && forall now: int, leaseMs: int :: !Stale(after[id], now, leaseMs)
        else after == before)
  }

  lemma LeaseHolds(row: Row, owner: string, now: int, leaseMs: int)
    ensures HeldOnlyBy(Leased(row, owner, now, leaseMs), owner, row.fencingToken + 1)
    ensures LeasedUntil(Leased(row, owner, now, leaseMs), now + leaseMs)
  {
  }

  /** What a lease promises fixes the table: it is the step that the transition system takes. */
  lemma LeaseIsDetermined(before: Table, after: Table, id: nat, owner: string, now: int, leaseMs: int)
    requires id in before
    ensures Leases(before, after, id, owner, now, leaseMs) <==> after == before[id := Leased(before[id], owner, now, leaseMs)]
  {
    LeaseHolds(before[id], owner, now, leaseMs);
    if Leases(before, after, id, owner, now, leaseMs) {
      var row := after[id];
      assert Matches(row, Some(owner), Some(before[id].fencingToken + 1));
      assert Stale(row, now + leaseMs + 1, leaseMs) && !Stale(row, now + leaseMs, leaseMs);
      assert row == Leased(before[id], owner, now, leaseMs);
      assert after == before[id := row];
    }
  }

  lemma MoveIsDetermined(before: Table, after: Table, id: nat, status: Status)
    requires id in before
    ensures Moves(before, after, id, status) <==> after == before[id := before[id].(status := status)]
  {
    if Moves(before, after, id, status) {
      assert after[id] == before[id].(status := status);
      assert after == before[id := after[id]];
    }
  }

  lemma EndIsDetermined(
    before: Table, after: Table, id: nat, owner: Option<string>, token: Option<nat>, status: Status, ok: bool)
    requires status.Succeeded? || status.Failed? || status.UnknownEffect?
    ensures Ends(before, after, id, owner, token, status, ok)
        <==> (after == Resolve(before, id, owner, token, status)
              && (ok <==> id in before && InFlight(before[id]) && Matches(before[id], owner, token)))
  {
    if id in before {
      MoveIsDetermined(before, after, id, status);
    }
  }

  class Repository {
    var rows: Table

    constructor ()
      ensures rows == map[]
    {
      rows := map[];
    }

    /** The insert fails on a duplicate id and on a duplicate (decisionId, attemptNumber). */
    method Create(id: nat, decisionId: nat, attemptNumber: nat, now: int) returns (ok: bool)
      modifies this
      ensures ok ==> id in rows && rows[id] == Row(decisionId, attemptNumber, Pending, None, None, 1, now)
      ensures ok <==> id !in old(rows) && !NumberTaken(old(rows), decisionId, attemptNumber)
      ensures rows == if ok then old(rows)[id := NewRow(decisionId, attemptNumber, now)] else old(rows)
    {
      ok := id !in rows;
      var rest := rows.Keys;
      while rest != {}
        invariant rest <= rows.Keys
        invariant ok <==> id !in rows && forall x | x in rows && x !in rest ::
                            rows[x].decisionId != decisionId || rows[x].attemptNumber != attemptNumber
        decreases rest
      {
        var x :| x in rest;
        rest := rest - {x};
        if rows[x].decisionId == decisionId && rows[x].attemptNumber == attemptNumber {
          ok := false;
        }
      }
      if ok {
        rows := rows[id := NewRow(decisionId, attemptNumber, now)];
      }
    }

    method ClaimPending(id: nat, owner: string, now: int, leaseMs: int) returns (ok: bool)
      modifies this
      ensures ok <==> id in old(rows) && old(rows)[id].status.Pending?
      ensures if ok then Leases(old(rows), rows, id, owner, now, leaseMs) else rows == old(rows)
    {
      ok := id in rows && rows[id].status.Pending?;
      if ok {
        LeaseHolds(rows[id], owner, now, leaseMs);
        rows := rows[id := Leased(rows[id], owner, now, leaseMs)];
      }
    }

    method RecoverStale(id: nat, owner: string, now: int, leaseMs: int) returns (ok: bool)
      modifies this
      ensures ok <==>
        id in old(rows) &&
        var row := old(rows)[id];
        || row.status.Pending?
        || ((row.status.Claimed? || row.status.Executing?) && row.claimExpiry.Some? && row.claimExpiry.value < now)
      ensures if ok then Leases(old(rows), rows, id, owner, now, leaseMs) else rows == old(rows)
    {
      ok := id in rows && (Lapsed(rows[id], now) || rows[id].status.Pending?);
      if ok {
        LeaseHolds(rows[id], owner, now, leaseMs);
        rows := rows[id := Leased(rows[id], owner, now, leaseMs)];
      }
    }

    method MarkExecuting(id: nat, owner: string, token: Option<nat>) returns (ok: bool)
      modifies this
      ensures ok <==>
        id in old(rows) &&
        var row := old(rows)[id];
        row.status.Claimed? && row.claimOwner == Some(owner) && (token.Some? ==> row.fencingToken == token.value)
      ensures if ok then Moves(old(rows), rows, id, Executing) else rows == old(rows)
    {
      ok := id in rows && Matches(rows[id], Some(owner), token) && rows[id].status.Claimed?;
      if ok {
        rows := rows[id := rows[id].(status := Executing)];
      }
    }

    method MarkSucceeded(id: nat, owner: Option<string>, token: Option<nat>) returns (ok: bool)
      modifies this
      ensures Ends(old(rows), rows, id, owner, token, Succeeded, ok)
      ensures ok <==>
        id in old(rows) &&
        var row := old(rows)[id];
        && (row.status.Claimed? || row.status.Executing?)
        && (owner.Some? ==> row.claimOwner == owner) && (token.Some? ==> row.fencingToken == token.value)
    {
      ok := id in rows && Matches(rows[id], owner, token) && InFlight(rows[id]);
      if ok {
        rows := rows[id := rows[id].(status := Succeeded)];
      }
    }

    method MarkFailed(id: nat, owner: Option<string>, token: Option<nat>) returns (ok: bool)
      modifies this
      ensures Ends(old(rows), rows, id, owner, token, Failed, ok)
      ensures ok <==>
        id in old(rows) &&
        var row := old(rows)[id];
        && (row.status.Claimed? || row.status.Executing?)
        && (owner.Some? ==> row.claimOwner == owner) && (token.Some? ==> row.fencingToken == token.value)
    {
      ok := id in rows && Matches(rows[id], owner, token) && InFlight(rows[id]);
      if ok {
        rows := rows[id := rows[id].(status := Failed)];
      }
    }

    method MarkUnknownEffect(id: nat, owner: Option<string>, token: Option<nat>) returns (ok: bool)
      modifies this
      ensures Ends(old(rows), rows, id, owner, token, UnknownEffect, ok)
      ensures ok <==>
        id in old(rows) &&
        var row := old(rows)[id];
        && (row.status.Claimed? || row.status.Executing?)
        && (owner.Some? ==> row.claimOwner == owner) && (token.Some? ==> row.fencingToken == token.value)
    {
      ok := id in rows && Matches(rows[id], owner, token) && InFlight(rows[id]);
      if ok {
        rows := rows[id := rows[id].(status := UnknownEffect)];
      }
    }

    /** Whatever the row's status, owner and token. */
    method MarkNeedsReconciliation(id: nat)
      modifies this
      ensures if id in old(rows) then Moves(old(rows), rows, id, NeedsReconciliation) else rows == old(rows)
    {
      if id in rows {
        rows := rows[id := rows[id].(status := NeedsReconciliation)];
      }
    }

    method FindStaleAttempts(now: int, leaseMs: int) returns (stale: set<nat>)
      ensures stale == set id | id in rows && Stale(rows[id], now, leaseMs)
      ensures forall id :: id in stale <==>
        id in rows &&
        var row := rows[id];
        || (row.status.Pending? && now - row.createdAt > leaseMs)
        || ((row.status.Claimed? || row.status.Executing?) && row.claimExpiry.Some? && now > row.claimExpiry.value)
    {
      stale := {};
      var rest := rows.Keys;
      while rest != {}
        invariant rest <= rows.Keys
        invariant stale == set id | id in rows && id !in rest && Stale(rows[id], now, leaseMs)
        decreases rest
      {
        var id :| id in rest;
        rest := rest - {id};
        if Stale(rows[id], now, leaseMs) {
          stale := stale + {id};
        }
      }
    }
  }
}
