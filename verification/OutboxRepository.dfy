/**
  The durable outbox table. Every SQL statement is one function on the table;
  the repository class performs the same statements in place, and the
  transition system of DurableState uses the functions as its atomic steps.
 */
module OutboxRepository {
  import opened Basics
  import Gate = ExecutionGate

  datatype Status = Pending | Claimed | Executing | Completed | Failed | Uncertain

  datatype Row = Row(
    sessionId: string, decisionId: nat, action: Gate.Action, payload: string,
    status: Status, claimOwner: Option<string>, claimExpiry: Option<int>,
    fencingToken: nat, attempts: nat, maxAttempts: nat, lastError: Option<string>)

  type Table = map<nat, Row>

  const DEFAULT_MAX_ATTEMPTS: nat := 3

  predicate InFlight(row: Row) {
    row.status.Claimed? || row.status.Executing?
  }

  predicate Terminal(row: Row) {
    row.status.Completed? || row.status.Failed? || row.status.Uncertain?
  }

  /** In flight past its lease; a missing expiry compares as unknown, which is not "less than now". */
  predicate Lapsed(row: Row, now: int) {
    InFlight(row) && row.claimExpiry.Some? && row.claimExpiry.value < now
  }

  /** The scan's filter, which stops at `maxAttempts`. */
  predicate Scannable(row: Row, now: int) {
    row.status.Pending? || (Lapsed(row, now) && row.attempts < row.maxAttempts)
  }

  /** The claim's filter, which does not. */
  predicate CanClaim(row: Row, now: int) {
    row.status.Pending? || Lapsed(row, now)
  }

  /** Held by this owner under this token, and not yet resolved. */
  predicate HeldUnder(row: Row, owner: string, token: nat) {
    row.claimOwner == Some(owner) && row.fencingToken == token && InFlight(row)
  }

  function NewRow(sessionId: string, decisionId: nat, action: Gate.Action, payload: string, maxAttempts: Option<nat>): Row {
    Row(sessionId, decisionId, action, payload, Pending, None, None, 1, 0,
        if maxAttempts.Some? then maxAttempts.value else DEFAULT_MAX_ATTEMPTS, None)
  }

  function ClaimedRow(row: Row, owner: string, now: int, leaseMs: int): Row {
    row.(status := Claimed, claimOwner := Some(owner), claimExpiry := Some(now + leaseMs),
         fencingToken := row.fencingToken + 1, attempts := row.attempts + 1)
  }

  function Claim(t: Table, id: nat, owner: string, now: int, leaseMs: int): (Table, Option<Row>) {
    if id in t && CanClaim(t[id], now) then
      var row := ClaimedRow(t[id], owner, now, leaseMs);
      (t[id := row], Some(row))
    else (t, None)
  }

  function StartExecuting(t: Table, id: nat, owner: string, token: nat): (Table, bool) {
    if id in t && HeldUnder(t[id], owner, token) && t[id].status.Claimed?
    then (t[id := t[id].(status := Executing)], true)
    else (t, false)
  }

  /** The three terminal marks differ only in the status and error they write. */
  function Resolve(t: Table, id: nat, owner: string, token: nat, status: Status, error: Option<string>): (Table, bool) {
    if id in t && HeldUnder(t[id], owner, token)
    then (t[id := t[id].(status := status, lastError := if error.Some? then error else t[id].lastError)], true)
    else (t, false)
  }

  /** The columns that no statement after the insert writes. */
  predicate SameOrder(a: Row, b: Row) {
    a.sessionId == b.sessionId && a.decisionId == b.decisionId && a.action == b.action
    && a.payload == b.payload && a.maxAttempts == b.maxAttempts
  }

  // ----- what the statements promise

  /** What a holder is entitled by; no mark changes it. */
  predicate SameHold(a: Row, b: Row) {
    a.claimOwner == b.claimOwner && a.claimExpiry == b.claimExpiry && a.fencingToken == b.fencingToken && a.attempts == b.attempts
  }

  ghost predicate OnlyRow(before: Table, after: Table, id: nat) {
    before.Keys == after.Keys && forall x | x in before && x != id :: after[x] == before[x]
  }

  /** Held by `owner` under `token` and by nobody else, under no earlier token either. */
  ghost predicate HeldOnlyBy(row: Row, owner: string, token: nat) {
    forall o: string, k: nat :: HeldUnder(row, o, k) <==> o == owner && k == token
  }

  /** Nobody can claim the row up to `limit`, and everybody can after it. */
  ghost predicate LeasedUntil(row: Row, limit: int) {
    forall now: int :: CanClaim(row, now) <==> now > limit
  }

  /** Out of everybody's reach for good. */
  ghost predicate Closed(row: Row) {
    (forall o: string, k: nat :: !HeldUnder(row, o, k)) && (forall now: int :: !CanClaim(row, now))
  }

  /** A claim: granted exactly on a pending or lapsed row, to one owner, under a token that fences every earlier one. */
  ghost predicate Claims(before: Table, after: Table, id: nat, owner: string, now: int, leaseMs: int, claimed: Option<Row>) {
    && (claimed.Some? <==> id in before && CanClaim(before[id], now))
    && (claimed.None? ==> after == before)
    && (claimed.Some? ==>
          && OnlyRow(before, after, id) && claimed.value == after[id] && after[id].status.Claimed?
          && SameOrder(before[id], after[id]) && after[id].lastError == before[id].lastError
          && after[id].attempts == before[id].attempts + 1
          && HeldOnlyBy(after[id], owner, before[id].fencingToken + 1)
          && LeasedUntil(after[id], now + leaseMs))
  }

  /** The start: for the current holder of a claimed row, who keeps it on the same terms. */
  ghost predicate Starts(before: Table, after: Table, id: nat, owner: string, token: nat, updated: bool) {
    && (updated <==> id in before && HeldUnder(before[id], owner, token) && before[id].status.Claimed?)
    && (!updated ==> after == before)
    && (updated ==>
          && OnlyRow(before, after, id) && after[id].status.Executing?
          && SameOrder(before[id], after[id]) && SameHold(before[id], after[id]) && after[id].lastError == before[id].lastError)
  }

  /** A terminal mark: for the current holder only, and the last thing that ever happens to the row. */
  ghost predicate Ends(before: Table, after: Table, id: nat, owner: string, token: nat, status: Status, error: Option<string>, updated: bool) {
    && (updated <==> id in before && HeldUnder(before[id], owner, token))
    && (!updated ==> after == before)
    && (updated ==>
          && OnlyRow(before, after, id) && after[id].status == status && Closed(after[id])
          && SameOrder(before[id], after[id]) && SameHold(before[id], after[id])
          && after[id].lastError == if error.Some? then error else before[id].lastError)
  }

  lemma HoldIsDetermined(row: Row, owner: string, token: nat, limit: int)
    requires row.status.Claimed? && HeldOnlyBy(row, owner, token) && LeasedUntil(row, limit)
    ensures row.claimOwner == Some(owner) && row.fencingToken == token && row.claimExpiry == Some(limit)
  {
    assert HeldUnder(row, owner, token);
    assert CanClaim(row, limit + 1) && !CanClaim(row, limit);
  }

  lemma LeaseHolds(row: Row, owner: string, now: int, leaseMs: int)
    ensures HeldOnlyBy(ClaimedRow(row, owner, now, leaseMs), owner, row.fencingToken + 1)
    ensures LeasedUntil(ClaimedRow(row, owner, now, leaseMs), now + leaseMs)
  {
  }

  /** The claim's promise fixes the table and the answer: it is the step that the transition system takes. */
  lemma ClaimIsDetermined(before: Table, after: Table, id: nat, owner: string, now: int, leaseMs: int, claimed: Option<Row>)
    ensures Claims(before, after, id, owner, now, leaseMs, claimed) <==> (after, claimed) == Claim(before, id, owner, now, leaseMs)
  {
    if id in before && CanClaim(before[id], now) {
      LeaseHolds(before[id], owner, now, leaseMs);
      if Claims(before, after, id, owner, now, leaseMs, claimed) {
        HoldIsDetermined(after[id], owner, before[id].fencingToken + 1, now + leaseMs);
        assert after[id] == ClaimedRow(before[id], owner, now, leaseMs);
        assert after == before[id := after[id]];
      }
    }
  }

  lemma StartIsDetermined(before: Table, after: Table, id: nat, owner: string, token: nat, updated: bool)
    ensures Starts(before, after, id, owner, token, updated) <==> (after, updated) == StartExecuting(before, id, owner, token)
  {
    if Starts(before, after, id, owner, token, updated) && updated {
      assert after[id] == before[id].(status := Executing);
      assert after == before[id := after[id]];
    }
  }

  lemma EndIsDetermined(
    before: Table, after: Table, id: nat, owner: string, token: nat, status: Status, error: Option<string>, updated: bool)
    requires status.Completed? || status.Failed? || status.Uncertain?
    ensures Ends(before, after, id, owner, token, status, error, updated)
        <==> (after, updated) == Resolve(before, id, owner, token, status, error)
  {
    if Ends(before, after, id, owner, token, status, error, updated) && updated {
      assert after[id] == before[id].(status := status, lastError := if error.Some? then error else before[id].lastError);
      assert after == before[id := after[id]];
    }
  }

  class Repository {
    var rows: Table

    constructor ()
      ensures rows == map[]
    {
      rows := map[];
    }

    /** The insert fails on a duplicate primary key. */
    method Create(id: nat, sessionId: string, decisionId: nat, action: Gate.Action, payload: string, maxAttempts: Option<nat>)
      returns (inserted: Option<Row>)
      modifies this
      ensures id in old(rows) ==> inserted == None && rows == old(rows)
      ensures id !in old(rows) ==> inserted.Some? && rows == old(rows)[id := inserted.value]
      ensures inserted.Some? ==>
        inserted.value == Row(sessionId, decisionId, action, payload, Pending, None, None, 1, 0,
                              if maxAttempts.Some? then maxAttempts.value else 3, None)
    {
      if id in rows {
        return None;
      }
      inserted := Some(NewRow(sessionId, decisionId, action, payload, maxAttempts));
      rows := rows[id := inserted.value];
    }

    /** At most `limit` claimable rows, none twice, and all of them when they fit. */
    method FindClaimable(limit: nat, now: int) returns (found: seq<nat>)
      ensures |found| <= limit && Distinct(found)
      ensures forall id | id in found :: id in rows && Scannable(rows[id], now)
      ensures |found| < limit ==> forall id | id in rows && Scannable(rows[id], now) :: id in found
      ensures forall id | id in rows ::
        Scannable(rows[id], now) <==>
          || rows[id].status.Pending?
          || ((rows[id].status.Claimed? || rows[id].status.Executing?) && rows[id].claimExpiry.Some?
              && rows[id].claimExpiry.value < now && rows[id].attempts < rows[id].maxAttempts)
    {
      found := [];
      var rest := rows.Keys;
      while rest != {} && |found| < limit
        invariant |found| <= limit && rest <= rows.Keys && Distinct(found)
        invariant forall id | id in found :: id in rows && id !in rest && Scannable(rows[id], now)
        invariant forall id | id in rows && id !in rest && Scannable(rows[id], now) :: id in found
        decreases rest
      {
        var id :| id in rest;
        rest := rest - {id};
        if Scannable(rows[id], now) {
          found := found + [id];
        }
      }
    }

    method ClaimRow(id: nat, owner: string, now: int, leaseMs: int) returns (claimed: Option<Row>)
      modifies this
      ensures Claims(old(rows), rows, id, owner, now, leaseMs, claimed)
      ensures claimed.Some? <==>
        id in old(rows) &&
        var row := old(rows)[id];
        || row.status.Pending?
        || ((row.status.Claimed? || row.status.Executing?) && row.claimExpiry.Some? && row.claimExpiry.value < now)
    {
      if id !in rows || !CanClaim(rows[id], now) {
        return None;
      }
      LeaseHolds(rows[id], owner, now, leaseMs);
      var row := rows[id];
      row := row.(status := Claimed, claimOwner := Some(owner), claimExpiry := Some(now + leaseMs));
      row := row.(fencingToken := row.fencingToken + 1, attempts := row.attempts + 1);
      rows := rows[id := row];
      claimed := Some(row);
    }

    method MarkExecuting(id: nat, owner: string, token: nat) returns (updated: bool)
      modifies this
      ensures Starts(old(rows), rows, id, owner, token, updated)
      ensures updated <==>
        id in old(rows) && old(rows)[id].claimOwner == Some(owner) && old(rows)[id].fencingToken == token && old(rows)[id].status.Claimed?
    {
      updated := id in rows && HeldUnder(rows[id], owner, token) && rows[id].status.Claimed?;
      if updated {
        rows := rows[id := rows[id].(status := Executing)];
      }
    }

    method MarkCompleted(id: nat, owner: string, token: nat) returns (updated: bool)
      modifies this
      ensures Ends(old(rows), rows, id, owner, token, Completed, None, updated)
      ensures updated <==>
        id in old(rows) && old(rows)[id].claimOwner == Some(owner) && old(rows)[id].fencingToken == token
        && (old(rows)[id].status.Claimed? || old(rows)[id].status.Executing?)
    {
      updated := id in rows && HeldUnder(rows[id], owner, token);
      if updated {
        rows := rows[id := rows[id].(status := Completed)];
      }
    }

    method MarkFailed(id: nat, owner: string, error: string, token: nat) returns (updated: bool)
      modifies this
      ensures Ends(old(rows), rows, id, owner, token, Failed, Some(error), updated)
      ensures updated <==>
        id in old(rows) && old(rows)[id].claimOwner == Some(owner) && old(rows)[id].fencingToken == token
        && (old(rows)[id].status.Claimed? || old(rows)[id].status.Executing?)
    {
      updated := id in rows && HeldUnder(rows[id], owner, token);
      if updated {
        rows := rows[id := rows[id].(status := Failed, lastError := Some(error))];
      }
    }

    method MarkUncertain(id: nat, owner: string, error: string, token: nat) returns (updated: bool)
      modifies this
      ensures Ends(old(rows), rows, id, owner, token, Status.Uncertain, Some(error), updated)
      ensures updated <==>
        id in old(rows) && old(rows)[id].claimOwner == Some(owner) && old(rows)[id].fencingToken == token
        && (old(rows)[id].status.Claimed? || old(rows)[id].status.Executing?)
    {
      updated := id in rows && HeldUnder(rows[id], owner, token);
      if updated {
        rows := rows[id := rows[id].(status := Uncertain, lastError := Some(error))];
      }
    }
  }
}
