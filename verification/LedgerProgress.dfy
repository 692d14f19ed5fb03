/** Progress of the attempt ledger under any sequence of its statements. */
module LedgerProgress {
  import opened Basics
  import opened ExecutionAttemptRepository

  datatype Statement =
    | Insert(id: nat, decisionId: nat, attemptNumber: nat)
    | Claim(id: nat, owner: string, leaseMs: int)
    | Recover(id: nat, owner: string, leaseMs: int)
    | Start(id: nat, claimant: string, token: Option<nat>)
    | Settle(id: nat, asOwner: Option<string>, token: Option<nat>, outcome: Outcome)
    | Escalate(id: nat)

  datatype Outcome = Success | Failure | Unknown

  function StatusOf(o: Outcome): Status {
    match o
    case Success => Succeeded
    case Failure => Failed
    case Unknown => UnknownEffect
  }

  /** Inserting an id that exists fails and changes nothing. */
  function Perform(t: Table, q: Statement, now: int): Table {
    match q
    case Insert(id, d, n) => if id in t then t else t[id := NewRow(d, n, now)]
    case Claim(id, owner, leaseMs) => ClaimPending(t, id, owner, now, leaseMs)
    case Recover(id, owner, leaseMs) => RecoverStale(t, id, owner, now, leaseMs).0
    case Start(id, owner, token) => StartExecuting(t, id, owner, token)
    case Settle(id, asOwner, token, outcome) => Resolve(t, id, asOwner, token, StatusOf(outcome))
    case Escalate(id) => MarkNeedsReconciliation(t, id)
  }

  function Stage(s: Status): int {
    match s
    case Pending => 0
    case Claimed => 1
    case Executing => 2
    case _ => 3
  }

  /** Strictly further in the lexicographic order of (resolved, fencing token, stage). */
  predicate Further(a: Row, b: Row) {
    || (!Resolved(a) && Resolved(b))
    || (Resolved(a) == Resolved(b) && a.fencingToken < b.fencingToken)
    || (Resolved(a) == Resolved(b) && a.fencingToken == b.fencingToken && Stage(a.status) < Stage(b.status))
  }

  predicate Progressed(a: Row, b: Row) {
    a == b || Further(a, b) || b.status.NeedsReconciliation?
  }

  /** Every statement leaves a row alone, moves it strictly forward, or escalates it. */
  lemma StatementProgresses(t: Table, q: Statement, now: int, x: nat)
    requires x in t
    ensures x in Perform(t, q, now) && Progressed(t[x], Perform(t, q, now)[x])
    ensures !q.Escalate? && Perform(t, q, now)[x] != t[x] ==> Further(t[x], Perform(t, q, now)[x])
    ensures Resolved(t[x]) ==> Resolved(Perform(t, q, now)[x])
    ensures Resolved(t[x]) && !q.Escalate? ==> Perform(t, q, now)[x] == t[x]
  {
  }

  // ----- histories under one clock

  datatype Event = Event(now: int, statement: Statement)

  ghost predicate Monotone(h: seq<Event>) {
    forall i, j | 0 <= i < j < |h| :: h[i].now <= h[j].now
  }

  function Replay(t: Table, h: seq<Event>): Table {
    if h == [] then t
    else Perform(Replay(t, h[..|h| - 1]), h[|h| - 1].statement, h[|h| - 1].now)
  }

  /** Event `i` is a recovery of `x` that found the row stale. */
  predicate Recovers(t: Table, h: seq<Event>, i: nat, x: nat) {
    i < |h| && h[i].statement.Recover? && h[i].statement.id == x
    && RecoverStale(Replay(t, h[..i]), x, h[i].statement.owner, h[i].now, h[i].statement.leaseMs).1
  }

  /** Once recovered until `limit`, the row is not recoverable again before the clock has passed `limit`. */
  predicate LeasedUntil(t: Table, x: nat, limit: int, now: int) {
    x in t && !t[x].status.Pending?
    && (InFlight(t[x]) && now <= limit ==> t[x].claimExpiry.Some? && t[x].claimExpiry.value >= limit)
  }

  lemma StatementKeepsLease(t: Table, q: Statement, x: nat, limit: int, before: int, now: int)
    requires LeasedUntil(t, x, limit, before) && before <= now
    ensures LeasedUntil(Perform(t, q, now), x, limit, now)
  {
  }

  lemma {:induction false} HistoryKeepsLease(t: Table, h: seq<Event>, i: nat, n: nat, x: nat)
    requires Monotone(h) && i < n <= |h| && Recovers(t, h, i, x)
    ensures LeasedUntil(Replay(t, h[..n]), x, h[i].now + h[i].statement.leaseMs, h[n - 1].now)
    decreases n
  {
    assert h[..n][..n - 1] == h[..n - 1];
    if n > i + 1 {
      HistoryKeepsLease(t, h, i, n - 1, x);
      StatementKeepsLease(Replay(t, h[..n - 1]), h[n - 1].statement, x, h[i].now + h[i].statement.leaseMs, h[n - 2].now, h[n - 1].now);
    }
  }

  /** However many reconcilers interleave, two recoveries of one attempt are more than the first one's lease apart. */
  lemma RecoveredOncePerLease(t: Table, h: seq<Event>, i: nat, j: nat, x: nat)
    requires Monotone(h) && i < j < |h| && Recovers(t, h, i, x) && Recovers(t, h, j, x)
    ensures h[j].now > h[i].now + h[i].statement.leaseMs
  {
    HistoryKeepsLease(t, h, i, j, x);
    assert h[j - 1].now <= h[j].now;
  }

  /** A resolved attempt is never stale again, whatever happens and whatever the clock says. */
  lemma {:induction false} ResolvedNeverStale(t: Table, h: seq<Event>, x: nat, now: int, leaseMs: int)
    requires x in t && Resolved(t[x])
    ensures x in Replay(t, h) && Resolved(Replay(t, h)[x]) && !Stale(Replay(t, h)[x], now, leaseMs)
    ensures forall i | 0 <= i < |h| :: !Recovers(t, h, i, x)
    decreases |h|
  {
    if h != [] {
      var rest := h[..|h| - 1];
      ResolvedNeverStale(t, rest, x, now, leaseMs);
      StatementProgresses(Replay(t, rest), h[|h| - 1].statement, h[|h| - 1].now, x);
      forall i | 0 <= i < |h|
        ensures !Recovers(t, h, i, x)
      {
        if i < |h| - 1 {
          assert rest[..i] == h[..i];
          assert !Recovers(t, rest, i, x);
        }
      }
    }
  }
}
