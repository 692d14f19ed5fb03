/**
  The session lock with a time to live, one resource at a time: acquire if not live, renew and release only with the
  holder's token. A body runs from its grant to its release, whether or not it still owns the lock.
 */
module TtlLock {
  import opened Basics

  type Token = nat

  datatype Lease = Lease(token: Token, expiresAt: int)

  predicate Live(lock: Option<Lease>, now: int) {
    lock.Some? && lock.value.expiresAt > now
  }

  predicate HeldBy(lock: Option<Lease>, token: Token) {
    lock.Some? && lock.value.token == token
  }

  datatype Event =
    | Acquire(token: Token, ttlMs: int, now: int)
    | Renew(token: Token, ttlMs: int, now: int)
    | Release(token: Token, now: int)

  /** Whether the store grants the event. A release is granted to the holder, even one whose lease has run out. */
  predicate Granted(lock: Option<Lease>, e: Event) {
    match e
    case Acquire(_, _, now) => !Live(lock, now)
    case Renew(token, _, now) => HeldBy(lock, token) && Live(lock, now)
    case Release(token, _) => HeldBy(lock, token)
  }

  function Next(lock: Option<Lease>, e: Event): Option<Lease> {
    if !Granted(lock, e) then lock
    else match e
      case Acquire(token, ttlMs, now) => Some(Lease(token, now + ttlMs))
      case Renew(token, ttlMs, now) => Some(Lease(token, now + ttlMs))
      case Release(_, _) => None
  }

  function LockAfter(run: seq<Event>): Option<Lease> {
    if run == [] then None else Next(LockAfter(run[..|run| - 1]), run[|run| - 1])
  }

  /** The expiry last granted to the body of `token`, while that body runs: from its grant until it calls release. */
  function BodyExpiry(run: seq<Event>, token: Token): Option<int> {
    if run == [] then None
    else
      var front, e := run[..|run| - 1], run[|run| - 1];
      if e.token != token then BodyExpiry(front, token)
      else if e.Release? then None
      else if Granted(LockAfter(front), e) then Some(e.now + e.ttlMs)
      else BodyExpiry(front, token)
  }

  /** One clock that does not go back, and a fresh token for every acquire. */
  ghost predicate Proper(run: seq<Event>) {
    && (forall i, j | 0 <= i < j < |run| :: run[i].now <= run[j].now)
    && (forall i, j | 0 <= i < j < |run| && run[j].Acquire? :: run[i].token != run[j].token)
  }

  ghost predicate NotAfter(run: seq<Event>, now: int) {
    forall i | 0 <= i < |run| :: run[i].now <= now
  }

  ghost predicate Unused(run: seq<Event>, token: Token) {
    forall i | 0 <= i < |run| :: run[i].token != token
  }

  lemma {:induction false} UnusedHasNoBody(run: seq<Event>, token: Token)
    requires Unused(run, token)
    ensures BodyExpiry(run, token).None? && !HeldBy(LockAfter(run), token)
  {
    if run != [] {
      UnusedHasNoBody(run[..|run| - 1], token);
    }
  }

  /** A running body whose lease has not run out holds the lock; and the lock's holder is a running body. */
  ghost predicate Owns(run: seq<Event>, token: Token, now: int) {
    var lock, expiry := LockAfter(run), BodyExpiry(run, token);
    && (expiry.Some? && expiry.value > now ==> lock == Some(Lease(token, expiry.value)))
    && (HeldBy(lock, token) ==> expiry == Some(lock.value.expiresAt))
  }

  lemma {:induction false} LeaseIsOwnership(run: seq<Event>, token: Token, now: int)
    requires Proper(run) && NotAfter(run, now)
    ensures Owns(run, token, now)
  {
    if run != [] {
      var front, e := run[..|run| - 1], run[|run| - 1];
      assert Proper(front) && NotAfter(front, e.now);
      LeaseIsOwnership(front, token, e.now);
      if e.Acquire? {
        assert Unused(front, e.token);
        UnusedHasNoBody(front, e.token);
      }
    }
  }

  /**
    Two bodies overlap only if the earlier one's last granted lease had run out: whoever still runs when another acquires
    has not renewed in time.
   */
  lemma OverlapNeedsExpiry(run: seq<Event>, e: Event, other: Token)
    requires Proper(run + [e]) && e.Acquire? && Granted(LockAfter(run), e)
    requires other != e.token && BodyExpiry(run, other).Some?
    ensures BodyExpiry(run, other).value <= e.now
  {
    assert (run + [e])[|run|] == e && forall i | 0 <= i < |run| :: (run + [e])[i] == run[i];
    LeaseIsOwnership(run, other, e.now);
  }

  /** At no time do two running bodies both hold leases that have not run out. */
  lemma MutualExclusion(run: seq<Event>, a: Token, b: Token, now: int)
    requires Proper(run) && NotAfter(run, now)
    requires BodyExpiry(run, a).Some? && BodyExpiry(run, a).value > now
    requires BodyExpiry(run, b).Some? && BodyExpiry(run, b).value > now
    ensures a == b
  {
    LeaseIsOwnership(run, a, now);
    LeaseIsOwnership(run, b, now);
  }

  /** A token has been taken over when it was granted once and another token holds the lock, or nobody does. */
  ghost predicate Stale(run: seq<Event>, token: Token) {
    (exists i :: 0 <= i < |run| && run[i].token == token) && !HeldBy(LockAfter(run), token)
  }

  /** Once stale, a token stays stale, and whatever is done with it leaves the lock as it is. */
  lemma {:induction false} StaleForever(run: seq<Event>, later: seq<Event>, token: Token)
    requires Proper(run + later) && Stale(run, token)
    ensures Stale(run + later, token)
    ensures forall i | 0 <= i < |later| && later[i].token == token ::
              LockAfter(run + later[..i + 1]) == LockAfter(run + later[..i])
    decreases |later|
  {
    if later == [] {
      assert run + later == run;
    } else {
      var n := |later| - 1;
      var front := run + later[..n];
      assert (run + later)[..|run| + n] == front;
      assert Proper(front);
      StaleForever(run, later[..n], token);
      var e := later[n];
      assert (run + later)[|run| + n] == e;
      var i :| 0 <= i < |run| && run[i].token == token;
      assert (run + later)[i] == run[i];
      assert LockAfter(run + later) == Next(LockAfter(front), e);
      forall k | 0 <= k < |later| && later[k].token == token
        ensures LockAfter(run + later[..k + 1]) == LockAfter(run + later[..k])
      {
        if k < n {
          assert later[..n][..k + 1] == later[..k + 1] && later[..n][..k] == later[..k] && later[..n][k] == later[k];
        } else {
          assert later[..k + 1] == later;
        }
      }
    }
  }

  // ----- the in-memory lock

  class InMemoryDistributedLock {
    var locks: map<string, Lease>

    ghost function LockOf(resource: string): Option<Lease>
      reads this
    {
      if resource in locks then Some(locks[resource]) else None
    }

    constructor ()
      ensures forall r :: LockOf(r) == None
    {
      locks := map[];
    }

    /** `token` is the fresh random token. */
    method Acquire(resource: string, ttlMs: int, now: int, token: Token) returns (granted: Option<Token>)
      modifies this
      ensures LockOf(resource) == Next(old(LockOf(resource)), Event.Acquire(token, ttlMs, now))
      ensures granted == if Granted(old(LockOf(resource)), Event.Acquire(token, ttlMs, now)) then Some(token) else None
      ensures granted.Some? <==> resource !in old(locks) || old(locks)[resource].expiresAt <= now
      ensures if granted.Some? then granted.value == token && LockOf(resource) == Some(Lease(token, now + ttlMs)) else locks == old(locks)
      ensures forall r | r != resource :: LockOf(r) == old(LockOf(r))
    {
      if resource in locks && locks[resource].expiresAt > now {
        return None;
      }
      locks := locks[resource := Lease(token, now + ttlMs)];
      granted := Some(token);
    }

    method Release(resource: string, token: Token, ghost now: int) returns (released: bool)
      modifies this
      ensures LockOf(resource) == Next(old(LockOf(resource)), Event.Release(token, now))
      ensures released <==> Granted(old(LockOf(resource)), Event.Release(token, now))
      ensures released <==> resource in old(locks) && old(locks)[resource].token == token
      ensures if released then resource !in locks else locks == old(locks)
      ensures forall r | r != resource :: LockOf(r) == old(LockOf(r))
    {
      if resource in locks && locks[resource].token == token {
        locks := locks - {resource};
        return true;
      }
      released := false;
    }
  }

  // ----- the keys of the Redis lock; each script runs atomically

  class RedisDistributedLock {
    var keys: map<string, Lease>

    ghost function LockOf(resource: string): Option<Lease>
      reads this
    {
      if resource in keys then Some(keys[resource]) else None
    }

    /** An expired key is gone before any command reads it. */
    method Expire(resource: string, now: int)
      modifies this
      ensures LockOf(resource) == if Live(old(LockOf(resource)), now) then old(LockOf(resource)) else None
      ensures forall r | r != resource :: LockOf(r) == old(LockOf(r))
    {
      if resource in keys && keys[resource].expiresAt <= now {
        keys := keys - {resource};
      }
    }

    /** SET with PX refuses a time to live that is not positive. */
    method Acquire(resource: string, ttlMs: int, now: int, token: Token) returns (granted: Option<Token>, refused: bool)
      modifies this
      ensures refused <==> ttlMs <= 0
      ensures refused ==> granted.None? && keys == old(keys)
      ensures !refused ==> LockOf(resource) == Next(old(LockOf(resource)), Event.Acquire(token, ttlMs, now))
      ensures !refused ==> (granted == if Granted(old(LockOf(resource)), Event.Acquire(token, ttlMs, now)) then Some(token) else None)
      ensures !refused ==> (granted.Some? <==> resource !in old(keys) || old(keys)[resource].expiresAt <= now)
      ensures granted.Some? ==> granted.value == token && LockOf(resource) == Some(Lease(token, now + ttlMs))
      ensures granted.None? ==> LockOf(resource) == old(LockOf(resource))
      ensures forall r | r != resource :: LockOf(r) == old(LockOf(r))
    {
      if ttlMs <= 0 {
        return None, true;
      }
      refused := false;
      Expire(resource, now);
      if resource in keys {
        return None, false;
      }
      keys := keys[resource := Lease(token, now + ttlMs)];
      granted := Some(token);
    }

    method Renew(resource: string, token: Token, ttlMs: int, now: int) returns (renewed: bool)
      requires ttlMs > 0
      modifies this
      ensures renewed <==> Granted(old(LockOf(resource)), Event.Renew(token, ttlMs, now))
      ensures renewed <==> resource in old(keys) && old(keys)[resource].token == token && old(keys)[resource].expiresAt > now
      ensures renewed ==> LockOf(resource) == Some(Lease(token, now + ttlMs))
      ensures !renewed ==> (Live(LockOf(resource), now) <==> Live(old(LockOf(resource)), now))
      ensures !renewed && Live(LockOf(resource), now) ==> LockOf(resource) == old(LockOf(resource))
      ensures forall r | r != resource :: LockOf(r) == old(LockOf(r))
    {
      Expire(resource, now);
      renewed := resource in keys && keys[resource].token == token;
      if renewed {
        keys := keys[resource := Lease(token, now + ttlMs)];
      }
    }

    method Release(resource: string, token: Token, now: int) returns (released: bool)
      modifies this
      ensures released <==> resource in old(keys) && old(keys)[resource].token == token && old(keys)[resource].expiresAt > now
      ensures released ==> LockOf(resource) == None
      ensures !released && Live(old(LockOf(resource)), now) ==> LockOf(resource) == old(LockOf(resource))
      ensures forall r | r != resource :: LockOf(r) == old(LockOf(r))
    {
      Expire(resource, now);
      released := resource in keys && keys[resource].token == token;
      if released {
        keys := keys - {resource};
      }
    }
  }
}
