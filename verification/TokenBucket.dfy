/**
  The token bucket in front of the Jules client, in real arithmetic. Clock readings are whole milliseconds.
 */
module TokenBucket {
  datatype Policy = Policy(capacity: real, refillRatePerSecond: real)

  datatype Bucket = Bucket(tokens: real, lastRefill: int)

  /** One pass of the wait loop: a requester asks for `tokens` at clock reading `now`. */
  datatype Ask = Ask(now: int, tokens: real)

  ghost predicate Proper(p: Policy) {
    p.capacity >= 0.0 && p.refillRatePerSecond > 0.0
  }

  /** What the bucket gains in `ms` milliseconds. */
  function Gain(p: Policy, ms: int): real {
    p.refillRatePerSecond * ms as real / 1000.0
  }

  function Available(p: Policy, b: Bucket, now: int): real {
    var full := b.tokens + Gain(p, now - b.lastRefill);
    if p.capacity <= full then p.capacity else full
  }

  function Refill(p: Policy, b: Bucket, now: int): Bucket {
    Bucket(Available(p, b, now), now)
  }

  function Serve(p: Policy, b: Bucket, ask: Ask): Bucket {
    var r := Refill(p, b, ask.now);
    if r.tokens >= ask.tokens then r.(tokens := r.tokens - ask.tokens) else r
  }

  /** The rate is per second, and clock readings are milliseconds. */
  lemma GainIsLinear(p: Policy, ms: int)
    ensures Gain(p, ms) == p.refillRatePerSecond * ms as real / 1000.0
  {
  }

  lemma GainAdds(p: Policy, a: int, b: int)
    ensures Gain(p, a) + Gain(p, b) == Gain(p, a + b)
  {
  }

  lemma GainGrows(p: Policy, a: int, b: int)
    requires Proper(p) && a <= b
    ensures Gain(p, a) <= Gain(p, b)
  {
  }

  /** Refilling in between makes no difference. */
  lemma RefillTwice(p: Policy, b: Bucket, middle: int, now: int)
    requires Proper(p) && middle <= now
    ensures Available(p, Refill(p, b, middle), now) == Available(p, b, now)
  {
  }

  // ----- runs of many requesters

  ghost predicate Monotone(run: seq<Ask>, start: int) {
    && (forall i | 0 <= i < |run| :: start <= run[i].now)
    && (forall i, j | 0 <= i < j < |run| :: run[i].now <= run[j].now)
  }

  ghost predicate Asks(run: seq<Ask>) {
    forall i | 0 <= i < |run| :: run[i].tokens >= 0.0
  }

  function After(p: Policy, start: int, run: seq<Ask>): Bucket {
    if run == [] then Bucket(p.capacity, start) else Serve(p, After(p, start, run[..|run| - 1]), run[|run| - 1])
  }

  /** Whether pass i of the run is granted its tokens. */
  predicate IsGranted(p: Policy, start: int, run: seq<Ask>, i: nat)
    requires i < |run|
  {
    Available(p, After(p, start, run[..i]), run[i].now) >= run[i].tokens
  }

  /** The tokens granted by passes i to |run|-1. */
  function Total(p: Policy, start: int, run: seq<Ask>, i: nat): real
    requires i <= |run|
  {
    if i == |run| then 0.0
    else
      var n := |run| - 1;
      Total(p, start, run[..n], i) + (if IsGranted(p, start, run, n) then run[n].tokens else 0.0)
  }

  /** The level never leaves [0, capacity]. */
  lemma {:induction false} LevelInRange(p: Policy, start: int, run: seq<Ask>)
    requires Proper(p) && Monotone(run, start) && Asks(run)
    ensures var b := After(p, start, run);
            && 0.0 <= b.tokens <= p.capacity
            && b.lastRefill == (if run == [] then start else run[|run| - 1].now)
  {
    if run != [] {
      var rest, ask := run[..|run| - 1], run[|run| - 1];
      LevelInRange(p, start, rest);
      GainGrows(p, 0, ask.now - After(p, start, rest).lastRefill);
      assert Gain(p, 0) == 0.0;
    }
  }

  /** Tokens granted since pass i, plus what is left, never exceed a full bucket and the gain since then. */
  lemma {:induction false} GrantsSince(p: Policy, start: int, run: seq<Ask>, i: nat)
    requires Proper(p) && Monotone(run, start) && Asks(run) && i < |run|
    ensures After(p, start, run).tokens + Total(p, start, run, i) <= p.capacity + Gain(p, run[|run| - 1].now - run[i].now)
  {
    var n := |run| - 1;
    var rest := run[..n];
    assert run[..n] == rest;
    if i == n {
      assert Total(p, start, rest, i) == 0.0;
      assert Gain(p, 0) == 0.0;
    } else {
      GrantsSince(p, start, rest, i);
      LevelInRange(p, start, rest);
      GainAdds(p, run[n - 1].now - run[i].now, run[n].now - run[n - 1].now);
    }
  }

  /** In every interval [s, t] of every run, at most capacity + rate * (t - s) tokens are granted. */
  lemma RateIsBounded(p: Policy, start: int, run: seq<Ask>, i: nat, s: int, t: int)
    requires Proper(p) && Monotone(run, start) && Asks(run)
    requires i <= |run| && s <= t && forall k | i <= k < |run| :: s <= run[k].now <= t
    ensures Total(p, start, run, i) <= p.capacity + p.refillRatePerSecond * (t - s) as real / 1000.0
  {
    GainIsLinear(p, t - s);
    GainBounds(p, start, run, i, s, t);
  }

  lemma GainBounds(p: Policy, start: int, run: seq<Ask>, i: nat, s: int, t: int)
    requires Proper(p) && Monotone(run, start) && Asks(run)
    requires i <= |run| && s <= t && forall k | i <= k < |run| :: s <= run[k].now <= t
    ensures Total(p, start, run, i) <= p.capacity + Gain(p, t - s)
  {
    if i < |run| {
      GrantsSince(p, start, run, i);
      LevelInRange(p, start, run);
      GainGrows(p, run[|run| - 1].now - run[i].now, t - s);
    } else {
      GainGrows(p, 0, t - s);
      assert Gain(p, 0) == 0.0;
    }
  }

  /** A request above the capacity is never granted; the wait loop would not end. */
  lemma AboveCapacityIsNeverGranted(p: Policy, start: int, run: seq<Ask>, i: nat)
    requires i < |run| && run[i].tokens > p.capacity
    ensures !IsGranted(p, start, run, i)
  {
  }

  // ----- how long a requester waits

  function Ceil(x: real): int {
    -((-x).Floor)
  }

  /** The milliseconds after which the bucket would hold enough. */
  function WaitMs(p: Policy, missing: real): int
    requires p.refillRatePerSecond > 0.0
  {
    Ceil(missing / p.refillRatePerSecond * 1000.0)
  }

  /** The wait is the least number of whole milliseconds in which the rate makes up for what is missing. */
  lemma WaitIsLeast(p: Policy, missing: real)
    requires Proper(p)
    ensures var wait := WaitMs(p, missing);
            p.refillRatePerSecond * wait as real / 1000.0 >= missing > p.refillRatePerSecond * (wait - 1) as real / 1000.0
  {
    var rate, x := p.refillRatePerSecond, missing / p.refillRatePerSecond;
    var wait := WaitMs(p, missing);
    var before, after := (wait - 1) as real / 1000.0, wait as real / 1000.0;
    assert before < x <= after;
    assert missing == rate * x;
    Scaled(rate, x, after);
    Scaled(rate, before, x);
    assert missing > rate * before;
    Regroup(rate, wait);
    Regroup(rate, wait - 1);
  }

  lemma Regroup(rate: real, ms: int)
    ensures rate * (ms as real / 1000.0) == rate * ms as real / 1000.0
  {
  }

  lemma Scaled(rate: real, a: real, b: real)
    requires rate > 0.0
    ensures a <= b ==> rate * a <= rate * b
    ensures a < b ==> rate * a < rate * b
  {
    if a < b {
      assert rate * (b - a) > 0.0;
      assert rate * (b - a) == rate * b - rate * a;
    }
  }

  /** Every millisecond shortens the remaining wait by at least one. */
  lemma WaitShrinks(p: Policy, missing: real, ms: int)
    requires Proper(p) && missing > 0.0 && ms >= 1
    ensures 1 <= WaitMs(p, missing)
    ensures WaitMs(p, missing - Gain(p, ms)) <= WaitMs(p, missing) - ms
  {
    var rate := p.refillRatePerSecond;
    var x := missing / rate * 1000.0;
    assert missing / rate > 0.0;
    assert Gain(p, ms) / rate == ms as real / 1000.0;
    assert (missing - Gain(p, ms)) / rate == missing / rate - Gain(p, ms) / rate;
    assert (missing - Gain(p, ms)) / rate * 1000.0 == x - ms as real;
  }

  /** What a requester must still wait for at clock reading `now`. */
  function Wait(p: Policy, b: Bucket, asked: real, now: int): int
    requires p.refillRatePerSecond > 0.0
  {
    WaitMs(p, asked - Available(p, b, now))
  }

  lemma WaitShortens(p: Policy, b: Bucket, asked: real, m: int, n: int)
    requires Proper(p) && asked <= p.capacity && Available(p, b, m) < asked && m < n
    ensures 1 <= Wait(p, b, asked, m)
    ensures Wait(p, b, asked, n) < Wait(p, b, asked, m)
    ensures Available(p, b, n) >= asked || Wait(p, b, asked, n) <= Wait(p, b, asked, m) - (n - m)
  {
    WaitShrinks(p, asked - Available(p, b, m), n - m);
    GainAdds(p, m - b.lastRefill, n - m);
    if Available(p, b, n) >= asked {
      NothingToWait(p, asked - Available(p, b, n));
    }
  }

  lemma NothingToWait(p: Policy, missing: real)
    requires Proper(p) && missing <= 0.0
    ensures WaitMs(p, missing) <= 0
  {
  }

  // ----- the wait loop

  /** The bucket after the first `k` passes of a requester that nobody else disturbs, none of which found enough. */
  function Refilled(p: Policy, b: Bucket, clock: nat -> int, k: nat): Bucket {
    if k == 0 then b else Refill(p, Refilled(p, b, clock, k - 1), clock(k - 1))
  }

  /** What pass `i` finds. */
  function Found(p: Policy, b: Bucket, clock: nat -> int, i: nat): real {
    Refilled(p, b, clock, i + 1).tokens
  }

  ghost predicate Advances(clock: nat -> int) {
    forall i: nat :: clock(i) < clock(i + 1)
  }

  lemma {:induction false} ClockAdvances(clock: nat -> int, k: nat)
    requires Advances(clock)
    ensures clock(0) + k <= clock(k)
  {
    if k > 0 {
      ClockAdvances(clock, k - 1);
      assert clock(k - 1) < clock(k - 1 + 1);
    }
  }

  /** Refilling at every pass is refilling once. */
  lemma {:induction false} RefilledAtOnce(p: Policy, b: Bucket, clock: nat -> int, i: nat)
    requires Proper(p) && Advances(clock)
    ensures Refilled(p, b, clock, i + 1) == Refill(p, b, clock(i))
  {
    if i > 0 {
      RefilledAtOnce(p, b, clock, i - 1);
      assert clock(i - 1) < clock(i - 1 + 1);
      RefillTwice(p, b, clock(i - 1), clock(i));
    }
  }

  lemma FirstFinds(p: Policy, b: Bucket, clock: nat -> int)
    ensures var full := b.tokens + p.refillRatePerSecond * (clock(0) - b.lastRefill) as real / 1000.0;
            Found(p, b, clock, 0) == if full <= p.capacity then full else p.capacity
  {
    assert Refilled(p, b, clock, 0) == b;
    GainIsLinear(p, clock(0) - b.lastRefill);
  }

  /** What a pass finds, exactly: the level at first and what the time since then adds at the rate, up to the capacity. */
  lemma FoundExactly(p: Policy, b: Bucket, clock: nat -> int, i: nat)
    requires Proper(p) && Advances(clock)
    ensures var full := b.tokens + p.refillRatePerSecond * (clock(i) - b.lastRefill) as real / 1000.0;
            Found(p, b, clock, i) == if full <= p.capacity then full else p.capacity
  {
    RefilledAtOnce(p, b, clock, i);
    GainIsLinear(p, clock(i) - b.lastRefill);
  }

  /** The wait computed by the first pass is long enough, when every pass comes a millisecond later or more. */
  lemma ServedWithin(p: Policy, b: Bucket, asked: real, clock: nat -> int, i: nat)
    requires Proper(p) && Advances(clock) && asked <= p.capacity && i >= Wait(p, b, asked, clock(0))
    ensures Found(p, b, clock, i) >= asked
  {
    RefilledAtOnce(p, b, clock, i);
    ClockAdvances(clock, i);
    if Available(p, b, clock(0)) >= asked {
      GainGrows(p, clock(0) - b.lastRefill, clock(i) - b.lastRefill);
    } else {
      WaitShrinks(p, asked - Available(p, b, clock(0)), 1);
      WaitShortens(p, b, asked, clock(0), clock(i));
      if Available(p, b, clock(i)) < asked {
        WaitShrinks(p, asked - Available(p, b, clock(i)), 1);
      }
    }
  }

  /** A requester that waits long enough is served exactly when it asks for no more than the capacity. */
  lemma ServedExactlyWhen(p: Policy, b: Bucket, asked: real, clock: nat -> int)
    requires Proper(p) && Advances(clock)
    ensures (exists i: nat :: Found(p, b, clock, i) >= asked) <==> asked <= p.capacity
  {
    if asked <= p.capacity {
      var wait := Wait(p, b, asked, clock(0));
      var i: nat := if wait > 0 then wait else 0;
      ServedWithin(p, b, asked, clock, i);
    }
  }

  datatype Outcome = Granted | Aborted | Waiting

  class TokenBucketRateLimiter {
    const policy: Policy
    var tokens: real
    var lastRefill: int

    ghost function Value(): Bucket
      reads this
    {
      Bucket(tokens, lastRefill)
    }

    constructor (policy: Policy, now: int)
      ensures this.policy == policy && Value() == After(policy, now, [])
    {
      this.policy := policy;
      tokens, lastRefill := policy.capacity, now;
    }

    method RefillNow(now: int)
      modifies this
      ensures Value() == Refill(policy, old(Value()), now)
      ensures lastRefill == now
      ensures var full := old(tokens) + policy.refillRatePerSecond * (now - old(lastRefill)) as real / 1000.0;
              tokens == if full <= policy.capacity then full else policy.capacity
    {
      GainIsLinear(policy, now - lastRefill);
      var elapsedSeconds := (now - lastRefill) as real / 1000.0;
      var full := tokens + elapsedSeconds * policy.refillRatePerSecond;
      tokens := if policy.capacity <= full then policy.capacity else full;
      lastRefill := now;
    }

    /**
      The wait loop of a requester that nobody else disturbs, watched for at most `passes` passes: it asks for any number
      of tokens, `clock(i)` is the reading of pass i, and `aborted(i)` says whether the signal is raised by then. It takes
      its tokens at the first pass that finds enough, unless the signal comes first.
     */
    method Acquire(asked: real, clock: nat -> int, aborted: nat -> bool, passes: nat) returns (outcome: Outcome, pass: nat)
      modifies this
      ensures pass <= passes && (outcome.Waiting? <==> pass == passes)
      ensures forall i: nat | i < pass :: !aborted(i) && Found(policy, old(Value()), clock, i) < asked
      ensures outcome.Aborted? ==> aborted(pass) && Value() == Refilled(policy, old(Value()), clock, pass)
      ensures outcome.Waiting? ==> Value() == Refilled(policy, old(Value()), clock, pass)
      ensures outcome.Granted? ==>
        && !aborted(pass) && Found(policy, old(Value()), clock, pass) >= asked
        && Value() == Bucket(Found(policy, old(Value()), clock, pass) - asked, clock(pass))
      // at the first pass: what the time since the last refill adds, up to the capacity
      ensures passes > 0 && !aborted(0) ==>
        var full := old(tokens) + policy.refillRatePerSecond * (clock(0) - old(lastRefill)) as real / 1000.0;
        var level := if full <= policy.capacity then full else policy.capacity;
        (outcome.Granted? && pass == 0 <==> level >= asked) && (outcome.Granted? && pass == 0 ==> tokens == level - asked)
    {
      FirstFinds(policy, Value(), clock);
      outcome, pass := Watch(asked, clock, aborted, passes);
    }

    method Watch(asked: real, clock: nat -> int, aborted: nat -> bool, passes: nat) returns (outcome: Outcome, pass: nat)
      modifies this
      ensures pass <= passes && (outcome.Waiting? <==> pass == passes)
      ensures forall i: nat | i < pass :: !aborted(i) && Found(policy, old(Value()), clock, i) < asked
      ensures outcome.Aborted? ==> aborted(pass) && Value() == Refilled(policy, old(Value()), clock, pass)
      ensures outcome.Waiting? ==> Value() == Refilled(policy, old(Value()), clock, pass)
      ensures outcome.Granted? ==>
        && !aborted(pass) && Found(policy, old(Value()), clock, pass) >= asked
        && Value() == Bucket(Found(policy, old(Value()), clock, pass) - asked, clock(pass))
    {
      ghost var b := Value();
      pass := 0;
      while pass < passes
        invariant pass <= passes && Value() == Refilled(policy, b, clock, pass)
        invariant forall i: nat | i < pass :: !aborted(i) && Found(policy, b, clock, i) < asked
      {
        if aborted(pass) {
          return Aborted, pass;
        }
        RefillNow(clock(pass));
        assert Value() == Refilled(policy, b, clock, pass + 1);
        if tokens >= asked {
          tokens := tokens - asked;
          return Granted, pass;
        }
        pass := pass + 1;
      }
      outcome := Waiting;
    }
  }
}
