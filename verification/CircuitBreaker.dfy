/**
  The rolling-window circuit breaker. The implementation prunes its failure list and advances its state lazily; the
  reference below looks at the whole history. Both agree under a clock that does not go back.
 */
module CircuitBreaker {
  import opened Basics

  datatype State = Closed | Open | HalfOpen

  datatype Config = Config(failureThreshold: int, windowMs: int, cooldownMs: int)

  /** The three fields of the implementation. */
  datatype Breaker = Breaker(state: State, failures: seq<int>, openedAt: Option<int>)

  const FRESH := Breaker(Closed, [], None)

  function Refresh(c: Config, b: Breaker, now: int): Breaker {
    if b.state.Open? && b.openedAt.Some? && now - b.openedAt.value >= c.cooldownMs then b.(state := HalfOpen) else b
  }

  /** The failures less than a window before `now`. */
  function Within(failures: seq<int>, now: int, windowMs: int): seq<int> {
    if failures == [] then []
    else
      var last := |failures| - 1;
      Within(failures[..last], now, windowMs) + (if now - failures[last] < windowMs then [failures[last]] else [])
  }

  function Failure(c: Config, b: Breaker, now: int): (Breaker, bool) {
    var r := Refresh(c, b, now);
    Count(c, r, Within(r.failures + [now], now, c.windowMs), now)
  }

  /** What a failure does once the list is pruned to `kept`. */
  function Count(c: Config, r: Breaker, kept: seq<int>, now: int): (Breaker, bool) {
    match r.state
    case HalfOpen => (Breaker(Open, kept, Some(now)), true)
    case Open => (r.(failures := kept), false)
    case Closed =>
      if |kept| >= c.failureThreshold then (Breaker(Open, kept, Some(now)), true) else (r.(failures := kept), false)
  }

  // ----- the reference: a function of the whole history of outcomes

  datatype Outcome = Succeeded | Failed(at: int) | Cleared

  /** The times of all failures since the last success or reset. */
  function Failures(h: seq<Outcome>): seq<int> {
    if h == [] then []
    else match h[|h| - 1]
      case Failed(at) => Failures(h[..|h| - 1]) + [at]
      case _ => []
  }

  /** A failure trips the circuit when none has since the last success and the window is full, or when it is a probe. */
  predicate Trips(c: Config, h: seq<Outcome>, at: int)
    decreases |h|, 1
  {
    match LastTrip(c, h)
    case None => |Within(Failures(h) + [at], at, c.windowMs)| >= c.failureThreshold
    case Some(tripped) => at - tripped >= c.cooldownMs
  }

  /** The time of the last trip since the last success or reset. */
  function LastTrip(c: Config, h: seq<Outcome>): Option<int>
    decreases |h|, 0
  {
    if h == [] then None
    else match h[|h| - 1]
      case Failed(at) => if Trips(c, h[..|h| - 1], at) then Some(at) else LastTrip(c, h[..|h| - 1])
      case _ => None
  }

  /** Requests are refused exactly during the cooldown that follows a trip. */
  predicate Admits(c: Config, h: seq<Outcome>, now: int) {
    LastTrip(c, h).None? || now - LastTrip(c, h).value >= c.cooldownMs
  }

  // ----- the implementation represents the history

  predicate NotAfter(failures: seq<int>, now: int) {
    forall i | 0 <= i < |failures| :: failures[i] <= now
  }

  /** The clock reading of the last failure; `now` when there is none. */
  function Newest(h: seq<Outcome>, now: int): int {
    if Failures(h) == [] then now else Failures(h)[|Failures(h)| - 1]
  }

  /** `b` represents history `h` at time `now`. */
  ghost predicate Represents(c: Config, b: Breaker, h: seq<Outcome>, now: int) {
    && NotAfter(Failures(h), now)
    && b.failures == Within(Failures(h), Newest(h, now), c.windowMs)
    && Shows(c, b, LastTrip(c, h), now)
  }

  /** The state tells whether there was a trip, and half-open that its cooldown is over. */
  ghost predicate Shows(c: Config, b: Breaker, trip: Option<int>, now: int) {
    && b.openedAt == trip
    && (b.state.Closed? <==> trip.None?)
    && (b.state.HalfOpen? ==> now - trip.value >= c.cooldownMs)
  }

  /** A failure counts exactly while it is less than a window old. */
  lemma {:induction false} WithinExactly(failures: seq<int>, now: int, windowMs: int, at: int)
    ensures multiset(Within(failures, now, windowMs))[at] == if now - at < windowMs then multiset(failures)[at] else 0
  {
    if failures != [] {
      var last := |failures| - 1;
      assert failures == failures[..last] + [failures[last]];
      WithinExactly(failures[..last], now, windowMs, at);
    }
  }

  lemma WithinAppend(failures: seq<int>, at: int, now: int, windowMs: int)
    ensures Within(failures + [at], now, windowMs) == Within(failures, now, windowMs) + (if now - at < windowMs then [at] else [])
  {
  }

  /** Pruning twice is pruning once with the later clock reading. */
  lemma {:induction false} WithinTwice(failures: seq<int>, earlier: int, now: int, windowMs: int)
    requires earlier <= now
    ensures Within(Within(failures, earlier, windowMs), now, windowMs) == Within(failures, now, windowMs)
  {
    if failures != [] {
      var last := |failures| - 1;
      WithinTwice(failures[..last], earlier, now, windowMs);
      if earlier - failures[last] < windowMs {
        WithinAppend(Within(failures[..last], earlier, windowMs), failures[last], now, windowMs);
      } else {
        assert Within(failures, earlier, windowMs) == Within(failures[..last], earlier, windowMs);
      }
    }
  }

  lemma FreshRepresentsNothing(c: Config, now: int)
    ensures Represents(c, FRESH, [], now)
  {
  }

  lemma ClearRepresents(c: Config, h: seq<Outcome>, o: Outcome, now: int)
    requires !o.Failed?
    ensures Represents(c, FRESH, h + [o], now)
  {
  }

  /** Reading the state, any number of times and at any later time, changes nothing that can be observed. */
  lemma RefreshRepresents(c: Config, b: Breaker, h: seq<Outcome>, before: int, now: int)
    requires Represents(c, b, h, before) && before <= now
    ensures Represents(c, Refresh(c, b, now), h, now)
    ensures !Refresh(c, b, now).state.Open? <==> Admits(c, h, now)
  {
  }

  lemma CountShows(c: Config, r: Breaker, kept: seq<int>, trip: Option<int>, now: int)
    requires Shows(c, r, trip, now) && (r.state.Open? ==> now - trip.value < c.cooldownMs)
    ensures var trips := if trip.None? then |kept| >= c.failureThreshold else now - trip.value >= c.cooldownMs;
            && Count(c, r, kept, now).1 == trips && Count(c, r, kept, now).0.failures == kept
            && Shows(c, Count(c, r, kept, now).0, if trips then Some(now) else trip, now)
  {
  }

  /** A failure trips the implementation exactly when it trips the reference, and the pruned list stays exact. */
  lemma FailureRepresents(c: Config, b: Breaker, h: seq<Outcome>, before: int, now: int)
    requires Represents(c, b, h, before) && before <= now
    ensures Represents(c, Failure(c, b, now).0, h + [Failed(now)], now)
    ensures Failure(c, b, now).1 <==> Trips(c, h, now)
  {
    var r, failures := Refresh(c, b, now), Failures(h);
    var kept := Within(failures + [now], now, c.windowMs);
    RefreshRepresents(c, b, h, before, now);
    PrunedIsExact(failures, Newest(h, before), now, c.windowMs);
    FailureAppends(c, h, now);
    CountShows(c, r, kept, LastTrip(c, h), now);
    AppendedRepresents(c, Count(c, r, kept, now).0, h, now);
  }

  lemma AppendedRepresents(c: Config, b: Breaker, h: seq<Outcome>, now: int)
    requires NotAfter(Failures(h), now) && b.failures == Within(Failures(h) + [now], now, c.windowMs)
    requires Shows(c, b, if Trips(c, h, now) then Some(now) else LastTrip(c, h), now)
    ensures Represents(c, b, h + [Failed(now)], now)
  {
    FailureAppends(c, h, now);
  }

  lemma FailureAppends(c: Config, h: seq<Outcome>, now: int)
    ensures Failures(h + [Failed(now)]) == Failures(h) + [now]
    ensures LastTrip(c, h + [Failed(now)]) == if Trips(c, h, now) then Some(now) else LastTrip(c, h)
  {
    var h' := h + [Failed(now)];
    assert h'[..|h|] == h && h'[|h|] == Failed(now);
  }

  /** Appending to the pruned list and pruning again is pruning the whole list once. */
  lemma PrunedIsExact(failures: seq<int>, earlier: int, now: int, windowMs: int)
    requires earlier <= now
    ensures Within(Within(failures, earlier, windowMs) + [now], now, windowMs) == Within(failures + [now], now, windowMs)
  {
    WithinAppend(Within(failures, earlier, windowMs), now, now, windowMs);
    WithinAppend(failures, now, now, windowMs);
    WithinTwice(failures, earlier, now, windowMs);
  }

  /** Below the threshold nothing is ever refused: the last trip needs that many failures since the last success. */
  lemma {:induction false} TripNeedsThreshold(c: Config, h: seq<Outcome>)
    ensures LastTrip(c, h).Some? ==> |Failures(h)| >= c.failureThreshold
  {
    if h != [] && h[|h| - 1].Failed? {
      var rest, at := h[..|h| - 1], h[|h| - 1].at;
      TripNeedsThreshold(c, rest);
      if Trips(c, rest, at) && LastTrip(c, rest).None? {
        WithinIsShorter(Failures(rest) + [at], at, c.windowMs);
      }
    }
  }

  lemma {:induction false} WithinIsShorter(failures: seq<int>, now: int, windowMs: int)
    ensures |Within(failures, now, windowMs)| <= |failures|
  {
    if failures != [] {
      WithinIsShorter(failures[..|failures| - 1], now, windowMs);
    }
  }

  // ----- whole runs of operations

  datatype Op = Read(now: int) | Success(now: int) | Fail(now: int) | Reset(now: int)

  function Step(c: Config, b: Breaker, op: Op): Breaker {
    match op
    case Read(now) => Refresh(c, b, now)
    case Success(_) => FRESH
    case Fail(now) => Failure(c, b, now).0
    case Reset(_) => FRESH
  }

  function Replay(c: Config, ops: seq<Op>): Breaker {
    if ops == [] then FRESH else Step(c, Replay(c, ops[..|ops| - 1]), ops[|ops| - 1])
  }

  /** The history keeps outcomes and forgets reads. */
  function History(ops: seq<Op>): seq<Outcome> {
    if ops == [] then []
    else
      var h := History(ops[..|ops| - 1]);
      match ops[|ops| - 1]
      case Read(_) => h
      case Success(_) => h + [Succeeded]
      case Fail(now) => h + [Failed(now)]
      case Reset(_) => h + [Cleared]
  }

  ghost predicate Monotone(ops: seq<Op>) {
    forall i, j | 0 <= i < j < |ops| :: ops[i].now <= ops[j].now
  }

  lemma {:induction false} ReplayRepresents(c: Config, ops: seq<Op>, now: int)
    requires Monotone(ops) && (ops != [] ==> ops[|ops| - 1].now <= now)
    ensures exists t :: t <= now && Represents(c, Replay(c, ops), History(ops), t)
  {
    if ops == [] {
      FreshRepresentsNothing(c, now);
      assert Represents(c, Replay(c, ops), History(ops), now);
    } else {
      var last := ops[|ops| - 1];
      ReplayRepresents(c, ops[..|ops| - 1], last.now);
      var t :| t <= last.now && Represents(c, Replay(c, ops[..|ops| - 1]), History(ops[..|ops| - 1]), t);
      match last {
        case Read(at) => RefreshRepresents(c, Replay(c, ops[..|ops| - 1]), History(ops[..|ops| - 1]), t, at);
        case Fail(at) => FailureRepresents(c, Replay(c, ops[..|ops| - 1]), History(ops[..|ops| - 1]), t, at);
        case Success(at) => ClearRepresents(c, History(ops[..|ops| - 1]), Succeeded, at);
        case Reset(at) => ClearRepresents(c, History(ops[..|ops| - 1]), Cleared, at);
      }
      assert Represents(c, Replay(c, ops), History(ops), last.now);
    }
  }

  /** After any run of operations, the breaker answers and trips as the full-history reference does. */
  lemma RefinesHistory(c: Config, ops: seq<Op>, now: int)
    requires Monotone(ops) && (ops != [] ==> ops[|ops| - 1].now <= now)
    ensures !Refresh(c, Replay(c, ops), now).state.Open? <==> Admits(c, History(ops), now)
    ensures Failure(c, Replay(c, ops), now).1 <==> Trips(c, History(ops), now)
    ensures Replay(c, ops).failures == Within(Failures(History(ops)), Newest(History(ops), now), c.windowMs)
  {
    ReplayRepresents(c, ops, now);
    var t :| t <= now && Represents(c, Replay(c, ops), History(ops), t);
    RefreshRepresents(c, Replay(c, ops), History(ops), t, now);
    FailureRepresents(c, Replay(c, ops), History(ops), t, now);
  }

  /** Two runs with the same outcomes but different reads cannot be told apart. */
  lemma ReadsAreUnobservable(c: Config, ops: seq<Op>, others: seq<Op>, now: int)
    requires Monotone(ops) && (ops != [] ==> ops[|ops| - 1].now <= now)
    requires Monotone(others) && (others != [] ==> others[|others| - 1].now <= now)
    requires History(ops) == History(others)
    ensures Refresh(c, Replay(c, ops), now).state.Open? <==> Refresh(c, Replay(c, others), now).state.Open?
    ensures Failure(c, Replay(c, ops), now).1 <==> Failure(c, Replay(c, others), now).1
  {
    RefinesHistory(c, ops, now);
    RefinesHistory(c, others, now);
  }

  // ----- the class

  class CircuitBreaker {
    const config: Config
    var state: State
    var failures: seq<int>
    var openedAt: Option<int>
    ghost var history: seq<Outcome>
    ghost var clock: int

    ghost function Value(): Breaker
      reads this
    {
      Breaker(state, failures, openedAt)
    }

    ghost predicate Valid()
      reads this
    {
      Represents(config, Value(), history, clock)
    }

    constructor (config: Config, ghost now: int)
      ensures Valid() && this.config == config && history == [] && clock == now && Value() == FRESH
    {
      this.config := config;
      state, failures, openedAt := Closed, [], None;
      history, clock := [], now;
    }

    method RefreshState(now: int)
      requires Valid() && clock <= now
      modifies this
      ensures Valid() && history == old(history) && clock == now
      ensures Value() == Refresh(config, old(Value()), now)
      ensures state.Open? <==> !Admits(config, history, now)
      ensures state.Open? <==> LastTrip(config, history).Some? && now < LastTrip(config, history).value + config.cooldownMs
    {
      RefreshRepresents(config, Value(), history, clock, now);
      if state.Open? && openedAt.Some? {
        if now - openedAt.value >= config.cooldownMs {
          state := HalfOpen;
        }
      }
      clock := now;
    }

    method IsAllowed(now: int) returns (allowed: bool)
      requires Valid() && clock <= now
      modifies this
      ensures Valid() && history == old(history) && clock == now
      ensures allowed <==> Admits(config, history, now)
      ensures allowed <==> (LastTrip(config, history).Some? ==> now >= LastTrip(config, history).value + config.cooldownMs)
      ensures Value() == Refresh(config, old(Value()), now)
    {
      RefreshState(now);
      allowed := !state.Open?;
    }

    method OnSuccess(ghost now: int)
      requires Valid() && clock <= now
      modifies this
      ensures Valid() && history == old(history) + [Succeeded] && clock == now && Value() == FRESH
    {
      ClearRepresents(config, history, Succeeded, now);
      state, failures, openedAt := Closed, [], None;
      history, clock := history + [Succeeded], now;
    }

    method Pruned(times: seq<int>, now: int) returns (kept: seq<int>)
      ensures kept == Within(times, now, config.windowMs)
    {
      kept := [];
      for i := 0 to |times|
        invariant kept == Within(times[..i], now, config.windowMs)
      {
        assert times[..i + 1][..i] == times[..i];
        if now - times[i] < config.windowMs {
          kept := kept + [times[i]];
        }
      }
      assert times[..|times|] == times;
    }

    method OnFailure(now: int) returns (tripped: bool)
      requires Valid() && clock <= now
      modifies this
      ensures Valid() && history == old(history) + [Failed(now)] && clock == now
      ensures (Value(), tripped) == Failure(config, old(Value()), now)
      ensures tripped <==> Trips(config, old(history), now)
      ensures tripped <==>
        match LastTrip(config, old(history))
        case None => |Within(Failures(old(history)) + [now], now, config.windowMs)| >= config.failureThreshold
        case Some(trip) => now >= trip + config.cooldownMs
      ensures LastTrip(config, history) == if tripped then Some(now) else LastTrip(config, old(history))
    {
      FailureRepresents(config, Value(), history, clock, now);
      FailureAppends(config, history, now);
      RefreshState(now);
      var kept := Pruned(failures + [now], now);
      tripped := CountFailure(kept, now);
      history := history + [Failed(now)];
    }

    method CountFailure(kept: seq<int>, now: int) returns (tripped: bool)
      modifies this`state, this`failures, this`openedAt
      ensures (Value(), tripped) == Count(config, old(Value()), kept, now)
    {
      failures := kept;
      tripped := state.HalfOpen? || (state.Closed? && |failures| >= config.failureThreshold);
      if tripped {
        state, openedAt := Open, Some(now);
      }
    }

    method Reset(ghost now: int)
      requires Valid() && clock <= now
      modifies this
      ensures Valid() && history == old(history) + [Cleared] && clock == now && Value() == FRESH
    {
      ClearRepresents(config, history, Cleared, now);
      state, failures, openedAt := Closed, [], None;
      history, clock := history + [Cleared], now;
    }
  }
}
