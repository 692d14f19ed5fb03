/**
  The AI provider router: failover over the eligible providers, bounded same-provider retries, one circuit-breaker
  check per provider, and an attempt log. Provider answers, clock readings and aborts come from arbitrary functions of
  (provider, attempt).
 */
module ProviderRouter {
  import opened Basics
  import Circuit = CircuitBreaker
  import opened ProviderError

  /** What happens in one iteration of the retry loop; a response that is not a structured decision is an output failure. */
  datatype Call =
    | AbortedBefore
    | AbortedDuring
    | Valid
    | Fails(class_: FailureClass, authMessage: bool)

  datatype Status = Success | Failed(class_: FailureClass) | SkippedCircuit

  datatype Attempt = Attempt(provider: nat, number: nat, status: Status)

  datatype Health = Healthy | Degraded | CircuitOpen | AuthFailure | Misconfigured

  datatype Outcome = Decided(provider: nat, number: nat) | Exhausted(last: Option<FailureClass>) | Aborted

  datatype Setting = Setting(maxRetries: nat, circuit: Circuit.Config, calls: (nat, nat) -> Call, clock: (nat, nat) -> int)

  datatype Capabilities = Capabilities(supportsStructuredDecision: bool, maxContextTokens: int)

  predicate CanSatisfy(c: Capabilities, estimatedTokens: int) {
    c.supportsStructuredDecision && !(c.maxContextTokens <= 0 && estimatedTokens > 0)
  }

  /** Indices of the providers that can satisfy the request: all of them, in their configured order. */
  function Eligible(providers: seq<Capabilities>, estimatedTokens: int): (ps: seq<nat>)
    ensures forall p: nat :: p in ps <==> p < |providers| && CanSatisfy(providers[p], estimatedTokens)
    ensures forall i, j | 0 <= i < j < |ps| :: ps[i] < ps[j]
  {
    if providers == [] then []
    else
      var last: nat := |providers| - 1;
      var before := Eligible(providers[..last], estimatedTokens);
      assert forall i | 0 <= i < |before| :: before[i] in before && before[i] < last;
      before + (if CanSatisfy(providers[last], estimatedTokens) then [last] else [])
  }

  lemma EligibleExactly(providers: seq<Capabilities>, estimatedTokens: int, p: nat)
    ensures p in Eligible(providers, estimatedTokens) <==>
              p < |providers| && providers[p].supportsStructuredDecision
              && (providers[p].maxContextTokens > 0 || estimatedTokens <= 0)
  {
  }

  // ----- the routing, step by step, as a function of the breakers

  datatype Progress = Progress(log: seq<Attempt>, made: nat, breakers: seq<Circuit.Breaker>, health: seq<Health>, last: Option<FailureClass>)

  predicate Serves(s: Progress, p: nat) {
    p < |s.breakers| == |s.health|
  }

  predicate ServesAll(s: Progress, ps: seq<nat>) {
    |s.breakers| == |s.health| && forall i | 0 <= i < |ps| :: ps[i] < |s.breakers|
  }

  function HealthAfter(h: Health, failure: FailureClass, authMessage: bool): Health {
    if h.AuthFailure? || h.Misconfigured? then h
    else if failure.NonRetryable? then (if authMessage then AuthFailure else Misconfigured)
    else Degraded
  }

  function AfterSuccess(s: Progress, p: nat, k: nat): Progress
    requires Serves(s, p)
  {
    Progress(s.log + [Attempt(p, k, Success)], s.made + 1, s.breakers[p := Circuit.FRESH], s.health[p := Healthy], s.last)
  }

  function AfterFailure(g: Setting, s: Progress, p: nat, k: nat, class_: FailureClass, authMessage: bool): Progress
    requires Serves(s, p)
  {
    Progress(s.log + [Attempt(p, k, Failed(class_))], s.made + 1,
             s.breakers[p := Circuit.Failure(g.circuit, s.breakers[p], g.clock(p, k)).0],
             s.health[p := HealthAfter(s.health[p], class_, authMessage)], Some(class_))
  }

  function Checked(g: Setting, s: Progress, p: nat): Progress
    requires Serves(s, p)
  {
    s.(breakers := s.breakers[p := Circuit.Refresh(g.circuit, s.breakers[p], g.clock(p, 0))])
  }

  function AfterSkip(s: Progress, p: nat): Progress
    requires Serves(s, p)
  {
    s.(log := s.log + [Attempt(p, 1, SkippedCircuit)], health := s.health[p := CircuitOpen])
  }

  /** The retry loop of one provider from attempt `k` on. */
  function Try(g: Setting, s: Progress, p: nat, k: nat): (r: (Progress, Option<Outcome>))
    requires Serves(s, p)
    ensures |r.0.breakers| == |s.breakers| && |r.0.health| == |s.health|
    decreases 2 + g.maxRetries - k
  {
    if k > 1 + g.maxRetries then (s, None)
    else match g.calls(p, k)
      case AbortedBefore => (s, Some(Aborted))
      case AbortedDuring => (s.(made := s.made + 1), Some(Aborted))
      case Valid => (AfterSuccess(s, p, k), Some(Decided(p, k)))
      case Fails(class_, authMessage) =>
        var next := AfterFailure(g, s, p, k, class_, authMessage);
        if class_.Retryable? && k < 1 + g.maxRetries then Try(g, next, p, k + 1) else (next, None)
  }

  /** One provider's turn: the breaker is asked once, before the retry loop. */
  function Turn(g: Setting, s: Progress, p: nat): (r: (Progress, Option<Outcome>))
    requires Serves(s, p)
    ensures |r.0.breakers| == |s.breakers| && |r.0.health| == |s.health|
  {
    var checked := Checked(g, s, p);
    if checked.breakers[p].state.Open? then (AfterSkip(checked, p), None) else Try(g, checked, p, 1)
  }

  /** The failover loop over the providers that are left. */
  function Route(g: Setting, s: Progress, ps: seq<nat>): (Progress, Outcome)
    requires ServesAll(s, ps)
    decreases |ps|
  {
    if ps == [] then (s, Exhausted(s.last))
    else
      var (after, stop) := Turn(g, s, ps[0]);
      if stop.Some? then (after, stop.value) else Route(g, after, ps[1..])
  }

  /** The two nested loops, updating breakers and health in place. */
  method RouteWithSignal(g: Setting, ps: seq<nat>, breakers: array<Circuit.Breaker>, health: array<Health>)
    returns (attempts: seq<Attempt>, made: nat, outcome: Outcome)
    requires breakers.Length == health.Length && forall i | 0 <= i < |ps| :: ps[i] < breakers.Length
    modifies breakers, health
    ensures var (s, o) := Route(g, Progress([], 0, old(breakers[..]), old(health[..]), None), ps);
            outcome == o && attempts == s.log && made == s.made && breakers[..] == s.breakers && health[..] == s.health
  {
    attempts, made := [], 0;
    var last: Option<FailureClass> := None;
    ghost var all := Route(g, Progress([], 0, breakers[..], health[..], None), ps);
    for i := 0 to |ps|
      invariant Route(g, Progress(attempts, made, breakers[..], health[..], last), ps[i..]) == all
    {
      assert ps[i..][0] == ps[i] && ps[i..][1..] == ps[i + 1..];
      var stopped;
      attempts, made, last, stopped := OneTurn(g, ps[i], attempts, made, last, breakers, health);
      if stopped.Some? {
        return attempts, made, stopped.value;
      }
    }
    outcome := Exhausted(last);
  }

  method OneTurn(
    g: Setting, p: nat, log: seq<Attempt>, soFar: nat, lastFailure: Option<FailureClass>,
    breakers: array<Circuit.Breaker>, health: array<Health>)
    returns (attempts: seq<Attempt>, made: nat, last: Option<FailureClass>, stopped: Option<Outcome>)
    requires p < breakers.Length == health.Length
    modifies breakers, health
    ensures (Progress(attempts, made, breakers[..], health[..], last), stopped)
         == Turn(g, Progress(log, soFar, old(breakers[..]), old(health[..]), lastFailure), p)
  {
    attempts, made, last, stopped := log, soFar, lastFailure, None;
    ghost var start := Progress(log, soFar, breakers[..], health[..], last);
    breakers[p] := Circuit.Refresh(g.circuit, breakers[p], g.clock(p, 0));
    ghost var checked := Progress(log, soFar, breakers[..], health[..], last);
    assert checked == Checked(g, start, p);
    if breakers[p].state.Open? {
      attempts := attempts + [Attempt(p, 1, SkippedCircuit)];
      health[p] := CircuitOpen;
      assert Progress(attempts, made, breakers[..], health[..], last) == AfterSkip(checked, p);
      return;
    }
    var k: nat := 1;
    while k <= 1 + g.maxRetries
      invariant 1 <= k <= 2 + g.maxRetries
      invariant Try(g, Progress(attempts, made, breakers[..], health[..], last), p, k) == Try(g, checked, p, 1)
      decreases 2 + g.maxRetries - k
    {
      ghost var was := Progress(attempts, made, breakers[..], health[..], last);
      match g.calls(p, k) {
        case AbortedBefore =>
          stopped := Some(Aborted);
          return;
        case AbortedDuring =>
          made, stopped := made + 1, Some(Aborted);
          return;
        case Valid =>
          breakers[p] := Circuit.FRESH;
          health[p] := Healthy;
          attempts, made, stopped := attempts + [Attempt(p, k, Success)], made + 1, Some(Decided(p, k));
          assert Progress(attempts, made, breakers[..], health[..], last) == AfterSuccess(was, p, k);
          return;
        case Fails(class_, authMessage) =>
          breakers[p] := Circuit.Failure(g.circuit, breakers[p], g.clock(p, k)).0;
          health[p] := HealthAfter(health[p], class_, authMessage);
          attempts, made, last := attempts + [Attempt(p, k, Failed(class_))], made + 1, Some(class_);
          assert Progress(attempts, made, breakers[..], health[..], last) == AfterFailure(g, was, p, k, class_, authMessage);
          if !(class_.Retryable? && k < 1 + g.maxRetries) {
            return;
          }
          k := k + 1;
      }
    }
  }

  // ----- an independent description of the result

  predicate Retries(g: Setting, p: nat, k: nat) {
    g.calls(p, k).Fails? && g.calls(p, k).class_.Retryable?
  }

  /** Attempts 1 to k-1 of the provider fail retryably, and attempt k is made or aborted. */
  ghost predicate Arrives(g: Setting, p: nat, k: nat) {
    1 <= k <= 1 + g.maxRetries && forall j: nat | 1 <= j < k :: Retries(g, p, j)
  }

  /** The provider yields a valid decision, at attempt k. */
  ghost predicate Yields(g: Setting, p: nat, k: nat) {
    Arrives(g, p, k) && g.calls(p, k).Valid?
  }

  /** The provider runs into an abort. */
  ghost predicate Breaks(g: Setting, p: nat) {
    exists k: nat :: Arrives(g, p, k) && (g.calls(p, k).AbortedBefore? || g.calls(p, k).AbortedDuring?)
  }

  /** The provider, when called, neither decides nor runs into an abort. */
  ghost predicate GivesUp(g: Setting, p: nat) {
    !Breaks(g, p) && forall k: nat :: !Yields(g, p, k)
  }

  /** The breaker lets the provider's turn through. */
  predicate Admitted(g: Setting, breakers: seq<Circuit.Breaker>, p: nat) {
    p < |breakers| && !Circuit.Refresh(g.circuit, breakers[p], g.clock(p, 0)).state.Open?
  }

  /** A log entry tells how its call ended. */
  predicate Tells(g: Setting, a: Attempt) {
    match a.status
    case Success => g.calls(a.provider, a.number) == Valid
    case Failed(class_) => g.calls(a.provider, a.number).Fails? && g.calls(a.provider, a.number).class_ == class_
    case SkippedCircuit => true
  }

  /** One provider's part of the log: a skip, or attempts 1..k, all but the last retryable failures. */
  ghost predicate Block(g: Setting, p: nat, b: seq<Attempt>) {
    || b == [Attempt(p, 1, SkippedCircuit)]
    || (&& 1 <= |b| <= 1 + g.maxRetries
        && (forall j | 0 <= j < |b| :: b[j].provider == p && b[j].number == j + 1 && Tells(g, b[j]))
        && (forall j | 0 <= j < |b| - 1 :: b[j].status == Failed(Retryable))
        && !b[|b| - 1].status.SkippedCircuit?
        && (b[|b| - 1].status == Failed(Retryable) ==> |b| == 1 + g.maxRetries))
  }

  predicate Succeeds(b: seq<Attempt>) {
    b != [] && b[|b| - 1].status.Success?
  }

  function Flatten(blocks: seq<seq<Attempt>>): seq<Attempt> {
    if blocks == [] then [] else blocks[0] + Flatten(blocks[1..])
  }

  // one provider's turn

  lemma {:induction false} TryStops(g: Setting, s: Progress, p: nat, k: nat)
    requires Serves(s, p) && Arrives(g, p, k)
    ensures var stop := Try(g, s, p, k).1;
            && (stop.Some? ==> stop.value.Aborted? || stop.value.Decided?)
            && (stop.Some? && stop.value.Decided? ==> stop.value.provider == p && Yields(g, p, stop.value.number))
            && (stop.Some? && stop.value.Aborted? ==> Breaks(g, p))
            && (stop.None? ==> GivesUp(g, p))
    ensures forall q | q != p && 0 <= q < |s.breakers| :: Try(g, s, p, k).0.breakers[q] == s.breakers[q]
    decreases 2 + g.maxRetries - k
  {
    if Retries(g, p, k) && k < 1 + g.maxRetries {
      TryStops(g, AfterFailure(g, s, p, k, g.calls(p, k).class_, g.calls(p, k).authMessage), p, k + 1);
    } else if g.calls(p, k).Fails? {
      forall n: nat | Arrives(g, p, n)
        ensures g.calls(p, n).Fails?
      {
        assert n > k ==> Retries(g, p, k);
        assert n < k ==> Retries(g, p, n);
      }
    }
  }

  lemma TurnStops(g: Setting, s: Progress, p: nat)
    requires Serves(s, p)
    ensures var stop := Turn(g, s, p).1;
            && (stop.Some? ==> Admitted(g, s.breakers, p) && (stop.value.Aborted? || stop.value.Decided?))
            && (stop.Some? && stop.value.Decided? ==> stop.value.provider == p && Yields(g, p, stop.value.number))
            && (stop.Some? && stop.value.Aborted? ==> Breaks(g, p))
            && (stop.None? && Admitted(g, s.breakers, p) ==> GivesUp(g, p))
    ensures forall q: nat | q != p :: Admitted(g, Turn(g, s, p).0.breakers, q) <==> Admitted(g, s.breakers, q)
  {
    TryStops(g, Checked(g, s, p), p, 1);
  }

  /** From attempt k on, the loop appends the rest of a block, and counts one call for each entry. */
  lemma {:induction false} TryLogs(g: Setting, s: Progress, p: nat, k: nat) returns (b: seq<Attempt>)
    requires Serves(s, p) && 1 <= k <= 1 + g.maxRetries
    ensures var (t, stop) := Try(g, s, p, k);
            && t.log == s.log + b && |b| <= 2 + g.maxRetries - k
            && (stop == Some(Aborted) ==> s.made + |b| <= t.made <= s.made + |b| + 1 && t.made <= s.made + 2 + g.maxRetries - k)
            && (stop != Some(Aborted) ==> t.made == s.made + |b| && |b| >= 1)
            && (stop != Some(Aborted) && b[|b| - 1].status == Failed(Retryable) ==> |b| == 2 + g.maxRetries - k)
            && (Succeeds(b) <==> stop.Some? && stop.value.Decided?)
    ensures forall j | 0 <= j < |b| :: b[j].provider == p && b[j].number == k + j && !b[j].status.SkippedCircuit? && Tells(g, b[j])
    ensures forall j | 0 <= j < |b| - 1 :: b[j].status == Failed(Retryable)
    decreases 2 + g.maxRetries - k
  {
    var c := g.calls(p, k);
    if Retries(g, p, k) && k < 1 + g.maxRetries {
      var next := AfterFailure(g, s, p, k, c.class_, c.authMessage);
      var rest := TryLogs(g, next, p, k + 1);
      b := [Attempt(p, k, Failed(c.class_))] + rest;
      assert s.log + b == next.log + rest;
    } else if c.Fails? {
      b := [Attempt(p, k, Failed(c.class_))];
    } else if c.Valid? {
      b := [Attempt(p, k, Success)];
    } else {
      b := [];
      assert s.log + b == s.log;
    }
  }

  lemma TurnLogs(g: Setting, s: Progress, p: nat) returns (b: seq<Attempt>)
    requires Serves(s, p)
    ensures var (t, stop) := Turn(g, s, p);
            && t.log == s.log + b
            && (stop == Some(Aborted) ==> s.made + Calls(b) <= t.made <= s.made + Calls(b) + 1)
            && (stop != Some(Aborted) ==> t.made == s.made + Calls(b) && Block(g, p, b))
            && t.made <= s.made + 1 + g.maxRetries
            && (Succeeds(b) <==> stop.Some? && stop.value.Decided?)
            && (Succeeds(b) ==> Calls(b) > 0)
  {
    if Admitted(g, s.breakers, p) {
      b := TryLogs(g, Checked(g, s, p), p, 1);
      NoSkipsAllCalls(b);
    } else {
      b := [Attempt(p, 1, SkippedCircuit)];
      assert Calls(b) == Calls(b[..0]);
    }
  }

  /** The call that ends with a thrown value. */
  function Thrown(error: ErrorShape): Call {
    Fails(ClassifyProviderFailure(error), error.mentionsAuth)
  }

  /** A provider whose answer is unreadable, or whose error the operator must fix, is not called again in this routing. */
  lemma PermanentEndsTurn(g: Setting, p: nat, k: nat, error: ErrorShape)
    requires Arrives(g, p, k) && g.calls(p, k) == Thrown(error) && (IsUnreadable(error) || IsPermanent(error))
    ensures forall n: nat | Arrives(g, p, n) :: n <= k
  {
    forall n: nat | Arrives(g, p, n)
      ensures n <= k
    {
      assert n > k ==> Retries(g, p, k);
    }
  }

  // the failover loop

  /** Provider i of the list is reached: all before it were skipped or gave up. */
  ghost predicate Reached(g: Setting, breakers: seq<Circuit.Breaker>, ps: seq<nat>, i: nat) {
    i < |ps| && forall j | 0 <= j < i && Admitted(g, breakers, ps[j]) :: GivesUp(g, ps[j])
  }

  /** Provider i of the list is the one that settles the matter as `o` says. */
  ghost predicate Settles(g: Setting, breakers: seq<Circuit.Breaker>, ps: seq<nat>, i: nat, o: Outcome) {
    && Reached(g, breakers, ps, i) && Admitted(g, breakers, ps[i])
    && (o.Decided? ==> o.provider == ps[i] && Yields(g, ps[i], o.number))
    && (o.Aborted? ==> Breaks(g, ps[i]))
  }

  /** A decision or an abort is the doing of the first provider that is admitted and does not give up. */
  lemma {:induction false} RouteSettles(g: Setting, s: Progress, ps: seq<nat>) returns (i: nat)
    requires Distinct(ps) && ServesAll(s, ps)
    ensures var o := Route(g, s, ps).1;
            if o.Exhausted? then forall j | 0 <= j < |ps| && Admitted(g, s.breakers, ps[j]) :: GivesUp(g, ps[j])
            else Settles(g, s.breakers, ps, i, o)
    decreases |ps|
  {
    i := 0;
    if ps != [] {
      TurnStops(g, s, ps[0]);
      var (t, stop) := Turn(g, s, ps[0]);
      if stop.Some? {
        assert Settles(g, s.breakers, ps, 0, stop.value);
      } else {
        var rest := ps[1..];
        assert Distinct(rest) && ServesAll(t, rest);
        i := RouteSettles(g, t, rest);
        forall j | 0 <= j < |rest|
          ensures rest[j] == ps[j + 1] && (Admitted(g, t.breakers, rest[j]) <==> Admitted(g, s.breakers, ps[j + 1]))
        {
          assert ps[j + 1] != ps[0];
        }
        i := SettlesLater(g, s.breakers, t.breakers, ps, i, Route(g, s, ps).1);
      }
    }
  }

  lemma SettlesLater(g: Setting, before: seq<Circuit.Breaker>, after: seq<Circuit.Breaker>, ps: seq<nat>, i: nat, o: Outcome)
    returns (i': nat)
    requires ps != [] && (Admitted(g, before, ps[0]) ==> GivesUp(g, ps[0]))
    requires forall j | 0 <= j < |ps| - 1 :: Admitted(g, after, ps[1..][j]) <==> Admitted(g, before, ps[j + 1])
    requires if o.Exhausted? then forall j | 0 <= j < |ps| - 1 && Admitted(g, after, ps[1..][j]) :: GivesUp(g, ps[1..][j])
             else Settles(g, after, ps[1..], i, o)
    ensures if o.Exhausted? then forall j | 0 <= j < |ps| && Admitted(g, before, ps[j]) :: GivesUp(g, ps[j])
            else Settles(g, before, ps, i', o)
  {
    i' := i + 1;
    forall j | 0 <= j < |ps| && Admitted(g, before, ps[j]) && (o.Exhausted? || j < i')
      ensures GivesUp(g, ps[j])
    {
      if j > 0 {
        assert ps[1..][j - 1] == ps[j];
        assert Admitted(g, after, ps[1..][j - 1]);
      }
    }
  }

  /**
    Absent aborts, a decision comes back exactly when some eligible, admitted provider yields one within its attempts;
    it is the first such provider's, at its first valid attempt.
   */
  lemma DecidesExactlyWhen(g: Setting, s: Progress, ps: seq<nat>)
    requires Distinct(ps) && ServesAll(s, ps) && (forall i | 0 <= i < |ps| :: !Breaks(g, ps[i]))
    ensures !Route(g, s, ps).1.Aborted?
    ensures Route(g, s, ps).1.Decided? <==> exists i: nat, k: nat :: i < |ps| && Admitted(g, s.breakers, ps[i]) && Yields(g, ps[i], k)
    ensures forall i: nat, k: nat | Reached(g, s.breakers, ps, i) && Admitted(g, s.breakers, ps[i]) && Yields(g, ps[i], k) ::
              Route(g, s, ps).1 == Decided(ps[i], k)
  {
    var m := RouteSettles(g, s, ps);
    var o := Route(g, s, ps).1;
    forall i: nat, k: nat | Reached(g, s.breakers, ps, i) && Admitted(g, s.breakers, ps[i]) && Yields(g, ps[i], k)
      ensures o == Decided(ps[i], k)
    {
      assert !GivesUp(g, ps[i]);
      assert o.Decided?;
      assert !GivesUp(g, ps[m]);
      assert m == i;
      FirstValidAttempt(g, ps[i], k, o.number);
    }
  }

  /** A provider yields at most at one attempt: the first that is not a retryable failure. */
  lemma FirstValidAttempt(g: Setting, p: nat, k: nat, n: nat)
    requires Yields(g, p, k) && Yields(g, p, n)
    ensures k == n
  {
    assert k < n ==> Retries(g, p, k);
    assert n < k ==> Retries(g, p, n);
  }

  // the log and the number of calls

  ghost predicate Shape(g: Setting, ps: seq<nat>, blocks: seq<seq<Attempt>>, decided: bool) {
    && |blocks| <= |ps|
    && (forall i | 0 <= i < |blocks| :: Block(g, ps[i], blocks[i]))
    && (forall i | 0 <= i < |blocks| - 1 :: !Succeeds(blocks[i]))
    && (if decided then blocks != [] && Succeeds(blocks[|blocks| - 1])
        else |blocks| == |ps| && (blocks != [] ==> !Succeeds(blocks[|blocks| - 1])))
  }

  lemma ShapeCons(g: Setting, ps: seq<nat>, b: seq<Attempt>, blocks: seq<seq<Attempt>>, decided: bool)
    requires ps != [] && Block(g, ps[0], b) && !Succeeds(b) && Shape(g, ps[1..], blocks, decided)
    ensures Shape(g, ps, [b] + blocks, decided)
  {
    var longer := [b] + blocks;
    forall i | 0 <= i < |longer|
      ensures Block(g, ps[i], longer[i])
    {
      assert i > 0 ==> longer[i] == blocks[i - 1] && ps[i] == ps[1..][i - 1];
    }
    assert blocks != [] ==> longer[|longer| - 1] == blocks[|blocks| - 1];
    forall i | 0 <= i < |longer| - 1
      ensures !Succeeds(longer[i])
    {
      assert i > 0 ==> longer[i] == blocks[i - 1];
    }
  }

  lemma ShapeLast(g: Setting, ps: seq<nat>, b: seq<Attempt>)
    requires ps != [] && Block(g, ps[0], b) && Succeeds(b)
    ensures Shape(g, ps, [b], true) && Flatten([b]) == b
  {
  }

  /**
    The exact shape of the log of a run that is not aborted: one block per provider, in order, from the first one on;
    only the last block may end in success, and without a success every eligible provider has its block.
   */
  lemma {:induction false} RouteLogs(g: Setting, s: Progress, ps: seq<nat>) returns (blocks: seq<seq<Attempt>>)
    requires ServesAll(s, ps) && !Route(g, s, ps).1.Aborted?
    ensures Route(g, s, ps).0.log == s.log + Flatten(blocks)
    ensures Shape(g, ps, blocks, Route(g, s, ps).1.Decided?)
    decreases |ps|
  {
    if ps == [] {
      blocks := [];
      assert s.log + [] == s.log;
    } else {
      var b := TurnLogs(g, s, ps[0]);
      if Turn(g, s, ps[0]).1.Some? {
        TurnStops(g, s, ps[0]);
        ShapeLast(g, ps, b);
        blocks := [b];
      } else {
        var rest := RouteLogs(g, Turn(g, s, ps[0]).0, ps[1..]);
        ShapeCons(g, ps, b, rest, Route(g, s, ps).1.Decided?);
        FlattenCons(s.log, b, rest);
        blocks := [b] + rest;
      }
    }
  }

  lemma FlattenCons(log: seq<Attempt>, b: seq<Attempt>, rest: seq<seq<Attempt>>)
    ensures log + Flatten([b] + rest) == (log + b) + Flatten(rest)
  {
    assert ([b] + rest)[1..] == rest;
  }

  /** The log entries that stand for a provider call. */
  function Calls(log: seq<Attempt>): nat {
    if log == [] then 0 else Calls(log[..|log| - 1]) + (if log[|log| - 1].status.SkippedCircuit? then 0 else 1)
  }

  lemma {:induction false} CallsAppend(a: seq<Attempt>, b: seq<Attempt>)
    ensures Calls(a + b) == Calls(a) + Calls(b)
  {
    if b == [] {
      assert a + b == a;
    } else {
      CallsAppend(a, b[..|b| - 1]);
      assert (a + b)[..|a + b| - 1] == a + b[..|b| - 1];
    }
  }

  lemma {:induction false} NoSkipsAllCalls(b: seq<Attempt>)
    requires forall j | 0 <= j < |b| :: !b[j].status.SkippedCircuit?
    ensures Calls(b) == |b|
  {
    if b != [] {
      NoSkipsAllCalls(b[..|b| - 1]);
    }
  }

  lemma OneMore(n: nat, each: nat)
    ensures (n + 1) * each == n * each + each && n * each >= 0
  {
  }

  lemma TurnCallsAreLogged(g: Setting, s: Progress, p: nat)
    requires Serves(s, p) && s.made == Calls(s.log)
    ensures var (t, stop) := Turn(g, s, p);
            && Calls(t.log) <= t.made <= Calls(t.log) + 1 && (t.made > Calls(t.log) ==> stop == Some(Aborted))
            && t.made <= s.made + 1 + g.maxRetries
            && (stop.Some? ==> stop.value.Aborted? || stop.value.Decided?)
            && (stop.Some? && stop.value.Decided? ==> Calls(t.log) > 0)
  {
    var b := TurnLogs(g, s, p);
    CallsAppend(s.log, b);
    TurnStops(g, s, p);
  }

  /** Every call is logged, except one that an abort interrupts; and there are at most N * (1 + maxRetries) calls. */
  lemma {:induction false} CallsAreLogged(g: Setting, s: Progress, ps: seq<nat>)
    requires ServesAll(s, ps) && s.made == Calls(s.log)
    ensures var (t, o) := Route(g, s, ps);
            && Calls(t.log) <= t.made <= Calls(t.log) + 1 && (t.made > Calls(t.log) ==> o.Aborted?)
            && t.made <= s.made + |ps| * (1 + g.maxRetries)
            && (o.Decided? ==> Calls(t.log) > 0)
    decreases |ps|
  {
    if ps != [] {
      TurnCallsAreLogged(g, s, ps[0]);
      var (t, stop) := Turn(g, s, ps[0]);
      OneMore(|ps| - 1, 1 + g.maxRetries);
      if stop.None? {
        CallsAreLogged(g, t, ps[1..]);
      }
    }
  }

  /** The ceiling on calls is reached: by providers that are all admitted and only ever fail retryably. */
  lemma {:induction false} TryExhausts(g: Setting, s: Progress, p: nat, k: nat)
    requires Serves(s, p) && 1 <= k <= 1 + g.maxRetries && forall j: nat :: Retries(g, p, j)
    ensures Try(g, s, p, k).1.None? && Try(g, s, p, k).0.made == s.made + 2 + g.maxRetries - k
    decreases 2 + g.maxRetries - k
  {
    assert Retries(g, p, k);
    if k < 1 + g.maxRetries {
      TryExhausts(g, AfterFailure(g, s, p, k, g.calls(p, k).class_, g.calls(p, k).authMessage), p, k + 1);
    }
  }

  lemma {:induction false} RouteExhausts(g: Setting, s: Progress, ps: seq<nat>)
    requires Distinct(ps) && ServesAll(s, ps) && forall i | 0 <= i < |ps| :: Admitted(g, s.breakers, ps[i])
    requires forall p: nat, j: nat :: Retries(g, p, j)
    ensures Route(g, s, ps).1.Exhausted? && Route(g, s, ps).0.made == s.made + |ps| * (1 + g.maxRetries)
    decreases |ps|
  {
    if ps != [] {
      TryExhausts(g, Checked(g, s, ps[0]), ps[0], 1);
      TurnStops(g, s, ps[0]);
      var t := Turn(g, s, ps[0]).0;
      forall i | 0 <= i < |ps[1..]|
        ensures Admitted(g, t.breakers, ps[1..][i])
      {
        assert ps[1..][i] == ps[i + 1] && ps[i + 1] != ps[0];
      }
      RouteExhausts(g, t, ps[1..]);
      OneMore(|ps| - 1, 1 + g.maxRetries);
    }
  }

  // ----- what the pipeline charges to the budget

  /** Successful routing charges its logged calls, at least one; exhaustion its logged calls; an abort carries no log. */
  function Charged(o: Outcome, log: seq<Attempt>): nat {
    match o
    case Decided(_, _) => if log == [] || Calls(log) == 0 then 1 else Calls(log)
    case Exhausted(_) => Calls(log)
    case Aborted => 0
  }

  /** The charge equals the calls actually made exactly when no abort interrupted a routing that had called a provider. */
  lemma ChargedExactly(g: Setting, breakers: seq<Circuit.Breaker>, health: seq<Health>, ps: seq<nat>)
    requires |breakers| == |health| && forall i | 0 <= i < |ps| :: ps[i] < |breakers|
    ensures var (t, o) := Route(g, Progress([], 0, breakers, health, None), ps);
            && (Charged(o, t.log) == t.made <==> !(o.Aborted? && t.made > 0))
            && Charged(o, t.log) <= t.made <= |ps| * (1 + g.maxRetries)
  {
    var start := Progress([], 0, breakers, health, None);
    CallsAreLogged(g, start, ps);
    var (t, o) := Route(g, start, ps);
    assert o.Aborted? || Charged(o, t.log) == Calls(t.log) == t.made;
  }
}
