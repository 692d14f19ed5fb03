/** What one routing leaves behind in each provider's breaker and health. */
module ProviderEffects {
  import opened Basics
  import Circuit = CircuitBreaker
  import opened ProviderError
  import opened ProviderRouter

  /** What the log says happened to provider `p`, as its breaker counts it: a skip is nothing. */
  function OutcomesOf(g: Setting, p: nat, log: seq<Attempt>): seq<Circuit.Outcome> {
    if log == [] then []
    else
      var a := log[|log| - 1];
      OutcomesOf(g, p, log[..|log| - 1])
      + (if a.provider != p || a.status.SkippedCircuit? then []
         else if a.status.Success? then [Circuit.Succeeded]
         else [Circuit.Failed(g.clock(p, a.number))])
  }

  lemma {:induction false} OutcomesAppend(g: Setting, p: nat, a: seq<Attempt>, b: seq<Attempt>)
    ensures OutcomesOf(g, p, a + b) == OutcomesOf(g, p, a) + OutcomesOf(g, p, b)
  {
    if b == [] {
      assert a + b == a;
    } else {
      OutcomesAppend(g, p, a, b[..|b| - 1]);
      assert (a + b)[..|a + b| - 1] == a + b[..|b| - 1];
    }
  }

  /** The last entry for provider `p`. */
  function LastOf(p: nat, log: seq<Attempt>): Option<Attempt> {
    if log == [] then None
    else if log[|log| - 1].provider == p then Some(log[|log| - 1])
    else LastOf(p, log[..|log| - 1])
  }

  lemma {:induction false} LastAppend(p: nat, a: seq<Attempt>, b: seq<Attempt>)
    ensures LastOf(p, a + b) == if LastOf(p, b).Some? then LastOf(p, b) else LastOf(p, a)
  {
    if b == [] {
      assert a + b == a;
    } else {
      LastAppend(p, a, b[..|b| - 1]);
      assert (a + b)[..|a + b| - 1] == a + b[..|b| - 1];
    }
  }

  ghost predicate Monotone(g: Setting) {
    forall p: nat, k: nat :: g.clock(p, k) <= g.clock(p, k + 1)
  }

  /** Authentication failures and misconfigurations stay until a success or an open circuit; anything else shows the last attempt. */
  predicate HealthFits(g: Setting, p: nat, before: Health, after: Health, log: seq<Attempt>) {
    match LastOf(p, log)
    case None => after == before
    case Some(a) =>
      match a.status
      case SkippedCircuit => after == CircuitOpen
      case Success => after == Healthy
      case Failed(class_) =>
        if before == AuthFailure || before == Misconfigured then after == before
        else if class_ == NonRetryable then
          g.calls(p, a.number).Fails? && after == if g.calls(p, a.number).authMessage then AuthFailure else Misconfigured
        else after == Degraded
  }

  // ----- one provider's turn

  lemma Once(g: Setting, p: nat, a: Attempt)
    ensures OutcomesOf(g, p, [a]) == if a.provider != p || a.status.SkippedCircuit? then []
                                     else if a.status.Success? then [Circuit.Succeeded]
                                     else [Circuit.Failed(g.clock(p, a.number))]
    ensures LastOf(p, [a]) == if a.provider == p then Some(a) else None
  {
    assert [a][..0] == [];
  }

  /** History and last entry of two logs, one after the other. */
  lemma Chains(g: Setting, p: nat, h: seq<Circuit.Outcome>, b: seq<Attempt>, rest: seq<Attempt>)
    ensures h + OutcomesOf(g, p, b + rest) == h + OutcomesOf(g, p, b) + OutcomesOf(g, p, rest)
    ensures LastOf(p, b + rest) == if LastOf(p, rest).Some? then LastOf(p, rest) else LastOf(p, b)
    ensures OutcomesOf(g, p, rest) == [] ==> h + OutcomesOf(g, p, b + rest) == h + OutcomesOf(g, p, b)
    ensures OutcomesOf(g, p, b) == [] ==> h + OutcomesOf(g, p, b + rest) == h + OutcomesOf(g, p, rest)
  {
    OutcomesAppend(g, p, b, rest);
    LastAppend(p, b, rest);
  }

  /** One failed attempt. */
  lemma FailureFeeds(g: Setting, s: Progress, p: nat, k: nat, h: seq<Circuit.Outcome>, before: int)
    requires Serves(s, p) && g.calls(p, k).Fails?
    requires Circuit.Represents(g.circuit, s.breakers[p], h, before) && before <= g.clock(p, k)
    ensures var c := g.calls(p, k);
            var next, a := AfterFailure(g, s, p, k, c.class_, c.authMessage), Attempt(p, k, Failed(c.class_));
            && next.log == s.log + [a]
            && Circuit.Represents(g.circuit, next.breakers[p], h + OutcomesOf(g, p, [a]), g.clock(p, k))
            && HealthFits(g, p, s.health[p], next.health[p], [a])
  {
    Once(g, p, Attempt(p, k, Failed(g.calls(p, k).class_)));
    Circuit.FailureRepresents(g.circuit, s.breakers[p], h, before, g.clock(p, k));
  }

  lemma HealthChains(g: Setting, p: nat, before: Health, middle: Health, after: Health, a: Attempt, rest: seq<Attempt>)
    requires a.provider == p && a.status == Failed(Retryable)
    requires HealthFits(g, p, before, middle, [a]) && HealthFits(g, p, middle, after, rest)
    ensures HealthFits(g, p, before, after, [a] + rest)
  {
    Once(g, p, a);
    LastAppend(p, [a], rest);
  }

  /** From attempt k on: every logged failure is one of the breaker's, a success resets it, and health follows. */
  lemma {:induction false} TryFeeds(g: Setting, s: Progress, p: nat, k: nat, h: seq<Circuit.Outcome>, before: int)
    returns (b: seq<Attempt>, now: int)
    requires Serves(s, p) && 1 <= k <= 1 + g.maxRetries && Monotone(g)
    requires Circuit.Represents(g.circuit, s.breakers[p], h, before) && before <= g.clock(p, k)
    ensures var t := Try(g, s, p, k).0;
            && t.log == s.log + b
            && Circuit.Represents(g.circuit, t.breakers[p], h + OutcomesOf(g, p, b), now)
            && HealthFits(g, p, s.health[p], t.health[p], b)
    ensures forall j | 0 <= j < |b| :: b[j].provider == p
    decreases 2 + g.maxRetries - k
  {
    match g.calls(p, k) {
      case Valid => b, now := SuccessFeeds(g, s, p, k, h);
      case Fails(class_, authMessage) =>
        var a, next := Attempt(p, k, Failed(class_)), AfterFailure(g, s, p, k, class_, authMessage);
        b, now := [a], g.clock(p, k);
        FailureFeeds(g, s, p, k, h, before);
        if class_.Retryable? && k < 1 + g.maxRetries {
          var rest;
          rest, now := TryFeeds(g, next, p, k + 1, h + OutcomesOf(g, p, [a]), g.clock(p, k));
          b := ThenRetries(g, s, p, k, h, rest, now);
        }
      case _ =>
        b, now := [], before;
        assert s.log + b == s.log && h + [] == h;
    }
  }

  /** A retryable failure, and what the retries after it have left. */
  lemma ThenRetries(g: Setting, s: Progress, p: nat, k: nat, h: seq<Circuit.Outcome>, rest: seq<Attempt>, now: int)
    returns (all: seq<Attempt>)
    requires Serves(s, p) && Retries(g, p, k) && k < 1 + g.maxRetries
    requires var c, a := g.calls(p, k), Attempt(p, k, Failed(Retryable));
             var next := AfterFailure(g, s, p, k, c.class_, c.authMessage);
             var t := Try(g, next, p, k + 1).0;
             && next.log == s.log + [a] && t.log == next.log + rest
             && Circuit.Represents(g.circuit, t.breakers[p], h + OutcomesOf(g, p, [a]) + OutcomesOf(g, p, rest), now)
             && HealthFits(g, p, s.health[p], next.health[p], [a]) && HealthFits(g, p, next.health[p], t.health[p], rest)
    requires forall j | 0 <= j < |rest| :: rest[j].provider == p
    ensures var t := Try(g, s, p, k).0;
            && t.log == s.log + all
            && Circuit.Represents(g.circuit, t.breakers[p], h + OutcomesOf(g, p, all), now)
            && HealthFits(g, p, s.health[p], t.health[p], all)
    ensures forall j | 0 <= j < |all| :: all[j].provider == p
  {
    var c, a := g.calls(p, k), Attempt(p, k, Failed(Retryable));
    var next := AfterFailure(g, s, p, k, c.class_, c.authMessage);
    Chains(g, p, h, [a], rest);
    HealthChains(g, p, s.health[p], next.health[p], Try(g, next, p, k + 1).0.health[p], a, rest);
    assert next.log + rest == s.log + ([a] + rest);
    all := [a] + rest;
  }

  lemma SuccessFeeds(g: Setting, s: Progress, p: nat, k: nat, h: seq<Circuit.Outcome>) returns (b: seq<Attempt>, now: int)
    requires Serves(s, p) && g.calls(p, k).Valid?
    ensures b == [Attempt(p, k, Success)]
    ensures var t := AfterSuccess(s, p, k);
            && t.log == s.log + b
            && Circuit.Represents(g.circuit, t.breakers[p], h + OutcomesOf(g, p, b), now)
            && HealthFits(g, p, s.health[p], t.health[p], b)
  {
    b, now := [Attempt(p, k, Success)], 0;
    Once(g, p, b[0]);
    Circuit.ClearRepresents(g.circuit, h, Circuit.Succeeded, now);
  }

  lemma TurnFeeds(g: Setting, s: Progress, p: nat, h: seq<Circuit.Outcome>, before: int) returns (b: seq<Attempt>, now: int)
    requires Serves(s, p) && Monotone(g)
    requires Circuit.Represents(g.circuit, s.breakers[p], h, before) && before <= g.clock(p, 0)
    ensures var t := Turn(g, s, p).0;
            && t.log == s.log + b
            && Circuit.Represents(g.circuit, t.breakers[p], h + OutcomesOf(g, p, b), now)
            && HealthFits(g, p, s.health[p], t.health[p], b)
    ensures forall j | 0 <= j < |b| :: b[j].provider == p
  {
    Circuit.RefreshRepresents(g.circuit, s.breakers[p], h, before, g.clock(p, 0));
    if Admitted(g, s.breakers, p) {
      assert g.clock(p, 0) <= g.clock(p, 0 + 1);
      b, now := TryFeeds(g, Checked(g, s, p), p, 1, h, g.clock(p, 0));
    } else {
      b, now := [Attempt(p, 1, SkippedCircuit)], g.clock(p, 0);
      Once(g, p, b[0]);
      assert h + [] == h;
    }
  }

  /** A turn concerns nobody else. */
  lemma {:induction false} TryLeaves(g: Setting, s: Progress, p: nat, k: nat, q: nat)
    requires Serves(s, p) && Serves(s, q) && q != p
    ensures var t := Try(g, s, p, k).0; t.breakers[q] == s.breakers[q] && t.health[q] == s.health[q]
    decreases 2 + g.maxRetries - k
  {
    if k <= 1 + g.maxRetries && Retries(g, p, k) && k < 1 + g.maxRetries {
      TryLeaves(g, AfterFailure(g, s, p, k, g.calls(p, k).class_, g.calls(p, k).authMessage), p, k + 1, q);
    }
  }

  lemma {:induction false} NothingOf(g: Setting, q: nat, b: seq<Attempt>)
    requires forall j | 0 <= j < |b| :: b[j].provider != q
    ensures OutcomesOf(g, q, b) == [] && LastOf(q, b) == None
  {
    if b != [] {
      NothingOf(g, q, b[..|b| - 1]);
    }
  }

  lemma TurnLeaves(g: Setting, s: Progress, p: nat, q: nat) returns (b: seq<Attempt>)
    requires Serves(s, p) && Serves(s, q) && q != p
    ensures var t := Turn(g, s, p).0;
            t.log == s.log + b && t.breakers[q] == s.breakers[q] && t.health[q] == s.health[q]
    ensures OutcomesOf(g, q, b) == [] && LastOf(q, b) == None
  {
    TryLeaves(g, Checked(g, s, p), p, 1, q);
    if Admitted(g, s.breakers, p) {
      b := TryLogs(g, Checked(g, s, p), p, 1);
    } else {
      b := [Attempt(p, 1, SkippedCircuit)];
    }
    NothingOf(g, q, b);
  }

  // ----- the whole routing

  lemma {:induction false} RouteLeaves(g: Setting, s: Progress, ps: seq<nat>, q: nat) returns (b: seq<Attempt>)
    requires ServesAll(s, ps) && q < |s.breakers| && q !in ps
    ensures var t := Route(g, s, ps).0;
            t.log == s.log + b && |t.breakers| == |t.health| == |s.breakers| && t.breakers[q] == s.breakers[q] && t.health[q] == s.health[q]
    ensures OutcomesOf(g, q, b) == [] && LastOf(q, b) == None
    decreases |ps|
  {
    b := [];
    if ps != [] {
      b := TurnLeaves(g, s, ps[0], q);
      var (t, stop) := Turn(g, s, ps[0]);
      if stop.None? {
        var rest := RouteLeaves(g, t, ps[1..], q);
        OutcomesAppend(g, q, b, rest);
        LastAppend(q, b, rest);
        assert t.log + rest == s.log + (b + rest);
        b := b + rest;
      }
    } else {
      assert s.log + b == s.log;
    }
  }

  /**
    After any routing, aborted or not: the breaker of every provider represents its history and the logged failures and
    successes of this routing, at their clock readings, and its health is what the last entry makes it.
   */
  lemma {:induction false} RouteFeeds(g: Setting, s: Progress, ps: seq<nat>, p: nat, h: seq<Circuit.Outcome>, before: int)
    returns (b: seq<Attempt>, now: int)
    requires Distinct(ps) && ServesAll(s, ps) && p < |s.breakers| && Monotone(g)
    requires Circuit.Represents(g.circuit, s.breakers[p], h, before) && before <= g.clock(p, 0)
    ensures var t := Route(g, s, ps).0;
            && t.log == s.log + b && |t.breakers| == |t.health| == |s.breakers|
            && Circuit.Represents(g.circuit, t.breakers[p], h + OutcomesOf(g, p, b), now)
            && HealthFits(g, p, s.health[p], t.health[p], b)
    decreases |ps|
  {
    if ps == [] {
      b, now := [], before;
      assert s.log + b == s.log && h + [] == h;
    } else if ps[0] == p {
      b, now := TurnFeeds(g, s, p, h, before);
      if Turn(g, s, p).1.None? {
        b := ThenLeaves(g, s, ps, b, h, now);
      }
    } else {
      b := TurnLeaves(g, s, ps[0], p);
      now := before;
      assert h + [] == h;
      var (t, stop) := Turn(g, s, ps[0]);
      if stop.None? {
        var rest;
        rest, now := RouteFeeds(g, t, ps[1..], p, h, before);
        b := LaterFeeds(g, s, ps, p, b, rest, h, now);
      }
    }
  }

  /** The turn of another provider, and what the rest of the routing has left. */
  lemma LaterFeeds(
    g: Setting, s: Progress, ps: seq<nat>, p: nat, b: seq<Attempt>, rest: seq<Attempt>, h: seq<Circuit.Outcome>, now: int)
    returns (all: seq<Attempt>)
    requires ServesAll(s, ps) && ps != [] && p < |s.breakers| && Turn(g, s, ps[0]).1.None?
    requires OutcomesOf(g, p, b) == [] && LastOf(p, b) == None
    requires var t := Turn(g, s, ps[0]).0;
             var u := Route(g, t, ps[1..]).0;
             && t.log == s.log + b && t.health[p] == s.health[p]
             && u.log == t.log + rest && |u.breakers| == |u.health| == |s.breakers|
             && Circuit.Represents(g.circuit, u.breakers[p], h + OutcomesOf(g, p, rest), now)
             && HealthFits(g, p, t.health[p], u.health[p], rest)
    ensures var t := Route(g, s, ps).0;
            && t.log == s.log + all && |t.breakers| == |t.health| == |s.breakers|
            && Circuit.Represents(g.circuit, t.breakers[p], h + OutcomesOf(g, p, all), now)
            && HealthFits(g, p, s.health[p], t.health[p], all)
  {
    Chains(g, p, h, b, rest);
    assert s.log + (b + rest) == (s.log + b) + rest;
    all := b + rest;
  }

  /** The rest of a routing, after the turn of the provider in question. */
  lemma ThenLeaves(g: Setting, s: Progress, ps: seq<nat>, b: seq<Attempt>, h: seq<Circuit.Outcome>, now: int) returns (all: seq<Attempt>)
    requires Distinct(ps) && ServesAll(s, ps) && ps != [] && Turn(g, s, ps[0]).1.None?
    requires var t, p := Turn(g, s, ps[0]).0, ps[0];
             && t.log == s.log + b && Circuit.Represents(g.circuit, t.breakers[p], h + OutcomesOf(g, p, b), now)
             && HealthFits(g, p, s.health[p], t.health[p], b)
    ensures var t, p := Route(g, s, ps).0, ps[0];
            && t.log == s.log + all && |t.breakers| == |t.health| == |s.breakers|
            && Circuit.Represents(g.circuit, t.breakers[p], h + OutcomesOf(g, p, all), now)
            && HealthFits(g, p, s.health[p], t.health[p], all)
  {
    var t := Turn(g, s, ps[0]).0;
    var rest := RouteLeaves(g, t, ps[1..], ps[0]);
    Chains(g, ps[0], h, b, rest);
    assert s.log + (b + rest) == (s.log + b) + rest;
    all := b + rest;
  }
}
