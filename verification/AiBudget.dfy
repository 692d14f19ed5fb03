/**
  The autonomy budget of one session: the gate that reads the persisted counters, the routing it lets through, and the
  increment that charges the calls. Workers interleave; they may crash at any point, and an increment may be lost.
 */
module AiBudget {
  import opened Basics
  import opened Counting
  import Errors = ProviderError
  import Router = ProviderRouter

  /** Cost in micro-dollars. */
  datatype Usage = Usage(aiCalls: int, promptTokens: int, completionTokens: int, totalTokens: int, costMicroUsd: int, corrections: int)

  datatype Limits = Limits(maxAiCalls: int, maxTotalTokens: int, maxCostMicroUsd: int, maxCorrections: int)

  datatype Ceiling = AiCalls | TotalTokens | Cost | Corrections

  const NOTHING := Usage(0, 0, 0, 0, 0, 0)

  predicate Reaches(u: Usage, l: Limits, c: Ceiling) {
    match c
    case AiCalls => u.aiCalls >= l.maxAiCalls
    case TotalTokens => u.totalTokens >= l.maxTotalTokens
    case Cost => u.costMicroUsd >= l.maxCostMicroUsd
    case Corrections => u.corrections >= l.maxCorrections
  }

  ghost predicate Exceeded(u: Usage, l: Limits) {
    exists c :: Reaches(u, l, c)
  }

  /** The reasons are exactly the ceilings reached, in a fixed order. */
  method EvaluateBudgetExhaustion(usage: Usage, limits: Limits) returns (exceeded: bool, reasons: seq<Ceiling>)
    ensures exceeded <==> Exceeded(usage, limits)
    ensures forall c :: c in reasons <==> Reaches(usage, limits, c)
    ensures AiCalls in reasons <==> usage.aiCalls >= limits.maxAiCalls
    ensures TotalTokens in reasons <==> usage.totalTokens >= limits.maxTotalTokens
    ensures Cost in reasons <==> usage.costMicroUsd >= limits.maxCostMicroUsd
    ensures Corrections in reasons <==> usage.corrections >= limits.maxCorrections
    ensures exceeded <==> |reasons| > 0
    ensures forall i, j | 0 <= i < j < |reasons| :: Rank(reasons[i]) < Rank(reasons[j])
  {
    reasons := [];
    if usage.aiCalls >= limits.maxAiCalls {
      reasons := reasons + [AiCalls];
    }
    if usage.totalTokens >= limits.maxTotalTokens {
      reasons := reasons + [TotalTokens];
    }
    if usage.costMicroUsd >= limits.maxCostMicroUsd {
      reasons := reasons + [Cost];
    }
    if usage.corrections >= limits.maxCorrections {
      reasons := reasons + [Corrections];
    }
    exceeded := |reasons| > 0;
    AnyCeiling(usage, limits);
  }

  lemma AnyCeiling(u: Usage, l: Limits)
    ensures Exceeded(u, l) <==>
              u.aiCalls >= l.maxAiCalls || u.totalTokens >= l.maxTotalTokens || u.costMicroUsd >= l.maxCostMicroUsd
              || u.corrections >= l.maxCorrections
  {
    if Exceeded(u, l) {
      var c :| Reaches(u, l, c);
    } else {
      assert !Reaches(u, l, AiCalls) && !Reaches(u, l, TotalTokens) && !Reaches(u, l, Cost) && !Reaches(u, l, Corrections);
    }
  }

  function Rank(c: Ceiling): nat {
    match c case AiCalls => 0 case TotalTokens => 1 case Cost => 2 case Corrections => 3
  }

  function AddUsage(u: Usage, d: Usage): Usage {
    Usage(u.aiCalls + d.aiCalls, u.promptTokens + d.promptTokens, u.completionTokens + d.completionTokens,
          u.totalTokens + d.totalTokens, u.costMicroUsd + d.costMicroUsd, u.corrections + d.corrections)
  }

  /** The counters table; every increment is one upsert. */
  class BudgetRepository<Id(==)> {
    var rows: map<Id, Usage>

    constructor ()
      ensures rows == map[]
    {
      rows := map[];
    }

    function UsageOf(session: Id): Usage
      reads this
    {
      if session in rows then rows[session] else NOTHING
    }

    method IncrementUsage(session: Id, delta: Usage)
      requires delta.corrections == 0
      modifies this
      ensures UsageOf(session) == AddUsage(old(UsageOf(session)), delta)
      ensures session in rows && rows == old(rows)[session := rows[session]]
      ensures session !in old(rows) ==> rows[session] == delta
      ensures session in old(rows) ==>
        var before, after := old(rows)[session], rows[session];
        && after.aiCalls == before.aiCalls + delta.aiCalls
        && after.promptTokens == before.promptTokens + delta.promptTokens
        && after.completionTokens == before.completionTokens + delta.completionTokens
        && after.totalTokens == before.totalTokens + delta.totalTokens
        && after.costMicroUsd == before.costMicroUsd + delta.costMicroUsd
        && after.corrections == before.corrections
    {
      if session in rows {
        rows := rows[session := AddUsage(rows[session], delta)];
      } else {
        rows := rows[session := delta];
      }
    }

    method IncrementCorrections(session: Id)
      modifies this
      ensures UsageOf(session) == AddUsage(old(UsageOf(session)), NOTHING.(corrections := 1))
      ensures session in rows && rows == old(rows)[session := rows[session]]
      ensures session !in old(rows) ==> rows[session] == Usage(0, 0, 0, 0, 0, 1)
      ensures session in old(rows) ==> rows[session] == old(rows)[session].(corrections := old(rows)[session].corrections + 1)
    {
      var one := NOTHING.(corrections := 1);
      if session in rows {
        rows := rows[session := AddUsage(rows[session], one)];
      } else {
        rows := rows[session := one];
      }
    }
  }

  // ----- workers sharing one session's budget

  /** `slots` workers may hold the session at once: 1 when its lock is exclusive. */
  datatype Config = Config(limits: Limits, providers: nat, maxRetries: nat, slots: nat)

  datatype Worker = Idle | Cleared | Charging(calls: nat)

  /** `made` counts provider calls, `lost` those that no increment will ever charge. */
  datatype State = State(usage: Usage, made: int, lost: int, workers: seq<Worker>)

  /**
    A routing is one step here, because nothing it does to the breakers is read by another worker's budget; a crash
    during it may come after any number of calls.
   */
  datatype Step =
    | Gate(w: nat)
    | Routes(w: nat, g: Router.Setting, ps: seq<nat>, breakers: seq<Router.Circuit.Breaker>, health: seq<Router.Health>)
    | Charges(w: nat, tokens: Usage)
    | ChargeFails(w: nat)
    | Crashes(w: nat, calls: nat)

  function Init(workers: nat): State {
    State(NOTHING, 0, 0, seq(workers, _ => Idle))
  }

  /** The most calls one routing can make. */
  function PerRouting(c: Config): nat {
    c.providers * (1 + c.maxRetries)
  }

  function Active(w: Worker): nat {
    if w.Idle? then 0 else 1
  }

  /** What a worker may still charge: a whole routing once cleared, then what the routing has left to charge. */
  function Due(c: Config): Worker -> nat {
    (w: Worker) => match w case Idle => 0 case Cleared => PerRouting(c) case Charging(calls) => calls
  }

  function Pending(w: Worker): nat {
    if w.Charging? then w.calls else 0
  }

  ghost predicate RoutingFits(c: Config, step: Step)
    requires step.Routes?
  {
    && |step.ps| <= c.providers && step.g.maxRetries == c.maxRetries
    && |step.breakers| == |step.health| && forall i | 0 <= i < |step.ps| :: step.ps[i] < |step.breakers|
  }

  /** One step; a step that is not enabled changes nothing. */
  ghost function Apply(c: Config, s: State, step: Step): State {
    if step.w >= |s.workers| then s
    else
      var pc := s.workers[step.w];
      match step
      case Gate(w) =>
        if !pc.Idle? || Sum(s.workers, Active) >= c.slots || Exceeded(s.usage, c.limits) then s
        else s.(workers := s.workers[w := Cleared])
      case Routes(w, g, ps, breakers, health) =>
        if !pc.Cleared? || !RoutingFits(c, step) then s
        else
          var (t, o) := Router.Route(g, Router.Progress([], 0, breakers, health, None), ps);
          var charged := Router.Charged(o, t.log);
          s.(made := s.made + t.made, lost := s.lost + t.made - charged,
             workers := s.workers[w := if charged == 0 then Idle else Charging(charged)])
      case Charges(w, tokens) =>
        if !pc.Charging? then s
        else s.(usage := AddUsage(s.usage, tokens.(aiCalls := pc.calls, corrections := 0)), workers := s.workers[w := Idle])
      case ChargeFails(w) =>
        if !pc.Charging? then s else s.(lost := s.lost + pc.calls, workers := s.workers[w := Idle])
      case Crashes(w, calls) =>
        match pc
        case Idle => s
        case Cleared =>
          if calls > PerRouting(c) then s
          else s.(made := s.made + calls, lost := s.lost + calls, workers := s.workers[w := Idle])
        case Charging(n) => s.(lost := s.lost + n, workers := s.workers[w := Idle])
  }

  ghost function After(c: Config, workers: nat, steps: seq<Step>): State {
    if steps == [] then Init(workers) else Apply(c, After(c, workers, steps[..|steps| - 1]), steps[|steps| - 1])
  }

  lemma {:induction false} DueIsBounded(c: Config, ws: seq<Worker>)
    requires forall i | 0 <= i < |ws| :: Due(c)(ws[i]) <= PerRouting(c)
    ensures Sum(ws, Due(c)) <= Sum(ws, Active) * PerRouting(c)
  {
    if ws != [] {
      var front := ws[..|ws| - 1];
      DueIsBounded(c, front);
      Distribute(Sum(front, Active), PerRouting(c));
    }
  }

  lemma Distribute(n: nat, each: nat)
    ensures (n + 1) * each == n * each + each
  {
  }

  // ----- the invariant of every run

  ghost predicate Conserved(s: State) {
    s.made == s.usage.aiCalls + Sum(s.workers, Pending) + s.lost
  }

  ghost predicate Bounded(c: Config, s: State) {
    && (forall i | 0 <= i < |s.workers| :: Due(c)(s.workers[i]) <= PerRouting(c))
    && Sum(s.workers, Active) <= c.slots
    && s.usage.aiCalls + Sum(s.workers, Due(c)) <= MostCharged(c)
    && 0 <= s.usage.aiCalls
  }

  /** The proved bound on the counter. */
  function MostCharged(c: Config): nat {
    if c.limits.maxAiCalls <= 0 then 0 else c.limits.maxAiCalls - 1 + c.slots * PerRouting(c)
  }

  lemma RoutingCharges(c: Config, step: Step)
    requires step.Routes? && RoutingFits(c, step)
    ensures var (t, o) := Router.Route(step.g, Router.Progress([], 0, step.breakers, step.health, None), step.ps);
            && Router.Charged(o, t.log) <= t.made <= PerRouting(c)
            && (!o.Aborted? ==> Router.Charged(o, t.log) == t.made)
  {
    Router.ChargedExactly(step.g, step.breakers, step.health, step.ps);
    Times(|step.ps|, c.providers, 1 + c.maxRetries);
  }

  lemma Times(a: nat, b: nat, each: nat)
    requires a <= b
    ensures a * each <= b * each
  {
  }

  lemma StepConserves(c: Config, s: State, step: Step)
    requires Conserved(s)
    ensures Conserved(Apply(c, s, step))
  {
    var s' := Apply(c, s, step);
    if step.Routes? && RoutingFits(c, step) {
      RoutingCharges(c, step);
    }
    if step.w < |s.workers| && s' != s {
      SumUpdate(s.workers, step.w, s'.workers[step.w], Pending);
    }
  }

  lemma GateKeepsBound(c: Config, s: State, w: nat)
    requires Bounded(c, s) && w < |s.workers| && s.workers[w].Idle? && Sum(s.workers, Active) < c.slots && !Exceeded(s.usage, c.limits)
    ensures Bounded(c, s.(workers := s.workers[w := Cleared]))
  {
    var ws := s.workers[w := Cleared];
    SumUpdate(s.workers, w, Cleared, Active);
    DueIsBounded(c, ws);
    Times(Sum(ws, Active), c.slots, PerRouting(c));
    assert !Reaches(s.usage, c.limits, AiCalls);
  }

  lemma StepKeepsBound(c: Config, s: State, step: Step)
    requires Bounded(c, s)
    ensures Bounded(c, Apply(c, s, step))
  {
    var s' := Apply(c, s, step);
    if step.w < |s.workers| && s' != s {
      if step.Gate? {
        GateKeepsBound(c, s, step.w);
      } else {
        if step.Routes? {
          RoutingCharges(c, step);
        }
        SumUpdate(s.workers, step.w, s'.workers[step.w], Active);
        SumUpdate(s.workers, step.w, s'.workers[step.w], Due(c));
      }
    }
  }

  /**
    In every run: calls made are calls charged, calls waiting to be charged and calls lost; and the counter, with
    everything that may still be charged to it, stays within the ceiling.
   */
  lemma {:induction false} RunInvariant(c: Config, workers: nat, steps: seq<Step>)
    ensures Conserved(After(c, workers, steps)) && Bounded(c, After(c, workers, steps))
  {
    if steps == [] {
      SumZero(Init(workers).workers, Active);
      SumZero(Init(workers).workers, Due(c));
      SumZero(Init(workers).workers, Pending);
    } else {
      var before := After(c, workers, steps[..|steps| - 1]);
      RunInvariant(c, workers, steps[..|steps| - 1]);
      StepConserves(c, before, steps[|steps| - 1]);
      StepKeepsBound(c, before, steps[|steps| - 1]);
    }
  }

  /** With an exclusive session lock the counter never passes maxAiCalls - 1 + N * (1 + maxRetries). */
  lemma ExclusiveBound(c: Config, workers: nat, steps: seq<Step>)
    requires c.slots == 1 && c.limits.maxAiCalls >= 1
    ensures After(c, workers, steps).usage.aiCalls <= c.limits.maxAiCalls - 1 + c.providers * (1 + c.maxRetries)
  {
    RunInvariant(c, workers, steps);
  }

  // ----- tokens and cost

  /** What has been charged so far, column by column. */
  datatype Sums = Sums(prompt: int, completion: int, total: int, cost: int)

  ghost function ChargedSums(c: Config, workers: nat, steps: seq<Step>): Sums {
    if steps == [] then Sums(0, 0, 0, 0)
    else
      var front, step := steps[..|steps| - 1], steps[|steps| - 1];
      var sums, before := ChargedSums(c, workers, front), After(c, workers, front);
      if step.Charges? && step.w < |before.workers| && before.workers[step.w].Charging? then
        Sums(sums.prompt + step.tokens.promptTokens, sums.completion + step.tokens.completionTokens,
             sums.total + step.tokens.totalTokens, sums.cost + step.tokens.costMicroUsd)
      else sums
  }

  /** In every run the token and cost counters are the sums of what was charged. */
  lemma {:induction false} CountersAreSums(c: Config, workers: nat, steps: seq<Step>)
    ensures var u, sums := After(c, workers, steps).usage, ChargedSums(c, workers, steps);
            && u.promptTokens == sums.prompt && u.completionTokens == sums.completion
            && u.totalTokens == sums.total && u.costMicroUsd == sums.cost && u.corrections == 0
  {
    if steps != [] {
      CountersAreSums(c, workers, steps[..|steps| - 1]);
    }
  }

  /** A worker is cleared exactly when it is idle, a slot is free, and every counter is below its ceiling. */
  lemma ClearedExactlyWhen(c: Config, workers: nat, steps: seq<Step>, w: nat)
    ensures var s, sums := After(c, workers, steps), ChargedSums(c, workers, steps);
            Apply(c, s, Gate(w)) != s <==>
              && w < |s.workers| && s.workers[w].Idle? && Sum(s.workers, Active) < c.slots
              && s.usage.aiCalls < c.limits.maxAiCalls && s.usage.corrections < c.limits.maxCorrections
              && sums.total < c.limits.maxTotalTokens && sums.cost < c.limits.maxCostMicroUsd
  {
    CountersAreSums(c, workers, steps);
    var s := After(c, workers, steps);
    assert Exceeded(s.usage, c.limits) <==>
             Reaches(s.usage, c.limits, AiCalls) || Reaches(s.usage, c.limits, TotalTokens)
             || Reaches(s.usage, c.limits, Cost) || Reaches(s.usage, c.limits, Corrections) by {
      assert forall ceiling: Ceiling :: ceiling.AiCalls? || ceiling.TotalTokens? || ceiling.Cost? || ceiling.Corrections?;
    }
    if w < |s.workers| && s.workers[w].Idle? {
      assert s.workers[w := Cleared][w] != s.workers[w];
    }
  }

  /** Every charge is within these bounds. */
  ghost predicate ChargesWithin(steps: seq<Step>, tokens: nat, cost: nat) {
    forall i | 0 <= i < |steps| && steps[i].Charges? ::
      0 <= steps[i].tokens.totalTokens <= tokens && 0 <= steps[i].tokens.costMicroUsd <= cost
  }

  lemma StepKeepsSpending(c: Config, s: State, step: Step, tokens: nat, cost: nat)
    requires Bounded(c, s) && Sum(s.workers, Active) <= c.slots
    requires step.Charges? ==> 0 <= step.tokens.totalTokens <= tokens && 0 <= step.tokens.costMicroUsd <= cost
    requires s.usage.totalTokens + Sum(s.workers, Active) * tokens <= c.limits.maxTotalTokens - 1 + c.slots * tokens
    requires s.usage.costMicroUsd + Sum(s.workers, Active) * cost <= c.limits.maxCostMicroUsd - 1 + c.slots * cost
    ensures var s' := Apply(c, s, step);
            && s'.usage.totalTokens + Sum(s'.workers, Active) * tokens <= c.limits.maxTotalTokens - 1 + c.slots * tokens
            && s'.usage.costMicroUsd + Sum(s'.workers, Active) * cost <= c.limits.maxCostMicroUsd - 1 + c.slots * cost
  {
    var s' := Apply(c, s, step);
    if step.w < |s.workers| && s' != s {
      var before, after := Sum(s.workers, Active), Sum(s'.workers, Active);
      SumUpdate(s.workers, step.w, s'.workers[step.w], Active);
      if step.Gate? {
        assert !Reaches(s.usage, c.limits, TotalTokens) && !Reaches(s.usage, c.limits, Cost);
        Times(after, c.slots, tokens);
        Times(after, c.slots, cost);
      } else if after < before {
        Distribute(after, tokens);
        Distribute(after, cost);
      }
    }
  }

  /** With W workers at once the counters pass a ceiling by less than W charges; with an exclusive lock, by less than one. */
  lemma {:induction false} SpendingIsBounded(c: Config, workers: nat, steps: seq<Step>, tokens: nat, cost: nat)
    requires c.limits.maxTotalTokens >= 1 && c.limits.maxCostMicroUsd >= 1 && ChargesWithin(steps, tokens, cost)
    ensures var s := After(c, workers, steps);
            && s.usage.totalTokens + Sum(s.workers, Active) * tokens <= c.limits.maxTotalTokens - 1 + c.slots * tokens
            && s.usage.costMicroUsd + Sum(s.workers, Active) * cost <= c.limits.maxCostMicroUsd - 1 + c.slots * cost
  {
    if steps == [] {
      SumZero(Init(workers).workers, Active);
    } else {
      var front, step := steps[..|steps| - 1], steps[|steps| - 1];
      SpendingIsBounded(c, workers, front, tokens, cost);
      RunInvariant(c, workers, front);
      StepKeepsSpending(c, After(c, workers, front), step, tokens, cost);
    }
  }

  // ----- without crashes, aborts and lost increments the counter is exact

  ghost predicate Undisturbed(step: Step) {
    match step
    case Gate(_) => true
    case Charges(_, _) => true
    case ChargeFails(_) => false
    case Crashes(_, _) => false
    case Routes(_, g, ps, breakers, health) =>
      && |breakers| == |health| && (forall i | 0 <= i < |ps| :: ps[i] < |breakers|)
      && !Router.Route(g, Router.Progress([], 0, breakers, health, None), ps).1.Aborted?
  }

  lemma {:induction false} CounterIsExact(c: Config, workers: nat, steps: seq<Step>)
    requires forall i | 0 <= i < |steps| :: Undisturbed(steps[i])
    ensures var s := After(c, workers, steps);
            && s.lost == 0 && s.made == s.usage.aiCalls + Sum(s.workers, Pending)
            && ((forall i | 0 <= i < |s.workers| :: s.workers[i].Idle?) ==> s.usage.aiCalls == s.made)
  {
    RunInvariant(c, workers, steps);
    var s := After(c, workers, steps);
    if steps != [] {
      CounterIsExact(c, workers, steps[..|steps| - 1]);
      var step := steps[|steps| - 1];
      if step.Routes? && RoutingFits(c, step) {
        RoutingCharges(c, step);
      }
    }
    if forall i | 0 <= i < |s.workers| :: s.workers[i].Idle? {
      SumZero(s.workers, Pending);
    }
  }

  // ----- the exclusive bound is reached

  const OUTAGE := Router.Fails(Errors.Retryable, false)

  function Always(c: Config, call: Router.Call): Router.Setting {
    Router.Setting(c.maxRetries, Router.Circuit.Config(1, 1, 1), (_, _) => call, (_, _) => 0)
  }

  /** A routing over all providers, all healthy, in which every call ends the same way. */
  function Uniform(c: Config, w: nat, call: Router.Call): Step {
    Routes(w, Always(c, call), seq(c.providers, i => i), seq(c.providers, _ => Router.Circuit.FRESH), seq(c.providers, _ => Router.Healthy))
  }

  lemma UniformCharges(c: Config, w: nat, call: Router.Call)
    requires c.providers >= 1 && (call == Router.Valid || call == OUTAGE)
    ensures var step := Uniform(c, w, call);
            && RoutingFits(c, step)
            && var (t, o) := Router.Route(step.g, Router.Progress([], 0, step.breakers, step.health, None), step.ps);
               Router.Charged(o, t.log) == t.made == if call.Valid? then 1 else PerRouting(c)
  {
    var step := Uniform(c, w, call);
    var start := Router.Progress([], 0, step.breakers, step.health, None);
    if call.Fails? {
      Router.RouteExhausts(step.g, start, step.ps);
    } else {
      assert Router.Turn(step.g, start, 0).1 == Some(Router.Decided(0, 1));
    }
    RoutingCharges(c, step);
  }

  /** One worker's whole turn: gate, routing, increment. */
  function WithRound(c: Config, steps: seq<Step>, call: Router.Call): seq<Step> {
    steps + [Gate(0)] + [Uniform(c, 0, call)] + [Charges(0, NOTHING)]
  }

  lemma RoundCharges(c: Config, s: State, call: Router.Call)
    requires c.providers >= 1 && c.slots >= 1 && (call == Router.Valid || call == OUTAGE)
    requires s.workers == [Idle] && !Exceeded(s.usage, c.limits)
    ensures var s' := Apply(c, Apply(c, Apply(c, s, Gate(0)), Uniform(c, 0, call)), Charges(0, NOTHING));
            && s'.workers == [Idle]
            && s'.usage == s.usage.(aiCalls := s.usage.aiCalls + if call.Valid? then 1 else PerRouting(c))
  {
    SumZero(s.workers, Active);
    var cleared := Apply(c, s, Gate(0));
    assert cleared == s.(workers := [Cleared]);
    UniformCharges(c, 0, call);
    OneEach(c.providers, 1 + c.maxRetries);
    var routed := Apply(c, cleared, Uniform(c, 0, call));
    assert routed.workers == [Charging(if call.Valid? then 1 else PerRouting(c))] && routed.usage == s.usage;
  }

  lemma OneEach(n: nat, each: nat)
    requires n >= 1 && each >= 1
    ensures n * each >= 1
  {
  }

  lemma Then(c: Config, steps: seq<Step>, step: Step)
    ensures After(c, 1, steps + [step]) == Apply(c, After(c, 1, steps), step)
  {
  }

  /** Between rounds: one idle worker, nothing charged but calls. */
  ghost predicate Charged(c: Config, steps: seq<Step>, calls: int) {
    After(c, 1, steps).workers == [Idle] && After(c, 1, steps).usage == NOTHING.(aiCalls := calls)
  }

  ghost predicate OnlyCallsLimit(c: Config) {
    c.limits.maxTotalTokens > 0 && c.limits.maxCostMicroUsd > 0 && c.limits.maxCorrections > 0
  }

  lemma RoundFrom(c: Config, steps: seq<Step>, calls: int, call: Router.Call)
    requires c.providers >= 1 && c.slots >= 1 && (call == Router.Valid || call == OUTAGE)
    requires Charged(c, steps, calls) && OnlyCallsLimit(c) && calls < c.limits.maxAiCalls
    ensures Charged(c, WithRound(c, steps, call), calls + if call.Valid? then 1 else PerRouting(c))
  {
    Then(c, steps, Gate(0));
    Then(c, steps + [Gate(0)], Uniform(c, 0, call));
    Then(c, steps + [Gate(0)] + [Uniform(c, 0, call)], Charges(0, NOTHING));
    RoundCharges(c, After(c, 1, steps), call);
  }

  lemma {:induction false} SingleCalls(c: Config, n: nat) returns (steps: seq<Step>)
    requires c.providers >= 1 && c.slots >= 1 && OnlyCallsLimit(c) && n < c.limits.maxAiCalls
    ensures Charged(c, steps, n)
  {
    if n == 0 {
      steps := [];
    } else {
      var fewer := SingleCalls(c, n - 1);
      RoundFrom(c, fewer, n - 1, Router.Valid);
      steps := WithRound(c, fewer, Router.Valid);
    }
  }

  /** Successful single calls bring the counter just below the limit; one routing that only fails adds the rest. */
  lemma ExclusiveBoundIsReached(c: Config) returns (steps: seq<Step>)
    requires c.slots == 1 && c.providers >= 1 && c.limits.maxAiCalls >= 1 && OnlyCallsLimit(c)
    ensures After(c, 1, steps).usage.aiCalls == c.limits.maxAiCalls - 1 + c.providers * (1 + c.maxRetries)
  {
    var fewer := SingleCalls(c, c.limits.maxAiCalls - 1);
    RoundFrom(c, fewer, c.limits.maxAiCalls - 1, OUTAGE);
    steps := WithRound(c, fewer, OUTAGE);
  }
}
