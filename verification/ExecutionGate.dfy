/**
  The gate chain that decides whether a decision is executed without a human:
  the execution-mode gate, the policy engine over an arbitrary rule list, the
  policy and degraded-mode overrides, and the payload check.
 */
module ExecutionGate {
  import opened Basics

  datatype Action = Respond | ApprovePlan | RequestChanges | RequestHuman | Ignore | Block

  datatype Risk = Low | Medium | High | Critical

  datatype Mode = Disabled | DryRun | Assisted | AutoRespond | FullAuto

  datatype Options = Options(mode: Mode, autoRespondEnabled: bool, autoPlanApprovalEnabled: bool, confidenceThreshold: real)

  /** The gate result without its free-text reason. */
  datatype Gate = Gate(action: Action, allowed: bool, requiresHumanReview: bool, blocked: bool, autoExecuted: bool)

  datatype Requirement = Approve | RequireHuman | HardBlock

  datatype RuleEvaluation = RuleEvaluation(passed: bool, required: Option<Requirement>, reason: string)

  datatype PolicyResult = PolicyResult(allowed: bool, effectiveRisk: Risk, requiresHumanReview: bool, isHardBlocked: bool)

  /** Everything the chain reads: the proposal, the rule outcomes, and the worker's configuration. */
  datatype Inputs = Inputs(
    action: Action, response: Option<string>, risk: Risk, confidence: real,
    deterministicRisk: Risk, rules: seq<RuleEvaluation>, options: Options, degraded: bool)

  /** The execution state a decision row is first written with. */
  datatype ExecutionState =
    | Executing | AwaitingApproval | Blocked | DryRunCompleted
    | DispatchRequested | Executed | ExecutionFailed | UnknownEffect

  function Order(r: Risk): int {
    match r
    case Low => 0
    case Medium => 1
    case High => 2
    case Critical => 3
  }

  function Riskier(a: Risk, b: Risk): Risk {
    if Order(b) > Order(a) then b else a
  }

  function EvaluateExecutionGate(action: Action, risk: Risk, confidence: real, o: Options): Gate {
    if o.mode.Disabled? then Gate(action, false, false, true, false)
    else if o.mode.DryRun? then Gate(action, true, false, false, false)
    else if risk.Critical? then Gate(action, false, true, true, false)
    else if risk.High? then Gate(action, false, true, false, false)
    else if action.Block? || action.RequestHuman? || action.Ignore? then
      Gate(action, false, !action.Ignore?, action.Block?, false)
    else if confidence < o.confidenceThreshold then Gate(RequestHuman, false, true, false, false)
    else match o.mode
      case Assisted => Gate(action, false, true, false, false)
      case AutoRespond =>
        if action.Respond? && risk.Low? && o.autoRespondEnabled then Gate(action, true, false, false, true)
        else Gate(action, false, true, false, false)
      case FullAuto =>
        if action.ApprovePlan? then
          if o.autoPlanApprovalEnabled then Gate(action, true, false, false, true)
          else Gate(action, false, true, false, false)
        else Gate(action, true, false, false, true)
      case _ => Gate(action, false, true, false, false)
  }

  predicate FailsWith(e: RuleEvaluation, need: Requirement) {
    !e.passed && e.required == Some(need)
  }

  function PolicyVerdict(rules: seq<RuleEvaluation>, risk: Risk): PolicyResult {
    var hard := exists i | 0 <= i < |rules| :: FailsWith(rules[i], HardBlock);
    var human := exists i | 0 <= i < |rules| :: FailsWith(rules[i], RequireHuman);
    PolicyResult(!hard && !human, if hard then Critical else if human && risk.Low? then Medium else risk, human, hard)
  }

  function FailureReasons(rules: seq<RuleEvaluation>): seq<string> {
    if rules == [] then []
    else FailureReasons(rules[..|rules| - 1]) + (if rules[|rules| - 1].passed then [] else [rules[|rules| - 1].reason])
  }

  /** The policy engine's loop over the failed rules. */
  method Evaluate(rules: seq<RuleEvaluation>, risk: Risk) returns (result: PolicyResult, reasons: seq<string>)
    ensures result == PolicyVerdict(rules, risk)
    ensures reasons == if FailureReasons(rules) == [] then ["All policy rules passed"] else FailureReasons(rules)
    ensures result.isHardBlocked <==> exists i :: 0 <= i < |rules| && !rules[i].passed && rules[i].required == Some(HardBlock)
    ensures result.requiresHumanReview <==> exists i :: 0 <= i < |rules| && !rules[i].passed && rules[i].required == Some(RequireHuman)
    ensures result.allowed <==> !result.isHardBlocked && !result.requiresHumanReview
    ensures result.effectiveRisk == if result.isHardBlocked then Critical
                                    else if result.requiresHumanReview && risk == Low then Medium else risk
  {
    var isHardBlocked, requiresHumanReview := false, false;
    reasons := [];
    for n := 0 to |rules|
      invariant isHardBlocked <==> exists i | 0 <= i < n :: FailsWith(rules[i], HardBlock)
      invariant requiresHumanReview <==> exists i | 0 <= i < n :: FailsWith(rules[i], RequireHuman)
      invariant reasons == FailureReasons(rules[..n])
    {
      assert rules[..n + 1][..n] == rules[..n];
      var e := rules[n];
      if !e.passed {
        reasons := reasons + [e.reason];
        if e.required == Some(HardBlock) {
          isHardBlocked := true;
        } else if e.required == Some(RequireHuman) {
          requiresHumanReview := true;
        }
      }
    }
    assert rules[..|rules|] == rules;
    var effectiveRisk := risk;
    if isHardBlocked {
      effectiveRisk := Critical;
    } else if requiresHumanReview && effectiveRisk.Low? {
      effectiveRisk := Medium;
    }
    result := PolicyResult(!isHardBlocked && !requiresHumanReview, effectiveRisk, requiresHumanReview, isHardBlocked);
    if reasons == [] {
      reasons := ["All policy rules passed"];
    }
  }

  /** An approval needs no text; every other action needs a response that is not blank. */
  predicate HasExecutablePayload(action: Action, response: Option<string>) {
    action.ApprovePlan? || (response.Some? && exists i | 0 <= i < |response.value| :: !IsSpace(response.value[i]))
  }

  function EffectiveRisk(i: Inputs): Risk {
    Riskier(Riskier(Riskier(Low, i.risk), i.deterministicRisk), PolicyVerdict(i.rules, i.risk).effectiveRisk)
  }

  /** The whole chain of `processActivity`, override by override. */
  function Chain(i: Inputs): Gate {
    var policy := PolicyVerdict(i.rules, i.risk);
    var base := EvaluateExecutionGate(i.action, EffectiveRisk(i), i.confidence, i.options);
    var ruled :=
      if policy.isHardBlocked then
        base.(allowed := false, autoExecuted := false, blocked := true, requiresHumanReview := false)
      else if policy.requiresHumanReview || !policy.allowed then
        base.(allowed := false, autoExecuted := false, requiresHumanReview := true)
      else base;
    var settled :=
      if i.degraded && ruled.autoExecuted then ruled.(autoExecuted := false, requiresHumanReview := true, blocked := false)
      else ruled;
    if settled.autoExecuted && !HasExecutablePayload(i.action, i.response)
    then settled.(autoExecuted := false, requiresHumanReview := true)
    else settled
  }

  function InitialState(g: Gate): ExecutionState {
    if g.autoExecuted then Executing
    else if g.requiresHumanReview then AwaitingApproval
    else if g.blocked then Blocked
    else DryRunCompleted
  }

  /** Both risk assessments are at most `level`. */
  ghost predicate AllRisksWithin(i: Inputs, level: Risk) {
    Order(i.risk) <= Order(level) && Order(i.deterministicRisk) <= Order(level)
  }

  ghost predicate NoRuleObjects(i: Inputs) {
    forall k | 0 <= k < |i.rules| :: !FailsWith(i.rules[k], HardBlock) && !FailsWith(i.rules[k], RequireHuman)
  }

  /** The configurations in which the supervisor may act alone. */
  ghost predicate MayActAlone(i: Inputs) {
    || (i.options.mode.AutoRespond? && i.action.Respond? && i.options.autoRespondEnabled && AllRisksWithin(i, Low))
    || (i.options.mode.FullAuto? && i.action.ApprovePlan? && i.options.autoPlanApprovalEnabled && AllRisksWithin(i, Medium))
    || (i.options.mode.FullAuto? && (i.action.Respond? || i.action.RequestChanges?) && AllRisksWithin(i, Medium))
  }

  /** Executed without a human. */
  ghost predicate ExecutesAlone(i: Inputs) {
    && MayActAlone(i)
    && NoRuleObjects(i)
    && i.confidence >= i.options.confidenceThreshold
    && !i.degraded
    && HasExecutablePayload(i.action, i.response)
  }

  /** Ended at once: by a hard block, or by a supervisor that is switched off. */
  ghost predicate EndsBlocked(i: Inputs) {
    || (exists k | 0 <= k < |i.rules| :: FailsWith(i.rules[k], HardBlock))
    || (i.options.mode.Disabled? && NoRuleObjects(i))
  }

  /** Ended without anything to do: a dry run, or a proposal to ignore at a risk that needs no human. */
  ghost predicate EndsDry(i: Inputs) {
    && NoRuleObjects(i)
    && (i.options.mode.DryRun? || (!i.options.mode.Disabled? && i.action.Ignore? && AllRisksWithin(i, Medium)))
  }

  /** Exactly when a decision is executed without a human. */
  lemma AutoExecutesExactlyWhen(i: Inputs)
    ensures Chain(i).autoExecuted <==> ExecutesAlone(i)
  {
  }

  /** The first state of every decision, over all inputs; whatever does not end at once and does not run alone waits for a human. */
  lemma StatesExactlyWhen(i: Inputs)
    ensures InitialState(Chain(i)) == Executing <==> ExecutesAlone(i)
    ensures InitialState(Chain(i)) == Blocked <==> EndsBlocked(i)
    ensures InitialState(Chain(i)) == DryRunCompleted <==> EndsDry(i)
    ensures InitialState(Chain(i)) == AwaitingApproval <==> !ExecutesAlone(i) && !EndsBlocked(i) && !EndsDry(i)
    ensures Chain(i).requiresHumanReview <==> InitialState(Chain(i)) == AwaitingApproval
  {
    AutoExecutesExactlyWhen(i);
  }

  /** The rest of the gate, over all inputs: whether it allows, whether it blocks, and what it asks for. */
  lemma GateExactly(i: Inputs)
    ensures Chain(i).allowed <==>
              NoRuleObjects(i) && (i.options.mode == DryRun || (MayActAlone(i) && i.confidence >= i.options.confidenceThreshold))
    ensures Chain(i).blocked <==>
              || (exists k | 0 <= k < |i.rules| :: FailsWith(i.rules[k], HardBlock))
              || i.options.mode == Disabled
              || (i.options.mode != DryRun && (!AllRisksWithin(i, High) || (AllRisksWithin(i, Medium) && i.action == Block)))
    ensures Chain(i).action ==
              if i.options.mode != Disabled && i.options.mode != DryRun && AllRisksWithin(i, Medium)
                 && !(exists k | 0 <= k < |i.rules| :: FailsWith(i.rules[k], HardBlock))
                 && i.action in {Respond, ApprovePlan, RequestChanges} && i.confidence < i.options.confidenceThreshold
              then RequestHuman else i.action
  {
  }

  lemma HighestIsEffective(i: Inputs, highest: Risk)
    requires var p := PolicyVerdict(i.rules, i.risk).effectiveRisk;
             && Order(i.risk) <= Order(highest) && Order(i.deterministicRisk) <= Order(highest) && Order(p) <= Order(highest)
             && highest in {Low, i.risk, i.deterministicRisk, p}
    ensures highest == EffectiveRisk(i)
  {
  }

  /** The chain as the pipeline runs it, reassigning one gate variable. */
  method DecideGate(i: Inputs) returns (gate: Gate, state: ExecutionState)
    ensures gate == Chain(i) && state == InitialState(gate)
    ensures state.Executing? <==> ExecutesAlone(i)
    ensures state.Blocked? <==> EndsBlocked(i)
    ensures state.DryRunCompleted? <==> EndsDry(i)
    ensures state.AwaitingApproval? <==> gate.requiresHumanReview
  {
    var policy, _ := Evaluate(i.rules, i.risk);
    var risks := [i.risk, i.deterministicRisk, policy.effectiveRisk];
    var maxR := Low;
    for k := 0 to |risks|
      invariant forall j | 0 <= j < k :: Order(risks[j]) <= Order(maxR)
      invariant maxR.Low? || maxR in risks
    {
      if Order(risks[k]) > Order(maxR) {
        maxR := risks[k];
      }
    }
    assert Order(risks[0]) <= Order(maxR) && Order(risks[1]) <= Order(maxR) && Order(risks[2]) <= Order(maxR);
    HighestIsEffective(i, maxR);
    StatesExactlyWhen(i);
    gate := EvaluateExecutionGate(i.action, maxR, i.confidence, i.options);
    if policy.isHardBlocked {
      gate := gate.(allowed := false, autoExecuted := false, blocked := true, requiresHumanReview := false);
    } else if policy.requiresHumanReview || !policy.allowed {
      gate := gate.(allowed := false, autoExecuted := false, requiresHumanReview := true);
    }
    if i.degraded && gate.autoExecuted {
      gate := gate.(autoExecuted := false, requiresHumanReview := true, blocked := false);
    }
    var hasExecutablePayload := HasExecutablePayload(i.action, i.response);
    if gate.autoExecuted && !hasExecutablePayload {
      gate := gate.(autoExecuted := false, requiresHumanReview := true);
    }
    state := if gate.autoExecuted then Executing
             else if gate.requiresHumanReview then AwaitingApproval
             else if gate.blocked then Blocked
             else DryRunCompleted;
  }

  /** The three verdicts of the chain never overlap: executing alone excludes review and block. */
  lemma AutoExecutionExcludesReview(i: Inputs)
    ensures Chain(i).autoExecuted ==>
      && !Chain(i).requiresHumanReview && !Chain(i).blocked && Chain(i).allowed
      && Chain(i).action == i.action
      && (i.action.Respond? || i.action.ApprovePlan? || i.action.RequestChanges?)
  {
  }

  /** A failed hard-block rule wins over every other outcome, whatever the mode, the risk and the degraded flag. */
  lemma HardBlockDominates(i: Inputs, k: nat)
    requires k < |i.rules| && FailsWith(i.rules[k], HardBlock)
    ensures InitialState(Chain(i)) == Blocked && !Chain(i).allowed
  {
  }

  /** Raising any assessed risk, adding a rule, or degrading the worker never turns a refusal into an execution. */
  lemma StricterNeverExecutesMore(i: Inputs, j: Inputs)
    requires j.action == i.action && j.response == i.response && j.confidence == i.confidence && j.options == i.options
    requires Order(i.risk) <= Order(j.risk) && Order(i.deterministicRisk) <= Order(j.deterministicRisk)
    requires i.rules <= j.rules && (i.degraded ==> j.degraded)
    ensures Chain(j).autoExecuted ==> Chain(i).autoExecuted
  {
  }
}
