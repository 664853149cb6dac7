/**
 * The admission policy: a pure verdict on one normalized operation, given the run, the
 * configured tier ladder, what is enabled, what is already in use, and who is asking.
 * Tiers are listed strongest first.
 */
module Policy {
  import opened Wrappers
  import opened Sums
  import opened Ledger

  datatype Provider = Codex | Claude

  datatype Mode = Routing | Admission | Observe | Unsupported

  datatype OperationName = Spawn | Assign | Followup | Message | Other

  const EFFORTS: seq<string> := ["low", "medium", "high", "xhigh", "max", "ultra"]

  datatype Tier = Tier(
    name: Id, model: Id, generationRank: Option<nat>, capabilityRank: Option<nat>, effort: string,
    weight: nat, estimate: Money, maxConcurrent: nat, maySpawn: bool, taskClasses: seq<string>)
  {
    /** Explicit authority, or the legacy cost ordering. */
    function Rank(): nat { if capabilityRank.Some? then capabilityRank.value else weight }
  }

  datatype Posture = DenyUnknown | ObserveUnknown | DegradeUnknown

  datatype Config = Config(
    budget: Money, warnFraction: real, enforce: bool,
    maxDepth: int, strictlyCheaper: bool, unknownIdentity: Posture, unknownModel: Posture,
    ttl: int, tiers: seq<Tier>)

  predicate IsEffort(e: string) { e in EFFORTS }

  function EffortIndex(e: string): (i: nat)
    requires IsEffort(e)
    ensures i < |EFFORTS| && EFFORTS[i] == e
  {
    if e == "low" then 0 else if e == "medium" then 1 else if e == "high" then 2
    else if e == "xhigh" then 3 else if e == "max" then 4 else 5
  }

  predicate ValidConfig(c: Config) {
    && |c.tiers| > 0
    && (forall i, j :: 0 <= i < j < |c.tiers| ==>
          c.tiers[i].name != c.tiers[j].name && c.tiers[i].model != c.tiers[j].model)
    && (forall i, j :: 0 <= i < j < |c.tiers| ==> c.tiers[j].weight <= c.tiers[i].weight)
    && (forall i :: 0 <= i < |c.tiers| ==> IsEffort(c.tiers[i].effort) && c.tiers[i].maxConcurrent >= 1)
  }

  function TierForModel(tiers: seq<Tier>, model: Id): (i: Option<nat>)
    ensures i.Some? ==> i.value < |tiers| && tiers[i.value].model == model
    ensures i.None? ==> forall j :: 0 <= j < |tiers| ==> tiers[j].model != model
  {
    if tiers == [] then None
    else if tiers[0].model == model then Some(0)
    else
      assert forall j :: 1 <= j < |tiers| ==> tiers[j] == tiers[1..][j - 1];
      match TierForModel(tiers[1..], model)
      case None => None
      case Some(i) => Some(i + 1)
  }

  datatype Envelope = Envelope(taskName: Id, taskClass: string, riskTriggers: seq<string>, newTask: bool)

  datatype Operation = Operation(
    provider: Provider, name: OperationName, payload: map<string, string>,
    envelope: Option<Envelope>, isNewWork: bool, correlation: Option<Id>)

  datatype RunContext = RunContext(run: Id, provider: Provider, mode: Mode, generation: int)

  datatype Caller = Caller(model: Id, depth: int, effort: string)

  datatype Evaluation = Evaluation(
    spec: Spec, tier: Option<Tier>, selectedModel: Option<Id>, effort: Option<string>, estimate: Money)

  /** A verdict that names no tier. */
  function Plain(allowed: bool, rule: string): Evaluation {
    Evaluation(Spec(allowed, rule, None, false, false), None, None, None, 0.0)
  }

  /** A refusal after a tier was chosen. */
  function Refuse(rule: string, t: Tier, selected: Option<Id>, effort: Option<string>): Evaluation {
    Evaluation(Spec(false, rule, selected, false, false), Some(t), selected, effort, t.estimate)
  }

  /** Not allowed, and so nothing reserved and no saving claimed. */
  predicate Refuses(e: Evaluation) { !e.spec.allowed && !e.spec.reserve && !e.spec.savings }

  function FirstOf(payload: map<string, string>, names: seq<string>): Option<string> {
    if names == [] then None
    else if names[0] in payload && payload[names[0]] != "" then Some(payload[names[0]])
    else FirstOf(payload, names[1..])
  }

  function RequestedModel(op: Operation): Option<string> {
    FirstOf(op.payload, ["model", "model_slug", "requested_model"])
  }

  function RequestedEffort(op: Operation): Option<string> {
    FirstOf(op.payload, ["reasoning_effort", "model_reasoning_effort"])
  }

  predicate Governed(op: Operation) { op.name != Other && op.isNewWork }

  predicate HighRisk(e: Envelope) { e.taskClass == "high_risk" || |e.riskTriggers| > 0 }

  /** The checks that come before any tier is chosen; None means go on. */
  function Gate(op: Operation, run: RunContext, config: Config, caller: Caller): (g: Option<Evaluation>)
    ensures g.Some? ==> !g.value.spec.reserve && !g.value.spec.savings
  {
    if !Governed(op) then Some(Plain(true, "NOT_GOVERNED"))
    else if run.mode == Unsupported then Some(Plain(false, "UNSUPPORTED_CAPABILITY"))
    else if run.mode == Observe then Some(Plain(true, "OBSERVE_ONLY"))
    else if op.envelope.None? then Some(Plain(false, "MISSING_ENVELOPE"))
    else if !op.envelope.value.newTask then Some(Plain(false, "INVALID_NEW_WORK"))
    else if op.provider != run.provider then Some(Plain(false, "PROVIDER_MISMATCH"))
    else if caller.depth < 0 then Some(Plain(false, "INVALID_DEPTH"))
    else if caller.depth + 1 > config.maxDepth then Some(Plain(false, "DEPTH_LIMIT"))
    else if TierForModel(config.tiers, caller.model).None? then Some(Plain(false, "UNKNOWN_CALLER_MODEL"))
    else if !config.tiers[TierForModel(config.tiers, caller.model).value].maySpawn
    then Some(Plain(false, "CALLER_MAY_NOT_SPAWN"))
    else None
  }

  function FrontierFrom(tiers: seq<Tier>, enabled: set<int>, i: nat): (r: Option<nat>)
    requires i <= |tiers|
    ensures r.Some? ==> i <= r.value < |tiers| && tiers[r.value].name == "frontier" && r.value in enabled
    decreases |tiers| - i
  {
    if i == |tiers| then None
    else if tiers[i].name == "frontier" then (if i in enabled then Some(i) else None)
    else FrontierFrom(tiers, enabled, i + 1)
  }

  function FrontierIndex(config: Config, enabled: set<int>): Option<nat> {
    FrontierFrom(config.tiers, enabled, 0)
  }

  function OwnerFrom(tiers: seq<Tier>, taskClass: string, i: nat): (r: Option<nat>)
    requires i <= |tiers|
    ensures r.Some? ==> i <= r.value < |tiers| && taskClass in tiers[r.value].taskClasses
    ensures r.Some? ==> forall j :: i <= j < r.value ==> taskClass !in tiers[j].taskClasses
    ensures r.None? ==> forall j :: i <= j < |tiers| ==> taskClass !in tiers[j].taskClasses
    decreases |tiers| - i
  {
    if i == |tiers| then None
    else if taskClass in tiers[i].taskClasses then Some(i)
    else OwnerFrom(tiers, taskClass, i + 1)
  }

  function LargestEnabled(enabled: set<int>, i: nat): (r: Option<nat>)
    ensures r.Some? ==> r.value <= i && r.value in enabled && forall j :: r.value < j <= i ==> j !in enabled
    ensures r.None? ==> forall j :: 0 <= j <= i ==> j !in enabled
  {
    if i in enabled then Some(i) else if i == 0 then None else LargestEnabled(enabled, i - 1)
  }

  /** The first tier that lists the task class owns it. */
  predicate Owns(tiers: seq<Tier>, taskClass: string, owner: int) {
    && 0 <= owner < |tiers| && taskClass in tiers[owner].taskClasses
    && forall j :: 0 <= j < owner ==> taskClass !in tiers[j].taskClasses
  }

  /** The cheapest enabled tier no cheaper than the one that owns the task class. */
  function TargetTierIndex(config: Config, enabled: set<int>, taskClass: string): (r: Option<nat>)
    ensures r.Some? ==> r.value < |config.tiers| && r.value in enabled
    ensures r.Some? ==> exists owner ::
              && Owns(config.tiers, taskClass, owner) && r.value <= owner
              && forall j :: r.value < j <= owner ==> j !in enabled
    ensures r.None? <==> forall owner :: Owns(config.tiers, taskClass, owner) ==>
                                           forall j :: 0 <= j <= owner ==> j !in enabled
  {
    match OwnerFrom(config.tiers, taskClass, 0)
    case None => None
    case Some(owner) =>
      assert Owns(config.tiers, taskClass, owner);
      LargestEnabled(enabled, owner)
  }

  datatype Choice =
    | Rejected(result: Evaluation)
    | Chosen(target: Tier, selected: Option<Id>, effort: Option<string>)

  /** The child's model and effort as asked for, or inherited whole from the caller. */
  function Asked(op: Operation, run: RunContext, caller: Caller): (Option<Id>, Option<string>) {
    var model := RequestedModel(op);
    if run.provider == Codex then
      var effort := RequestedEffort(op);
      if "fork_turns" in op.payload && op.payload["fork_turns"] == "all" && model.None? && effort.None?
      then (Some(caller.model), Some(caller.effort))
      else (model, effort)
    else (Some(if model.None? then caller.model else model.value), None)
  }

  function RiskRefusal(config: Config, enabled: set<int>, callerIndex: nat, targetIndex: nat): Option<string> {
    match FrontierIndex(config, enabled)
    case None => Some("FRONTIER_UNAVAILABLE")
    case Some(f) =>
      if callerIndex != f then Some("HIGH_RISK_CALLER_NOT_FRONTIER")
      else if targetIndex != f then Some("HIGH_RISK_REQUIRES_FRONTIER")
      else None
  }

  /** The authority ceilings, in the order they are checked. */
  function AuthorityRefusal(run: RunContext, config: Config, caller: Caller, from: Tier, to: Tier,
                            effort: Option<string>): Option<string>
    requires IsEffort(to.effort)
  {
    if to.model != from.model && (to.generationRank.None? || from.generationRank.None?)
    then Some("UNKNOWN_MODEL_AUTHORITY")
    else if to.generationRank.Some? && from.generationRank.Some? && to.generationRank.value > from.generationRank.value
    then Some("MODEL_GENERATION_CEILING")
    else if to.Rank() > from.Rank() then Some("MODEL_CAPABILITY_CEILING")
    else if run.provider == Codex && !IsEffort(caller.effort) then Some("UNKNOWN_CALLER_EFFORT")
    else if run.provider == Codex && (effort.None? || !IsEffort(effort.value)) then Some("UNKNOWN_TARGET_EFFORT")
    else if run.provider == Codex && EffortIndex(effort.value) > EffortIndex(caller.effort) then Some("EFFORT_CEILING")
    else if run.provider == Codex && EffortIndex(effort.value) > EffortIndex(to.effort)
    then Some("UNSUPPORTED_MODEL_EFFORT")
    else if config.strictlyCheaper && !(to.weight < from.weight) && to.model != from.model
    then Some("STRICTLY_CHEAPER_REQUIRED")
    else None
  }

  function LowerEffort(a: string, b: string): string
    requires IsEffort(a) && IsEffort(b)
  {
    if EffortIndex(a) <= EffortIndex(b) then a else b
  }

  function RouteChoice(op: Operation, run: RunContext, config: Config, enabled: set<int>, caller: Caller,
                       callerIndex: nat, envelope: Envelope): (c: Choice)
    requires ValidConfig(config) && callerIndex < |config.tiers|
    ensures c.Rejected? ==> Refuses(c.result)
  {
    var (model, asked) := Asked(op, run, caller);
    if model.None? then Rejected(Plain(false, "MISSING_MODEL_SELECTION"))
    else
      match TierForModel(config.tiers, model.value)
      case None => Rejected(Plain(false, "UNKNOWN_TARGET_MODEL"))
      case Some(i) =>
        if i !in enabled then Rejected(Plain(false, "TARGET_MODEL_DISABLED"))
        else if HighRisk(envelope) && RiskRefusal(config, enabled, callerIndex, i).Some?
        then Rejected(Plain(false, RiskRefusal(config, enabled, callerIndex, i).value))
        else
          var to := config.tiers[i];
          if run.provider == Codex && asked.None? && !IsEffort(caller.effort)
          then Rejected(Refuse("UNKNOWN_CALLER_EFFORT", to, Some(to.model), None))
          else
            var effort := if run.provider == Codex && asked.None? then Some(LowerEffort(caller.effort, to.effort))
                          else asked;
            match AuthorityRefusal(run, config, caller, config.tiers[callerIndex], to, effort)
            case Some(rule) => Rejected(Refuse(rule, to, Some(to.model), effort))
            case None => Chosen(to, Some(to.model), effort)
  }

  /** Admission cannot choose the child's model, so the child must land on the caller's own tier. */
  function AdmitChoice(config: Config, enabled: set<int>, callerIndex: nat, envelope: Envelope): (c: Choice)
    ensures c.Rejected? ==> Refuses(c.result)
  {
    var target := if HighRisk(envelope) then FrontierIndex(config, enabled)
                  else TargetTierIndex(config, enabled, envelope.taskClass);
    match target
    case None => Rejected(Plain(false, if HighRisk(envelope) then "FRONTIER_UNAVAILABLE" else "NO_ENABLED_TIER"))
    case Some(i) =>
      if i < callerIndex then Rejected(Refuse("STRONGER_CHILD_FORBIDDEN", config.tiers[i], None, None))
      else if i != callerIndex then Rejected(Refuse("ROUTING_REQUIRED", config.tiers[i], None, None))
      else Chosen(config.tiers[i], None, None)
  }

  function Choose(op: Operation, run: RunContext, config: Config, enabled: set<int>, caller: Caller): (c: Choice)
    requires ValidConfig(config) && Gate(op, run, config, caller).None?
    ensures c.Rejected? ==> Refuses(c.result)
  {
    var callerIndex := TierForModel(config.tiers, caller.model).value;
    if run.mode == Routing then RouteChoice(op, run, config, enabled, caller, callerIndex, op.envelope.value)
    else AdmitChoice(config, enabled, callerIndex, op.envelope.value)
  }

  predicate SavingsEligible(run: RunContext, from: Tier, to: Tier) {
    run.mode == Routing && to.weight < from.weight
  }

  /** Room in the tier, then room in the budget. */
  function Capacity(run: RunContext, config: Config, from: Tier, to: Tier, selected: Option<Id>,
                    effort: Option<string>, s: Snapshot): Evaluation
  {
    var projected := s.spent + s.reserved + to.estimate;
    if s.Active(to.name) >= to.maxConcurrent then Refuse("CONCURRENCY_CAP", to, selected, None)
    else if projected > config.budget + SLACK && config.enforce then Refuse("BUDGET_CAP", to, selected, None)
    else
      var rule := if projected > config.budget + SLACK then "BUDGET_CAP_WARNING"
                  else if projected >= config.budget * config.warnFraction then "BUDGET_WARNING"
                  else "ALLOW";
      Evaluation(Spec(true, rule, selected, SavingsEligible(run, from, to), true), Some(to), selected, effort,
                 to.estimate)
  }

  function Evaluate(op: Operation, run: RunContext, config: Config, enabled: set<int>, s: Snapshot, caller: Caller)
    : Evaluation
    requires ValidConfig(config)
  {
    match Gate(op, run, config, caller)
    case Some(result) => result
    case None =>
      match Choose(op, run, config, enabled, caller)
      case Rejected(result) => result
      case Chosen(to, selected, effort) =>
        Capacity(run, config, config.tiers[TierForModel(config.tiers, caller.model).value], to, selected, effort, s)
  }

  /** The verdict lets the child in and sets capacity aside for it. */
  predicate Approves(e: Evaluation) { e.spec.allowed && e.spec.reserve }
}
