/**
 * The pre-tool hook: evaluate once against an empty snapshot to fill in the request, then
 * again inside the store's transaction. The two evaluations never disagree on the terms,
 * so everything the policy promises holds of the rows that get written.
 */
module Hook {
  import opened Wrappers
  import opened Sums
  import L = Ledger
  import opened Policy
  import opened PolicyTheorems
  import opened LedgerSafety
  import ConductorStore

  datatype Identity = Identity(run: Option<L.Id>, thread: Option<L.Id>, tierKnown: bool, who: Caller)

  /** One hook call after normalization: `normalization` is None for a well-formed envelope. */
  datatype Input = Input(
    operation: Option<Operation>, normalization: Option<string>, run: RunContext, configMatches: bool,
    identity: Identity, enabled: set<int>, derivedTask: L.Id, derivedKey: L.Id)

  datatype Answer =
    | Ephemeral(allowed: bool, rule: string)
    | Stored(request: L.Request, evaluator: L.Snapshot -> L.Spec)

  const EMPTY_SNAPSHOT := L.Snapshot(map[], 0.0, 0.0)

  function Preview(op: Operation, input: Input, config: Config): Evaluation
    requires ValidConfig(config)
  {
    Evaluate(op, input.run, config, input.enabled, EMPTY_SNAPSHOT, input.identity.who)
  }

  /** The tier the row is filed under when the preview chose none: the caller's, else the first. */
  function FiledTier(op: Operation, input: Input, config: Config): Tier
    requires ValidConfig(config)
  {
    var preview := Preview(op, input, config);
    if preview.tier.Some? then preview.tier.value
    else if TierForModel(config.tiers, input.identity.who.model).Some?
    then config.tiers[TierForModel(config.tiers, input.identity.who.model).value]
    else config.tiers[0]
  }

  function OperationLabel(n: OperationName): L.Id {
    match n
    case Spawn => "spawn" case Assign => "assign" case Followup => "followup"
    case Message => "message" case Other => "other"
  }

  function BuildRequest(op: Operation, input: Input, config: Config): L.Request
    requires ValidConfig(config)
  {
    var preview := Preview(op, input, config);
    var tier := FiledTier(op, input, config);
    L.Request(
      input.run.run,
      if op.envelope.Some? then op.envelope.value.taskName else input.derivedTask,
      op.correlation,
      if op.correlation.Some? then op.correlation.value else input.derivedKey,
      OperationLabel(op.name), tier.name, tier.model, preview.estimate, config.ttl as real,
      input.run.generation, preview.effort)
  }

  function Evaluator(op: Operation, input: Input, config: Config, forced: Option<L.Spec>): L.Snapshot -> L.Spec
    requires ValidConfig(config)
  {
    (s: L.Snapshot) =>
      if forced.Some? then forced.value
      else Evaluate(op, input.run, config, input.enabled, s, input.identity.who).spec
  }

  function Persist(op: Operation, input: Input, config: Config, forced: Option<L.Spec>): Answer
    requires ValidConfig(config)
  {
    Stored(BuildRequest(op, input, config), Evaluator(op, input, config, forced))
  }

  function UnknownIdentity(posture: Posture): Answer {
    match posture
    case ObserveUnknown => Ephemeral(true, "IDENTITY_OBSERVE_ONLY")
    case DenyUnknown => Ephemeral(false, "IDENTITY_UNKNOWN")
    case DegradeUnknown => Ephemeral(false, "IDENTITY_DEGRADED")
  }

  function Decide(input: Input, config: Config): Answer
    requires ValidConfig(config)
  {
    if input.operation.None? || !input.operation.value.isNewWork then Ephemeral(true, "NOT_GOVERNED")
    else
      var op := input.operation.value;
      if input.identity.run != Some(input.run.run) || input.identity.thread.None?
      then UnknownIdentity(config.unknownIdentity)
      else if !input.identity.tierKnown then UnknownIdentity(config.unknownModel)
      else if !input.configMatches then Persist(op, input, config, Some(L.Deny("CONFIG_DRIFT")))
      else if input.normalization.Some? then Persist(op, input, config, Some(L.Deny(input.normalization.value)))
      else if (input.run.mode == Admission || input.run.mode == Routing) && op.correlation.None?
      then Persist(op, input, config, Some(L.Deny("MISSING_CORRELATION")))
      else Persist(op, input, config, None)
  }

  /** What a stored request needs before any snapshot can make it an approval. */
  predicate Admissible(input: Input) {
    && input.operation.Some? && input.operation.value.isNewWork
    && input.identity.run == Some(input.run.run) && input.identity.thread.Some? && input.identity.tierKnown
    && input.configMatches && input.normalization.None?
    && (input.run.mode == Admission || input.run.mode == Routing ==> input.operation.value.correlation.Some?)
  }

  /** Only a known caller, under the configuration the run began with, is ever approved. */
  lemma ApprovalIsAdmissible(input: Input, config: Config, s: L.Snapshot)
    requires ValidConfig(config) && Decide(input, config).Stored?
    requires Decide(input, config).evaluator(s).allowed
    ensures Admissible(input)
    ensures Decide(input, config).evaluator(s)
         == Evaluate(input.operation.value, input.run, config, input.enabled, s, input.identity.who).spec
  {}

  // ---- Preview refines commit ---------------------------------------------------------

  /**
   * Whenever the evaluation inside the transaction approves and reserves, the tier, model,
   * effort and estimate in the row, computed earlier on an empty snapshot, are the ones it checked.
   */
  lemma PreviewRefinesCommit(op: Operation, input: Input, config: Config, s: L.Snapshot)
    requires ValidConfig(config)
    requires Approves(Evaluate(op, input.run, config, input.enabled, s, input.identity.who))
    ensures var e := Evaluate(op, input.run, config, input.enabled, s, input.identity.who);
            var req := BuildRequest(op, input, config);
            && e.tier.Some?
            && req.tier == e.tier.value.name && req.model == e.tier.value.model
            && req.effort == e.effort && req.estimate == e.estimate
            && (e.selectedModel.Some? ==> e.selectedModel == Some(req.model))
  {
    ApprovalOnlyLost(op, input.run, config, input.enabled, input.identity.who, EMPTY_SNAPSHOT, s);
    var i := ApprovalHasRoom(op, input.run, config, input.enabled, input.identity.who, s);
    SelectedIsTarget(op, input.run, config, input.enabled, input.identity.who, s);
  }

  // ---- The rows written respect cap and budget ---------------------------------------------

  function CapFrom(tiers: seq<Tier>, name: L.Id): nat {
    if tiers == [] then 0 else if tiers[0].name == name then tiers[0].maxConcurrent else CapFrom(tiers[1..], name)
  }

  function ConfigCap(config: Config): (L.Id, L.Id) -> nat { (run, tier) => CapFrom(config.tiers, tier) }

  function ConfigBudget(config: Config): L.Id -> Money { (run: L.Id) => config.budget }

  lemma {:induction false} CapOfTier(tiers: seq<Tier>, i: nat)
    requires i < |tiers| && forall j, k :: 0 <= j < k < |tiers| ==> tiers[j].name != tiers[k].name
    ensures CapFrom(tiers, tiers[i].name) == tiers[i].maxConcurrent
  {
    if i > 0 {
      assert tiers[0].name != tiers[i].name;
      CapOfTier(tiers[1..], i - 1);
    }
  }

  lemma HookRespectsCap(input: Input, config: Config)
    requires ValidConfig(config) && Decide(input, config).Stored?
    ensures var a := Decide(input, config); RespectsCap(a.request, a.evaluator, ConfigCap(config))
  {
    var a := Decide(input, config);
    var op := input.operation.value;
    forall s | a.evaluator(s).allowed && a.evaluator(s).reserve
      ensures s.Active(a.request.tier) < ConfigCap(config)(a.request.run, a.request.tier)
    {
      PreviewRefinesCommit(op, input, config, s);
      var i := ApprovalHasRoom(op, input.run, config, input.enabled, input.identity.who, s);
      CapOfTier(config.tiers, i);
    }
  }

  lemma HookRespectsBudget(input: Input, config: Config)
    requires ValidConfig(config) && config.enforce && Decide(input, config).Stored?
    ensures var a := Decide(input, config); RespectsBudget(a.request, a.evaluator, ConfigBudget(config))
  {
    var a := Decide(input, config);
    var op := input.operation.value;
    forall s | a.evaluator(s).allowed && a.evaluator(s).reserve
      ensures s.spent + s.reserved + a.request.estimate <= ConfigBudget(config)(a.request.run) + L.SLACK
    {
      PreviewRefinesCommit(op, input, config, s);
      var i := ApprovalHasRoom(op, input.run, config, input.enabled, input.identity.who, s);
    }
  }

  // ---- The whole system ---------------------------------------------------------------------

  /** A hook call, or any store transaction other than an approval. */
  datatype Turn = Call(input: Input, now: L.Time) | Other(op: L.Op)

  function TurnOps(t: Turn, config: Config): seq<L.Op>
    requires ValidConfig(config)
  {
    match t
    case Other(op) => if op.OpDecide? then [] else [op]
    case Call(input, now) =>
      match Decide(input, config)
      case Ephemeral(_, _) => []
      case Stored(req, evaluator) => [L.OpDecide(req, evaluator, now)]
  }

  function Ops(turns: seq<Turn>, config: Config): seq<L.Op>
    requires ValidConfig(config)
  {
    if turns == [] then [] else TurnOps(turns[0], config) + Ops(turns[1..], config)
  }

  ghost predicate CapSafeOps(ops: seq<L.Op>, config: Config) {
    forall op :: op in ops && op.OpDecide? ==> RespectsCap(op.req, op.evaluator, ConfigCap(config))
  }

  ghost predicate BudgetSafeOps(ops: seq<L.Op>, config: Config) {
    forall op :: op in ops && op.OpDecide? ==> RespectsBudget(op.req, op.evaluator, ConfigBudget(config))
  }

  lemma {:induction false} TurnsAreSafe(turns: seq<Turn>, config: Config)
    requires ValidConfig(config)
    ensures CapSafeOps(Ops(turns, config), config)
    ensures config.enforce ==> BudgetSafeOps(Ops(turns, config), config)
  {
    if turns != [] {
      TurnsAreSafe(turns[1..], config);
      if turns[0].Call? && Decide(turns[0].input, config).Stored? {
        HookRespectsCap(turns[0].input, config);
        if config.enforce { HookRespectsBudget(turns[0].input, config); }
      }
    }
  }

  /**
   * However hook calls, lifecycle events, sweeps, recoveries and run management interleave,
   * no tier of any run ever has more active reservations than the configuration allows.
   */
  lemma SystemWithinCaps(turns: seq<Turn>, config: Config)
    requires ValidConfig(config)
    ensures WithinCaps(L.Run(L.EMPTY, Ops(turns, config)), ConfigCap(config))
  {
    TurnsAreSafe(turns, config);
    RunWithinCaps(L.EMPTY, Ops(turns, config), ConfigCap(config));
  }

  /** And under enforcement with disciplined costs, no run ever exceeds its budget. */
  lemma SystemWithinBudget(turns: seq<Turn>, config: Config)
    requires ValidConfig(config) && config.enforce
    requires AllDisciplined(L.EMPTY, Ops(turns, config))
    ensures WithinBudget(L.Run(L.EMPTY, Ops(turns, config)), ConfigBudget(config))
  {
    TurnsAreSafe(turns, config);
    RunWithinBudget(L.EMPTY, Ops(turns, config), ConfigBudget(config));
  }

  /** The hook itself: ephemeral answers leave the store alone, the rest go through one transaction. */
  method Handle(store: ConductorStore.Store, input: Input, config: Config, now: L.Time)
    returns (allowed: bool, rule: string, failed: bool)
    requires ValidConfig(config)
    modifies store
    ensures match Decide(input, config)
            case Ephemeral(a, r) => store.View() == old(store.View()) && allowed == a && rule == r && !failed
            case Stored(req, evaluator) =>
              var (after, result) := L.DecideAndReserve(old(store.View()), req, evaluator, now);
              && store.View() == after && failed == result.Err?
              && (result.Ok? ==> allowed == result.value.allowed && rule == result.value.rule)
              && (result.Err? ==> !allowed)
  {
    match Decide(input, config)
    case Ephemeral(a, r) =>
      allowed, rule, failed := a, r, false;
    case Stored(req, evaluator) =>
      var result := store.DecideAndReserve(req, evaluator, now);
      match result
      case Ok(d) => allowed, rule, failed := d.allowed, d.rule, false;
      case Err(_) => allowed, rule, failed := false, "CONDUCTOR_DEGRADED", true;
  }
}
