/**
 * Exactly when the policy approves, in either mode, told by the caller, the request, the
 * ladder of tiers and what is in use.
 */
module PolicyExactly {
  import opened Wrappers
  import opened Ledger
  import opened Policy
  import opened PolicyTheorems

  // ---- The parts of an approval -----------------------------------------------------------

  /** New work, properly announced, from a caller that is on this tier and may spawn at its depth. */
  predicate Entitled(op: Operation, run: RunContext, config: Config, caller: Caller, i: int) {
    && 0 <= i < |config.tiers| && config.tiers[i].model == caller.model && config.tiers[i].maySpawn
    && op.name != OperationName.Other && op.isNewWork && op.provider == run.provider
    && op.envelope.Some? && op.envelope.value.newTask
    && 0 <= caller.depth < config.maxDepth
  }

  /** The tier has a place free, and under enforcement the budget covers its estimate. */
  predicate Roomy(config: Config, t: Tier, s: Snapshot) {
    && s.Active(t.name) < t.maxConcurrent
    && (config.enforce ==> s.spent + s.reserved + t.estimate <= config.budget + SLACK)
  }

  /** High-risk work belongs on the frontier tier. */
  predicate Risky(e: Envelope) { e.taskClass == "high_risk" || e.riskTriggers != [] }

  /** The tier is the cheapest enabled one that is no cheaper than the owner of the task class. */
  ghost predicate HomeOf(config: Config, enabled: set<int>, taskClass: string, i: int) {
    exists owner :: Owns(config.tiers, taskClass, owner) && i <= owner && NoneBetween(enabled, i, owner)
  }

  predicate NoneBetween(enabled: set<int>, i: int, owner: int) { forall j :: i < j <= owner ==> j !in enabled }

  /** Admission takes work of this kind from a caller on this tier. */
  ghost predicate Admits(config: Config, enabled: set<int>, e: Envelope, i: int)
    requires 0 <= i < |config.tiers|
  {
    i in enabled && if Risky(e) then config.tiers[i].name == "frontier" else HomeOf(config, enabled, e.taskClass, i)
  }

  // ---- The gate ---------------------------------------------------------------------------

  lemma PassesGate(op: Operation, run: RunContext, config: Config, caller: Caller)
    requires ValidConfig(config) && (run.mode == Admission || run.mode == Routing)
    ensures Gate(op, run, config, caller).None? <==> exists i :: Entitled(op, run, config, caller, i)
  {
    if i :| Entitled(op, run, config, caller, i) { ModelsAreUnique(config, i); }
    if Gate(op, run, config, caller).None? {
      assert Entitled(op, run, config, caller, TierForModel(config.tiers, caller.model).value);
    }
  }

  lemma CallerTier(op: Operation, run: RunContext, config: Config, caller: Caller, i: int)
    requires ValidConfig(config) && Entitled(op, run, config, caller, i)
    ensures TierForModel(config.tiers, caller.model) == Some(i)
  {
    ModelsAreUnique(config, i);
  }

  // ---- Admission --------------------------------------------------------------------------

  lemma {:induction false} FrontierIs(config: Config, enabled: set<int>, from: nat, i: nat)
    requires ValidConfig(config) && from <= i < |config.tiers| && config.tiers[i].name == "frontier"
    ensures FrontierFrom(config.tiers, enabled, from) == if i in enabled then Some(i) else None
    decreases i - from
  {
    if from < i { FrontierIs(config, enabled, from + 1, i); }
  }

  lemma AdmittedExactly(config: Config, enabled: set<int>, i: nat, e: Envelope)
    requires ValidConfig(config) && i < |config.tiers|
    ensures AdmitChoice(config, enabled, i, e).Chosen? <==> Admits(config, enabled, e, i)
    ensures AdmitChoice(config, enabled, i, e).Chosen? ==>
              AdmitChoice(config, enabled, i, e) == Chosen(config.tiers[i], None, None)
  {
    if Risky(e) {
      FrontierIsNamed(config, enabled);
      if config.tiers[i].name == "frontier" { FrontierIs(config, enabled, 0, i); }
    } else {
      TargetIsHome(config, enabled, e.taskClass, i);
    }
  }

  lemma TargetIsHome(config: Config, enabled: set<int>, taskClass: string, i: nat)
    requires i < |config.tiers|
    ensures TargetTierIndex(config, enabled, taskClass) == Some(i) <==>
              i in enabled && HomeOf(config, enabled, taskClass, i)
  {
    var t := TargetTierIndex(config, enabled, taskClass);
    if t.Some? {
      var owner :| Owns(config.tiers, taskClass, owner) && t.value <= owner
                   && forall j :: t.value < j <= owner ==> j !in enabled;
      assert NoneBetween(enabled, t.value, owner);
    }
    if i in enabled && HomeOf(config, enabled, taskClass, i) {
      var owner :| Owns(config.tiers, taskClass, owner) && i <= owner && NoneBetween(enabled, i, owner);
      if t.Some? { assert t.value <= owner; }
    }
  }

  /**
   * In Admission mode, work is approved exactly when the caller is entitled to spawn, its
   * own enabled tier is where the work belongs, and there is room. The tier reserved in is
   * the caller's own, and no model is named.
   */
  lemma AdmissionExactly(op: Operation, run: RunContext, config: Config, enabled: set<int>, caller: Caller,
                         s: Snapshot)
    requires ValidConfig(config) && run.mode == Admission
    ensures Approves(Evaluate(op, run, config, enabled, s, caller)) <==>
              exists i :: && Entitled(op, run, config, caller, i)
                          && Admits(config, enabled, op.envelope.value, i) && Roomy(config, config.tiers[i], s)
    ensures var e := Evaluate(op, run, config, enabled, s, caller);
            Approves(e) ==> forall i :: Entitled(op, run, config, caller, i) ==>
              e.tier == Some(config.tiers[i]) && e.estimate == config.tiers[i].estimate
              && e.selectedModel == None && e.effort == None && e.spec.selectedModel == None && !e.spec.savings
  {
    PassesGate(op, run, config, caller);
    ApprovedExactly(op, run, config, enabled, caller, s);
    forall i | Entitled(op, run, config, caller, i)
      ensures Choose(op, run, config, enabled, caller) == AdmitChoice(config, enabled, i, op.envelope.value)
      ensures TierForModel(config.tiers, caller.model) == Some(i)
    {
      CallerTier(op, run, config, caller, i);
    }
    if i :| Entitled(op, run, config, caller, i) { AdmittedExactly(config, enabled, i, op.envelope.value); }
    if Approves(Evaluate(op, run, config, enabled, s, caller)) { ApprovalShape(op, run, config, enabled, caller, s); }
  }

  // ---- Routing ----------------------------------------------------------------------------

  /** The payload gives this value under the name. */
  predicate Says(op: Operation, name: string, v: string) {
    name in op.payload && op.payload[name] == v && v != ""
  }

  predicate Silent(op: Operation, name: string) { name in op.payload ==> op.payload[name] == "" }

  predicate SaysModel(op: Operation, v: string) {
    || Says(op, "model", v)
    || (Silent(op, "model") && Says(op, "model_slug", v))
    || (Silent(op, "model") && Silent(op, "model_slug") && Says(op, "requested_model", v))
  }

  predicate SaysNoModel(op: Operation) {
    Silent(op, "model") && Silent(op, "model_slug") && Silent(op, "requested_model")
  }

  predicate SaysEffort(op: Operation, v: string) {
    || Says(op, "reasoning_effort", v)
    || (Silent(op, "reasoning_effort") && Says(op, "model_reasoning_effort", v))
  }

  predicate SaysNoEffort(op: Operation) {
    Silent(op, "reasoning_effort") && Silent(op, "model_reasoning_effort")
  }

  /** The child is to be a copy of the caller, with its whole context. */
  predicate ForksWhole(op: Operation) {
    "fork_turns" in op.payload && op.payload["fork_turns"] == "all" && SaysNoModel(op) && SaysNoEffort(op)
  }

  predicate AtMost(a: string, b: string) { IsEffort(a) && IsEffort(b) && EffortIndex(a) <= EffortIndex(b) }

  /** The model asked for is this tier's, and the effort is what the child would work with. */
  predicate AsksFor(op: Operation, run: RunContext, caller: Caller, t: Tier, effort: Option<string>) {
    if run.provider == Claude then
      effort == None && (SaysModel(op, t.model) || (SaysNoModel(op) && t.model == caller.model))
    else if ForksWhole(op) then t.model == caller.model && effort == Some(caller.effort)
    else
      && SaysModel(op, t.model) && effort.Some?
      && (SaysEffort(op, effort.value)
          || (&& SaysNoEffort(op) && (effort.value == caller.effort || effort.value == t.effort)
              && AtMost(effort.value, caller.effort) && AtMost(effort.value, t.effort)))
  }

  /** The tier's authority: as configured, or else its weight. */
  function Authority(t: Tier): nat { match t.capabilityRank case Some(n) => n case None => t.weight }

  /** The child would have no more authority than the caller, and no more effort than the caller or its tier. */
  predicate UnderCeilings(run: RunContext, config: Config, caller: Caller, from: Tier, to: Tier,
                          effort: Option<string>)
  {
    && Authority(to) <= Authority(from)
    && (to.model == from.model || NoNewer(from.generationRank, to.generationRank))
    && (config.strictlyCheaper ==> to.model == from.model || to.weight < from.weight)
    && (run.provider == Codex ==>
          effort.Some? && AtMost(effort.value, caller.effort) && AtMost(effort.value, to.effort))
  }

  predicate NoNewer(from: Option<nat>, to: Option<nat>) { from.Some? && to.Some? && to.value <= from.value }

  /** The work may go to this tier, at this effort, from a caller on that one. */
  predicate RoutesTo(op: Operation, run: RunContext, config: Config, enabled: set<int>, caller: Caller, i: int,
                     k: int, effort: Option<string>)
    requires 0 <= i < |config.tiers| && op.envelope.Some?
  {
    && 0 <= k < |config.tiers| && k in enabled
    && AsksFor(op, run, caller, config.tiers[k], effort)
    && (Risky(op.envelope.value) ==> k == i && config.tiers[k].name == "frontier")
    && UnderCeilings(run, config, caller, config.tiers[i], config.tiers[k], effort)
  }

  lemma ModelIs(op: Operation)
    ensures RequestedModel(op).Some? ==> SaysModel(op, RequestedModel(op).value)
    ensures RequestedModel(op).None? <==> SaysNoModel(op)
    ensures forall v :: SaysModel(op, v) ==> RequestedModel(op) == Some(v)
  {
    FirstIs(op, "requested_model", []);
    assert ["requested_model"] + [] == ["requested_model"];
    FirstIs(op, "model_slug", ["requested_model"]);
    FirstIs(op, "model", ["model_slug", "requested_model"]);
    assert ["model"] + ["model_slug", "requested_model"] == ["model", "model_slug", "requested_model"];
    assert ["model_slug"] + ["requested_model"] == ["model_slug", "requested_model"];
  }

  lemma FirstIs(op: Operation, name: string, names: seq<string>)
    ensures FirstOf(op.payload, [name] + names)
         == if Silent(op, name) then FirstOf(op.payload, names) else Some(op.payload[name])
  {
    assert ([name] + names)[1..] == names;
  }

  lemma EffortIs(op: Operation)
    ensures RequestedEffort(op).Some? ==> SaysEffort(op, RequestedEffort(op).value)
    ensures RequestedEffort(op).None? <==> SaysNoEffort(op)
    ensures forall v :: SaysEffort(op, v) ==> RequestedEffort(op) == Some(v)
  {
    FirstIs(op, "model_reasoning_effort", []);
    assert ["model_reasoning_effort"] + [] == ["model_reasoning_effort"];
    FirstIs(op, "reasoning_effort", ["model_reasoning_effort"]);
    assert ["reasoning_effort"] + ["model_reasoning_effort"] == ["reasoning_effort", "model_reasoning_effort"];
  }

  lemma RiskAllowedExactly(config: Config, enabled: set<int>, i: nat, k: nat)
    requires ValidConfig(config) && i < |config.tiers| && k < |config.tiers| && k in enabled
    ensures RiskRefusal(config, enabled, i, k).None? <==> k == i && config.tiers[k].name == "frontier"
  {
    FrontierIsNamed(config, enabled);
    if config.tiers[k].name == "frontier" { FrontierIs(config, enabled, 0, k); }
  }

  lemma CeilingsExactly(run: RunContext, config: Config, caller: Caller, i: nat, k: nat, effort: Option<string>)
    requires ValidConfig(config) && i < |config.tiers| && k < |config.tiers|
    ensures AuthorityRefusal(run, config, caller, config.tiers[i], config.tiers[k], effort).None? <==>
              UnderCeilings(run, config, caller, config.tiers[i], config.tiers[k], effort)
  {
    if config.tiers[i].model == config.tiers[k].model { assert i == k; }
  }

  lemma RoutedIs(op: Operation, run: RunContext, config: Config, enabled: set<int>, caller: Caller, i: nat)
    requires ValidConfig(config) && i < |config.tiers| && op.envelope.Some?
    requires RouteChoice(op, run, config, enabled, caller, i, op.envelope.value).Chosen?
    ensures var c := RouteChoice(op, run, config, enabled, caller, i, op.envelope.value);
            exists k :: RoutesTo(op, run, config, enabled, caller, i, k, c.effort) && c.target == config.tiers[k]
                        && c.selected == Some(config.tiers[k].model)
  {
    var c := RouteChoice(op, run, config, enabled, caller, i, op.envelope.value);
    ModelIs(op);
    EffortIs(op);
    var k := TierForModel(config.tiers, Asked(op, run, caller).0.value).value;
    RiskAllowedExactly(config, enabled, i, k);
    CeilingsExactly(run, config, caller, i, k, c.effort);
    assert RoutesTo(op, run, config, enabled, caller, i, k, c.effort);
  }

  lemma RoutableIsRouted(op: Operation, run: RunContext, config: Config, enabled: set<int>, caller: Caller, i: nat,
                         k: nat, effort: Option<string>)
    requires ValidConfig(config) && i < |config.tiers| && op.envelope.Some?
    requires RoutesTo(op, run, config, enabled, caller, i, k, effort)
    ensures RouteChoice(op, run, config, enabled, caller, i, op.envelope.value)
         == Chosen(config.tiers[k], Some(config.tiers[k].model), effort)
  {
    ModelIs(op);
    EffortIs(op);
    ModelsAreUnique(config, k);
    RiskAllowedExactly(config, enabled, i, k);
    CeilingsExactly(run, config, caller, i, k, effort);
  }

  /**
   * In Routing mode, work is approved exactly when the caller is entitled to spawn, the
   * model asked for or inherited is that of an enabled tier under the caller's ceilings,
   * where high-risk work may go, and there is room. The tier reserved in is that one, at
   * the effort asked for or inherited, and no other is possible.
   */
  lemma RoutingExactly(op: Operation, run: RunContext, config: Config, enabled: set<int>, caller: Caller, s: Snapshot)
    requires ValidConfig(config) && run.mode == Routing
    ensures Approves(Evaluate(op, run, config, enabled, s, caller)) <==>
              exists i, k, effort :: && Entitled(op, run, config, caller, i)
                                     && RoutesTo(op, run, config, enabled, caller, i, k, effort)
                                     && Roomy(config, config.tiers[k], s)
    ensures var e := Evaluate(op, run, config, enabled, s, caller);
            Approves(e) ==>
              forall i, k, effort :: Entitled(op, run, config, caller, i)
                                     && RoutesTo(op, run, config, enabled, caller, i, k, effort) ==>
                && e.tier == Some(config.tiers[k]) && e.estimate == config.tiers[k].estimate
                && e.selectedModel == Some(config.tiers[k].model) && e.effort == effort
                && e.spec.selectedModel == e.selectedModel
                && (e.spec.savings <==> config.tiers[k].weight < config.tiers[i].weight)
  {
    PassesGate(op, run, config, caller);
    ApprovedExactly(op, run, config, enabled, caller, s);
    forall i | Entitled(op, run, config, caller, i)
      ensures TierForModel(config.tiers, caller.model) == Some(i)
      ensures Choose(op, run, config, enabled, caller)
           == RouteChoice(op, run, config, enabled, caller, i, op.envelope.value)
    {
      CallerTier(op, run, config, caller, i);
    }
    forall i, k, effort | Entitled(op, run, config, caller, i)
                          && RoutesTo(op, run, config, enabled, caller, i, k, effort)
      ensures Choose(op, run, config, enabled, caller)
           == Chosen(config.tiers[k], Some(config.tiers[k].model), effort)
    {
      RoutableIsRouted(op, run, config, enabled, caller, i, k, effort);
    }
    if i :| Entitled(op, run, config, caller, i) && Choose(op, run, config, enabled, caller).Chosen? {
      RoutedIs(op, run, config, enabled, caller, i);
    }
    if Approves(Evaluate(op, run, config, enabled, s, caller)) { ApprovalShape(op, run, config, enabled, caller, s); }
  }

  // ---- Beside approvals -------------------------------------------------------------------

  /** What is let through with nothing reserved: work that is not governed, and all of it while only observing. */
  lemma LetThroughExactly(op: Operation, run: RunContext, config: Config, enabled: set<int>, caller: Caller,
                          s: Snapshot)
    requires ValidConfig(config)
    ensures var e := Evaluate(op, run, config, enabled, s, caller);
            && (e.spec.allowed && !e.spec.reserve <==>
                  op.name == OperationName.Other || !op.isNewWork || run.mode == Observe)
            && (Approves(e) ==> run.mode == Routing || run.mode == Admission)
  {
    if Gate(op, run, config, caller).None? { ApprovedExactly(op, run, config, enabled, caller, s); }
  }

  /** The rule of an approval at this price. */
  predicate Warns(rule: string, projected: real, config: Config) {
    && (rule == "BUDGET_CAP_WARNING" <==> projected > config.budget + SLACK)
    && (rule == "BUDGET_WARNING" <==> config.budget * config.warnFraction <= projected <= config.budget + SLACK)
    && (rule == "ALLOW" <==>
          projected <= config.budget + SLACK && projected < config.budget * config.warnFraction)
  }

  lemma CapacityWarns(run: RunContext, config: Config, from: Tier, to: Tier, selected: Option<Id>,
                      effort: Option<string>, s: Snapshot)
    ensures var e := Capacity(run, config, from, to, selected, effort, s);
            Approves(e) ==> Warns(e.spec.rule, s.spent + s.reserved + to.estimate, config)
  {}

  /** An approval warns when it comes near the budget, and when it passes it unenforced. */
  lemma WarnsExactly(op: Operation, run: RunContext, config: Config, enabled: set<int>, caller: Caller, s: Snapshot,
                     e: Evaluation)
    requires ValidConfig(config) && e == Evaluate(op, run, config, enabled, s, caller) && Approves(e)
    ensures Warns(e.spec.rule, s.spent + s.reserved + e.estimate, config)
  {
    ApprovalShape(op, run, config, enabled, caller, s);
    var c := Choose(op, run, config, enabled, caller);
    CapacityWarns(run, config, config.tiers[TierForModel(config.tiers, caller.model).value], c.target, c.selected,
                  c.effort, s);
  }
}
