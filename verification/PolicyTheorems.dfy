/**
 * What the admission policy guarantees: usage can only turn an approval into a refusal,
 * an approval always leaves room, and authority only shrinks along a chain of spawns.
 */
module PolicyTheorems {
  import opened Wrappers
  import opened Ledger
  import opened Policy

  // ---- Usage -------------------------------------------------------------------

  /** The second snapshot shows at least as much in use, everywhere. */
  ghost predicate NoBusier(s: Snapshot, t: Snapshot) {
    (forall tier :: s.Active(tier) <= t.Active(tier)) && s.spent + s.reserved <= t.spent + t.reserved
  }

  /** What an approval fixes besides the verdict itself. */
  predicate SameTerms(a: Evaluation, b: Evaluation) {
    a.tier == b.tier && a.selectedModel == b.selectedModel && a.effort == b.effort && a.estimate == b.estimate
  }

  /** Approval can be lost but never gained as usage grows, and its terms do not depend on usage. */
  lemma ApprovalOnlyLost(op: Operation, run: RunContext, config: Config, enabled: set<int>,
                         caller: Caller,
                         quiet: Snapshot, busy: Snapshot)
    requires ValidConfig(config) && NoBusier(quiet, busy)
    requires Approves(Evaluate(op, run, config, enabled, busy, caller))
    ensures Approves(Evaluate(op, run, config, enabled, quiet, caller))
    ensures SameTerms(Evaluate(op, run, config, enabled, quiet, caller),
                      Evaluate(op, run, config, enabled, busy, caller))
  {
    if Gate(op, run, config, caller).None? {
      match Choose(op, run, config, enabled, caller)
      case Rejected(_) =>
      case Chosen(to, _, _) =>
        assert quiet.Active(to.name) <= busy.Active(to.name);
    }
  }

  /** An approval is exactly: past the gate, a tier chosen, and room in it. */
  lemma ApprovalShape(op: Operation, run: RunContext, config: Config, enabled: set<int>,
                      caller: Caller, s: Snapshot)
    requires ValidConfig(config)
    requires Approves(Evaluate(op, run, config, enabled, s, caller))
    ensures Gate(op, run, config, caller).None?
    ensures Choose(op, run, config, enabled, caller).Chosen?
    ensures var c := Choose(op, run, config, enabled, caller);
            var e := Evaluate(op, run, config, enabled, s, caller);
            && e == Capacity(run, config, config.tiers[TierForModel(config.tiers, caller.model).value],
                             c.target, c.selected, c.effort, s)
            && e.tier == Some(c.target) && e.selectedModel == c.selected && e.effort == c.effort
            && e.estimate == c.target.estimate
  {
    var gate := Gate(op, run, config, caller);
    assert gate.None?;
    var c := Choose(op, run, config, enabled, caller);
    assert c.Chosen?;
  }

  lemma RouteTarget(op: Operation, run: RunContext, config: Config, enabled: set<int>,
                    caller: Caller,
                    callerIndex: nat, envelope: Envelope) returns (i: nat)
    requires ValidConfig(config) && callerIndex < |config.tiers|
    requires RouteChoice(op, run, config, enabled, caller, callerIndex, envelope).Chosen?
    ensures i < |config.tiers| && i in enabled
    ensures RouteChoice(op, run, config, enabled, caller, callerIndex, envelope).target == config.tiers[i]
  {
    var (model, asked) := Asked(op, run, caller);
    i := TierForModel(config.tiers, model.value).value;
  }

  lemma AdmitTarget(config: Config, enabled: set<int>, callerIndex: nat, envelope: Envelope)
    requires callerIndex < |config.tiers| && AdmitChoice(config, enabled, callerIndex, envelope).Chosen?
    ensures callerIndex in enabled
    ensures AdmitChoice(config, enabled, callerIndex, envelope) == Chosen(config.tiers[callerIndex], None, None)
  {}

  /**
   * Approval means room: the tier is configured, enabled and below its cap, and under
   * enforcement the projected cost fits the budget.
   */
  lemma ApprovalHasRoom(op: Operation, run: RunContext, config: Config, enabled: set<int>,
                        caller: Caller, s: Snapshot)
    returns (i: nat)
    requires ValidConfig(config)
    requires Approves(Evaluate(op, run, config, enabled, s, caller))
    ensures i < |config.tiers| && i in enabled
    ensures var e := Evaluate(op, run, config, enabled, s, caller);
            && e.tier == Some(config.tiers[i])
            && e.estimate == config.tiers[i].estimate
            && s.Active(config.tiers[i].name) < config.tiers[i].maxConcurrent
            && (config.enforce ==> s.spent + s.reserved + e.estimate <= config.budget + SLACK)
  {
    ApprovalShape(op, run, config, enabled, caller, s);
    i := TierForModel(config.tiers, caller.model).value;
    if run.mode == Routing {
      i := RouteTarget(op, run, config, enabled, caller, i, op.envelope.value);
    } else {
      AdmitTarget(config, enabled, i, op.envelope.value);
    }
  }

  /** Past the gate and with a tier chosen, approval is a matter of room alone, and never short of it. */
  lemma ApprovedExactly(op: Operation, run: RunContext, config: Config, enabled: set<int>,
                        caller: Caller, s: Snapshot)
    requires ValidConfig(config)
    ensures Approves(Evaluate(op, run, config, enabled, s, caller)) <==>
      && Gate(op, run, config, caller).None?
      && Choose(op, run, config, enabled, caller).Chosen?
      && var to := Choose(op, run, config, enabled, caller).target;
         && s.Active(to.name) < to.maxConcurrent
         && (config.enforce ==> s.spent + s.reserved + to.estimate <= config.budget + SLACK)
  {
    if Gate(op, run, config, caller).None? {
      var c := Choose(op, run, config, enabled, caller);
    }
  }

  lemma FrontierIsNamed(config: Config, enabled: set<int>)
    ensures FrontierIndex(config, enabled).Some? ==>
              FrontierIndex(config, enabled).value < |config.tiers|
              && config.tiers[FrontierIndex(config, enabled).value].name == "frontier"
              && FrontierIndex(config, enabled).value in enabled
  {}

  /** Work declared high-risk is only ever approved on an enabled frontier tier, for a caller that is on it. */
  lemma HighRiskOnFrontier(op: Operation, run: RunContext, config: Config, enabled: set<int>,
                           caller: Caller, s: Snapshot)
    requires ValidConfig(config) && op.envelope.Some? && HighRisk(op.envelope.value)
    requires Approves(Evaluate(op, run, config, enabled, s, caller))
    ensures var e := Evaluate(op, run, config, enabled, s, caller);
            e.tier.Some? && e.tier.value.name == "frontier" && e.tier.value.model == caller.model
  {
    ApprovalShape(op, run, config, enabled, caller, s);
    FrontierIsNamed(config, enabled);
    var i := TierForModel(config.tiers, caller.model).value;
    if run.mode == Routing {
      HighRiskRoute(op, run, config, enabled, caller, i);
    } else {
      AdmitTarget(config, enabled, i, op.envelope.value);
    }
  }

  lemma HighRiskRoute(op: Operation, run: RunContext, config: Config, enabled: set<int>,
                      caller: Caller, i: nat)
    requires ValidConfig(config) && i < |config.tiers| && op.envelope.Some? && HighRisk(op.envelope.value)
    requires RouteChoice(op, run, config, enabled, caller, i, op.envelope.value).Chosen?
    ensures FrontierIndex(config, enabled) == Some(i)
    ensures RouteChoice(op, run, config, enabled, caller, i, op.envelope.value).target == config.tiers[i]
  {
    var (model, asked) := Asked(op, run, caller);
    assert RiskRefusal(config, enabled, i, TierForModel(config.tiers, model.value).value).None?;
  }

  /** A model named by an approval is the model of the tier it reserves in. */
  lemma SelectedIsTarget(op: Operation, run: RunContext, config: Config, enabled: set<int>,
                         caller: Caller, s: Snapshot)
    requires ValidConfig(config)
    requires Approves(Evaluate(op, run, config, enabled, s, caller))
    ensures var e := Evaluate(op, run, config, enabled, s, caller);
            e.tier.Some? && (e.selectedModel.Some? ==> e.selectedModel.value == e.tier.value.model)
  {
    ApprovalShape(op, run, config, enabled, caller, s);
    if run.mode == Routing {
      RouteIsContained(op, run, config, enabled, caller, TierForModel(config.tiers, caller.model).value,
                       op.envelope.value);
    } else {
      AdmitTarget(config, enabled, TierForModel(config.tiers, caller.model).value, op.envelope.value);
    }
  }

  /** Admission never changes the model: the child lands on the caller's own tier, unnamed. */
  lemma AdmissionStaysHome(op: Operation, run: RunContext, config: Config, enabled: set<int>,
                           caller: Caller, s: Snapshot)
    requires ValidConfig(config) && run.mode == Admission
    requires Approves(Evaluate(op, run, config, enabled, s, caller))
    ensures var e := Evaluate(op, run, config, enabled, s, caller);
            e.tier.Some? && e.tier.value.model == caller.model && e.selectedModel.None? && !e.spec.savings
  {}

  // ---- Authority -----------------------------------------------------------------

  /** What an agent may do: the model it runs, the effort it was given, its depth. */
  datatype Grant = Grant(model: Id, effort: string, depth: int)

  /** The child of an approved routing spawn, calling with exactly what it was granted. */
  ghost predicate Spawns(config: Config, provider: Provider, parent: Grant, child: Grant)
    requires ValidConfig(config)
  {
    exists op: Operation, run: RunContext, enabled: set<int>, s: Snapshot ::
      Spawned(config, provider, op, run, enabled, s, parent, child)
  }

  predicate Spawned(config: Config, provider: Provider, op: Operation, run: RunContext, enabled: set<int>, s: Snapshot,
                    parent: Grant, child: Grant)
    requires ValidConfig(config)
  {
    var e := Evaluate(op, run, config, enabled, s, Caller(parent.model, parent.depth, parent.effort));
    && run.mode == Routing && run.provider == provider && Approves(e)
    && e.selectedModel == Some(child.model)
    && (e.effort.Some? ==> child.effort == e.effort.value)
    && child.depth == parent.depth + 1
  }

  predicate Known(config: Config, model: Id) { TierForModel(config.tiers, model).Some? }

  function TierOf(config: Config, model: Id): Tier
    requires Known(config, model)
  {
    config.tiers[TierForModel(config.tiers, model).value]
  }

  /** The second grant is no more powerful than the first. */
  predicate Contained(config: Config, provider: Provider, a: Grant, b: Grant) {
    && Known(config, a.model) && Known(config, b.model)
    && var from, to := TierOf(config, a.model), TierOf(config, b.model);
    && to.Rank() <= from.Rank()
    && (a.model == b.model
        || (from.generationRank.Some? && to.generationRank.Some?
            && to.generationRank.value <= from.generationRank.value))
    && (config.strictlyCheaper ==> a.model == b.model || to.weight < from.weight)
    && (provider == Codex ==>
          IsEffort(a.effort) && IsEffort(b.effort) && EffortIndex(b.effort) <= EffortIndex(a.effort))
  }

  predicate WithinOwnMeans(config: Config, provider: Provider, g: Grant) {
    && Known(config, g.model) && g.depth <= config.maxDepth
    && (provider == Codex ==>
          && IsEffort(g.effort) && IsEffort(TierOf(config, g.model).effort)
          && EffortIndex(g.effort) <= EffortIndex(TierOf(config, g.model).effort))
  }

  /** Looking a tier up by its own model finds that tier again. */
  lemma ModelsAreUnique(config: Config, i: nat)
    requires ValidConfig(config) && i < |config.tiers|
    ensures TierForModel(config.tiers, config.tiers[i].model) == Some(i)
  {
    var j := TierForModel(config.tiers, config.tiers[i].model).value;
    assert config.tiers[j].model == config.tiers[i].model;
  }

  lemma RouteIsContained(op: Operation, run: RunContext, config: Config, enabled: set<int>,
                         caller: Caller,
                         callerIndex: nat, envelope: Envelope)
    requires ValidConfig(config) && TierForModel(config.tiers, caller.model) == Some(callerIndex)
    requires RouteChoice(op, run, config, enabled, caller, callerIndex, envelope).Chosen?
    ensures var c := RouteChoice(op, run, config, enabled, caller, callerIndex, envelope);
            && c.selected == Some(c.target.model)
            && TierForModel(config.tiers, c.target.model).Some?
            && config.tiers[TierForModel(config.tiers, c.target.model).value] == c.target
            && IsEffort(c.target.effort)
            && AuthorityRefusal(run, config, caller, config.tiers[callerIndex], c.target, c.effort).None?
  {
    var (model, asked) := Asked(op, run, caller);
    var i := TierForModel(config.tiers, model.value).value;
    ModelsAreUnique(config, i);
  }

  /** Passing every ceiling means the child is contained in the caller. */
  lemma CeilingsContain(run: RunContext, config: Config, a: Grant, b: Grant, effort: Option<string>)
    requires ValidConfig(config) && Known(config, a.model) && Known(config, b.model)
    requires IsEffort(TierOf(config, b.model).effort)
    requires AuthorityRefusal(run, config, Caller(a.model, a.depth, a.effort), TierOf(config, a.model),
                              TierOf(config, b.model), effort).None?
    requires effort.Some? ==> b.effort == effort.value
    requires b.depth <= config.maxDepth
    ensures Contained(config, run.provider, a, b) && WithinOwnMeans(config, run.provider, b)
  {}

  /** What the gate has made sure of. */
  lemma GateMeans(op: Operation, run: RunContext, config: Config, caller: Caller)
    requires Gate(op, run, config, caller).None?
    ensures op.envelope.Some? && op.provider == run.provider && 0 <= caller.depth < config.maxDepth
    ensures TierForModel(config.tiers, caller.model).Some?
  {}

  /** An approved routing request is the choice of its route. */
  lemma RoutedChoice(op: Operation, run: RunContext, config: Config, enabled: set<int>,
                     caller: Caller, s: Snapshot, e: Evaluation)
    requires ValidConfig(config) && run.mode == Routing
    requires e == Evaluate(op, run, config, enabled, s, caller) && Approves(e)
    ensures Gate(op, run, config, caller).None? && op.envelope.Some?
    ensures TierForModel(config.tiers, caller.model).Some?
    ensures var i := TierForModel(config.tiers, caller.model).value;
            var c := RouteChoice(op, run, config, enabled, caller, i, op.envelope.value);
            c.Chosen? && c.selected == e.selectedModel && c.effort == e.effort
  {
    ApprovalShape(op, run, config, enabled, caller, s);
    GateMeans(op, run, config, caller);
  }

  lemma SpawnedContains(config: Config, provider: Provider, op: Operation, run: RunContext,
                        enabled: set<int>, s: Snapshot, a: Grant, b: Grant)
    requires ValidConfig(config) && Spawned(config, provider, op, run, enabled, s, a, b)
    ensures Contained(config, provider, a, b) && WithinOwnMeans(config, provider, b)
    ensures a.depth >= 0 && b.depth == a.depth + 1
  {
    var caller := Caller(a.model, a.depth, a.effort);
    RoutedChoice(op, run, config, enabled, caller, s, Evaluate(op, run, config, enabled, s, caller));
    GateMeans(op, run, config, caller);
    var i := TierForModel(config.tiers, a.model).value;
    RouteIsContained(op, run, config, enabled, caller, i, op.envelope.value);
    CeilingsContain(run, config, a, b, RouteChoice(op, run, config, enabled, caller, i, op.envelope.value).effort);
  }

  /** What one approved spawn gives its child. */
  ghost predicate Tame(config: Config, provider: Provider, a: Grant, b: Grant) {
    Contained(config, provider, a, b) && WithinOwnMeans(config, provider, b)
    && a.depth >= 0 && b.depth == a.depth + 1
  }

  lemma SpawnContains(config: Config, provider: Provider, a: Grant, b: Grant)
    requires ValidConfig(config) && Spawns(config, provider, a, b)
    ensures Tame(config, provider, a, b)
  {
    var op: Operation, run: RunContext, enabled: set<int>, s: Snapshot :|
      Spawned(config, provider, op, run, enabled, s, a, b);
    SpawnedContains(config, provider, op, run, enabled, s, a, b);
  }

  ghost predicate Chain(config: Config, provider: Provider, gs: seq<Grant>)
    requires ValidConfig(config)
  {
    forall i :: 0 <= i < |gs| - 1 ==> Spawns(config, provider, gs[i], gs[i + 1])
  }

  lemma ContainedTransitive(config: Config, provider: Provider, a: Grant, b: Grant, c: Grant)
    requires Contained(config, provider, a, b) && Contained(config, provider, b, c)
    ensures Contained(config, provider, a, c)
  {}

  lemma {:induction false} TameChain(config: Config, provider: Provider, gs: seq<Grant>, i: nat, j: nat)
    requires i < j < |gs|
    requires forall k :: 0 <= k < |gs| - 1 ==> Tame(config, provider, gs[k], gs[k + 1])
    ensures Contained(config, provider, gs[i], gs[j])
    ensures WithinOwnMeans(config, provider, gs[j])
    ensures gs[i].depth >= 0 && gs[j].depth == gs[i].depth + (j - i)
    decreases j
  {
    assert Tame(config, provider, gs[j - 1], gs[j - 1 + 1]);
    if i < j - 1 {
      TameChain(config, provider, gs, i, j - 1);
      ContainedTransitive(config, provider, gs[i], gs[j - 1], gs[j]);
    }
  }

  lemma ChainIsTame(config: Config, provider: Provider, gs: seq<Grant>)
    requires ValidConfig(config) && Chain(config, provider, gs)
    ensures forall k :: 0 <= k < |gs| - 1 ==> Tame(config, provider, gs[k], gs[k + 1])
  {
    forall k | 0 <= k < |gs| - 1
      ensures Tame(config, provider, gs[k], gs[k + 1])
    {
      SpawnContains(config, provider, gs[k], gs[k + 1]);
    }
  }

  /**
   * Transitive authority: along any chain of approved routing spawns, capability never
   * rises, the model never changes without known and non-rising generations, effort never
   * rises and is supported, and depth stays within its limit.
   */
  lemma AuthorityShrinks(config: Config, provider: Provider, gs: seq<Grant>, i: nat, j: nat)
    requires ValidConfig(config) && Chain(config, provider, gs) && i < j < |gs|
    ensures Contained(config, provider, gs[i], gs[j])
    ensures WithinOwnMeans(config, provider, gs[j])
    ensures gs[i].depth >= 0 && gs[j].depth == gs[i].depth + (j - i)
  {
    ChainIsTame(config, provider, gs);
    TameChain(config, provider, gs, i, j);
  }

  /** With strictly cheaper models required, a chain never returns to a model it left. */
  lemma NeverReturns(config: Config, provider: Provider, gs: seq<Grant>, i: nat, j: nat, k: nat)
    requires ValidConfig(config) && Chain(config, provider, gs) && config.strictlyCheaper
    requires i < j < k < |gs| && gs[i].model != gs[j].model
    ensures gs[i].model != gs[k].model
  {
    AuthorityShrinks(config, provider, gs, i, j);
    AuthorityShrinks(config, provider, gs, j, k);
  }

  /** A chain of spawns is no longer than the depth limit allows. */
  lemma ChainIsBounded(config: Config, provider: Provider, gs: seq<Grant>)
    requires ValidConfig(config) && Chain(config, provider, gs) && |gs| > 1
    ensures gs[0].depth >= 0 && gs[0].depth + |gs| - 1 <= config.maxDepth
  {
    AuthorityShrinks(config, provider, gs, 0, |gs| - 1);
  }
}
