/**
 * On which ground the policy turns a request down, or lets it through unreserved: the first
 * that there is, in one order for each mode.
 */
module PolicyGrounds {
  import opened Wrappers
  import opened Ledger
  import opened Policy
  import opened PolicyTheorems
  import opened PolicyExactly

  /** A ground, and whether it is there. */
  datatype Ground = Ground(there: bool, rule: string)

  function First(grounds: seq<Ground>): (rule: Option<string>)
    ensures rule.None? <==> forall g :: g in grounds ==> !g.there
  {
    if grounds == [] then None
    else if grounds[0].there then Some(grounds[0].rule)
    else First(grounds[1..])
  }

  lemma {:induction false} FirstIsFirst(grounds: seq<Ground>, n: nat)
    requires n < |grounds| && grounds[n].there && forall j :: 0 <= j < n ==> !grounds[j].there
    ensures First(grounds) == Some(grounds[n].rule)
  {
    if n > 0 { FirstIsFirst(grounds[1..], n - 1); }
  }

  lemma {:induction false} FirstOfBoth(a: seq<Ground>, b: seq<Ground>)
    ensures First(a + b) == if First(a).Some? then First(a) else First(b)
  {
    if a == [] {
      assert a + b == b;
    } else {
      assert (a + b)[1..] == a[1..] + b;
      FirstOfBoth(a[1..], b);
    }
  }

  lemma AmongFive(gs: seq<Ground>)
    requires |gs| == 5
    ensures First(gs) == if gs[0].there then Some(gs[0].rule) else if gs[1].there then Some(gs[1].rule)
                         else if gs[2].there then Some(gs[2].rule) else if gs[3].there then Some(gs[3].rule)
                         else if gs[4].there then Some(gs[4].rule) else None
  {
    if gs[0].there { FirstIsFirst(gs, 0); }
    else if gs[1].there { FirstIsFirst(gs, 1); }
    else if gs[2].there { FirstIsFirst(gs, 2); }
    else if gs[3].there { FirstIsFirst(gs, 3); }
    else if gs[4].there { FirstIsFirst(gs, 4); }
  }

  // ---- Before a tier is chosen ------------------------------------------------------------

  /** Grounds in the operation and the run's mode. */
  function WorkGrounds(op: Operation, run: RunContext): seq<Ground> {
    [ Ground(op.name == OperationName.Other || !op.isNewWork, "NOT_GOVERNED"),
      Ground(run.mode == Unsupported, "UNSUPPORTED_CAPABILITY"),
      Ground(run.mode == Observe, "OBSERVE_ONLY"),
      Ground(op.envelope.None?, "MISSING_ENVELOPE"),
      Ground(op.envelope.Some? && !op.envelope.value.newTask, "INVALID_NEW_WORK") ]
  }

  predicate OnTier(config: Config, caller: Caller, i: int) {
    0 <= i < |config.tiers| && config.tiers[i].model == caller.model
  }

  ghost predicate OnNoTier(config: Config, caller: Caller) { forall i :: !OnTier(config, caller, i) }

  ghost predicate OnChildlessTier(config: Config, caller: Caller) {
    exists i :: OnTier(config, caller, i) && !config.tiers[i].maySpawn
  }

  /** Grounds in the provider and the caller. */
  ghost function CallerGrounds(op: Operation, run: RunContext, config: Config, caller: Caller): seq<Ground> {
    [ Ground(op.provider != run.provider, "PROVIDER_MISMATCH"),
      Ground(caller.depth < 0, "INVALID_DEPTH"),
      Ground(caller.depth >= config.maxDepth, "DEPTH_LIMIT"),
      Ground(OnNoTier(config, caller), "UNKNOWN_CALLER_MODEL"),
      Ground(OnChildlessTier(config, caller), "CALLER_MAY_NOT_SPAWN") ]
  }

  lemma CallersTier(config: Config, caller: Caller)
    requires ValidConfig(config)
    ensures OnNoTier(config, caller) <==> TierForModel(config.tiers, caller.model).None?
    ensures OnChildlessTier(config, caller) <==>
              TierForModel(config.tiers, caller.model).Some?
              && !config.tiers[TierForModel(config.tiers, caller.model).value].maySpawn
  {
    var t := TierForModel(config.tiers, caller.model);
    if t.Some? { assert OnTier(config, caller, t.value); }
    if i :| OnTier(config, caller, i) { ModelsAreUnique(config, i); }
  }

  lemma GateFirst(op: Operation, run: RunContext, config: Config, caller: Caller)
    requires ValidConfig(config)
    ensures Gate(op, run, config, caller).Some? ==>
              Some(Gate(op, run, config, caller).value.spec.rule) ==
                if First(WorkGrounds(op, run)).Some? then First(WorkGrounds(op, run))
                else First(CallerGrounds(op, run, config, caller))
  {
    CallersTier(config, caller);
    AmongFive(WorkGrounds(op, run));
    AmongFive(CallerGrounds(op, run, config, caller));
  }

  /** A verdict before any tier is chosen is on the first of these grounds. */
  lemma GateRule(op: Operation, run: RunContext, config: Config, enabled: set<int>, caller: Caller, s: Snapshot)
    requires ValidConfig(config) && Gate(op, run, config, caller).Some?
    ensures Some(Evaluate(op, run, config, enabled, s, caller).spec.rule)
         == First(WorkGrounds(op, run) + CallerGrounds(op, run, config, caller))
  {
    GateFirst(op, run, config, caller);
    FirstOfBoth(WorkGrounds(op, run), CallerGrounds(op, run, config, caller));
  }

  // ---- Room -------------------------------------------------------------------------------

  function RoomGrounds(config: Config, t: Tier, s: Snapshot): seq<Ground> {
    [ Ground(s.Active(t.name) >= t.maxConcurrent, "CONCURRENCY_CAP"),
      Ground(config.enforce && s.spent + s.reserved + t.estimate > config.budget + SLACK, "BUDGET_CAP") ]
  }

  lemma RoomRule(run: RunContext, config: Config, from: Tier, to: Tier, selected: Option<Id>,
                 effort: Option<string>, s: Snapshot)
    ensures var e := Capacity(run, config, from, to, selected, effort, s);
            if Approves(e) then First(RoomGrounds(config, to, s)) == None
            else First(RoomGrounds(config, to, s)) == Some(e.spec.rule) && !e.spec.allowed
  {
    var gs := RoomGrounds(config, to, s);
    if gs[0].there { FirstIsFirst(gs, 0); } else if gs[1].there { FirstIsFirst(gs, 1); }
  }

  // ---- Admission --------------------------------------------------------------------------

  /** No tier can take high-risk work. */
  ghost predicate NoFrontier(config: Config, enabled: set<int>) {
    forall f :: 0 <= f < |config.tiers| && config.tiers[f].name == "frontier" ==> f !in enabled
  }

  /** The work belongs on this tier. */
  ghost predicate Belongs(config: Config, enabled: set<int>, e: Envelope, t: int) {
    0 <= t < |config.tiers| && Admits(config, enabled, e, t)
  }

  ghost function AdmitGrounds(config: Config, enabled: set<int>, e: Envelope, i: int): seq<Ground> {
    [ Ground(Risky(e) && NoFrontier(config, enabled), "FRONTIER_UNAVAILABLE"),
      Ground(forall t :: !Belongs(config, enabled, e, t), "NO_ENABLED_TIER"),
      Ground(exists t :: t < i && Belongs(config, enabled, e, t), "STRONGER_CHILD_FORBIDDEN"),
      Ground(exists t :: t > i && Belongs(config, enabled, e, t), "ROUTING_REQUIRED") ]
  }

  lemma BelongsOnTarget(config: Config, enabled: set<int>, e: Envelope, t: int)
    requires ValidConfig(config)
    ensures var target := if HighRisk(e) then FrontierIndex(config, enabled)
                          else TargetTierIndex(config, enabled, e.taskClass);
            (target.Some? ==> target.value < |config.tiers|) && (Belongs(config, enabled, e, t) <==> target == Some(t))
  {
    FrontierIsNamed(config, enabled);
    if 0 <= t < |config.tiers| {
      if config.tiers[t].name == "frontier" { FrontierIs(config, enabled, 0, t); }
      TargetIsHome(config, enabled, e.taskClass, t);
    }
  }

  lemma AdmitRule(config: Config, enabled: set<int>, i: nat, e: Envelope)
    requires ValidConfig(config) && i < |config.tiers|
    ensures var c := AdmitChoice(config, enabled, i, e);
            First(AdmitGrounds(config, enabled, e, i)) == if c.Rejected? then Some(c.result.spec.rule) else None
  {
    var target := if HighRisk(e) then FrontierIndex(config, enabled)
                  else TargetTierIndex(config, enabled, e.taskClass);
    forall t ensures Belongs(config, enabled, e, t) <==> target == Some(t) { BelongsOnTarget(config, enabled, e, t); }
    NoFrontierExactly(config, enabled);
    AdmitFirst(config, enabled, i, e, target);
  }

  lemma AdmitFirst(config: Config, enabled: set<int>, i: nat, e: Envelope, target: Option<nat>)
    requires forall t :: Belongs(config, enabled, e, t) <==> target == Some(t)
    requires Risky(e) ==> (NoFrontier(config, enabled) <==> target.None?)
    ensures First(AdmitGrounds(config, enabled, e, i)) ==
              if target.None? then Some(if Risky(e) then "FRONTIER_UNAVAILABLE" else "NO_ENABLED_TIER")
              else if target.value < i then Some("STRONGER_CHILD_FORBIDDEN")
              else if target.value > i then Some("ROUTING_REQUIRED") else None
  {
    var gs := AdmitGrounds(config, enabled, e, i);
    if target.None? {
      if gs[0].there { FirstIsFirst(gs, 0); } else { FirstIsFirst(gs, 1); }
    } else {
      assert Belongs(config, enabled, e, target.value);
      if target.value < i { FirstIsFirst(gs, 2); } else if target.value > i { FirstIsFirst(gs, 3); }
    }
  }

  lemma NoFrontierExactly(config: Config, enabled: set<int>)
    requires ValidConfig(config)
    ensures NoFrontier(config, enabled) <==> FrontierIndex(config, enabled).None?
  {
    FrontierIsNamed(config, enabled);
    if f :| 0 <= f < |config.tiers| && config.tiers[f].name == "frontier" && f in enabled {
      FrontierIs(config, enabled, 0, f);
    }
  }

  /** Admission of an entitled caller names the first of these grounds, or else approves. */
  lemma AdmissionRule(op: Operation, run: RunContext, config: Config, enabled: set<int>, caller: Caller, s: Snapshot,
                      i: int)
    requires ValidConfig(config) && run.mode == Admission && Entitled(op, run, config, caller, i)
    ensures var e := Evaluate(op, run, config, enabled, s, caller);
            First(AdmitGrounds(config, enabled, op.envelope.value, i) + RoomGrounds(config, config.tiers[i], s)) ==
              if Approves(e) then None else Some(e.spec.rule)
  {
    CallerTier(op, run, config, caller, i);
    PassesGate(op, run, config, caller);
    AdmitRule(config, enabled, i, op.envelope.value);
    AdmittedExactly(config, enabled, i, op.envelope.value);
    RoomRule(run, config, config.tiers[i], config.tiers[i], None, None, s);
    FirstOfBoth(AdmitGrounds(config, enabled, op.envelope.value, i), RoomGrounds(config, config.tiers[i], s));
  }

  // ---- Routing ----------------------------------------------------------------------------

  /** The model asked for, or inherited. */
  predicate AsksModel(op: Operation, run: RunContext, caller: Caller, model: Id) {
    SaysModel(op, model) || (SaysNoModel(op) && (run.provider == Claude || ForksWhole(op)) && model == caller.model)
  }

  ghost function TierGrounds(op: Operation, run: RunContext, config: Config, enabled: set<int>, caller: Caller,
                             i: int, k: int): seq<Ground>
    requires 0 <= i < |config.tiers| && op.envelope.Some?
  {
    var risky := Risky(op.envelope.value);
    [ Ground(k !in enabled, "TARGET_MODEL_DISABLED"),
      Ground(risky && NoFrontier(config, enabled), "FRONTIER_UNAVAILABLE"),
      Ground(risky && config.tiers[i].name != "frontier", "HIGH_RISK_CALLER_NOT_FRONTIER"),
      Ground(risky && k != i, "HIGH_RISK_REQUIRES_FRONTIER"),
      Ground(run.provider == Codex && SaysNoEffort(op) && !ForksWhole(op) && !IsEffort(caller.effort),
             "UNKNOWN_CALLER_EFFORT") ]
  }

  predicate Beyond(effort: Option<string>, limit: string) {
    effort.Some? && IsEffort(effort.value) && IsEffort(limit) && EffortIndex(effort.value) > EffortIndex(limit)
  }

  function RankGrounds(from: Tier, to: Tier): seq<Ground> {
    [ Ground(to.model != from.model && (to.generationRank.None? || from.generationRank.None?),
             "UNKNOWN_MODEL_AUTHORITY"),
      Ground(to.model != from.model && !NoNewer(from.generationRank, to.generationRank), "MODEL_GENERATION_CEILING"),
      Ground(Authority(to) > Authority(from), "MODEL_CAPABILITY_CEILING") ]
  }

  function EffortGrounds(caller: Caller, to: Tier, effort: Option<string>): seq<Ground> {
    [ Ground(!IsEffort(caller.effort), "UNKNOWN_CALLER_EFFORT"),
      Ground(effort.None? || !IsEffort(effort.value), "UNKNOWN_TARGET_EFFORT"),
      Ground(Beyond(effort, caller.effort), "EFFORT_CEILING"),
      Ground(Beyond(effort, to.effort), "UNSUPPORTED_MODEL_EFFORT") ]
  }

  function AuthorityGrounds(run: RunContext, config: Config, caller: Caller, from: Tier, to: Tier,
                            effort: Option<string>): seq<Ground>
  {
    RankGrounds(from, to)
    + ((if run.provider == Codex then EffortGrounds(caller, to, effort) else [])
       + [Ground(config.strictlyCheaper && to.model != from.model && to.weight >= from.weight,
                 "STRICTLY_CHEAPER_REQUIRED")])
  }

  lemma RankFirst(from: Tier, to: Tier)
    ensures var gs := RankGrounds(from, to);
            First(gs) == if gs[0].there then Some(gs[0].rule) else if gs[1].there then Some(gs[1].rule)
                         else if gs[2].there then Some(gs[2].rule) else None
  {
    var gs := RankGrounds(from, to);
    if gs[0].there { FirstIsFirst(gs, 0); }
    else if gs[1].there { FirstIsFirst(gs, 1); }
    else if gs[2].there { FirstIsFirst(gs, 2); }
  }

  lemma EffortFirst(caller: Caller, to: Tier, effort: Option<string>)
    ensures var gs := EffortGrounds(caller, to, effort);
            First(gs) == if gs[0].there then Some(gs[0].rule) else if gs[1].there then Some(gs[1].rule)
                         else if gs[2].there then Some(gs[2].rule) else if gs[3].there then Some(gs[3].rule) else None
  {
    var gs := EffortGrounds(caller, to, effort);
    if gs[0].there { FirstIsFirst(gs, 0); }
    else if gs[1].there { FirstIsFirst(gs, 1); }
    else if gs[2].there { FirstIsFirst(gs, 2); }
    else if gs[3].there { FirstIsFirst(gs, 3); }
  }

  lemma AuthorityFirst(run: RunContext, config: Config, caller: Caller, from: Tier, to: Tier, effort: Option<string>)
    ensures First(AuthorityGrounds(run, config, caller, from, to, effort)) ==
              if First(RankGrounds(from, to)).Some? then First(RankGrounds(from, to))
              else if run.provider == Codex && First(EffortGrounds(caller, to, effort)).Some?
              then First(EffortGrounds(caller, to, effort))
              else if config.strictlyCheaper && to.model != from.model && to.weight >= from.weight
              then Some("STRICTLY_CHEAPER_REQUIRED") else None
  {
    var efforts := if run.provider == Codex then EffortGrounds(caller, to, effort) else [];
    var price := [Ground(config.strictlyCheaper && to.model != from.model && to.weight >= from.weight,
                         "STRICTLY_CHEAPER_REQUIRED")];
    FirstOfBoth(efforts, price);
    FirstOfBoth(RankGrounds(from, to), efforts + price);
    assert First(price) == if price[0].there then Some(price[0].rule) else First(price[1..]);
  }

  lemma AuthorityRule(run: RunContext, config: Config, caller: Caller, i: nat, k: nat, effort: Option<string>)
    requires ValidConfig(config) && i < |config.tiers| && k < |config.tiers|
    ensures First(AuthorityGrounds(run, config, caller, config.tiers[i], config.tiers[k], effort))
         == AuthorityRefusal(run, config, caller, config.tiers[i], config.tiers[k], effort)
  {
    if config.tiers[i].model == config.tiers[k].model { assert i == k; }
    AuthorityFirst(run, config, caller, config.tiers[i], config.tiers[k], effort);
    RankFirst(config.tiers[i], config.tiers[k]);
    EffortFirst(caller, config.tiers[k], effort);
  }

  /** The effort the child would work with. */
  function ChildEffort(op: Operation, run: RunContext, caller: Caller, t: Tier): Option<string> {
    if run.provider == Claude then None
    else if ForksWhole(op) then Some(caller.effort)
    else if !SaysNoEffort(op) then RequestedEffort(op)
    else if AtMost(t.effort, caller.effort) then Some(t.effort) else Some(caller.effort)
  }

  lemma TierRule(op: Operation, run: RunContext, config: Config, enabled: set<int>, caller: Caller, i: nat, k: nat)
    requires ValidConfig(config) && i < |config.tiers| && k < |config.tiers| && op.envelope.Some?
    ensures var gs := TierGrounds(op, run, config, enabled, caller, i, k);
            First(gs) == if gs[0].there then Some(gs[0].rule)
                         else if HighRisk(op.envelope.value) && RiskRefusal(config, enabled, i, k).Some?
                         then RiskRefusal(config, enabled, i, k)
                         else if gs[4].there then Some(gs[4].rule) else None
  {
    var gs := TierGrounds(op, run, config, enabled, caller, i, k);
    NoFrontierExactly(config, enabled);
    FrontierIsNamed(config, enabled);
    if config.tiers[i].name == "frontier" { FrontierIs(config, enabled, 0, i); }
    AmongFive(gs);
  }

  lemma AskedIs(op: Operation, run: RunContext, caller: Caller)
    ensures forall m :: AsksModel(op, run, caller, m) <==> Asked(op, run, caller).0 == Some(m)
  {
    ModelIs(op);
    EffortIs(op);
  }

  /** Past the tier's own grounds, the route is decided by authority alone. */
  lemma RoutePast(op: Operation, run: RunContext, config: Config, enabled: set<int>, caller: Caller, i: nat, k: nat)
    requires ValidConfig(config) && i < |config.tiers| && k < |config.tiers| && op.envelope.Some?
    requires AsksModel(op, run, caller, config.tiers[k].model)
    requires First(TierGrounds(op, run, config, enabled, caller, i, k)).None?
    ensures var c := RouteChoice(op, run, config, enabled, caller, i, op.envelope.value);
            var effort := ChildEffort(op, run, caller, config.tiers[k]);
            var refusal := AuthorityRefusal(run, config, caller, config.tiers[i], config.tiers[k], effort);
            && (c.Rejected? ==> refusal == Some(c.result.spec.rule))
            && (c.Chosen? ==> refusal == None && c.target == config.tiers[k])
  {
    ModelIs(op);
    EffortIs(op);
    ModelsAreUnique(config, k);
    TierRule(op, run, config, enabled, caller, i, k);
  }

  lemma RouteStops(op: Operation, run: RunContext, config: Config, enabled: set<int>, caller: Caller, i: nat, k: nat)
    requires ValidConfig(config) && i < |config.tiers| && k < |config.tiers| && op.envelope.Some?
    requires AsksModel(op, run, caller, config.tiers[k].model)
    requires First(TierGrounds(op, run, config, enabled, caller, i, k)).Some?
    ensures var c := RouteChoice(op, run, config, enabled, caller, i, op.envelope.value);
            c.Rejected? && First(TierGrounds(op, run, config, enabled, caller, i, k)) == Some(c.result.spec.rule)
  {
    ModelIs(op);
    EffortIs(op);
    ModelsAreUnique(config, k);
    TierRule(op, run, config, enabled, caller, i, k);
  }

  lemma RouteRule(op: Operation, run: RunContext, config: Config, enabled: set<int>, caller: Caller, i: nat, k: nat)
    requires ValidConfig(config) && i < |config.tiers| && k < |config.tiers| && op.envelope.Some?
    requires AsksModel(op, run, caller, config.tiers[k].model)
    ensures var c := RouteChoice(op, run, config, enabled, caller, i, op.envelope.value);
            var t := config.tiers[k];
            && First(TierGrounds(op, run, config, enabled, caller, i, k)
                     + AuthorityGrounds(run, config, caller, config.tiers[i], t, ChildEffort(op, run, caller, t)))
               == (if c.Rejected? then Some(c.result.spec.rule) else None)
            && (c.Chosen? ==> c.target == t)
  {
    var effort := ChildEffort(op, run, caller, config.tiers[k]);
    if First(TierGrounds(op, run, config, enabled, caller, i, k)).None? {
      RoutePast(op, run, config, enabled, caller, i, k);
      AuthorityRule(run, config, caller, i, k, effort);
    } else {
      RouteStops(op, run, config, enabled, caller, i, k);
    }
    FirstOfBoth(TierGrounds(op, run, config, enabled, caller, i, k),
                AuthorityGrounds(run, config, caller, config.tiers[i], config.tiers[k], effort));
  }

  /**
   * Routing for an entitled caller: without a model asked for or inherited, or with one no
   * tier has, it says so; otherwise it names the first of these grounds, or else approves.
   */
  lemma RoutingRule(op: Operation, run: RunContext, config: Config, enabled: set<int>, caller: Caller, s: Snapshot,
                    i: int)
    requires ValidConfig(config) && run.mode == Routing && Entitled(op, run, config, caller, i)
    ensures (forall m :: !AsksModel(op, run, caller, m)) ==>
              Refuses(Evaluate(op, run, config, enabled, s, caller))
              && Evaluate(op, run, config, enabled, s, caller).spec.rule == "MISSING_MODEL_SELECTION"
    ensures forall m :: AsksModel(op, run, caller, m) && TierForModel(config.tiers, m).None? ==>
              Refuses(Evaluate(op, run, config, enabled, s, caller))
              && Evaluate(op, run, config, enabled, s, caller).spec.rule == "UNKNOWN_TARGET_MODEL"
    ensures forall k :: 0 <= k < |config.tiers| && AsksModel(op, run, caller, config.tiers[k].model) ==>
              NamesFirst(op, run, config, enabled, caller, s, i, k)
  {
    CallerTier(op, run, config, caller, i);
    PassesGate(op, run, config, caller);
    AskedIs(op, run, caller);
    if Asked(op, run, caller).0.Some? { assert AsksModel(op, run, caller, Asked(op, run, caller).0.value); }
    forall k | 0 <= k < |config.tiers| && AsksModel(op, run, caller, config.tiers[k].model)
      ensures NamesFirst(op, run, config, enabled, caller, s, i, k)
    {
      RoutedRule(op, run, config, enabled, caller, s, i, k);
    }
  }

  ghost predicate NamesFirst(op: Operation, run: RunContext, config: Config, enabled: set<int>, caller: Caller,
                             s: Snapshot, i: int, k: int)
    requires ValidConfig(config) && Entitled(op, run, config, caller, i) && 0 <= k < |config.tiers|
  {
    var e, t := Evaluate(op, run, config, enabled, s, caller), config.tiers[k];
    First(TierGrounds(op, run, config, enabled, caller, i, k)
          + AuthorityGrounds(run, config, caller, config.tiers[i], t, ChildEffort(op, run, caller, t))
          + RoomGrounds(config, t, s)) == if Approves(e) then None else Some(e.spec.rule)
  }

  lemma RoutedRule(op: Operation, run: RunContext, config: Config, enabled: set<int>, caller: Caller, s: Snapshot,
                   i: int, k: int)
    requires ValidConfig(config) && run.mode == Routing && Entitled(op, run, config, caller, i)
    requires 0 <= k < |config.tiers| && AsksModel(op, run, caller, config.tiers[k].model)
    ensures NamesFirst(op, run, config, enabled, caller, s, i, k)
  {
    var t := config.tiers[k];
    CallerTier(op, run, config, caller, i);
    PassesGate(op, run, config, caller);
    RouteRule(op, run, config, enabled, caller, i, k);
    var c := Choose(op, run, config, enabled, caller);
    if c.Chosen? { RoomRule(run, config, config.tiers[i], t, c.selected, c.effort, s); }
    FirstOfBoth(TierGrounds(op, run, config, enabled, caller, i, k)
                + AuthorityGrounds(run, config, caller, config.tiers[i], t, ChildEffort(op, run, caller, t)),
                RoomGrounds(config, t, s));
  }

  // ---- What a verdict names ---------------------------------------------------------------

  /** With a tier goes its price, and in routing mode its model; with none goes nothing. */
  predicate NamesWhole(run: RunContext, e: Evaluation) {
    && e.spec.selectedModel == e.selectedModel
    && (e.tier.None? ==> e.selectedModel == None && e.effort == None && e.estimate == 0.0)
    && (e.tier.Some? ==>
          && e.estimate == e.tier.value.estimate
          && e.selectedModel == if run.mode == Routing then Some(e.tier.value.model) else None)
  }

  predicate ChoiceNames(run: RunContext, c: Choice) {
    match c
    case Rejected(e) => NamesWhole(run, e) && Refuses(e)
    case Chosen(to, selected, _) => selected == if run.mode == Routing then Some(to.model) else None
  }

  lemma RouteNames(op: Operation, run: RunContext, config: Config, enabled: set<int>, caller: Caller, i: nat,
                   envelope: Envelope)
    requires ValidConfig(config) && i < |config.tiers| && run.mode == Routing
    ensures ChoiceNames(run, RouteChoice(op, run, config, enabled, caller, i, envelope))
  {}

  lemma AdmitNames(run: RunContext, config: Config, enabled: set<int>, i: nat, envelope: Envelope)
    requires run.mode != Routing
    ensures ChoiceNames(run, AdmitChoice(config, enabled, i, envelope))
  {}

  lemma ChosenNames(op: Operation, run: RunContext, config: Config, enabled: set<int>, caller: Caller)
    requires ValidConfig(config) && Gate(op, run, config, caller).None?
    ensures ChoiceNames(run, Choose(op, run, config, enabled, caller))
  {
    var i := TierForModel(config.tiers, caller.model).value;
    if run.mode == Routing {
      RouteNames(op, run, config, enabled, caller, i, op.envelope.value);
    } else {
      AdmitNames(run, config, enabled, i, op.envelope.value);
    }
  }

  lemma CapacityNames(run: RunContext, config: Config, from: Tier, to: Tier, selected: Option<Id>,
                      effort: Option<string>, s: Snapshot)
    requires selected == if run.mode == Routing then Some(to.model) else None
    ensures var e := Capacity(run, config, from, to, selected, effort, s);
            NamesWhole(run, e) && (Approves(e) || Refuses(e))
  {}

  /** A verdict names a whole tier or none, whether it approves or not; and it saves only what it reserves. */
  lemma VerdictNames(op: Operation, run: RunContext, config: Config, enabled: set<int>, caller: Caller, s: Snapshot,
                     e: Evaluation)
    requires ValidConfig(config) && e == Evaluate(op, run, config, enabled, s, caller)
    ensures NamesWhole(run, e) && (!Approves(e) ==> !e.spec.savings && !e.spec.reserve)
  {
    if Gate(op, run, config, caller).None? {
      ChosenNames(op, run, config, enabled, caller);
      ChosenVerdict(op, run, config, enabled, caller, s, Choose(op, run, config, enabled, caller));
    }
  }

  lemma ChosenVerdict(op: Operation, run: RunContext, config: Config, enabled: set<int>, caller: Caller, s: Snapshot,
                      c: Choice)
    requires ValidConfig(config) && Gate(op, run, config, caller).None?
    requires c == Choose(op, run, config, enabled, caller) && ChoiceNames(run, c)
    ensures var e := Evaluate(op, run, config, enabled, s, caller);
            NamesWhole(run, e) && (Approves(e) || Refuses(e))
  {
    match c
    case Rejected(_) =>
    case Chosen(to, selected, effort) =>
      CapacityNames(run, config, config.tiers[TierForModel(config.tiers, caller.model).value], to, selected, effort, s);
  }

  /** In admission mode the tier named, even by a refusal, is the one the work belongs on. */
  lemma AdmissionNames(op: Operation, run: RunContext, config: Config, enabled: set<int>, caller: Caller, s: Snapshot,
                       i: int)
    requires ValidConfig(config) && run.mode == Admission && Entitled(op, run, config, caller, i)
    ensures forall t :: Belongs(config, enabled, op.envelope.value, t) ==>
              Evaluate(op, run, config, enabled, s, caller).tier == Some(config.tiers[t])
    ensures (forall t :: !Belongs(config, enabled, op.envelope.value, t)) ==>
              Evaluate(op, run, config, enabled, s, caller).tier == None
  {
    CallerTier(op, run, config, caller, i);
    PassesGate(op, run, config, caller);
    var e := op.envelope.value;
    var target := if HighRisk(e) then FrontierIndex(config, enabled)
                  else TargetTierIndex(config, enabled, e.taskClass);
    forall t ensures Belongs(config, enabled, e, t) <==> target == Some(t) { BelongsOnTarget(config, enabled, e, t); }
    if target.Some? { assert Belongs(config, enabled, e, target.value); }
  }

  /** In routing mode it is the one asked for, once that is enabled and fit for the risk. */
  lemma RoutingNames(op: Operation, run: RunContext, config: Config, enabled: set<int>, caller: Caller, s: Snapshot,
                     i: int, k: int)
    requires ValidConfig(config) && run.mode == Routing && Entitled(op, run, config, caller, i)
    requires 0 <= k < |config.tiers| && AsksModel(op, run, caller, config.tiers[k].model)
    ensures Evaluate(op, run, config, enabled, s, caller).tier ==
              if k in enabled && (Risky(op.envelope.value) ==> k == i && config.tiers[k].name == "frontier")
              then Some(config.tiers[k]) else None
  {
    CallerTier(op, run, config, caller, i);
    PassesGate(op, run, config, caller);
    AskedIs(op, run, caller);
    ModelsAreUnique(config, k);
    if k in enabled { RiskAllowedExactly(config, enabled, i, k); }
  }
}
