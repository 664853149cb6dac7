/**
 * The rows that hook calls leave in the ledger: each carries the tier, model, effort and
 * estimate that its own evaluation approved, and those are of one configured tier.
 */
module HookRows {
  import opened Wrappers
  import L = Ledger
  import opened LedgerInvariant
  import opened LedgerRows
  import opened Policy
  import opened PolicyTheorems
  import opened Hook

  /** The evaluation of a call on what its run is using. */
  function Evaluated(input: Input, config: Config, s: L.Snapshot): Evaluation
    requires ValidConfig(config) && input.operation.Some?
  {
    Evaluate(input.operation.value, input.run, config, input.enabled, s, input.identity.who)
  }

  predicate Labelled(text: L.Id, name: OperationName) {
    && (name == Spawn <==> text == "spawn") && (name == Assign <==> text == "assign")
    && (name == Followup <==> text == "followup") && (name == Message <==> text == "message")
    && (name == OperationName.Other <==> text == "other")
  }

  /** The row is for this call, on the terms that the evaluation approved. */
  predicate OnTerms(r: L.Reservation, input: Input, config: Config, e: Evaluation, now: L.Time) {
    && input.operation.Some? && input.operation.value.envelope.Some? && e.tier.Some?
    && r.run == input.run.run && r.task == input.operation.value.envelope.value.taskName
    && r.correlation == input.operation.value.correlation && Labelled(r.operation, input.operation.value.name)
    && r.tier == Some(e.tier.value.name) && r.model == Some(e.tier.value.model)
    && r.effort == e.effort && r.estimate == e.estimate && r.expires == now + config.ttl as real
  }

  /** The call's key: its correlation id where the provider gives one. */
  predicate KeyOf(key: L.Id, input: Input) {
    input.operation.Some?
    && if input.operation.value.correlation.Some? then Some(key) == input.operation.value.correlation
       else key == input.derivedKey
  }

  /** What a call asks for, whatever it comes to. */
  lemma CallAsks(input: Input, config: Config, req: L.Request)
    requires ValidConfig(config) && Decide(input, config).Stored? && req == Decide(input, config).request
    ensures input.operation.Some? && req == BuildRequest(input.operation.value, input, config)
    ensures req.run == input.run.run && req.generation == input.run.generation && req.ttl == config.ttl as real
    ensures KeyOf(req.key, input) && Labelled(req.operation, input.operation.value.name)
    ensures req.correlation == input.operation.value.correlation
    ensures input.operation.value.envelope.Some? ==> req.task == input.operation.value.envelope.value.taskName
    ensures input.operation.value.envelope.None? ==> req.task == input.derivedTask
  {
    assert req == BuildRequest(input.operation.value, input, config);
  }

  lemma ApprovalHasEnvelope(op: Operation, input: Input, config: Config, s: L.Snapshot)
    requires ValidConfig(config) && input.operation == Some(op) && Approves(Evaluated(input, config, s))
    ensures op.envelope.Some?
  {
    ApprovalShape(op, input.run, config, input.enabled, input.identity.who, s);
    GateMeans(op, input.run, config, input.identity.who);
  }

  lemma AskedIsOnTerms(input: Input, config: Config, s: L.Snapshot, r: L.Reservation, now: L.Time)
    requires ValidConfig(config) && Decide(input, config).Stored? && AsAsked(r, Decide(input, config).request, now)
    requires Approves(Evaluated(input, config, s))
    ensures OnTerms(r, input, config, Evaluated(input, config, s), now)
  {
    var req, op := Decide(input, config).request, input.operation.value;
    CallAsks(input, config, req);
    ApprovalHasEnvelope(op, input, config, s);
    PreviewRefinesCommit(op, input, config, s);
  }

  /** What makes a call's evaluator allow and reserve. */
  lemma AllowedExactly(input: Input, config: Config, s: L.Snapshot)
    requires ValidConfig(config) && Decide(input, config).Stored?
    ensures var spec := Decide(input, config).evaluator(s);
            spec.allowed && spec.reserve <==> Admissible(input) && Approves(Evaluated(input, config, s))
  {
    if Decide(input, config).evaluator(s).allowed { ApprovalIsAdmissible(input, config, s); }
  }

  /**
   * A call that goes to the store, not heard before under its key: it adds a reservation
   * exactly when it is admissible, nothing of its run stands in its way, and the evaluation
   * inside the transaction approves it; and then on the terms which that evaluation approved.
   */
  lemma CallAddsRow(db: L.Db, input: Input, config: Config, now: L.Time, a: Answer, after: L.Db,
                    result: Result<L.Decision, L.Error>)
    requires ValidConfig(config) && Tables(db) && a == Decide(input, config) && a.Stored? && !Decided(db, a.request)
    requires (after, result) == L.DecideAndReserve(db, a.request, a.evaluator, now)
    ensures result.Ok? ==>
              && result.value.run == input.run.run && KeyOf(result.value.key, input)
              && (result.value.reservation.Some? <==>
                    && Admissible(input) && Unhindered(db, a.request, now)
                    && Approves(Evaluated(input, config, L.TakeSnapshot(L.Sweep(db, now), input.run.run))))
    ensures result.Ok? && result.value.reservation.Some? ==>
              && |after.reservations| == |db.reservations| + 1
              && OnTerms(after.reservations[|db.reservations|], input, config,
                         Evaluated(input, config, L.TakeSnapshot(L.Sweep(db, now), input.run.run)), now)
              && Untouched(after.reservations[|db.reservations|])
              && input.run.run in db.generations && db.generations[input.run.run] == input.run.generation
  {
    var s := L.TakeSnapshot(L.Sweep(db, now), input.run.run);
    CallAsks(input, config, a.request);
    AllowedExactly(input, config, s);
    RequestWrites(db, a.request, a.evaluator, now, after, result);
    if result.Ok? && result.value.reservation.Some? {
      AskedIsOnTerms(input, config, s, after.reservations[|db.reservations|], now);
    }
  }

  /** Whose calls go to the store, and which others are let through. */
  lemma AnswerExactly(input: Input, config: Config)
    requires ValidConfig(config)
    ensures var a := Decide(input, config);
            var governed := input.operation.Some? && input.operation.value.isNewWork;
            var placed := input.identity.run == Some(input.run.run) && input.identity.thread.Some?;
            && (a.Stored? <==> governed && placed && input.identity.tierKnown)
            && (a.Ephemeral? && a.allowed <==>
                  || !governed
                  || (!placed && config.unknownIdentity == ObserveUnknown)
                  || (placed && !input.identity.tierKnown && config.unknownModel == ObserveUnknown))
  {}

  /** What a call is told that does not go to the store. */
  lemma AnswerRule(input: Input, config: Config)
    requires ValidConfig(config) && Decide(input, config).Ephemeral?
    ensures var a := Decide(input, config);
            var posture := if input.identity.run == Some(input.run.run) && input.identity.thread.Some?
                           then config.unknownModel else config.unknownIdentity;
            if input.operation.None? || !input.operation.value.isNewWork then a.rule == "NOT_GOVERNED"
            else && (posture == ObserveUnknown ==> a.rule == "IDENTITY_OBSERVE_ONLY")
                 && (posture == DenyUnknown ==> a.rule == "IDENTITY_UNKNOWN")
                 && (posture == DegradeUnknown ==> a.rule == "IDENTITY_DEGRADED")
  {}

  /** What the store is told to write down for a call that is not admissible, whatever is in use. */
  lemma InadmissibleRule(input: Input, config: Config, s: L.Snapshot)
    requires ValidConfig(config) && Decide(input, config).Stored? && !Admissible(input)
    ensures var spec := Decide(input, config).evaluator(s);
            && !spec.allowed && spec.selectedModel == None && !spec.savings
            && (!input.configMatches ==> spec.rule == "CONFIG_DRIFT")
            && (input.configMatches && input.normalization.Some? ==> Some(spec.rule) == input.normalization)
            && (input.configMatches && input.normalization.None? ==> spec.rule == "MISSING_CORRELATION")
  {}

  // ---- The whole system -----------------------------------------------------------------

  /** Tier, model and estimate are those of one configured tier. */
  ghost predicate Configured(config: Config, r: L.Reservation) {
    exists i :: 0 <= i < |config.tiers| && OfTier(config.tiers[i], r)
  }

  predicate OfTier(t: Tier, r: L.Reservation) {
    r.tier == Some(t.name) && r.model == Some(t.model) && r.estimate == t.estimate
  }

  /** The row was approved for this call, by an evaluation on some state of its run. */
  ghost predicate ApprovedFor(t: Turn, config: Config, r: L.Reservation)
    requires ValidConfig(config)
  {
    t.Call? && Admissible(t.input)
    && exists s :: Approves(Evaluated(t.input, config, s))
                   && OnTerms(r, t.input, config, Evaluated(t.input, config, s), t.now)
  }

  lemma {:induction false} DecisionsAreCalls(turns: seq<Turn>, config: Config, op: L.Op)
    requires ValidConfig(config) && op in Ops(turns, config) && op.OpDecide?
    ensures exists t :: t in turns && t.Call? && t.now == op.now
                        && Decide(t.input, config) == Stored(op.req, op.evaluator)
  {
    if op in TurnOps(turns[0], config) {
      assert turns[0] in turns;
    } else {
      DecisionsAreCalls(turns[1..], config, op);
    }
  }

  lemma GrantedIsApproved(db: L.Db, op: L.Op, t: Turn, config: Config, r: L.Reservation)
    requires ValidConfig(config) && GrantedBy(db, op, r) && t.Call? && t.now == op.now
    requires Decide(t.input, config) == Stored(op.req, op.evaluator)
    ensures ApprovedFor(t, config, r) && Configured(config, r)
  {
    var s := L.TakeSnapshot(L.Sweep(db, op.now), op.req.run);
    AllowedExactly(t.input, config, s);
    AskedIsOnTerms(t.input, config, s, r, op.now);
    var i := ApprovalHasRoom(t.input.operation.value, t.input.run, config, t.input.enabled, t.input.identity.who, s);
    assert OfTier(config.tiers[i], r);
  }

  /**
   * However hook calls and everything else interleave: a row that names a tier carries the
   * model and the estimate of the configured tier of that name, and what one of the calls
   * asked for, on the terms approved for it.
   */
  lemma SystemRowsAreConfigured(turns: seq<Turn>, config: Config, r: L.Reservation)
    requires ValidConfig(config) && r in L.Run(L.EMPTY, Ops(turns, config)).reservations && r.tier.Some?
    ensures Configured(config, r)
    ensures exists t :: t in turns && ApprovedFor(t, config, r)
  {
    var ops := Ops(turns, config);
    EveryRowWasMade(ops, r);
    var m :| 0 <= m < |ops| && MadeBy(At(ops, m), ops[m], r);
    DecisionsAreCalls(turns, config, ops[m]);
    var t :| t in turns && t.Call? && t.now == ops[m].now
             && Decide(t.input, config) == Stored(ops[m].req, ops[m].evaluator);
    GrantedIsApproved(At(ops, m), ops[m], t, config, r);
  }
}
