/**
 * Capacity and money over whole histories: no interleaving of transactions lets a
 * tier exceed its concurrency cap, and when the budget can be exceeded is exactly known.
 */
module LedgerSafety {
  import opened Wrappers
  import opened Sums
  import opened Ledger
  import opened LedgerInvariant

  // ---- What the snapshot shows ------------------------------------------------

  /**
   * The snapshot never shows fewer active reservations than there are, and more only under
   * the name "None": where no tier of that name has any, those without a tier.
   */
  lemma SnapshotActive(db: Db, run: Id, tier: Id)
    ensures TakeSnapshot(db, run).Active(tier) >= ActiveCount(db.reservations, run, Some(tier))
    ensures tier != "None" ==>
      TakeSnapshot(db, run).Active(tier) == ActiveCount(db.reservations, run, Some(tier))
    ensures tier == "None" ==>
      TakeSnapshot(db, run).Active(tier) ==
        if ActiveCount(db.reservations, run, Some(tier)) > 0 then ActiveCount(db.reservations, run, Some(tier))
        else ActiveCount(db.reservations, run, None)
  {
    var rows := db.reservations;
    CountZero(ActiveIn(run, Some(tier)), rows);
    CountZero(ActiveIn(run, None), rows);
    if exists r :: r in rows && r.run == run && Occupies(r.state) && TierKey(r.tier) == tier {
      var r :| r in rows && r.run == run && Occupies(r.state) && TierKey(r.tier) == tier;
      assert tier in TakeSnapshot(db, run).activeByTier;
    }
  }

  // ---- Rows through a step -------------------------------------------------------

  lemma RowMayOnlyRelease(op: Op, a: Reservation, b: Reservation, run: Id, tier: Option<Id>)
    requires RowMay(op, a, b)
    ensures ActiveIn(run, tier)(b) ==> ActiveIn(run, tier)(a)
    ensures ReservedIn(run)(b) <= ReservedIn(run)(a)
  {}

  /** The rows present before a step never weigh more after it. */
  lemma OldRowsOnlyRelease(db: Db, op: Op, run: Id, tier: Option<Id>)
    requires !op.OpDelete?
    ensures |db.reservations| <= |Step(db, op).reservations|
    ensures var kept := Step(db, op).reservations[..|db.reservations|];
            ActiveCount(kept, run, tier) <= ActiveCount(db.reservations, run, tier)
            && ReservedUsd(kept, run) <= ReservedUsd(db.reservations, run)
  {
    var n := |db.reservations|;
    var after := Step(db, op).reservations;
    if n > 0 { RowAfter(db, op, n - 1); }
    else { assert |after| >= 0; }
    forall i | 0 <= i < n
      ensures ActiveIn(run, tier)(after[..n][i]) ==> ActiveIn(run, tier)(db.reservations[i])
      ensures ReservedIn(run)(after[..n][i]) <= ReservedIn(run)(db.reservations[i])
    {
      RowAfter(db, op, i);
      RowMayOnlyRelease(op, db.reservations[i], after[i], run, tier);
    }
    CountMonotone(ActiveIn(run, tier), after[..n], db.reservations);
    SumMonotone(ReservedIn(run), after[..n], db.reservations);
  }

  lemma DecideShape(db: Db, req: Request, evaluator: Snapshot -> Spec, now: Time)
    ensures var after := DecideAndReserve(db, req, evaluator, now).0;
            var swept := Sweep(db, now);
            || after.reservations == db.reservations
            || after.reservations == swept.reservations
            || (&& after.reservations == swept.reservations + [Granted(req, db.nextId, now)]
                && var spec := evaluator(TakeSnapshot(swept, req.run)); spec.allowed && spec.reserve)
    ensures DecideAndReserve(db, req, evaluator, now).0.costs == db.costs
  {}

  lemma LifecycleShape(db: Db, e: Event, now: Time)
    ensures var after := RecordLifecycle(db, e, now).0;
            |after.reservations| == |db.reservations|
            || after.reservations == db.reservations + [Orphan(e, db.nextId, now)]
  {}

  // ---- Concurrency -----------------------------------------------------------------

  ghost predicate WithinCaps(db: Db, cap: (Id, Id) -> nat) {
    forall run, tier :: ActiveCount(db.reservations, run, Some(tier)) <= cap(run, tier)
  }

  /** An evaluator that only lets a reservation in while its tier has room. */
  ghost predicate RespectsCap(req: Request, evaluator: Snapshot -> Spec, cap: (Id, Id) -> nat) {
    forall s :: evaluator(s).allowed && evaluator(s).reserve ==> s.Active(req.tier) < cap(req.run, req.tier)
  }

  lemma SweepWithinCap(db: Db, now: Time, cap: (Id, Id) -> nat, run: Id, tier: Id)
    requires WithinCaps(db, cap)
    ensures ActiveCount(Sweep(db, now).reservations, run, Some(tier)) <= cap(run, tier)
  {
    var rows := Sweep(db, now).reservations;
    OldRowsOnlyRelease(db, OpSweep(now), run, Some(tier));
    assert rows[..|db.reservations|] == rows;
  }

  /** A reservation let in while its tier has room. */
  lemma GrantWithinCap(swept: Db, req: Request, id: nat, now: Time, cap: (Id, Id) -> nat,
                       run: Id, tier: Id)
    requires ActiveCount(swept.reservations, run, Some(tier)) <= cap(run, tier)
    requires TakeSnapshot(swept, req.run).Active(req.tier) < cap(req.run, req.tier)
    ensures ActiveCount(swept.reservations + [Granted(req, id, now)], run, Some(tier)) <= cap(run, tier)
  {
    CountAppend(ActiveIn(run, Some(tier)), swept.reservations, Granted(req, id, now));
    SnapshotActive(swept, req.run, req.tier);
  }

  lemma DecideWithinCaps(db: Db, req: Request, evaluator: Snapshot -> Spec, now: Time,
                         cap: (Id, Id) -> nat, run: Id, tier: Id)
    requires WithinCaps(db, cap) && RespectsCap(req, evaluator, cap)
    ensures ActiveCount(DecideAndReserve(db, req, evaluator, now).0.reservations, run, Some(tier)) <= cap(run, tier)
  {
    var swept := Sweep(db, now);
    DecideShape(db, req, evaluator, now);
    SweepWithinCap(db, now, cap, run, tier);
    var spec := evaluator(TakeSnapshot(swept, req.run));
    if spec.allowed && spec.reserve { GrantWithinCap(swept, req, db.nextId, now, cap, run, tier); }
  }

  /** An orphan has no tier, and counts against no tier's cap. */
  lemma OrphanCountsNowhere(rows: seq<Reservation>, e: Event, id: nat, now: Time, run: Id, tier: Id)
    ensures ActiveCount(rows + [Orphan(e, id, now)], run, Some(tier)) == ActiveCount(rows, run, Some(tier))
  {
    CountAppend(ActiveIn(run, Some(tier)), rows, Orphan(e, id, now));
  }

  lemma MovedWithinCap(db: Db, op: Op, after: seq<Reservation>, run: Id, tier: Id)
    requires !op.OpDelete? && after == Step(db, op).reservations && |after| == |db.reservations|
    ensures ActiveCount(after, run, Some(tier)) <= ActiveCount(db.reservations, run, Some(tier))
  {
    OldRowsOnlyRelease(db, op, run, Some(tier));
    assert after[..|db.reservations|] == after;
  }

  lemma LifecycleWithinCap(db: Db, e: Event, now: Time, cap: (Id, Id) -> nat, run: Id, tier: Id)
    requires WithinCaps(db, cap)
    ensures ActiveCount(RecordLifecycle(db, e, now).0.reservations, run, Some(tier)) <= cap(run, tier)
  {
    var after := RecordLifecycle(db, e, now).0.reservations;
    LifecycleShape(db, e, now);
    if |after| == |db.reservations| {
      MovedWithinCap(db, OpLifecycle(e, now), after, run, tier);
    } else {
      OrphanCountsNowhere(db.reservations, e, db.nextId, now, run, tier);
    }
  }

  lemma StepWithinCaps(db: Db, op: Op, cap: (Id, Id) -> nat)
    requires WithinCaps(db, cap)
    requires op.OpDecide? ==> RespectsCap(op.req, op.evaluator, cap)
    ensures WithinCaps(Step(db, op), cap)
  {
    var after := Step(db, op);
    forall run, tier
      ensures ActiveCount(after.reservations, run, Some(tier)) <= cap(run, tier)
    {
      match op
      case OpDecide(req, evaluator, now) => DecideWithinCaps(db, req, evaluator, now, cap, run, tier);
      case OpDelete(gone, now) =>
        CountFilter(ActiveIn(run, Some(tier)), (r: Reservation) => r.run != gone, db.reservations);
      case OpLifecycle(e, now) => LifecycleWithinCap(db, e, now, cap, run, tier);
      case _ => MovedWithinCap(db, op, after.reservations, run, tier);
    }
  }

  /**
   * Concurrency safety: in every state any interleaving reaches, the approved and started
   * reservations of each run and tier are at most the cap.
   */
  lemma {:induction false} RunWithinCaps(db: Db, ops: seq<Op>, cap: (Id, Id) -> nat)
    requires WithinCaps(db, cap)
    requires forall op :: op in ops && op.OpDecide? ==> RespectsCap(op.req, op.evaluator, cap)
    ensures WithinCaps(Run(db, ops), cap)
    decreases |ops|
  {
    if ops != [] {
      assert ops[0] in ops;
      StepWithinCaps(db, ops[0], cap);
      RunWithinCaps(Step(db, ops[0]), ops[1..], cap);
    }
  }

  // ---- Budget ----------------------------------------------------------------------

  /** Money spent plus money set aside. */
  function Exposure(db: Db, run: Id): Money {
    SpentUsd(db.costs, run) + ReservedUsd(db.reservations, run)
  }

  ghost predicate RespectsBudget(req: Request, evaluator: Snapshot -> Spec, cap: Id -> Money) {
    forall s :: evaluator(s).allowed && evaluator(s).reserve ==>
      s.spent + s.reserved + req.estimate <= cap(req.run) + SLACK
  }

  /** Every approval leaves its run within the cap, whatever happened before. */
  lemma ApprovalWithinBudget(db: Db, req: Request, evaluator: Snapshot -> Spec, now: Time,
                             cap: Id -> Money)
    requires RespectsBudget(req, evaluator, cap)
    requires DecideAndReserve(db, req, evaluator, now).0.nextId != db.nextId
    ensures Exposure(DecideAndReserve(db, req, evaluator, now).0, req.run) <= cap(req.run) + SLACK
  {
    var swept := Sweep(db, now);
    SumAppend(ReservedIn(req.run), swept.reservations, Granted(req, db.nextId, now));
  }

  lemma SweepExposure(db: Db, now: Time, run: Id)
    ensures Exposure(Sweep(db, now), run) <= Exposure(db, run)
  {
    OldRowsOnlyRelease(db, OpSweep(now), run, None);
    assert Sweep(db, now).reservations[..|db.reservations|] == Sweep(db, now).reservations;
  }

  lemma DecideExposure(db: Db, req: Request, evaluator: Snapshot -> Spec, now: Time,
                       cap: Id -> Money, run: Id)
    requires RespectsBudget(req, evaluator, cap) && Exposure(db, run) <= cap(run) + SLACK
    ensures Exposure(DecideAndReserve(db, req, evaluator, now).0, run) <= cap(run) + SLACK
  {
    var swept := Sweep(db, now);
    DecideShape(db, req, evaluator, now);
    SweepExposure(db, now, run);
    SumAppend(ReservedIn(run), swept.reservations, Granted(req, db.nextId, now));
  }

  /** The estimate an event takes off the reserved total. */
  function Released(db: Db, e: Event): Money {
    match FindCorrelation(db.reservations, e.run, e.correlation)
    case None => 0.0
    case Some(i) =>
      var r := db.reservations[i];
      if Reserves(r.state) && !Reserves(Moved(r, e.kind).state) then r.estimate else 0.0
  }

  function Charged(e: Event): Money { if e.cost.Some? then e.cost.value else 0.0 }

  predicate IsNew(db: Db, e: Event, now: Time) {
    e.run in db.generations && (e.run, e.id) !in db.events && Deliver(db, e, now).Some?
  }

  lemma DeliverReserved(db: Db, e: Event, now: Time, run: Id)
    requires Deliver(db, e, now).Some?
    ensures ReservedUsd(Deliver(db, e, now).value.reservations, run)
         == ReservedUsd(db.reservations, run) - if run == e.run then Released(db, e) else 0.0
  {
    match FindCorrelation(db.reservations, e.run, e.correlation)
    case None => SumAppend(ReservedIn(run), db.reservations, Orphan(e, db.nextId, now));
    case Some(i) => SumUpdate(ReservedIn(run), db.reservations, i, Moved(db.reservations[i], e.kind));
  }

  /** Exactly what one event does to the exposure of each run. */
  lemma LifecycleExposure(db: Db, e: Event, now: Time, run: Id)
    ensures Exposure(RecordLifecycle(db, e, now).0, run)
         == Exposure(db, run)
            + if run == e.run && IsNew(db, e, now) then Charged(e) - Released(db, e) else 0.0
  {
    if IsNew(db, e, now) {
      var moved := Deliver(db, e, now).value;
      DeliverReserved(db, e, now, run);
      if e.cost.Some? {
        SumAppend(SpentIn(run), db.costs,
                  CostRow(e.run, e.id, e.correlation, e.cost.value, e.estimated == Some(true)));
      }
    }
  }

  /**
   * The discipline that keeps a run in budget: money arrives only on cost events, for a
   * reservation still holding its estimate, and never more than that estimate.
   */
  predicate Disciplined(db: Db, e: Event) {
    e.cost.Some? && (e.run, e.id) !in db.events ==>
      && e.kind == Cost
      && match FindCorrelation(db.reservations, e.run, e.correlation)
         case None => e.cost.value == 0.0
         case Some(i) => Reserves(db.reservations[i].state) && e.cost.value <= db.reservations[i].estimate
  }

  lemma DisciplinedNeverGrows(db: Db, e: Event)
    requires Disciplined(db, e) && (e.run, e.id) !in db.events
    ensures Charged(e) <= Released(db, e)
  {}

  ghost predicate WithinBudget(db: Db, cap: Id -> Money) {
    forall run :: Exposure(db, run) <= cap(run) + SLACK
  }

  lemma ResolveExposure(db: Db, run: Id, id: nat, outcome: Outcome, of: Id)
    ensures Exposure(ResolveRecovery(db, run, id, outcome).0, of) <= Exposure(db, of)
  {
    var op := OpResolve(run, id, outcome);
    OldRowsOnlyRelease(db, op, of, None);
    assert Step(db, op).reservations[..|db.reservations|] == Step(db, op).reservations;
  }

  lemma PurgeExposure(db: Db, gone: Id, run: Id)
    ensures Exposure(Purge(db, gone), run) == if run == gone then 0.0 else Exposure(db, run)
  {
    var rp := (r: Reservation) => r.run != gone;
    var cp := (c: CostRow) => c.run != gone;
    if run == gone {
      SumZero(ReservedIn(run), Filter(rp, db.reservations));
      SumZero(SpentIn(run), Filter(cp, db.costs));
    } else {
      SumFilter(ReservedIn(run), rp, db.reservations);
      SumFilter(SpentIn(run), cp, db.costs);
    }
  }

  lemma StepWithinBudget(db: Db, op: Op, cap: Id -> Money)
    requires WithinBudget(db, cap)
    requires op.OpDecide? ==> RespectsBudget(op.req, op.evaluator, cap)
    requires op.OpLifecycle? ==> Disciplined(db, op.event)
    ensures WithinBudget(Step(db, op), cap)
  {
    forall run
      ensures Exposure(Step(db, op), run) <= cap(run) + SLACK
    {
      assert Exposure(db, run) <= cap(run) + SLACK;
      match op
      case OpDecide(req, evaluator, now) => DecideExposure(db, req, evaluator, now, cap, run);
      case OpLifecycle(e, now) =>
        LifecycleExposure(db, e, now, run);
        if IsNew(db, e, now) { DisciplinedNeverGrows(db, e); }
      case OpSweep(now) => SweepExposure(db, now, run);
      case OpResolve(r, id, outcome) => ResolveExposure(db, r, id, outcome, run);
      case OpDelete(gone, now) => PurgeExposure(db, gone, run);
      case _ =>
    }
  }

  ghost predicate AllDisciplined(db: Db, ops: seq<Op>)
    decreases |ops|
  {
    ops == [] ||
    ((ops[0].OpLifecycle? ==> Disciplined(db, ops[0].event)) && AllDisciplined(Step(db, ops[0]), ops[1..]))
  }

  /** Budget safety: with disciplined costs, spent plus reserved stays within the cap throughout. */
  lemma {:induction false} RunWithinBudget(db: Db, ops: seq<Op>, cap: Id -> Money)
    requires WithinBudget(db, cap) && AllDisciplined(db, ops)
    requires forall op :: op in ops && op.OpDecide? ==> RespectsBudget(op.req, op.evaluator, cap)
    ensures WithinBudget(Run(db, ops), cap)
    decreases |ops|
  {
    if ops != [] {
      assert ops[0] in ops;
      StepWithinBudget(db, ops[0], cap);
      RunWithinBudget(Step(db, ops[0]), ops[1..], cap);
    }
  }

  /**
   * One event takes a run over its budget exactly when it charges more than the room
   * left plus the estimate it frees.
   */
  lemma OverBudgetExactly(db: Db, e: Event, now: Time, cap: Id -> Money)
    requires IsNew(db, e, now)
    ensures Exposure(RecordLifecycle(db, e, now).0, e.run) > cap(e.run) + SLACK
       <==> Charged(e) > Released(db, e) + (cap(e.run) + SLACK - Exposure(db, e.run))
  {
    LifecycleExposure(db, e, now, e.run);
  }

  // ---- A history that breaks the cap -------------------------------------------------

  const ONE_DOLLAR: Id -> Money := (_: Id) => 1.0

  /** Admits whatever fits in one dollar. */
  function FrugalEvaluator(): Snapshot -> Spec {
    (s: Snapshot) => Spec(s.spent + s.reserved + 1.0 <= 1.0, "ALLOW", None, false, true)
  }

  function Ask(task: Id, ttl: Time): Request {
    Request("run", task, Some(task), task, "spawn", "tier", "model", 1.0, ttl, 1, None)
  }

  const LATE_COST := Event("late", "run", "one", Cost, None, 0.0, None, Some(1.0), None)

  /** The first task expires unused, a second takes its place, and then the first one's bill arrives. */
  function LateCostHistory(): seq<Op> {
    [ OpCreate("run", 1, 100, 0.0),
      OpDecide(Ask("one", 1.0), FrugalEvaluator(), 0.0),
      OpDecide(Ask("two", 50.0), FrugalEvaluator(), 2.0),
      OpLifecycle(LATE_COST, 3.0) ]
  }

  function LateRow(): Reservation {
    Granted(Ask("one", 1.0), 0, 0.0).(state := Expired)
  }

  function LateState(): Db {
    Db(map["run" := 1], map["run" := 100.0],
       [LateRow(), Granted(Ask("two", 50.0), 1, 2.0)],
       [Decision("run", "one", Some(0), true, "ALLOW", None, 1.0, false),
        Decision("run", "two", Some(1), true, "ALLOW", None, 1.0, false)],
       map[], [], map[], 2)
  }

  function OpenedState(): Db {
    EMPTY.(generations := map["run" := 1], leases := map["run" := 100.0])
  }

  function FirstState(): Db {
    OpenedState().(reservations := [Granted(Ask("one", 1.0), 0, 0.0)],
                   decisions := [Decision("run", "one", Some(0), true, "ALLOW", None, 1.0, false)], nextId := 1)
  }

  lemma FirstApproval()
    ensures Step(OpenedState(), LateCostHistory()[1]) == FirstState()
  {
    var s := OpenedState();
    assert Sweep(s, 0.0) == s;
    assert TakeSnapshot(s, "run").reserved == 0.0 && TakeSnapshot(s, "run").spent == 0.0;
  }

  lemma FirstExpired()
    ensures Sweep(FirstState(), 2.0) == FirstState().(reservations := [LateRow()])
    ensures TakeSnapshot(Sweep(FirstState(), 2.0), "run").reserved == 0.0
    ensures TakeSnapshot(Sweep(FirstState(), 2.0), "run").spent == 0.0
  {
    var swept := Sweep(FirstState(), 2.0);
    assert swept.reservations == [LateRow()];
    assert ReservedUsd(swept.reservations, "run") == 0.0 + Sum(ReservedIn("run"), swept.reservations[1..]);
  }

  lemma SecondJudged(db: Db)
    requires db == FirstState().(reservations := [LateRow()])
    requires TakeSnapshot(db, "run").reserved == 0.0 && TakeSnapshot(db, "run").spent == 0.0
    ensures Judge(db, Ask("two", 50.0), FrugalEvaluator(), 2.0) == Spec(true, "ALLOW", None, false, true)
  {}

  /** An approval step whose sweep and verdict are known. */
  lemma Enacted(db: Db, req: Request, evaluator: Snapshot -> Spec, now: Time, swept: Db, spec: Spec)
    requires swept == Sweep(db, now) && req.run in db.generations
    requires FindDecision(swept.decisions, req.run, req.key).None? && Judge(swept, req, evaluator, now) == spec
    ensures Step(db, OpDecide(req, evaluator, now)) == Enact(swept, req, spec, now).0
  {}

  lemma SecondApproval()
    ensures Step(FirstState(), LateCostHistory()[2]) == LateState()
  {
    var req, spec := Ask("two", 50.0), Spec(true, "ALLOW", None, false, true);
    var swept := FirstState().(reservations := [LateRow()]);
    FirstExpired();
    SecondJudged(swept);
    Enacted(FirstState(), req, FrugalEvaluator(), 2.0, swept, spec);
    SecondEnacted(swept, req, spec);
  }

  lemma SecondEnacted(swept: Db, req: Request, spec: Spec)
    requires req == Ask("two", 50.0) && spec == Spec(true, "ALLOW", None, false, true)
    requires swept == FirstState().(reservations := [LateRow()])
    ensures Enact(swept, req, spec, 2.0).0 == LateState()
  {}

  lemma LateCostPrefix()
    ensures Run(EMPTY, LateCostHistory()[..3]) == LateState()
  {
    var ops := LateCostHistory();
    FirstApproval();
    SecondApproval();
    assert ops[..3] == [ops[0], ops[1], ops[2]];
    calc {
      Run(EMPTY, ops[..3]);
      { assert ops[..3][1..] == [ops[1], ops[2]]; assert Step(EMPTY, ops[0]) == OpenedState(); }
      Run(OpenedState(), [ops[1], ops[2]]);
      { assert [ops[1], ops[2]][1..] == [ops[2]]; }
      Run(FirstState(), [ops[2]]);
      Run(LateState(), [ops[2]][1..]);
      LateState();
    }
  }

  /**
   * A cost that arrives after its reservation was released can break the cap, even when it
   * is no more than the estimate and every approval kept to the budget.
   */
  lemma LateCostBreaksBudget()
    ensures RespectsBudget(Ask("one", 1.0), FrugalEvaluator(), ONE_DOLLAR)
    ensures RespectsBudget(Ask("two", 50.0), FrugalEvaluator(), ONE_DOLLAR)
    ensures Exposure(Run(EMPTY, LateCostHistory()[..3]), "run") == 1.0
    ensures Exposure(Run(EMPTY, LateCostHistory()), "run") == 2.0
    ensures !WithinBudget(Run(EMPTY, LateCostHistory()), ONE_DOLLAR)
  {
    LateCostPrefix();
    LateExposure();
    LateCostLast();
  }

  lemma LateReserved()
    ensures ReservedUsd(LateState().reservations, "run") == 1.0 && SpentUsd(LateState().costs, "run") == 0.0
  {
    var rows := LateState().reservations;
    assert rows[1..] == [Granted(Ask("two", 50.0), 1, 2.0)];
    assert ReservedUsd(rows, "run") == 0.0 + Sum(ReservedIn("run"), rows[1..]);
  }

  lemma LateIsNew()
    ensures IsNew(LateState(), LATE_COST, 3.0)
    ensures Released(LateState(), LATE_COST) == 0.0
  {
    assert FindCorrelation(LateState().reservations, "run", "one") == Some(0);
  }

  lemma BillAddsUp(db: Db, before: Money)
    requires Exposure(db, "run") == before && IsNew(db, LATE_COST, 3.0) && Released(db, LATE_COST) == 0.0
    ensures Exposure(Step(db, OpLifecycle(LATE_COST, 3.0)), "run") == before + 1.0
  {
    LifecycleExposure(db, LATE_COST, 3.0, "run");
  }

  lemma LateExposure()
    ensures Exposure(LateState(), "run") == 1.0
    ensures Exposure(Step(LateState(), LateCostHistory()[3]), "run") == 2.0
  {
    LateReserved();
    LateIsNew();
    BillAddsUp(LateState(), 1.0);
    assert LateCostHistory()[3] == OpLifecycle(LATE_COST, 3.0);
  }

  lemma LateCostLast()
    ensures Run(EMPTY, LateCostHistory()) == Step(Run(EMPTY, LateCostHistory()[..3]), LateCostHistory()[3])
  {
    var ops := LateCostHistory();
    RunLast(EMPTY, ops[..3], ops[3]);
    assert ops == ops[..3] + [ops[3]];
  }

  lemma RunLast(db: Db, ops: seq<Op>, op: Op)
    ensures Run(db, ops + [op]) == Step(Run(db, ops), op)
  {
    RunConcat(db, ops, [op]);
    assert Run(Run(db, ops), [op]) == Run(Step(Run(db, ops), op), [op][1..]);
  }

  lemma {:induction false} RunConcat(db: Db, a: seq<Op>, b: seq<Op>)
    ensures Run(db, a + b) == Run(Run(db, a), b)
    decreases |a|
  {
    if a == [] {
      assert a + b == b;
    } else {
      assert (a + b)[1..] == a[1..] + b;
      RunConcat(Step(db, a[0]), a[1..], b);
    }
  }
}
