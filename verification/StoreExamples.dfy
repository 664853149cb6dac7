/** Histories the store accepts in which an event is refused for good, and in which a tier's name hides orphans. */
module StoreExamples {
  import opened Wrappers
  import opened Sums
  import opened Ledger
  import opened LedgerRetries

  function Granting(): Snapshot -> Spec { (s: Snapshot) => Spec(true, "ALLOW", None, false, true) }

  function Ask(task: Id, correlation: Id, tier: Id): Request {
    Request("run", task, Some(correlation), "key", "spawn", tier, "model", 1.0, 50.0, 1, None)
  }

  function Began(correlation: Id): Event {
    Event("event", "run", correlation, Start, None, 1.0, None, None, None)
  }

  const OPENED: Db := EMPTY.(generations := map["run" := 1], leases := map["run" := 100.0])

  /** A run with one approval. */
  function History(req: Request): seq<Op> {
    [OpCreate("run", 1, 100, 0.0), OpDecide(req, Granting(), 0.0)]
  }

  function AfterApproval(req: Request): Db {
    OPENED.(reservations := [Granted(req, 0, 0.0)],
            decisions := [Decision("run", req.key, Some(0), true, "ALLOW", None, req.estimate, false)],
            nextId := 1)
  }

  lemma Approval(req: Request)
    requires req.run == "run" && req.generation == 1
    ensures Run(EMPTY, History(req)) == AfterApproval(req)
  {
    assert Sweep(OPENED, 0.0) == OPENED;
    assert Step(EMPTY, History(req)[0]) == OPENED;
    assert Step(OPENED, History(req)[1]) == AfterApproval(req);
    assert History(req)[1..][1..] == [];
    assert Run(AfterApproval(req), []) == AfterApproval(req);
    assert Run(OPENED, History(req)[1..]) == AfterApproval(req);
  }

  /** One task is approved under another correlation id; an event for a correlation of the task's name is lost. */
  lemma RefusedForGood()
    ensures var db := Run(EMPTY, History(Ask("x", "y", "tier")));
            RecordLifecycle(db, Began("x"), 1.0) == (db, Err(UniqueViolation))
  {
    var db := AfterApproval(Ask("x", "y", "tier"));
    Approval(Ask("x", "y", "tier"));
    assert db.reservations[0].task == "x";
    RefusedExactly(db, Began("x"), 1.0);
  }

  lemma TwoRows(a: Reservation, b: Reservation, p: Reservation -> bool)
    ensures Count(p, [a, b]) == (if p(a) then 1 else 0) + (if p(b) then 1 else 0)
  {
    CountAppend(p, [a], b);
    CountAppend(p, [], a);
    assert [] + [a] == [a] && [a] + [b] == [a, b];
  }

  /** Two active rows, one of a tier named "None" and one without a tier. */
  lemma BothActive(db: Db, a: Reservation, b: Reservation)
    requires db.reservations == [a, b] && a.run == b.run == "run" && Occupies(a.state) && Occupies(b.state)
    requires a.tier == Some("None") && b.tier == None
    ensures ActiveCount(db.reservations, "run", Some("None")) == ActiveCount(db.reservations, "run", None) == 1
    ensures TakeSnapshot(db, "run").activeByTier == map["None" := 1]
  {
    TwoRows(a, b, ActiveIn("run", Some("None")));
    TwoRows(a, b, ActiveIn("run", None));
    assert a in db.reservations && TierKey(a.tier) == TierKey(b.tier) == "None";
  }

  lemma Adopted(db: Db)
    requires db == AfterApproval(Ask("t", "t", "None"))
    ensures Step(db, OpLifecycle(Began("z"), 1.0)).reservations == db.reservations + [Orphan(Began("z"), 1, 1.0)]
  {
    assert FindCorrelation(db.reservations, "run", "z").None? && !TaskTaken(db.reservations, "run", "z");
  }

  /** Under a tier named "None" the snapshot shows one active reservation where there are two, one of them an orphan. */
  lemma OrphanHidden()
    ensures var db := Step(Run(EMPTY, History(Ask("t", "t", "None"))), OpLifecycle(Began("z"), 1.0));
            && ActiveCount(db.reservations, "run", Some("None")) == ActiveCount(db.reservations, "run", None) == 1
            && TakeSnapshot(db, "run").activeByTier == map["None" := 1]
  {
    var req := Ask("t", "t", "None");
    Approval(req);
    Adopted(AfterApproval(req));
    BothActive(Step(AfterApproval(req), OpLifecycle(Began("z"), 1.0)), Granted(req, 0, 0.0),
               Orphan(Began("z"), 1, 1.0));
  }
}
