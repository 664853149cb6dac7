/** A history after which the report counts one routed decision as two. */
module SavingsExample {
  import opened Wrappers
  import opened Sums
  import opened Ledger
  import opened LedgerReport

  function Routing(): Snapshot -> Spec {
    (s: Snapshot) => Spec(true, "ROUTE", Some("model"), true, true)
  }

  const ASK := Request("run", "task", Some("task"), "key", "spawn", "tier", "model", 1.0, 50.0, 1, None)

  const STOP := Event("first", "run", "task", Stop, None, 0.0, None, Some(1.0), None)

  const COST := Event("second", "run", "task", Cost, None, 0.0, None, Some(1.0), None)

  const ROW := Granted(ASK, 0, 0.0)

  const VERDICT := Decision("run", "key", Some(0), true, "ROUTE", Some("model"), 1.0, true)

  const OPENED: Db := EMPTY.(generations := map["run" := 1], leases := map["run" := 100.0])

  const APPROVED: Db := OPENED.(reservations := [ROW], decisions := [VERDICT], nextId := 1)

  const STOPPED: Db := APPROVED.(reservations := [Moved(ROW, Stop)], events := map[("run", "first") := STOP],
                                 costs := [CostRow("run", "first", "task", 1.0, false)])

  const BILLED: Db := STOPPED.(reservations := [Moved(Moved(ROW, Stop), Cost)],
                               events := STOPPED.events[("run", "second") := COST],
                               costs := STOPPED.costs + [CostRow("run", "second", "task", 1.0, false)])

  /** One approval, a stop that reports its cost, and another event that does so too. */
  const HISTORY: seq<Op> := [
    OpCreate("run", 1, 100, 0.0), OpDecide(ASK, Routing(), 0.0), OpLifecycle(STOP, 1.0), OpLifecycle(COST, 2.0)]

  lemma Approval()
    ensures Step(OPENED, HISTORY[1]) == APPROVED
  {
    assert Sweep(OPENED, 0.0) == OPENED;
  }

  lemma Stopping()
    ensures Step(APPROVED, HISTORY[2]) == STOPPED
  {
    assert FindCorrelation(APPROVED.reservations, "run", "task") == Some(0);
  }

  lemma Billing()
    ensures Step(STOPPED, HISTORY[3]) == BILLED
  {
    assert FindCorrelation(STOPPED.reservations, "run", "task") == Some(0);
    assert ("run", "second") !in STOPPED.events;
  }

  lemma Reached()
    ensures Run(EMPTY, HISTORY) == BILLED
  {
    Approval();
    Stopping();
    Billing();
    assert Step(EMPTY, HISTORY[0]) == OPENED;
    assert HISTORY[1..][1..] == HISTORY[2..] && HISTORY[2..][1..] == HISTORY[3..] && HISTORY[3..][1..] == [];
    assert Run(BILLED, []) == BILLED;
    assert Run(STOPPED, HISTORY[3..]) == Run(BILLED, []);
    assert Run(APPROVED, HISTORY[2..]) == Run(STOPPED, HISTORY[3..]);
    assert Run(OPENED, HISTORY[1..]) == Run(APPROVED, HISTORY[2..]);
  }

  /** One reservation, eligible once, with two bills: the savings count is not the number of eligible ones. */
  lemma SavingsOvercounted(names: seq<Id>)
    requires GroupsOf(names, Joined(Run(EMPTY, HISTORY), "run"))
    ensures var db := Run(EMPTY, HISTORY);
            |db.reservations| == 1
            && Sum(TierTotals(SavingsFlag(), Joined(db, "run")), names) != Sum(EligibleFlag(db, "run"), db.reservations)
  {
    Reached();
    var row := BILLED.reservations[0];
    assert VERDICT in BILLED.decisions && Eligible(BILLED, row);
    assert Filter(Pays(row), BILLED.costs[1..]) == [BILLED.costs[1]] by {
      assert BILLED.costs[1..] == [BILLED.costs[1]];
    }
    assert BillCount(BILLED, row) == 2;
    assert Overbilled(BILLED, "run", row);
    SavingsRightExactly(HISTORY, "run", names);
  }
}
