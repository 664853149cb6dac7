/**
 * The usage and cost tables, told by the events: which keys are there, which report a
 * row was taken from, and that every cost that was reported is billed, as it was reported.
 */
module LedgerUsage {
  import opened Wrappers
  import opened Sums
  import opened Ledger
  import opened LedgerInvariant
  import opened LedgerRows

  /** A run, a source of usage in it, and the parser that read it. */
  type Key = (Id, Id, string)

  /** The event reports usage under this key. */
  predicate Reports(e: Event, k: Key) {
    e.run == k.0 && e.usage.Some? && e.usage.value.source == k.1 && e.usage.value.parser == k.2
  }

  /** The transaction accepts an event that reports usage under this key. */
  predicate Brings(db: Db, op: Op, k: Key) {
    op.OpLifecycle? && Accepted(db, op.event, op.now) && Reports(op.event, k)
  }

  predicate Deletes(db: Db, op: Op, run: Id) {
    op.OpDelete? && op.run == run && run in db.generations && !Leased(db, run, op.now)
  }

  // ---- One transaction ------------------------------------------------------------------

  lemma AccountAfter(db: Db, e: Event, now: Time, k: Key)
    ensures var after := RecordLifecycle(db, e, now).0;
            && (k in after.usage <==> k in db.usage || (Accepted(db, e, now) && Reports(e, k)))
            && (k in db.usage ==> after.usage[k] == db.usage[k])
            && (k !in db.usage && Accepted(db, e, now) && Reports(e, k) ==> after.usage[k] == e.usage.value)
  {
    if Accepted(db, e, now) {
      AcceptedWrites(db, e, now);
    } else if (e.run, e.id) !in db.events && e.run in db.generations {
      if Deliver(db, e, now).Some? {
        var after := RecordLifecycle(db, e, now).0;
        match FindCorrelation(db.reservations, e.run, e.correlation)
        case Some(i) => assert HasCorrelation(after.reservations[i], e.run, e.correlation);
        case None => assert HasCorrelation(after.reservations[|db.reservations|], e.run, e.correlation);
      }
    }
  }

  /** A key, once there, keeps its value until its run is deleted; a first report brings it. */
  lemma UsageAfter(db: Db, op: Op, k: Key)
    ensures var after := Step(db, op);
            && (k in after.usage <==> !Deletes(db, op, k.0) && (k in db.usage || Brings(db, op, k)))
            && (k in db.usage && k in after.usage ==> after.usage[k] == db.usage[k])
            && (k !in db.usage && k in after.usage ==> after.usage[k] == op.event.usage.value)
  {
    if op.OpLifecycle? { AccountAfter(db, op.event, op.now, k); }
  }

  // ---- Histories ------------------------------------------------------------------------

  ghost predicate BroughtAt(ops: seq<Op>, n: nat, k: Key) { n < |ops| && Brings(At(ops, n), ops[n], k) }

  /** Nothing from n on and before m deletes the run. */
  ghost predicate StandsBetween(ops: seq<Op>, n: nat, m: nat, run: Id)
    requires m <= |ops|
  {
    forall j: nat :: n <= j < m ==> !Deletes(At(ops, j), ops[j], run)
  }

  /** A report under this key that has not been deleted since. */
  ghost predicate Standing(ops: seq<Op>, n: nat, m: nat, k: Key)
    requires m <= |ops|
  {
    n < m && BroughtAt(ops, n, k) && StandsBetween(ops, n, m, k.0)
  }

  /** The first one there is. */
  ghost predicate FirstReport(ops: seq<Op>, n: nat, m: nat, k: Key)
    requires m <= |ops|
  {
    Standing(ops, n, m, k) && forall j: nat :: j < n ==> !Standing(ops, j, n, k)
  }

  /** What stands after one more transaction: what stood, unless that deletes the run, and what it brings. */
  lemma StandsNext(ops: seq<Op>, n: nat, m: nat, k: Key)
    requires m < |ops|
    ensures Standing(ops, n, m + 1, k) <==>
              !Deletes(At(ops, m), ops[m], k.0) && (Standing(ops, n, m, k) || (n == m && BroughtAt(ops, m, k)))
  {}

  ghost predicate SomeStanding(ops: seq<Op>, m: nat, k: Key)
    requires m <= |ops|
  {
    exists n: nat :: Standing(ops, n, m, k)
  }

  lemma SomeStandingNext(ops: seq<Op>, m: nat, k: Key)
    requires m < |ops|
    ensures SomeStanding(ops, m + 1, k) <==>
              !Deletes(At(ops, m), ops[m], k.0) && (SomeStanding(ops, m, k) || BroughtAt(ops, m, k))
  {
    if SomeStanding(ops, m + 1, k) {
      var n: nat :| Standing(ops, n, m + 1, k);
      StandsNext(ops, n, m, k);
    }
    if n: nat :| Standing(ops, n, m, k) { StandsNext(ops, n, m, k); }
    StandsNext(ops, m, m, k);
  }

  lemma {:induction false} KnownExactly(ops: seq<Op>, m: nat, k: Key)
    requires m <= |ops|
    ensures k in At(ops, m).usage <==> SomeStanding(ops, m, k)
  {
    if m > 0 {
      KnownExactly(ops, m - 1, k);
      NextAt(ops, m - 1);
      UsageAfter(At(ops, m - 1), ops[m - 1], k);
      SomeStandingNext(ops, m - 1, k);
    }
  }

  lemma BroughtFirst(ops: seq<Op>, n: nat, k: Key)
    requires n < |ops| && BroughtAt(ops, n, k) && forall j: nat :: j < n ==> !Standing(ops, j, n, k)
    ensures k in At(ops, n + 1).usage && At(ops, n + 1).usage[k] == ops[n].event.usage.value
  {
    KnownExactly(ops, n, k);
    NextAt(ops, n);
    UsageAfter(At(ops, n), ops[n], k);
  }

  lemma KeptOn(ops: seq<Op>, n: nat, k: Key)
    requires n < |ops| && k in At(ops, n).usage && !Deletes(At(ops, n), ops[n], k.0)
    ensures k in At(ops, n + 1).usage && At(ops, n + 1).usage[k] == At(ops, n).usage[k]
  {
    NextAt(ops, n);
    UsageAfter(At(ops, n), ops[n], k);
  }

  lemma {:induction false} ValueOfFirst(ops: seq<Op>, n: nat, m: nat, k: Key)
    requires m <= |ops| && FirstReport(ops, n, m, k)
    ensures k in At(ops, m).usage && At(ops, m).usage[k] == ops[n].event.usage.value
  {
    if n == m - 1 {
      BroughtFirst(ops, n, k);
    } else {
      StandsNext(ops, n, m - 1, k);
      ValueOfFirst(ops, n, m - 1, k);
      KeptOn(ops, m - 1, k);
    }
  }

  lemma {:induction false} SomeFirst(ops: seq<Op>, n: nat, m: nat, k: Key)
    requires m <= |ops| && Standing(ops, n, m, k)
    ensures exists j: nat :: FirstReport(ops, j, m, k)
  {
    if j: nat :| j < n && Standing(ops, j, n, k) {
      assert Standing(ops, j, m, k);
      SomeFirst(ops, j, m, k);
    } else {
      assert FirstReport(ops, n, m, k);
    }
  }

  /**
   * In every state a history passes through, a key is in the usage table exactly when a
   * report under it has been accepted and its run not deleted since; and its value is what
   * the first such report says, whatever later ones say.
   */
  lemma UsageIsFirstReport(ops: seq<Op>, m: nat, k: Key)
    requires m <= |ops|
    ensures k in At(ops, m).usage <==> exists n: nat :: FirstReport(ops, n, m, k)
    ensures forall n: nat :: FirstReport(ops, n, m, k) ==> At(ops, m).usage[k] == ops[n].event.usage.value
  {
    KnownExactly(ops, m, k);
    if SomeStanding(ops, m, k) {
      var n: nat :| Standing(ops, n, m, k);
      SomeFirst(ops, n, m, k);
    }
    forall n: nat | FirstReport(ops, n, m, k)
      ensures k in At(ops, m).usage && At(ops, m).usage[k] == ops[n].event.usage.value
    {
      ValueOfFirst(ops, n, m, k);
    }
  }

  // ---- The tables and the events ------------------------------------------------------------

  ghost predicate ReportedIn(db: Db, k: Key) { exists x :: x in db.events && Reports(db.events[x], k) }

  ghost predicate UsageTold(db: Db) {
    && (forall x, k :: x in db.events && Reports(db.events[x], k) ==> k in db.usage)
    && (forall k :: k in db.usage ==>
          exists x :: x in db.events && Reports(db.events[x], k) && db.events[x].usage.value == db.usage[k])
  }

  /** The cost row an event leaves. */
  predicate Bills(c: CostRow, e: Event) {
    && c.run == e.run && c.event == e.id && c.correlation == e.correlation && e.cost == Some(c.usd)
    && (c.estimated <==> e.estimated == Some(true))
  }

  ghost predicate CostsTold(db: Db) {
    && (forall c :: c in db.costs ==> (c.run, c.event) in db.events && Bills(c, db.events[(c.run, c.event)]))
    && (forall x :: x in db.events && db.events[x].cost.Some? ==> Billed(db.costs, db.events[x]))
  }

  ghost predicate Billed(costs: seq<CostRow>, e: Event) { exists c :: c in costs && Bills(c, e) }

  lemma AccountTells(db: Db, e: Event)
    requires (e.run, e.id) !in db.events && UsageTold(db) && CostsTold(db)
    ensures UsageTold(Account(db, e)) && CostsTold(Account(db, e))
  {
    var after := Account(db, e);
    UsageAccounted(db, e);
    forall x | x in after.events && after.events[x].cost.Some? ensures Billed(after.costs, after.events[x]) {
      if x == (e.run, e.id) {
        assert Bills(after.costs[|db.costs|], e);
      } else {
        var c :| c in db.costs && Bills(c, db.events[x]);
        assert c in after.costs;
      }
    }
  }

  lemma UsageAccounted(db: Db, e: Event)
    requires (e.run, e.id) !in db.events && UsageTold(db)
    ensures UsageTold(Account(db, e))
  {
    var after := Account(db, e);
    forall k | k in after.usage
      ensures exists x :: && x in after.events && Reports(after.events[x], k)
                          && after.events[x].usage.value == after.usage[k]
    {
      if k in db.usage {
        var x :| x in db.events && Reports(db.events[x], k) && db.events[x].usage.value == db.usage[k];
        assert after.events[x] == db.events[x];
      } else {
        assert after.events[(e.run, e.id)] == e;
      }
    }
  }

  lemma DeletionTells(db: Db, run: Id, now: Time, after: Db)
    requires Tables(db) && UsageTold(db) && CostsTold(db) && DeleteRun(db, run, now) == (after, Ok(()))
    ensures UsageTold(after) && CostsTold(after)
  {
    DeletionTakes(db, run, now, after);
    forall k | k in after.usage
      ensures exists x :: && x in after.events && Reports(after.events[x], k)
                          && after.events[x].usage.value == after.usage[k]
    {
      var x :| x in db.events && Reports(db.events[x], k) && db.events[x].usage.value == db.usage[k];
      assert EventSound(db, x) && x in after.events;
    }
    forall x, k | x in after.events && Reports(after.events[x], k) ensures k in after.usage {
      assert EventSound(db, x);
    }
    forall x | x in after.events && after.events[x].cost.Some? ensures Billed(after.costs, after.events[x]) {
      assert EventSound(db, x);
      var c :| c in db.costs && Bills(c, db.events[x]);
      assert c in after.costs;
    }
  }

  lemma StepTells(db: Db, op: Op)
    requires Tables(db) && UsageTold(db) && CostsTold(db)
    ensures UsageTold(Step(db, op)) && CostsTold(Step(db, op))
  {
    match op
    case OpLifecycle(e, now) => LifecycleTells(db, e, now);
    case OpDelete(run, now) => if Deletes(db, op, run) { DeletionTells(db, run, now, Step(db, op)); }
    case _ =>
      OtherTables(db, op);
      SameTablesTell(db, Step(db, op));
  }

  lemma OtherTables(db: Db, op: Op)
    requires !op.OpLifecycle? && !op.OpDelete?
    ensures Step(db, op).events == db.events && Step(db, op).usage == db.usage && Step(db, op).costs == db.costs
  {}

  lemma SameTablesTell(a: Db, b: Db)
    requires a.events == b.events && a.usage == b.usage && a.costs == b.costs && UsageTold(a) && CostsTold(a)
    ensures UsageTold(b) && CostsTold(b)
  {}

  lemma LifecycleTells(db: Db, e: Event, now: Time)
    requires UsageTold(db) && CostsTold(db)
    ensures UsageTold(RecordLifecycle(db, e, now).0) && CostsTold(RecordLifecycle(db, e, now).0)
  {
    if e.run in db.generations && (e.run, e.id) !in db.events && Deliver(db, e, now).Some? {
      SameTablesTell(db, Deliver(db, e, now).value);
      AccountTells(Deliver(db, e, now).value, e);
    }
  }

  lemma {:induction false} TablesTold(ops: seq<Op>, m: nat)
    requires m <= |ops|
    ensures UsageTold(At(ops, m)) && CostsTold(At(ops, m))
  {
    if m > 0 {
      TablesTold(ops, m - 1);
      ToldNext(ops, m - 1);
    }
  }

  lemma ToldNext(ops: seq<Op>, m: nat)
    requires m < |ops| && UsageTold(At(ops, m)) && CostsTold(At(ops, m))
    ensures UsageTold(At(ops, m + 1)) && CostsTold(At(ops, m + 1))
  {
    ValidAt(ops, m);
    NextAt(ops, m);
    StepTells(At(ops, m), ops[m]);
  }

  /**
   * In every reachable state, usage is known under a key exactly when some recorded event
   * of the run reports it; and each recorded cost has been billed, once, as it was reported,
   * and nothing else has.
   */
  lemma TablesTellEvents(ops: seq<Op>)
    ensures var db := Run(EMPTY, ops);
            && (forall k :: k in db.usage <==> ReportedIn(db, k))
            && CostsTold(db)
            && forall x :: x in db.events && db.events[x].cost.Some? ==> Count(BilledFor(x), db.costs) == 1
  {
    assert ops[..|ops|] == ops;
    TablesTold(ops, |ops|);
    ValidAt(ops, |ops|);
    var db := Run(EMPTY, ops);
    forall k | k in db.usage ensures ReportedIn(db, k) {}
    forall x | x in db.events && db.events[x].cost.Some? ensures Count(BilledFor(x), db.costs) == 1 {
      assert EventSound(db, x);
      var c :| c in db.costs && Bills(c, db.events[x]);
      BilledOnce(db.costs, c);
    }
  }

  function BilledFor(x: (Id, Id)): CostRow -> bool { (c: CostRow) => (c.run, c.event) == x }

  lemma {:induction false} BilledOnce(costs: seq<CostRow>, c: CostRow)
    requires Pairwise(CostsApart(), costs) && c in costs
    ensures Count(BilledFor((c.run, c.event)), costs) == 1
  {
    if c == costs[0] {
      forall d | d in costs[1..] ensures !BilledFor((c.run, c.event))(d) {
        var j :| 0 <= j < |costs[1..]| && costs[1..][j] == d;
        assert CostsApart()(costs[0], costs[j + 1]);
      }
      CountZero(BilledFor((c.run, c.event)), costs[1..]);
    } else {
      var j :| 0 <= j < |costs| && costs[j] == c;
      assert CostsApart()(costs[0], costs[j]);
      assert Pairwise(CostsApart(), costs[1..]) by {
        forall a, b | 0 <= a < b < |costs[1..]| ensures CostsApart()(costs[1..][a], costs[1..][b]) {
          assert CostsApart()(costs[a + 1], costs[b + 1]);
        }
      }
      BilledOnce(costs[1..], c);
    }
  }
}
