/**
 * What holds of the ledger in every state any interleaving of transactions can
 * reach: keys stay unique, every event and cost belongs to one reservation, and
 * a reservation's state is decided by which kinds of event have arrived for it,
 * never by their order.
 */
module LedgerInvariant {
  import opened Wrappers
  import opened Sums
  import opened Ledger

  function RowsApart(): (Reservation, Reservation) -> bool {
    (a: Reservation, b: Reservation) =>
      a.id != b.id
      && (a.run == b.run ==> a.task != b.task)
      && (a.run == b.run && a.correlation.Some? ==> a.correlation != b.correlation)
  }

  function DecisionsApart(): (Decision, Decision) -> bool {
    (a: Decision, b: Decision) =>
      (a.run == b.run ==> a.key != b.key)
      && (a.reservation.Some? ==> a.reservation != b.reservation)
  }

  function CostsApart(): (CostRow, CostRow) -> bool {
    (a: CostRow, b: CostRow) => a.run == b.run ==> a.event != b.event
  }

  ghost predicate HasRow(rows: seq<Reservation>, run: Id, correlation: Id) {
    exists i :: 0 <= i < |rows| && HasCorrelation(rows[i], run, correlation)
  }

  ghost predicate EventSound(db: Db, k: (Id, Id))
    requires k in db.events
  {
    var e := db.events[k];
    e.run == k.0 && e.id == k.1 && e.run in db.generations && HasRow(db.reservations, e.run, e.correlation)
  }

  ghost predicate CostSound(db: Db, c: CostRow) {
    (c.run, c.event) in db.events && db.events[(c.run, c.event)].correlation == c.correlation
  }

  /** Unique keys and references, table by table. */
  ghost predicate Tables(db: Db) {
    && Pairwise(RowsApart(), db.reservations)
    && Pairwise(DecisionsApart(), db.decisions)
    && Pairwise(CostsApart(), db.costs)
    && (forall r :: r in db.reservations ==> r.id < db.nextId && r.run in db.generations)
    && (forall d :: d in db.decisions ==>
          d.run in db.generations && (d.reservation.Some? ==> d.reservation.value < db.nextId))
    && (forall c :: c in db.costs ==> CostSound(db, c))
    && (forall k :: k in db.events ==> EventSound(db, k))
    && db.leases.Keys <= db.generations.Keys
  }

  predicate Dead(s: State) { s == Cancelled || s == Expired || s == Failed }

  ghost predicate Seen(db: Db, run: Id, correlation: Id, kind: Kind) {
    exists k :: k in db.events && db.events[k].run == run
                && db.events[k].correlation == correlation && db.events[k].kind == kind
  }

  /** The state that the delivered kinds alone decide. */
  function LiveState(started: bool, stopped: bool, costed: bool): State {
    if costed then Costed else if stopped then Stopped else if started then Started else Approved
  }

  predicate Settled(r: Reservation, started: bool, stopped: bool, costed: bool, ended: bool) {
    if Dead(r.state) then true
    else
      && !ended
      && r.state == LiveState(started, stopped, costed)
      && (started && stopped ==> !r.recoverable)
  }

  ghost predicate RowSettled(db: Db, r: Reservation) {
    r.correlation.Some? ==>
      var c := r.correlation.value;
      Settled(r, Seen(db, r.run, c, Start), Seen(db, r.run, c, Stop), Seen(db, r.run, c, Cost),
              Seen(db, r.run, c, Cancel) || Seen(db, r.run, c, Fail))
  }

  ghost predicate Coherent(db: Db) {
    forall r :: r in db.reservations ==> RowSettled(db, r)
  }

  ghost predicate Valid(db: Db) { Tables(db) && Coherent(db) }

  // ---- Rewriting rows without touching their keys ----------------------------

  predicate SameKeys(a: Reservation, b: Reservation) {
    a.id == b.id && a.run == b.run && a.task == b.task && a.correlation == b.correlation
  }

  ghost predicate Rekeyed(a: seq<Reservation>, b: seq<Reservation>) {
    |a| == |b| && forall i :: 0 <= i < |a| ==> SameKeys(a[i], b[i])
  }

  lemma RekeyedTables(db: Db, rows: seq<Reservation>)
    requires Tables(db) && Rekeyed(db.reservations, rows)
    ensures Tables(db.(reservations := rows))
  {
    var old_ := db.reservations;
    forall i, j | 0 <= i < j < |rows|
      ensures RowsApart()(rows[i], rows[j])
    {
      assert RowsApart()(old_[i], old_[j]);
    }
    forall r | r in rows
      ensures r.id < db.nextId && r.run in db.generations
    {
      var i :| 0 <= i < |rows| && rows[i] == r;
      assert old_[i] in old_;
    }
    forall k | k in db.events
      ensures EventSound(db.(reservations := rows), k)
    {
      assert EventSound(db, k);
      var e := db.events[k];
      var i :| 0 <= i < |old_| && HasCorrelation(old_[i], e.run, e.correlation);
      assert HasCorrelation(rows[i], e.run, e.correlation);
    }
    forall c | c in db.costs
      ensures CostSound(db.(reservations := rows), c)
    {
      assert CostSound(db, c);
    }
  }

  lemma AddRowTables(db: Db, r: Reservation)
    requires Tables(db) && r.id == db.nextId && r.run in db.generations
    requires !TaskTaken(db.reservations, r.run, r.task)
    requires r.correlation.Some? ==> FindCorrelation(db.reservations, r.run, r.correlation.value).None?
    ensures Tables(db.(reservations := db.reservations + [r], nextId := db.nextId + 1))
  {
    var rows := db.reservations + [r];
    var db' := db.(reservations := rows, nextId := db.nextId + 1);
    forall i, j | 0 <= i < j < |rows|
      ensures RowsApart()(rows[i], rows[j])
    {
      if j < |db.reservations| {
        assert RowsApart()(db.reservations[i], db.reservations[j]);
      } else {
        var a := db.reservations[i];
        assert a in db.reservations;
        assert a.run == r.run ==> a.task != r.task;
        if a.run == r.run && r.correlation.Some? {
          assert !HasCorrelation(a, r.run, r.correlation.value);
        }
      }
    }
    forall k | k in db.events
      ensures EventSound(db', k)
    {
      assert EventSound(db, k);
      var e := db.events[k];
      var i :| 0 <= i < |db.reservations| && HasCorrelation(db.reservations[i], e.run, e.correlation);
      assert HasCorrelation(rows[i], e.run, e.correlation);
    }
    forall c | c in db.costs
      ensures CostSound(db', c)
    {
      assert CostSound(db, c);
    }
  }

  // ---- Tables through each transaction ----------------------------------------

  lemma AddDecisionTables(db: Db, d: Decision)
    requires Tables(db) && d.run in db.generations && FindDecision(db.decisions, d.run, d.key).None?
    requires d.reservation.Some? ==>
      d.reservation.value < db.nextId && forall x :: x in db.decisions ==> x.reservation != d.reservation
    ensures Tables(db.(decisions := db.decisions + [d]))
  {
    var rows := db.decisions + [d];
    forall i, j | 0 <= i < j < |rows|
      ensures DecisionsApart()(rows[i], rows[j])
    {
      if j < |db.decisions| {
        assert DecisionsApart()(db.decisions[i], db.decisions[j]);
      } else {
        assert db.decisions[i] in db.decisions;
      }
    }
    forall k | k in db.events ensures EventSound(db.(decisions := rows), k) { assert EventSound(db, k); }
    forall c | c in db.costs ensures CostSound(db.(decisions := rows), c) { assert CostSound(db, c); }
  }

  lemma FreshDecision(db: Db, d: Decision)
    requires Tables(db) && d.reservation == Some(db.nextId)
    ensures forall x :: x in db.decisions ==> x.reservation != d.reservation
  {}

  lemma GrantTables(db: Db, req: Request, d: Decision, now: Time)
    requires Tables(db) && req.run in db.generations && d.run == req.run && d.key == req.key
    requires FindDecision(db.decisions, req.run, req.key).None? && d.reservation == Some(db.nextId)
    requires !TaskTaken(db.reservations, req.run, req.task)
    requires req.correlation.Some? ==> FindCorrelation(db.reservations, req.run, req.correlation.value).None?
    ensures Tables(db.(reservations := db.reservations + [Granted(req, db.nextId, now)], nextId := db.nextId + 1,
                       decisions := db.decisions + [d]))
  {
    FreshDecision(db, d);
    AddRowTables(db, Granted(req, db.nextId, now));
    AddDecisionTables(db.(reservations := db.reservations + [Granted(req, db.nextId, now)], nextId := db.nextId + 1),
                      d);
  }

  lemma DenyTables(db: Db, req: Request, d: Decision)
    requires Tables(db) && req.run in db.generations && d.run == req.run && d.key == req.key
    requires FindDecision(db.decisions, req.run, req.key).None? && d.reservation.None?
    ensures Tables(db.(decisions := db.decisions + [d]))
  {
    AddDecisionTables(db, d);
  }

  lemma EnactTables(db: Db, req: Request, spec: Spec, now: Time)
    requires Tables(db) && req.run in db.generations
    requires FindDecision(db.decisions, req.run, req.key).None?
    requires spec.allowed && spec.reserve ==>
      && !TaskTaken(db.reservations, req.run, req.task)
      && (req.correlation.Some? ==> FindCorrelation(db.reservations, req.run, req.correlation.value).None?)
    ensures Tables(Enact(db, req, spec, now).0)
  {
    var (after, d) := Enact(db, req, spec, now);
    if spec.allowed && spec.reserve {
      assert after == db.(reservations := db.reservations + [Granted(req, db.nextId, now)], nextId := db.nextId + 1,
                          decisions := db.decisions + [d]);
      assert Tables(after) by { GrantTables(db, req, d, now); }
    } else {
      assert after == db.(decisions := db.decisions + [d]);
      assert Tables(after) by { DenyTables(db, req, d); }
    }
  }

  lemma DecideTables(db: Db, req: Request, evaluator: Snapshot -> Spec, now: Time)
    requires Tables(db)
    ensures Tables(DecideAndReserve(db, req, evaluator, now).0)
  {
    var swept := Sweep(db, now);
    RekeyedTables(db, swept.reservations);
    if FindDecision(swept.decisions, req.run, req.key).None? && req.run in db.generations {
      EnactTables(swept, req, Judge(swept, req, evaluator, now), now);
    }
  }

  lemma AccountTables(db: Db, e: Event)
    requires Tables(db) && e.run in db.generations && (e.run, e.id) !in db.events
    requires HasRow(db.reservations, e.run, e.correlation)
    ensures Tables(Account(db, e))
  {
    var after := Account(db, e);
    forall k | k in after.events
      ensures EventSound(after, k)
    {
      if k != (e.run, e.id) { assert EventSound(db, k); }
    }
    forall c | c in after.costs
      ensures CostSound(after, c)
    {
      if c in db.costs { assert CostSound(db, c); }
    }
    forall i, j | 0 <= i < j < |after.costs|
      ensures CostsApart()(after.costs[i], after.costs[j])
    {
      if j < |db.costs| {
        assert CostsApart()(db.costs[i], db.costs[j]);
      } else {
        assert db.costs[i] in db.costs;
        assert CostSound(db, db.costs[i]);
      }
    }
  }

  lemma MoveTables(db: Db, i: nat, kind: Kind)
    requires Tables(db) && i < |db.reservations| && db.reservations[i].correlation.Some?
    ensures var rows := db.reservations[i := Moved(db.reservations[i], kind)];
            Tables(db.(reservations := rows))
            && HasRow(rows, db.reservations[i].run, db.reservations[i].correlation.value)
  {
    var rows := db.reservations[i := Moved(db.reservations[i], kind)];
    RekeyedTables(db, rows);
    assert HasCorrelation(rows[i], db.reservations[i].run, db.reservations[i].correlation.value);
  }

  lemma AdoptTables(db: Db, e: Event, now: Time)
    requires Tables(db) && e.run in db.generations && !TaskTaken(db.reservations, e.run, e.correlation)
    requires FindCorrelation(db.reservations, e.run, e.correlation).None?
    ensures var rows := db.reservations + [Orphan(e, db.nextId, now)];
            Tables(db.(reservations := rows, nextId := db.nextId + 1)) && HasRow(rows, e.run, e.correlation)
  {
    AddRowTables(db, Orphan(e, db.nextId, now));
    var rows := db.reservations + [Orphan(e, db.nextId, now)];
    assert HasCorrelation(rows[|db.reservations|], e.run, e.correlation);
  }

  lemma DeliverTables(db: Db, e: Event, now: Time)
    requires Tables(db) && e.run in db.generations && Deliver(db, e, now).Some?
    ensures Tables(Deliver(db, e, now).value)
    ensures HasRow(Deliver(db, e, now).value.reservations, e.run, e.correlation)
  {
    var after := Deliver(db, e, now).value;
    match FindCorrelation(db.reservations, e.run, e.correlation)
    case Some(i) =>
      assert after == db.(reservations := db.reservations[i := Moved(db.reservations[i], e.kind)]);
      assert Tables(after) && HasRow(after.reservations, e.run, e.correlation) by { MoveTables(db, i, e.kind); }
    case None =>
      assert after == db.(reservations := db.reservations + [Orphan(e, db.nextId, now)], nextId := db.nextId + 1);
      assert Tables(after) && HasRow(after.reservations, e.run, e.correlation) by { AdoptTables(db, e, now); }
  }

  lemma PurgeEvents(db: Db, run: Id, k: (Id, Id))
    requires k in db.events && k.0 != run && EventSound(db, k)
    ensures EventSound(Purge(db, run), k)
  {
    var e, rows := db.events[k], Purge(db, run).reservations;
    var i :| 0 <= i < |db.reservations| && HasCorrelation(db.reservations[i], e.run, e.correlation);
    assert db.reservations[i] in rows;
    var j :| 0 <= j < |rows| && rows[j] == db.reservations[i];
    assert HasCorrelation(rows[j], e.run, e.correlation);
  }

  lemma PurgeRows(db: Db, run: Id)
    requires Pairwise(RowsApart(), db.reservations) && Pairwise(DecisionsApart(), db.decisions)
    requires Pairwise(CostsApart(), db.costs)
    ensures Pairwise(RowsApart(), Purge(db, run).reservations) && Pairwise(DecisionsApart(), Purge(db, run).decisions)
    ensures Pairwise(CostsApart(), Purge(db, run).costs)
  {
    PairwiseFilter(RowsApart(), (r: Reservation) => r.run != run, db.reservations);
    PairwiseFilter(DecisionsApart(), (d: Decision) => d.run != run, db.decisions);
    PairwiseFilter(CostsApart(), (c: CostRow) => c.run != run, db.costs);
  }

  lemma PurgeTables(db: Db, run: Id)
    requires Tables(db)
    ensures Tables(Purge(db, run))
  {
    var after := Purge(db, run);
    PurgeRows(db, run);
    forall k | k in after.events ensures EventSound(after, k) {
      assert EventSound(db, k);
      PurgeEvents(db, run, k);
    }
    forall c | c in after.costs ensures CostSound(after, c) { assert CostSound(db, c); }
  }

  lemma CreateTables(db: Db, run: Id, generation: int, lease: int, now: Time)
    requires Tables(db)
    ensures Tables(CreateRun(db, run, generation, lease, now).0)
  {
    var after := CreateRun(db, run, generation, lease, now).0;
    forall k | k in after.events ensures EventSound(after, k) { assert EventSound(db, k); }
    forall c | c in after.costs ensures CostSound(after, c) { assert CostSound(db, c); }
  }

  lemma HeartbeatTables(db: Db, run: Id, lease: int, now: Time)
    requires Tables(db)
    ensures Tables(Heartbeat(db, run, lease, now).0)
  {
    var after := Heartbeat(db, run, lease, now).0;
    forall k | k in after.events ensures EventSound(after, k) { assert EventSound(db, k); }
    forall c | c in after.costs ensures CostSound(after, c) { assert CostSound(db, c); }
  }

  lemma LifecycleTables(db: Db, e: Event, now: Time)
    requires Tables(db)
    ensures Tables(RecordLifecycle(db, e, now).0)
  {
    if e.run in db.generations && (e.run, e.id) !in db.events && Deliver(db, e, now).Some? {
      DeliverTables(db, e, now);
      AccountTables(Deliver(db, e, now).value, e);
    }
  }

  lemma ResolveTables(db: Db, run: Id, id: nat, outcome: Outcome)
    requires Tables(db)
    ensures Tables(ResolveRecovery(db, run, id, outcome).0)
  {
    var after := ResolveRecovery(db, run, id, outcome).0;
    assert after == db.(reservations := after.reservations);
    RekeyedTables(db, after.reservations);
  }

  lemma DeleteTables(db: Db, run: Id, now: Time)
    requires Tables(db)
    ensures Tables(DeleteRun(db, run, now).0)
  {
    PurgeTables(db, run);
  }

  lemma StepTables(db: Db, op: Op)
    requires Tables(db)
    ensures Tables(Step(db, op))
  {
    match op
    case OpCreate(run, generation, lease, now) => CreateTables(db, run, generation, lease, now);
    case OpHeartbeat(run, lease, now) => HeartbeatTables(db, run, lease, now);
    case OpDecide(req, evaluator, now) => DecideTables(db, req, evaluator, now);
    case OpLifecycle(e, now) => LifecycleTables(db, e, now);
    case OpSweep(now) => RekeyedTables(db, Sweep(db, now).reservations);
    case OpResolve(run, id, outcome) => ResolveTables(db, run, id, outcome);
    case OpDelete(run, now) => DeleteTables(db, run, now);
  }

  // ---- Coherence through each transaction ---------------------------------------

  lemma SettledMoves(r: Reservation, kind: Kind, a: bool, b: bool, c: bool, d: bool)
    requires Settled(r, a, b, c, d)
    ensures Settled(Moved(r, kind), a || kind.Start?, b || kind.Stop?, c || kind.Cost?,
                    d || kind.Cancel? || kind.Fail?)
  {}

  lemma UnseenWithoutRow(db: Db, run: Id, correlation: Id)
    requires Tables(db) && FindCorrelation(db.reservations, run, correlation).None?
    ensures forall kind :: !Seen(db, run, correlation, kind)
  {
    forall k | k in db.events
      ensures !(db.events[k].run == run && db.events[k].correlation == correlation)
    {
      assert EventSound(db, k);
    }
  }

  lemma SeenAfter(db: Db, e: Event, run: Id, correlation: Id, kind: Kind)
    requires (e.run, e.id) !in db.events
    ensures Seen(Account(db, e), run, correlation, kind)
       <==> Seen(db, run, correlation, kind) || (run == e.run && correlation == e.correlation && kind == e.kind)
  {
    var after := Account(db, e);
    if Seen(db, run, correlation, kind) {
      var k :| k in db.events && db.events[k].run == run
               && db.events[k].correlation == correlation && db.events[k].kind == kind;
      assert k in after.events && after.events[k] == db.events[k];
    }
    assert (e.run, e.id) in after.events && after.events[(e.run, e.id)] == e;
  }

  /** An event moves its own reservation's state and seen-kinds together. */
  lemma OwnRowSettles(db: Db, e: Event, before: Reservation)
    requires (e.run, e.id) !in db.events
    requires HasCorrelation(before, e.run, e.correlation) && RowSettled(db, before)
    ensures RowSettled(Account(db, e), Moved(before, e.kind))
  {
    forall kind { SeenAfter(db, e, e.run, e.correlation, kind); }
    SettledMoves(before, e.kind, Seen(db, e.run, e.correlation, Start), Seen(db, e.run, e.correlation, Stop),
                 Seen(db, e.run, e.correlation, Cost),
                 Seen(db, e.run, e.correlation, Cancel) || Seen(db, e.run, e.correlation, Fail));
  }

  lemma OrphanSettles(db: Db, e: Event, id: nat, now: Time)
    requires Tables(db) && (e.run, e.id) !in db.events
    requires FindCorrelation(db.reservations, e.run, e.correlation).None?
    ensures RowSettled(Account(db, e), Orphan(e, id, now))
  {
    UnseenWithoutRow(db, e.run, e.correlation);
    forall kind { SeenAfter(db, e, e.run, e.correlation, kind); }
  }

  lemma OtherRowStays(db: Db, e: Event, r: Reservation)
    requires (e.run, e.id) !in db.events && RowSettled(db, r)
    requires !HasCorrelation(r, e.run, e.correlation)
    ensures RowSettled(Account(db, e), r)
  {
    if r.correlation.Some? {
      forall kind { SeenAfter(db, e, r.run, r.correlation.value, kind); }
    }
  }

  /** What is settled depends on the recorded events alone. */
  lemma SettledElsewhere(a: Db, b: Db, r: Reservation)
    requires a.events == b.events && RowSettled(a, r)
    ensures RowSettled(b, r)
  {
    if r.correlation.Some? {
      assert forall kind :: Seen(b, r.run, r.correlation.value, kind) <==> Seen(a, r.run, r.correlation.value, kind);
    }
  }

  lemma DeliveredRowSettles(db: Db, e: Event, i: nat, j: nat)
    requires Valid(db) && (e.run, e.id) !in db.events && i < |db.reservations| && j < |db.reservations|
    requires HasCorrelation(db.reservations[i], e.run, e.correlation)
    ensures RowSettled(Account(db, e), db.reservations[i := Moved(db.reservations[i], e.kind)][j])
  {
    var was := db.reservations[j];
    assert was in db.reservations && RowSettled(db, was);
    if j == i {
      OwnRowSettles(db, e, was);
    } else {
      assert if i < j then RowsApart()(db.reservations[i], was) else RowsApart()(was, db.reservations[i]);
      OtherRowStays(db, e, was);
    }
  }

  lemma AdoptedRowSettles(db: Db, e: Event, now: Time, r: Reservation)
    requires Valid(db) && (e.run, e.id) !in db.events
    requires FindCorrelation(db.reservations, e.run, e.correlation).None?
    requires r in db.reservations || r == Orphan(e, db.nextId, now)
    ensures RowSettled(Account(db, e), r)
  {
    if r in db.reservations { OtherRowStays(db, e, r); } else { OrphanSettles(db, e, db.nextId, now); }
  }

  lemma DeliveredRowsSettle(db: Db, e: Event, now: Time, r: Reservation)
    requires Valid(db) && (e.run, e.id) !in db.events && Deliver(db, e, now).Some?
    requires r in Deliver(db, e, now).value.reservations
    ensures RowSettled(Account(db, e), r)
  {
    match FindCorrelation(db.reservations, e.run, e.correlation)
    case Some(i) =>
      var rows := db.reservations[i := Moved(db.reservations[i], e.kind)];
      var j :| 0 <= j < |rows| && rows[j] == r;
      DeliveredRowSettles(db, e, i, j);
    case None => AdoptedRowSettles(db, e, now, r);
  }

  lemma DeliveredEvents(db: Db, e: Event, now: Time)
    requires Deliver(db, e, now).Some?
    ensures Account(Deliver(db, e, now).value, e).events == Account(db, e).events
    ensures Account(Deliver(db, e, now).value, e).reservations == Deliver(db, e, now).value.reservations
  {}

  lemma LifecycleCoherent(db: Db, e: Event, now: Time)
    requires Valid(db) && (e.run, e.id) !in db.events && Deliver(db, e, now).Some?
    ensures Coherent(Account(Deliver(db, e, now).value, e))
  {
    var after := Account(Deliver(db, e, now).value, e);
    DeliveredEvents(db, e, now);
    forall r | r in after.reservations
      ensures RowSettled(after, r)
    {
      DeliveredRowsSettle(db, e, now, r);
      SettledElsewhere(Account(db, e), after, r);
    }
  }

  lemma SameEventsCoherent(db: Db, after: Db)
    requires Coherent(db) && after.events == db.events
    requires |after.reservations| == |db.reservations|
    requires forall i :: 0 <= i < |db.reservations| ==>
      var a, b := db.reservations[i], after.reservations[i];
      && SameKeys(a, b)
      && (Dead(b.state) || (b.state == a.state && (b.recoverable == a.recoverable || b.state == Started)))
    ensures Coherent(after)
  {
    forall r | r in after.reservations
      ensures RowSettled(after, r)
    {
      var i :| 0 <= i < |after.reservations| && after.reservations[i] == r;
      assert db.reservations[i] in db.reservations;
      assert RowSettled(db, db.reservations[i]);
      assert forall c, kind :: Seen(after, r.run, c, kind) <==> Seen(db, r.run, c, kind);
    }
  }

  lemma GrantSettled(db: Db, after: Db, req: Request, id: nat, now: Time)
    requires Tables(db) && after.events == db.events
    requires req.correlation.Some? ==> FindCorrelation(db.reservations, req.run, req.correlation.value).None?
    ensures RowSettled(after, Granted(req, id, now))
  {
    if req.correlation.Some? {
      UnseenWithoutRow(db, req.run, req.correlation.value);
      assert forall kind :: Seen(after, req.run, req.correlation.value, kind) ==>
        Seen(db, req.run, req.correlation.value, kind);
    }
  }

  lemma EnactCoherent(db: Db, req: Request, spec: Spec, now: Time)
    requires Tables(db) && Coherent(db)
    requires spec.allowed && spec.reserve && req.correlation.Some? ==>
               FindCorrelation(db.reservations, req.run, req.correlation.value).None?
    ensures Coherent(Enact(db, req, spec, now).0)
  {
    var after := Enact(db, req, spec, now).0;
    forall r | r in after.reservations
      ensures RowSettled(after, r)
    {
      if r in db.reservations {
        assert RowSettled(db, r);
        assert forall c, kind :: Seen(after, r.run, c, kind) <==> Seen(db, r.run, c, kind);
      } else {
        GrantSettled(db, after, req, db.nextId, now);
      }
    }
  }

  lemma CreateCoherent(db: Db, run: Id, generation: int, lease: int, now: Time)
    requires Coherent(db)
    ensures Coherent(CreateRun(db, run, generation, lease, now).0)
  {
    SameEventsCoherent(db, CreateRun(db, run, generation, lease, now).0);
  }

  lemma HeartbeatCoherent(db: Db, run: Id, lease: int, now: Time)
    requires Coherent(db)
    ensures Coherent(Heartbeat(db, run, lease, now).0)
  {
    SameEventsCoherent(db, Heartbeat(db, run, lease, now).0);
  }

  lemma SweepCoherent(db: Db, now: Time)
    requires Coherent(db)
    ensures Coherent(Sweep(db, now))
  {
    SameEventsCoherent(db, Sweep(db, now));
  }

  lemma DecideCoherent(db: Db, req: Request, evaluator: Snapshot -> Spec, now: Time)
    requires Valid(db)
    ensures Coherent(DecideAndReserve(db, req, evaluator, now).0)
  {
    var swept := Sweep(db, now);
    SweepCoherent(db, now);
    RekeyedTables(db, swept.reservations);
    if FindDecision(swept.decisions, req.run, req.key).None? && req.run in db.generations {
      EnactCoherent(swept, req, Judge(swept, req, evaluator, now), now);
    }
  }

  lemma PurgeCoherent(db: Db, run: Id)
    requires Valid(db)
    ensures Coherent(Purge(db, run))
  {
    var after := Purge(db, run);
    forall r | r in after.reservations
      ensures RowSettled(after, r)
    {
      assert RowSettled(db, r);
      forall c, kind
        ensures Seen(after, r.run, c, kind) <==> Seen(db, r.run, c, kind)
      {
        if Seen(db, r.run, c, kind) {
          var k :| k in db.events && db.events[k].run == r.run
                   && db.events[k].correlation == c && db.events[k].kind == kind;
          assert EventSound(db, k);
          assert k in after.events;
        }
      }
    }
  }

  lemma ResolveCoherent(db: Db, run: Id, id: nat, outcome: Outcome)
    requires Coherent(db)
    ensures Coherent(ResolveRecovery(db, run, id, outcome).0)
  {
    SameEventsCoherent(db, ResolveRecovery(db, run, id, outcome).0);
  }

  lemma RecordCoherent(db: Db, e: Event, now: Time)
    requires Valid(db)
    ensures Coherent(RecordLifecycle(db, e, now).0)
  {
    if e.run in db.generations && (e.run, e.id) !in db.events && Deliver(db, e, now).Some? {
      LifecycleCoherent(db, e, now);
    }
  }

  lemma DeleteCoherent(db: Db, run: Id, now: Time)
    requires Valid(db)
    ensures Coherent(DeleteRun(db, run, now).0)
  {
    PurgeCoherent(db, run);
  }

  lemma StepCoherent(db: Db, op: Op)
    requires Valid(db)
    ensures Coherent(Step(db, op))
  {
    match op
    case OpCreate(run, generation, lease, now) => CreateCoherent(db, run, generation, lease, now);
    case OpHeartbeat(run, lease, now) => HeartbeatCoherent(db, run, lease, now);
    case OpDecide(req, evaluator, now) => DecideCoherent(db, req, evaluator, now);
    case OpLifecycle(e, now) => RecordCoherent(db, e, now);
    case OpSweep(now) => SweepCoherent(db, now);
    case OpResolve(run, id, outcome) => ResolveCoherent(db, run, id, outcome);
    case OpDelete(run, now) => DeleteCoherent(db, run, now);
  }

  /** Every transaction keeps the ledger valid. */
  lemma StepValid(db: Db, op: Op)
    requires Valid(db)
    ensures Valid(Step(db, op))
  {
    StepTables(db, op);
    StepCoherent(db, op);
  }

  lemma StaysValid(db: Db, after: Db, op: Op)
    requires after == Step(db, op)
    ensures Valid(db) ==> Valid(after)
  {
    if Valid(db) { StepValid(db, op); }
  }

  /** Every interleaving of transactions, from an empty database, keeps the ledger valid. */
  lemma {:induction false} RunValid(db: Db, ops: seq<Op>)
    requires Valid(db)
    ensures Valid(Run(db, ops))
    decreases |ops|
  {
    if ops != [] {
      StepValid(db, ops[0]);
      RunValid(Step(db, ops[0]), ops[1..]);
    }
  }

  lemma EmptyValid()
    ensures Valid(EMPTY)
  {}

  // ---- Order independence ------------------------------------------------------

  /**
   * Whatever the order, repetition and interleaving: once start, stop and cost have been
   * recorded for a reservation, it is costed and needs no recovery, unless it was
   * cancelled, failed, expired or resolved by an operator.
   */
  lemma DeliveredOutcome(ops: seq<Op>, r: Reservation, c: Id)
    requires r in Run(EMPTY, ops).reservations && r.correlation == Some(c)
    requires !Dead(r.state)
    ensures var db := Run(EMPTY, ops);
            r.state == LiveState(Seen(db, r.run, c, Start), Seen(db, r.run, c, Stop), Seen(db, r.run, c, Cost))
    ensures var db := Run(EMPTY, ops);
            Seen(db, r.run, c, Start) && Seen(db, r.run, c, Stop) && Seen(db, r.run, c, Cost) ==>
              r.state == Costed && !r.recoverable
    ensures !Seen(Run(EMPTY, ops), r.run, c, Cancel) && !Seen(Run(EMPTY, ops), r.run, c, Fail)
  {
    EmptyValid();
    RunValid(EMPTY, ops);
    assert RowSettled(Run(EMPTY, ops), r);
  }

  /** The only steps that end a live reservation. */
  predicate Ends(r: Reservation, op: Op) {
    match op
    case OpDecide(_, _, now) => r.state == Approved && r.expires <= now
    case OpSweep(now) => r.state == Approved && r.expires <= now
    case OpLifecycle(e, _) =>
      r.run == e.run && r.correlation == Some(e.correlation) && (e.kind == Cancel || e.kind == Fail)
    case OpResolve(run, id, _) => r.run == run && r.id == id && r.recoverable
    case OpDelete(run, _) => r.run == run
    case _ => false
  }

  /** All that one transaction, other than a deletion, can do to a row already there. */
  ghost predicate RowMay(op: Op, a: Reservation, b: Reservation) {
    match op
    case OpDecide(_, _, now) => b == a || b == ExpireRow(a, now)
    case OpSweep(now) => b == ExpireRow(a, now)
    case OpLifecycle(e, _) =>
      b == a || (HasCorrelation(a, e.run, e.correlation) && b == Moved(a, e.kind))
    case OpResolve(run, id, outcome) =>
      b == a || (a.run == run && a.id == id && a.recoverable
                 && b == a.(state := OutcomeState(outcome), recoverable := false, reason := None))
    case _ => b == a
  }

  lemma DecideRow(db: Db, req: Request, evaluator: Snapshot -> Spec, now: Time, i: nat)
    requires i < |db.reservations|
    ensures var after := DecideAndReserve(db, req, evaluator, now).0;
            i < |after.reservations|
            && (after.reservations[i] == db.reservations[i]
                || after.reservations[i] == ExpireRow(db.reservations[i], now))
  {}

  lemma LifecycleRow(db: Db, e: Event, now: Time, i: nat)
    requires i < |db.reservations|
    ensures var after := RecordLifecycle(db, e, now).0;
            i < |after.reservations|
            && (after.reservations[i] == db.reservations[i]
                || (HasCorrelation(db.reservations[i], e.run, e.correlation)
                    && after.reservations[i] == Moved(db.reservations[i], e.kind)))
  {}

  lemma RowAfter(db: Db, op: Op, i: nat)
    requires i < |db.reservations| && !op.OpDelete?
    ensures i < |Step(db, op).reservations|
    ensures RowMay(op, db.reservations[i], Step(db, op).reservations[i])
  {
    match op
    case OpDecide(req, evaluator, now) => DecideRow(db, req, evaluator, now, i);
    case OpLifecycle(e, now) => LifecycleRow(db, e, now, i);
    case _ =>
  }

  lemma EndsIsComplete(op: Op, a: Reservation, b: Reservation)
    requires RowMay(op, a, b) && !Ends(a, op) && !Dead(a.state)
    ensures SameKeys(a, b) && !Dead(b.state)
  {}

  /** The reservation that answers to a correlation id, if there is one, is not ended. */
  ghost predicate Unended(db: Db, run: Id, c: Id) {
    forall i :: 0 <= i < |db.reservations| && HasCorrelation(db.reservations[i], run, c)
                ==> !Dead(db.reservations[i].state)
  }

  /** An operation that would end the reservation even as it arrives. */
  predicate Disturbs(op: Op, run: Id, c: Id) {
    || (op.OpDelete? && op.run == run)
    || (op.OpLifecycle? && op.event.run == run && op.event.correlation == c
        && (op.event.kind == Cancel || op.event.kind == Fail))
  }

  /** No sweep, cancellation, failure, resolution or deletion ever hits the reservation. */
  ghost predicate Undisturbed(db: Db, ops: seq<Op>, run: Id, c: Id)
    decreases |ops|
  {
    ops == [] ||
    (&& !Disturbs(ops[0], run, c)
     && (forall i :: 0 <= i < |db.reservations| && HasCorrelation(db.reservations[i], run, c)
                     ==> !Ends(db.reservations[i], ops[0]))
     && Undisturbed(Step(db, ops[0]), ops[1..], run, c))
  }

  lemma DecideAdds(db: Db, req: Request, evaluator: Snapshot -> Spec, now: Time, i: nat)
    requires |db.reservations| <= i < |DecideAndReserve(db, req, evaluator, now).0.reservations|
    ensures !Dead(DecideAndReserve(db, req, evaluator, now).0.reservations[i].state)
  {}

  lemma LifecycleAdds(db: Db, e: Event, now: Time, i: nat)
    requires |db.reservations| <= i < |RecordLifecycle(db, e, now).0.reservations|
    ensures RecordLifecycle(db, e, now).0.reservations[i] == Orphan(e, db.nextId, now)
  {}

  lemma StepUnended(db: Db, op: Op, run: Id, c: Id)
    requires Unended(db, run, c) && !Disturbs(op, run, c)
    requires forall i :: 0 <= i < |db.reservations| && HasCorrelation(db.reservations[i], run, c)
                     ==> !Ends(db.reservations[i], op)
    ensures Unended(Step(db, op), run, c)
  {
    var after := Step(db, op);
    forall i | 0 <= i < |after.reservations| && HasCorrelation(after.reservations[i], run, c)
      ensures !Dead(after.reservations[i].state)
    {
      if op.OpDelete? {
        assert after.reservations[i] in after.reservations;
        assert after.reservations[i] in db.reservations;
      } else if i < |db.reservations| {
        RowAfter(db, op, i);
        NotDeadBefore(op, db.reservations[i], after.reservations[i], run, c);
        EndsIsComplete(op, db.reservations[i], after.reservations[i]);
      } else if op.OpDecide? {
        DecideAdds(db, op.req, op.evaluator, op.now, i);
      } else if op.OpLifecycle? {
        LifecycleAdds(db, op.event, op.now, i);
      }
    }
  }

  lemma NotDeadBefore(op: Op, a: Reservation, b: Reservation, run: Id, c: Id)
    requires RowMay(op, a, b) && HasCorrelation(b, run, c)
    ensures HasCorrelation(a, run, c)
  {}

  lemma DecideKeepsEvents(db: Db, req: Request, evaluator: Snapshot -> Spec, now: Time)
    ensures DecideAndReserve(db, req, evaluator, now).0.events == db.events
  {}

  lemma LifecycleKeepsEvents(db: Db, e: Event, now: Time, k: (Id, Id))
    requires k in db.events
    ensures k in RecordLifecycle(db, e, now).0.events && RecordLifecycle(db, e, now).0.events[k] == db.events[k]
  {}

  /** Recorded events are never rewritten, and only deleting their run removes them. */
  lemma EventsKept(db: Db, op: Op, k: (Id, Id))
    requires k in db.events && !(op.OpDelete? && op.run == k.0)
    ensures k in Step(db, op).events && Step(db, op).events[k] == db.events[k]
  {
    match op
    case OpDecide(req, evaluator, now) => DecideKeepsEvents(db, req, evaluator, now);
    case OpLifecycle(e, now) => LifecycleKeepsEvents(db, e, now, k);
    case _ =>
  }

  lemma SeenStays(db: Db, op: Op, run: Id, c: Id, kind: Kind)
    requires Tables(db) && Seen(db, run, c, kind) && !Disturbs(op, run, c)
    ensures Seen(Step(db, op), run, c, kind)
  {
    var k :| k in db.events && db.events[k].run == run && db.events[k].correlation == c && db.events[k].kind == kind;
    assert EventSound(db, k);
    EventsKept(db, op, k);
  }

  lemma AcceptedIsSeen(db: Db, e: Event, now: Time)
    requires Tables(db) && RecordLifecycle(db, e, now).1.Ok?
    ensures Seen(RecordLifecycle(db, e, now).0, e.run, e.correlation, e.kind)
  {
    var after := RecordLifecycle(db, e, now).0;
    var k := (e.run, e.id);
    if k in db.events { assert EventSound(db, k); }
    assert k in after.events;
    assert after.events[k].run == e.run && after.events[k].correlation == e.correlation;
  }

  /** Some delivery of this kind was accepted in the course of the history. */
  ghost predicate Accepts(db: Db, ops: seq<Op>, run: Id, c: Id, kind: Kind)
    decreases |ops|
  {
    ops != [] &&
    (|| (ops[0].OpLifecycle? && ops[0].event.run == run && ops[0].event.correlation == c
         && ops[0].event.kind == kind && RecordLifecycle(db, ops[0].event, ops[0].now).1.Ok?)
     || Accepts(Step(db, ops[0]), ops[1..], run, c, kind))
  }

  lemma {:induction false} SeenAtTheEnd(db: Db, ops: seq<Op>, run: Id, c: Id, kind: Kind)
    requires Valid(db) && Undisturbed(db, ops, run, c)
    requires Seen(db, run, c, kind) || Accepts(db, ops, run, c, kind)
    ensures Seen(Run(db, ops), run, c, kind)
    decreases |ops|
  {
    if ops != [] {
      StepValid(db, ops[0]);
      if Seen(db, run, c, kind) {
        SeenStays(db, ops[0], run, c, kind);
      } else if !Accepts(Step(db, ops[0]), ops[1..], run, c, kind) {
        AcceptedIsSeen(db, ops[0].event, ops[0].now);
      }
      SeenAtTheEnd(Step(db, ops[0]), ops[1..], run, c, kind);
    }
  }

  lemma {:induction false} UnendedAtTheEnd(db: Db, ops: seq<Op>, run: Id, c: Id)
    requires Unended(db, run, c) && Undisturbed(db, ops, run, c)
    ensures Unended(Run(db, ops), run, c)
    decreases |ops|
  {
    if ops != [] {
      StepUnended(db, ops[0], run, c);
      UnendedAtTheEnd(Step(db, ops[0]), ops[1..], run, c);
    }
  }

  /**
   * Deliver start, stop and cost in any order, any number of times, among any other
   * transactions: if nothing ends the reservation on the way, it finishes costed and not
   * recoverable. This also covers a reservation first known from its events.
   */
  lemma AnyOrderSettles(db: Db, ops: seq<Op>, run: Id, c: Id)
    requires Valid(db) && Unended(db, run, c) && Undisturbed(db, ops, run, c)
    requires Accepts(db, ops, run, c, Start) && Accepts(db, ops, run, c, Stop) && Accepts(db, ops, run, c, Cost)
    ensures exists r :: r in Run(db, ops).reservations && HasCorrelation(r, run, c)
                        && r.state == Costed && !r.recoverable
  {
    var after := Run(db, ops);
    RunValid(db, ops);
    UnendedAtTheEnd(db, ops, run, c);
    SeenAtTheEnd(db, ops, run, c, Start);
    SeenAtTheEnd(db, ops, run, c, Stop);
    SeenAtTheEnd(db, ops, run, c, Cost);
    var k :| k in after.events && after.events[k].run == run
             && after.events[k].correlation == c && after.events[k].kind == Cost;
    assert EventSound(after, k);
    var i :| 0 <= i < |after.reservations| && HasCorrelation(after.reservations[i], run, c);
    assert after.reservations[i] in after.reservations;
    assert RowSettled(after, after.reservations[i]);
  }

  lemma MayKeepsDead(op: Op, a: Reservation, b: Reservation)
    requires RowMay(op, a, b) && Dead(a.state)
    ensures SameKeys(a, b) && Dead(b.state)
  {}

  /** Once a reservation has been ended, nothing revives it. */
  lemma DeadStaysDead(db: Db, op: Op, i: nat)
    requires i < |db.reservations| && Dead(db.reservations[i].state) && !op.OpDelete?
    ensures i < |Step(db, op).reservations|
    ensures SameKeys(db.reservations[i], Step(db, op).reservations[i])
    ensures Dead(Step(db, op).reservations[i].state)
  {
    RowAfter(db, op, i);
    MayKeepsDead(op, db.reservations[i], Step(db, op).reservations[i]);
  }

  lemma MayKeepsInactive(op: Op, a: Reservation, b: Reservation)
    requires RowMay(op, a, b) && !Occupies(a.state)
    ensures !Occupies(b.state)
  {}

  /** No lifecycle, expiry or recovery step makes an inactive reservation active again. */
  lemma NeverReactivated(db: Db, op: Op, i: nat)
    requires i < |db.reservations| && !Occupies(db.reservations[i].state) && !op.OpDelete?
    ensures i < |Step(db, op).reservations| && !Occupies(Step(db, op).reservations[i].state)
  {
    RowAfter(db, op, i);
    MayKeepsInactive(op, db.reservations[i], Step(db, op).reservations[i]);
  }
}
