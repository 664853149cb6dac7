/**
 * Where the rows of the ledger come from, and what can become of them, told by the
 * requests and events themselves: what an approval writes down, what is turned down and
 * why, and which terms of a reservation nothing ever changes.
 */
module LedgerRows {
  import opened Wrappers
  import opened Sums
  import opened Ledger
  import opened LedgerInvariant

  // ---- What a request comes to --------------------------------------------------------

  /** A decision has been made for this key. */
  ghost predicate Decided(db: Db, req: Request) {
    exists d :: d in db.decisions && d.run == req.run && d.key == req.key
  }

  /** The request belongs to the run as it now is. */
  predicate Current(db: Db, req: Request) {
    req.run in db.generations && db.generations[req.run] == req.generation
  }

  predicate Leased(db: Db, run: Id, now: Time) { run in db.leases && now < db.leases[run] }

  ghost predicate CorrelationTaken(db: Db, req: Request) {
    req.correlation.Some? && HasRow(db.reservations, req.run, req.correlation.value)
  }

  predicate Named(r: Reservation, run: Id, task: Id) { r.run == run && r.task == task }

  ghost predicate NameTaken(db: Db, req: Request) {
    exists i :: 0 <= i < |db.reservations| && Named(db.reservations[i], req.run, req.task)
  }

  /** Nothing but the evaluator can turn the request down. */
  ghost predicate Unhindered(db: Db, req: Request, now: Time) {
    Current(db, req) && Leased(db, req.run, now) && !CorrelationTaken(db, req) && !NameTaken(db, req)
  }

  /** The evaluator's answer to what the run is using once overdue approvals are gone. */
  function Verdict(db: Db, req: Request, evaluator: Snapshot -> Spec, now: Time): Spec {
    evaluator(TakeSnapshot(Sweep(db, now), req.run))
  }

  /** The terms of the row are those of the request. */
  predicate AsAsked(r: Reservation, req: Request, now: Time) {
    && r.run == req.run && r.task == req.task && r.correlation == req.correlation && r.operation == req.operation
    && r.tier == Some(req.tier) && r.model == Some(req.model) && r.effort == req.effort
    && r.estimate == req.estimate && r.expires == now + req.ttl
  }

  /** Approved, and nothing has happened to it. */
  predicate Untouched(r: Reservation) { r.state == Approved && !r.recoverable && r.reason == None }

  lemma SweptHindrances(db: Db, req: Request, now: Time)
    ensures CorrelationTaken(Sweep(db, now), req) == CorrelationTaken(db, req)
    ensures NameTaken(Sweep(db, now), req) == NameTaken(db, req)
  {
    SameHindrances(db.reservations, Sweep(db, now).reservations, req);
  }

  lemma SameHindrances(a: seq<Reservation>, b: seq<Reservation>, req: Request)
    requires Rekeyed(a, b)
    ensures forall c :: HasRow(a, req.run, c) <==> HasRow(b, req.run, c)
    ensures (exists i :: 0 <= i < |a| && Named(a[i], req.run, req.task))
       <==> exists i :: 0 <= i < |b| && Named(b[i], req.run, req.task)
  {
    forall c ensures HasRow(a, req.run, c) <==> HasRow(b, req.run, c) {
      assert forall i :: 0 <= i < |a| ==> (HasCorrelation(a[i], req.run, c) <==> HasCorrelation(b[i], req.run, c));
    }
    assert forall i :: 0 <= i < |a| ==> (Named(a[i], req.run, req.task) <==> Named(b[i], req.run, req.task));
  }

  lemma FoundExactly(db: Db, req: Request)
    ensures CorrelationTaken(db, req) <==>
              req.correlation.Some? && FindCorrelation(db.reservations, req.run, req.correlation.value).Some?
    ensures NameTaken(db, req) <==> TaskTaken(db.reservations, req.run, req.task)
    ensures Decided(db, req) <==> FindDecision(db.decisions, req.run, req.key).Some?
  {
    if NameTaken(db, req) {
      var i :| 0 <= i < |db.reservations| && Named(db.reservations[i], req.run, req.task);
      assert db.reservations[i].run == req.run && db.reservations[i].task == req.task;
    }
    if TaskTaken(db.reservations, req.run, req.task) {
      var i :| 0 <= i < |db.reservations| && db.reservations[i].run == req.run && db.reservations[i].task == req.task;
      assert Named(db.reservations[i], req.run, req.task);
    }
    if Decided(db, req) {
      var d :| d in db.decisions && d.run == req.run && d.key == req.key;
      var j :| 0 <= j < |db.decisions| && db.decisions[j] == d;
    }
  }

  lemma JudgedExactly(db: Db, req: Request, evaluator: Snapshot -> Spec, now: Time)
    requires req.run in db.generations
    ensures var swept := Sweep(db, now);
            var spec := Judge(swept, req, evaluator, now);
            && (Unhindered(db, req, now) ==> spec == Verdict(db, req, evaluator, now))
            && (!Unhindered(db, req, now) ==> !spec.allowed && spec.selectedModel == None && !spec.savings)
            && (!Current(db, req) ==> spec.rule == "STALE_GENERATION")
            && (Current(db, req) && !Leased(db, req.run, now) ==> spec.rule == "RUN_LEASE_EXPIRED")
            && (Current(db, req) && Leased(db, req.run, now) && CorrelationTaken(db, req) ==>
                  spec.rule == "DUPLICATE_CORRELATION")
            && (Current(db, req) && Leased(db, req.run, now) && !CorrelationTaken(db, req) && NameTaken(db, req) ==>
                  spec.rule == "DUPLICATE_RESERVATION")
  {
    SweptHindrances(db, req, now);
    FoundExactly(Sweep(db, now), req);
  }

  /**
   * A first request for its key fails for want of its run alone. Otherwise it adds one
   * decision, and a reservation exactly when nothing stands in its way and the evaluator
   * allows and reserves: one row, on the terms asked for, under an id not used before.
   */
  lemma RequestWrites(db: Db, req: Request, evaluator: Snapshot -> Spec, now: Time, after: Db,
                      result: Result<Decision, Error>)
    requires (after, result) == DecideAndReserve(db, req, evaluator, now) && Tables(db) && !Decided(db, req)
    ensures result.Err? <==> req.run !in db.generations
    ensures result.Err? ==> after == db && result.error == NoRun
    ensures result.Ok? ==>
              && after.decisions == db.decisions + [result.value]
              && result.value.run == req.run && result.value.key == req.key && result.value.estimate == req.estimate
              && (result.value.reservation.Some? <==>
                    && Unhindered(db, req, now)
                    && Verdict(db, req, evaluator, now).allowed && Verdict(db, req, evaluator, now).reserve)
    ensures result.Ok? && result.value.reservation.Some? ==>
              && |after.reservations| == |db.reservations| + 1
              && AsAsked(after.reservations[|db.reservations|], req, now)
              && Untouched(after.reservations[|db.reservations|])
              && result.value.reservation == Some(after.reservations[|db.reservations|].id)
              && forall r :: r in db.reservations ==> Some(r.id) != result.value.reservation
    ensures result.Ok? && result.value.reservation.None? ==> |after.reservations| == |db.reservations|
    ensures after.generations == db.generations && after.leases == db.leases && after.events == db.events
    ensures after.costs == db.costs && after.usage == db.usage
  {
    FoundExactly(db, req);
    if req.run in db.generations { JudgedExactly(db, req, evaluator, now); }
  }

  /** What the decision says: the first ground there is against the request, or else the evaluator's answer. */
  lemma DecisionSays(db: Db, req: Request, evaluator: Snapshot -> Spec, now: Time, d: Decision)
    requires DecideAndReserve(db, req, evaluator, now).1 == Ok(d) && !Decided(db, req)
    ensures Unhindered(db, req, now) ==>
              var spec := Verdict(db, req, evaluator, now);
              d.allowed == spec.allowed && d.rule == spec.rule && d.selectedModel == spec.selectedModel
              && d.savings == spec.savings
    ensures !Unhindered(db, req, now) ==> !d.allowed && d.selectedModel == None && !d.savings
    ensures !Current(db, req) ==> d.rule == "STALE_GENERATION"
    ensures Current(db, req) && !Leased(db, req.run, now) ==> d.rule == "RUN_LEASE_EXPIRED"
    ensures Current(db, req) && Leased(db, req.run, now) && CorrelationTaken(db, req) ==>
              d.rule == "DUPLICATE_CORRELATION"
    ensures Current(db, req) && Leased(db, req.run, now) && !CorrelationTaken(db, req) && NameTaken(db, req) ==>
              d.rule == "DUPLICATE_RESERVATION"
  {
    FoundExactly(db, req);
    JudgedExactly(db, req, evaluator, now);
  }

  /** Asking again under the same key gives the decision already made, whatever else the request says. */
  lemma AskingAgain(db: Db, req: Request, evaluator: Snapshot -> Spec, now: Time, d: Decision)
    requires Tables(db) && d in db.decisions && d.run == req.run && d.key == req.key
    ensures DecideAndReserve(db, req, evaluator, now).1 == Ok(d)
    ensures DecideAndReserve(db, req, evaluator, now).0 == Sweep(db, now)
  {
    FoundExactly(db, req);
    var i := FindDecision(db.decisions, req.run, req.key).value;
    var j :| 0 <= j < |db.decisions| && db.decisions[j] == d;
  }

  // ---- What an event comes to -----------------------------------------------------------

  /** The row made for an event that belongs to no reservation. */
  predicate Adopted(r: Reservation, e: Event, now: Time) {
    && r.run == e.run && r.task == e.correlation && r.correlation == Some(e.correlation) && r.operation == "spawn"
    && r.tier == None && r.model == None && r.effort == None && r.estimate == 0.0 && r.expires == now + 300.0
    && r.recoverable
    && (e.kind == Start ==> r.state == Started && r.reason == Some("start before reservation"))
    && (e.kind == Stop ==> r.state == Stopped && r.reason == Some("stop before reservation"))
    && (e.kind == Cost ==> r.state == Costed && r.reason == Some("cost before reservation"))
    && (e.kind == Cancel ==> r.state == Cancelled && r.reason == Some("cancel before reservation"))
    && (e.kind == Fail ==> r.state == Failed && r.reason == Some("fail before reservation"))
  }

  /** The terms of a reservation: all but its state, and whether and why it needs recovery. */
  predicate SameTerms(a: Reservation, b: Reservation) {
    b == a.(state := b.state, recoverable := b.recoverable, reason := b.reason)
  }

  /** What an event makes of its reservation. */
  predicate Follows(a: Reservation, b: Reservation, kind: Kind) {
    && SameTerms(a, b)
    && (kind == Cancel ==> b.state == Cancelled && !b.recoverable && b.reason == None)
    && (kind == Fail ==> b.state == Failed && !b.recoverable && b.reason == None)
    && (Dead(a.state) && kind != Cancel && kind != Fail ==> b == a)
    && (!Dead(a.state) && kind == Start ==> (b.recoverable <==> a.state == Started && a.recoverable))
    && (!Dead(a.state) && kind == Stop ==>
          (b.recoverable <==> a.state == Approved || (a.state == Stopped && a.recoverable)))
    && (!Dead(a.state) && kind == Cost ==> (b.recoverable <==> Occupies(a.state) || a.recoverable))
    && (a.state == Approved && kind == Stop ==> b.reason == Some("stop before start"))
    && (Occupies(a.state) && kind == Cost ==> b.reason == Some("cost before stop"))
    && (!b.recoverable && a.recoverable ==> b.reason == None)
  }

  /** An event accepted for the first time. */
  predicate Accepted(db: Db, e: Event, now: Time) {
    (e.run, e.id) !in db.events && RecordLifecycle(db, e, now).1.Ok?
  }

  lemma AcceptedWrites(db: Db, e: Event, now: Time)
    requires Accepted(db, e, now)
    ensures var (after, result) := RecordLifecycle(db, e, now);
            && e.run in db.generations && Deliver(db, e, now).Some?
            && after == Account(Deliver(db, e, now).value, e)
            && FindCorrelation(after.reservations, e.run, e.correlation).Some?
            && result.value == after.reservations[FindCorrelation(after.reservations, e.run, e.correlation).value]
  {}

  /** Accepting an event records it as it is, and answers with its reservation. */
  lemma EventRecorded(db: Db, e: Event, now: Time, after: Db, r: Reservation)
    requires Accepted(db, e, now) && RecordLifecycle(db, e, now) == (after, Ok(r))
    ensures e.run in db.generations && after.events == db.events[(e.run, e.id) := e]
    ensures r in after.reservations && HasCorrelation(r, e.run, e.correlation)
    ensures after.generations == db.generations && after.leases == db.leases && after.decisions == db.decisions
  {
    AcceptedWrites(db, e, now);
  }

  /** It moves the one reservation of its correlation, and no other row. */
  lemma EventMoves(db: Db, e: Event, now: Time, after: Db, r: Reservation)
    requires Tables(db) && Accepted(db, e, now) && RecordLifecycle(db, e, now) == (after, Ok(r))
    requires HasRow(db.reservations, e.run, e.correlation)
    ensures |after.reservations| == |db.reservations|
    ensures forall i :: 0 <= i < |db.reservations| ==>
              if HasCorrelation(db.reservations[i], e.run, e.correlation)
              then Follows(db.reservations[i], after.reservations[i], e.kind) && r == after.reservations[i]
              else after.reservations[i] == db.reservations[i]
  {
    AcceptedWrites(db, e, now);
    var i := FindCorrelation(db.reservations, e.run, e.correlation).value;
    forall j | 0 <= j < |db.reservations| && HasCorrelation(db.reservations[j], e.run, e.correlation)
      ensures j == i
    {
      ApartByCorrelation(db.reservations, i, j);
    }
    MovedFollows(db.reservations[i], e.kind);
    var k := FindCorrelation(after.reservations, e.run, e.correlation).value;
    assert HasCorrelation(db.reservations[k], e.run, e.correlation);
  }

  lemma MovedFollows(r: Reservation, kind: Kind)
    ensures Follows(r, Moved(r, kind), kind)
  {}

  /** Or, if there is none, it makes one row, under an id not used before. */
  lemma EventAdopts(db: Db, e: Event, now: Time, after: Db, r: Reservation)
    requires Tables(db) && Accepted(db, e, now) && RecordLifecycle(db, e, now) == (after, Ok(r))
    requires !HasRow(db.reservations, e.run, e.correlation)
    ensures after.reservations == db.reservations + [r] && Adopted(r, e, now)
    ensures forall x :: x in db.reservations ==> x.id != r.id
  {
    AcceptedWrites(db, e, now);
    var n, k := |db.reservations|, FindCorrelation(after.reservations, e.run, e.correlation).value;
    assert forall j :: 0 <= j < n ==> after.reservations[j] == db.reservations[j];
    assert k == n;
    OrphanAdopted(e, db.nextId, now);
  }

  lemma OrphanAdopted(e: Event, id: nat, now: Time)
    ensures Adopted(Orphan(e, id, now), e, now)
  {}

  lemma ApartByCorrelation(rows: seq<Reservation>, i: nat, j: nat)
    requires Pairwise(RowsApart(), rows) && i < |rows| && j < |rows|
    requires rows[i].run == rows[j].run && rows[i].correlation.Some? && rows[i].correlation == rows[j].correlation
    ensures i == j
  {}

  // ---- Sweeps, recoveries and deletions ---------------------------------------------------

  predicate Overdue(r: Reservation, now: Time) { r.expires <= now }

  /** A sweep ends overdue approvals, flags overdue starts, and does nothing else. */
  lemma SweepWrites(db: Db, now: Time, i: nat)
    requires i < |db.reservations|
    ensures Sweep(db, now) == db.(reservations := Sweep(db, now).reservations)
    ensures |Sweep(db, now).reservations| == |db.reservations|
    ensures var a, b := db.reservations[i], Sweep(db, now).reservations[i];
            && SameTerms(a, b)
            && (a != b <==> Overdue(a, now) && (a.state == Approved || (a.state == Started && !a.recoverable)))
            && (a.state == Approved && Overdue(a, now) ==> b.state == Expired && !b.recoverable && b.reason == None)
            && (a.state == Started && Overdue(a, now) ==> b.state == Started && b.recoverable)
            && (a != b && b.recoverable ==> b.reason == Some("started reservation exceeded TTL"))
  {}

  /** A recovery goes through exactly when the reservation is there and needs it, and closes that one. */
  lemma RecoveryWrites(db: Db, run: Id, id: nat, outcome: Outcome, after: Db, result: Result<Reservation, Error>)
    requires Tables(db) && (after, result) == ResolveRecovery(db, run, id, outcome)
    ensures result.Ok? <==> exists i :: 0 <= i < |db.reservations| && NeedsRecovery(db.reservations[i], run, id)
    ensures result.Err? ==> after == db
    ensures after == db.(reservations := after.reservations) && |after.reservations| == |db.reservations|
    ensures result.Ok? ==>
              forall i :: 0 <= i < |db.reservations| ==>
                var a, b := db.reservations[i], after.reservations[i];
                if a.run == run && a.id == id
                then && SameTerms(a, b) && !b.recoverable && b.reason == None && b == result.value
                     && (outcome == ToCancelled <==> b.state == Cancelled)
                     && (outcome == ToFailed <==> b.state == Failed) && (outcome == ToExpired <==> b.state == Expired)
                else a == b
  {
    match FindId(db.reservations, run, id)
    case None =>
    case Some(i) =>
      forall j | 0 <= j < |db.reservations| && db.reservations[j].id == id ensures j == i {
        ApartById(db.reservations, i, j);
      }
      assert NeedsRecovery(db.reservations[i], run, id) <==> db.reservations[i].recoverable;
  }

  predicate NeedsRecovery(r: Reservation, run: Id, id: nat) { r.run == run && r.id == id && r.recoverable }

  lemma ApartById(rows: seq<Reservation>, i: nat, j: nat)
    requires Pairwise(RowsApart(), rows) && i < |rows| && j < |rows| && rows[i].id == rows[j].id
    ensures i == j
  {}

  /** Deleting a run takes everything of that run, and nothing else. */
  lemma DeletionTakes(db: Db, run: Id, now: Time, after: Db)
    requires DeleteRun(db, run, now) == (after, Ok(()))
    ensures run in db.generations && !Leased(db, run, now)
    ensures forall x :: x in after.generations <==> x in db.generations && x != run
    ensures forall x :: x in after.generations ==> after.generations[x] == db.generations[x]
    ensures forall x :: x in after.leases <==> x in db.leases && x != run
    ensures forall x :: x in after.leases ==> after.leases[x] == db.leases[x]
    ensures forall r :: r in after.reservations <==> r in db.reservations && r.run != run
    ensures forall d :: d in after.decisions <==> d in db.decisions && d.run != run
    ensures forall c :: c in after.costs <==> c in db.costs && c.run != run
    ensures forall k :: k in after.events <==> k in db.events && k.0 != run
    ensures forall k :: k in after.events ==> after.events[k] == db.events[k]
    ensures forall k :: k in after.usage <==> k in db.usage && k.0 != run
    ensures forall k :: k in after.usage ==> after.usage[k] == db.usage[k]
  {}

  // ---- How a reservation ends ---------------------------------------------------------------

  /** What can bring a reservation into an ended state. */
  predicate Cause(op: Op, r: Reservation, ended: State) {
    match ended
    case Cancelled =>
      || (op.OpLifecycle? && HasCorrelation(r, op.event.run, op.event.correlation) && op.event.kind == Cancel)
      || (op.OpResolve? && NeedsRecovery(r, op.run, op.id) && op.outcome == ToCancelled)
    case Failed =>
      || (op.OpLifecycle? && HasCorrelation(r, op.event.run, op.event.correlation) && op.event.kind == Fail)
      || (op.OpResolve? && NeedsRecovery(r, op.run, op.id) && op.outcome == ToFailed)
    case Expired =>
      || ((op.OpDecide? || op.OpSweep?) && r.state == Approved && Overdue(r, op.now))
      || (op.OpResolve? && NeedsRecovery(r, op.run, op.id) && op.outcome == ToExpired)
    case _ => false
  }

  /** No transaction changes the terms of a reservation, and none ends it but for its cause. */
  lemma TermsKept(db: Db, op: Op, i: nat)
    requires i < |db.reservations| && !op.OpDelete?
    ensures i < |Step(db, op).reservations|
    ensures var a, b := db.reservations[i], Step(db, op).reservations[i];
            SameTerms(a, b) && (Dead(b.state) && b.state != a.state ==> Cause(op, a, b.state))
  {
    RowAfter(db, op, i);
    MayKeepTerms(op, db.reservations[i], Step(db, op).reservations[i]);
  }

  lemma MayKeepTerms(op: Op, a: Reservation, b: Reservation)
    requires RowMay(op, a, b)
    ensures SameTerms(a, b) && (Dead(b.state) && b.state != a.state ==> Cause(op, a, b.state))
  {}

  // ---- Where rows come from -----------------------------------------------------------------

  /** The transaction approved a request, and reserved on the terms of the row. */
  ghost predicate GrantedBy(db: Db, op: Op, r: Reservation) {
    && op.OpDecide? && Grants(db, op.req, op.evaluator, op.now) && AsAsked(r, op.req, op.now)
    && DecideAndReserve(db, op.req, op.evaluator, op.now).1.value.reservation == Some(r.id)
  }

  ghost predicate Grants(db: Db, req: Request, evaluator: Snapshot -> Spec, now: Time) {
    && !Decided(db, req) && Unhindered(db, req, now) && DecideAndReserve(db, req, evaluator, now).1.Ok?
    && Verdict(db, req, evaluator, now).allowed && Verdict(db, req, evaluator, now).reserve
  }

  /** The transaction recorded an event that belonged to no reservation. */
  ghost predicate AdoptedBy(db: Db, op: Op, r: Reservation) {
    && op.OpLifecycle? && Accepted(db, op.event, op.now)
    && !HasRow(db.reservations, op.event.run, op.event.correlation)
    && var x := RecordLifecycle(db, op.event, op.now).1.value; SameTerms(x, r) && Adopted(x, op.event, op.now)
  }

  ghost predicate MadeBy(db: Db, op: Op, r: Reservation) { GrantedBy(db, op, r) || AdoptedBy(db, op, r) }

  lemma AddedIsMade(db: Db, op: Op, i: nat)
    requires Tables(db) && !op.OpDelete? && |db.reservations| <= i < |Step(db, op).reservations|
    ensures MadeBy(db, op, Step(db, op).reservations[i])
  {
    match op
    case OpDecide(req, evaluator, now) => AddedIsGranted(db, req, evaluator, now, i);
    case OpLifecycle(e, now) => AddedIsAdopted(db, e, now, i);
    case _ =>
  }

  lemma AddedIsGranted(db: Db, req: Request, evaluator: Snapshot -> Spec, now: Time, i: nat)
    requires Tables(db) && |db.reservations| <= i < |DecideAndReserve(db, req, evaluator, now).0.reservations|
    ensures GrantedBy(db, OpDecide(req, evaluator, now), DecideAndReserve(db, req, evaluator, now).0.reservations[i])
  {
    if Decided(db, req) {
      var d :| d in db.decisions && d.run == req.run && d.key == req.key;
      AskingAgain(db, req, evaluator, now, d);
    } else {
      var (after, result) := DecideAndReserve(db, req, evaluator, now);
      RequestWrites(db, req, evaluator, now, after, result);
    }
  }

  lemma AddedIsAdopted(db: Db, e: Event, now: Time, i: nat)
    requires Tables(db) && |db.reservations| <= i < |RecordLifecycle(db, e, now).0.reservations|
    ensures AdoptedBy(db, OpLifecycle(e, now), RecordLifecycle(db, e, now).0.reservations[i])
  {
    var (after, result) := RecordLifecycle(db, e, now);
    assert Accepted(db, e, now) by { AddingAccepts(db, e, now); }
    if HasRow(db.reservations, e.run, e.correlation) {
      EventMoves(db, e, now, after, result.value);
    } else {
      EventAdopts(db, e, now, after, result.value);
    }
  }

  lemma AddingAccepts(db: Db, e: Event, now: Time)
    requires |db.reservations| < |RecordLifecycle(db, e, now).0.reservations|
    ensures Accepted(db, e, now)
  {
    var after := RecordLifecycle(db, e, now).0;
    assert HasCorrelation(after.reservations[|db.reservations|], e.run, e.correlation);
  }

  lemma RowsComeFrom(db: Db, op: Op, r: Reservation)
    requires Tables(db) && r in Step(db, op).reservations
    ensures MadeBy(db, op, r) || exists a :: a in db.reservations && SameTerms(a, r)
  {
    if op.OpDelete? {
      assert r in db.reservations && SameTerms(r, r);
    } else {
      var i :| 0 <= i < |Step(db, op).reservations| && Step(db, op).reservations[i] == r;
      if i < |db.reservations| {
        TermsKept(db, op, i);
        assert db.reservations[i] in db.reservations;
      } else {
        AddedIsMade(db, op, i);
      }
    }
  }

  lemma SameMaker(db: Db, op: Op, a: Reservation, r: Reservation)
    requires MadeBy(db, op, a) && SameTerms(a, r)
    ensures MadeBy(db, op, r)
  {}

  /** The state some transactions of a history have led to. */
  function At(ops: seq<Op>, n: nat): Db
    requires n <= |ops|
  {
    Run(EMPTY, ops[..n])
  }

  lemma {:induction false} RunSnoc(db: Db, ops: seq<Op>, op: Op)
    ensures Run(db, ops + [op]) == Step(Run(db, ops), op)
    decreases |ops|
  {
    if ops == [] {
      assert ops + [op] == [op] && [op][1..] == [];
    } else {
      assert (ops + [op])[1..] == ops[1..] + [op];
      RunSnoc(Step(db, ops[0]), ops[1..], op);
    }
  }

  lemma NextAt(ops: seq<Op>, n: nat)
    requires n < |ops|
    ensures At(ops, n + 1) == Step(At(ops, n), ops[n])
  {
    assert ops[..n + 1] == ops[..n] + [ops[n]];
    RunSnoc(EMPTY, ops[..n], ops[n]);
  }

  lemma ValidAt(ops: seq<Op>, n: nat)
    requires n <= |ops|
    ensures Valid(At(ops, n))
  {
    EmptyValid();
    RunValid(EMPTY, ops[..n]);
  }

  lemma {:induction false} RowAtMadeBefore(ops: seq<Op>, n: nat, r: Reservation)
    requires n <= |ops| && r in At(ops, n).reservations
    ensures exists m :: 0 <= m < n && MadeBy(At(ops, m), ops[m], r)
  {
    if n > 0 {
      NextAt(ops, n - 1);
      ValidAt(ops, n - 1);
      RowsComeFrom(At(ops, n - 1), ops[n - 1], r);
      if !MadeBy(At(ops, n - 1), ops[n - 1], r) {
        var a :| a in At(ops, n - 1).reservations && SameTerms(a, r);
        RowAtMadeBefore(ops, n - 1, a);
        var m :| 0 <= m < n - 1 && MadeBy(At(ops, m), ops[m], a);
        SameMaker(At(ops, m), ops[m], a, r);
      }
    }
  }

  /**
   * In every reachable state, the terms of a row are those of a request approved on the
   * way there, or those of an event that belonged to no reservation when it came.
   */
  lemma EveryRowWasMade(ops: seq<Op>, r: Reservation)
    requires r in Run(EMPTY, ops).reservations
    ensures exists m :: 0 <= m < |ops| && MadeBy(At(ops, m), ops[m], r)
  {
    assert ops[..|ops|] == ops;
    RowAtMadeBefore(ops, |ops|, r);
  }
}
