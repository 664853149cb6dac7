/**
 * Lifecycle hooks retry. A repeated delivery leaves no trace, wherever it falls in the
 * history, and reusing an event id for something else changes nothing either.
 */
module LedgerRetries {
  import opened Wrappers
  import opened Ledger
  import opened LedgerInvariant

  /** The history without deliveries that repeat an earlier one, clock readings aside. */
  function WithoutRepeats(ops: seq<Op>, seen: set<Event>): seq<Op>
    decreases |ops|
  {
    if ops == [] then []
    else if !ops[0].OpLifecycle? then [ops[0]] + WithoutRepeats(ops[1..], seen)
    else if Semantics(ops[0].event) in seen then WithoutRepeats(ops[1..], seen)
    else [ops[0]] + WithoutRepeats(ops[1..], seen + {Semantics(ops[0].event)})
  }

  /** The event can never be recorded: its correlation id is taken as a task name. */
  predicate Blocked(db: Db, e: Event) {
    FindCorrelation(db.reservations, e.run, e.correlation).None?
    && TaskTaken(db.reservations, e.run, e.correlation)
  }

  predicate Handled(db: Db, e: Event) { (e.run, e.id) in db.events || Blocked(db, e) }

  lemma HandledIsNoOp(db: Db, e: Event, now: Time)
    requires Handled(db, e)
    ensures RecordLifecycle(db, e, now).0 == db
  {}

  lemma DeliveryHandles(db: Db, e: Event, now: Time)
    requires e.run in db.generations
    ensures Handled(RecordLifecycle(db, e, now).0, Semantics(e))
  {
    var after := RecordLifecycle(db, e, now).0;
    if (e.run, e.id) !in db.events && !Blocked(db, e) {
      assert (e.run, e.id) in after.events;
    }
  }

  lemma SameSemanticsHandled(db: Db, e: Event)
    ensures Handled(db, Semantics(e)) <==> Handled(db, e)
  {}

  /** Steps that neither approve nor delete never unblock an event. */
  lemma BlockedStays(db: Db, op: Op, e: Event)
    requires Blocked(db, e) && !op.OpDecide? && !op.OpDelete?
    ensures Blocked(Step(db, op), e)
  {
    var rows := Step(db, op).reservations;
    var i :| 0 <= i < |db.reservations| && db.reservations[i].run == e.run && db.reservations[i].task == e.correlation;
    RowAfter(db, op, i);
    assert rows[i].run == e.run && rows[i].task == e.correlation;
    forall j | 0 <= j < |rows|
      ensures !HasCorrelation(rows[j], e.run, e.correlation)
    {
      if j < |db.reservations| {
        RowAfter(db, op, j);
      } else if op.OpLifecycle? {
        LifecycleAdds(db, op.event, op.now, j);
      }
    }
  }

  lemma HandledStays(db: Db, op: Op, e: Event)
    requires Handled(db, e) && !op.OpDecide? && !op.OpDelete?
    ensures Handled(Step(db, op), e)
  {
    if (e.run, e.id) in db.events {
      EventsKept(db, op, (e.run, e.id));
    } else {
      BlockedStays(db, op, e);
    }
  }

  lemma GenerationsKept(db: Db, op: Op)
    requires !op.OpDelete?
    ensures db.generations.Keys <= Step(db, op).generations.Keys
  {}

  lemma {:induction false} PrunedRunIsRun(db: Db, ops: seq<Op>, seen: set<Event>)
    requires forall op :: op in ops ==> !op.OpDecide? && !op.OpDelete?
    requires forall op :: op in ops && op.OpLifecycle? ==> op.event.run in db.generations
    requires forall e :: e in seen ==> Handled(db, e)
    ensures Run(db, WithoutRepeats(ops, seen)) == Run(db, ops)
    decreases |ops|
  {
    if ops != [] {
      var op, rest := ops[0], ops[1..];
      assert op in ops;
      assert forall x :: x in rest ==> x in ops;
      var next := Step(db, op);
      GenerationsKept(db, op);
      forall e | e in seen ensures Handled(next, e) { HandledStays(db, op, e); }
      if op.OpLifecycle? && Semantics(op.event) in seen {
        SameSemanticsHandled(db, op.event);
        HandledIsNoOp(db, op.event, op.now);
        PrunedRunIsRun(db, rest, seen);
      } else {
        var seen' := if op.OpLifecycle? then seen + {Semantics(op.event)} else seen;
        if op.OpLifecycle? { DeliveryHandles(db, op.event, op.now); }
        PrunedRunIsRun(next, rest, seen');
        assert WithoutRepeats(ops, seen)[1..] == WithoutRepeats(rest, seen');
      }
    }
  }

  /**
   * Duplicate delivery is invisible: any history of events, sweeps, recoveries and
   * heartbeats ends in the same database as the history with repeats removed.
   */
  lemma RepeatsAreInvisible(db: Db, ops: seq<Op>)
    requires forall op :: op in ops ==> !op.OpDecide? && !op.OpDelete?
    requires forall op :: op in ops && op.OpLifecycle? ==> op.event.run in db.generations
    ensures Run(db, WithoutRepeats(ops, {})) == Run(db, ops)
  {
    PrunedRunIsRun(db, ops, {});
  }

  lemma {:induction false} StaysRecorded(db: Db, ops: seq<Op>, k: (Id, Id))
    requires k in db.events
    requires forall op :: op in ops && op.OpDelete? ==> op.run != k.0
    ensures k in Run(db, ops).events && Run(db, ops).events[k] == db.events[k]
    decreases |ops|
  {
    if ops != [] {
      assert ops[0] in ops;
      EventsKept(db, ops[0], k);
      StaysRecorded(Step(db, ops[0]), ops[1..], k);
    }
  }

  // ---- Repeats of accepted deliveries ---------------------------------------------------

  /** Does this transaction leave the run in place? Only a deletion that goes through does not. */
  predicate Spares(db: Db, op: Op, run: Id) {
    op.OpDelete? && op.run == run ==> DeleteRun(db, run, op.now).1.Err?
  }

  /** The deliveries accepted so far, clock readings aside, in runs not deleted since. */
  function AcceptedBy(db: Db, op: Op, accepted: set<Event>): set<Event> {
    if op.OpLifecycle? && RecordLifecycle(db, op.event, op.now).1.Ok? then accepted + {Semantics(op.event)}
    else set e | e in accepted && Spares(db, op, e.run)
  }

  /** The history without the deliveries that repeat an accepted one. */
  function WithoutAccepted(db: Db, ops: seq<Op>, accepted: set<Event>): seq<Op>
    decreases |ops|
  {
    if ops == [] then []
    else if ops[0].OpLifecycle? && Semantics(ops[0].event) in accepted
    then WithoutAccepted(db, ops[1..], accepted)
    else [ops[0]] + WithoutAccepted(Step(db, ops[0]), ops[1..], AcceptedBy(db, ops[0], accepted))
  }

  predicate AllRecorded(db: Db, accepted: set<Event>) {
    forall e :: e in accepted ==> (e.run, e.id) in db.events
  }

  lemma SparedStays(db: Db, op: Op, e: Event)
    requires (e.run, e.id) in db.events && Spares(db, op, e.run)
    ensures (e.run, e.id) in Step(db, op).events
  {
    if !(op.OpDelete? && op.run == e.run) { EventsKept(db, op, (e.run, e.id)); }
  }

  lemma AcceptedIsRecorded(db: Db, e: Event, now: Time)
    requires RecordLifecycle(db, e, now).1.Ok?
    ensures (e.run, e.id) in RecordLifecycle(db, e, now).0.events
  {}

  lemma AllRecordedStays(db: Db, op: Op, accepted: set<Event>)
    requires AllRecorded(db, accepted)
    ensures AllRecorded(Step(db, op), AcceptedBy(db, op, accepted))
  {
    if op.OpLifecycle? && RecordLifecycle(db, op.event, op.now).1.Ok? {
      AcceptedIsRecorded(db, op.event, op.now);
    }
    forall e | e in accepted && Spares(db, op, e.run) ensures (e.run, e.id) in Step(db, op).events {
      SparedStays(db, op, e);
    }
  }

  lemma {:induction false} WithoutAcceptedRunIsRun(db: Db, ops: seq<Op>, accepted: set<Event>)
    requires AllRecorded(db, accepted)
    ensures Run(db, WithoutAccepted(db, ops, accepted)) == Run(db, ops)
    decreases |ops|
  {
    if ops != [] {
      var op, rest := ops[0], ops[1..];
      if op.OpLifecycle? && Semantics(op.event) in accepted {
        assert (Semantics(op.event).run, Semantics(op.event).id) in db.events;
        HandledIsNoOp(db, op.event, op.now);
        WithoutAcceptedRunIsRun(db, rest, accepted);
      } else {
        var more := AcceptedBy(db, op, accepted);
        AllRecordedStays(db, op, accepted);
        WithoutAcceptedRunIsRun(Step(db, op), rest, more);
        RunFirst(db, op, WithoutAccepted(Step(db, op), rest, more));
      }
    }
  }

  lemma RunFirst(db: Db, op: Op, rest: seq<Op>)
    ensures Run(db, [op] + rest) == Run(Step(db, op), rest)
  {
    assert ([op] + rest)[1..] == rest;
  }

  /**
   * Whatever transactions a history holds, approvals and deletions included, it ends in
   * the same database without the deliveries that repeat one accepted earlier in a run not
   * deleted since.
   */
  lemma AcceptedRepeatsAreInvisible(db: Db, ops: seq<Op>)
    ensures Run(db, WithoutAccepted(db, ops, {})) == Run(db, ops)
  {
    WithoutAcceptedRunIsRun(db, ops, {});
  }

  /** Two deliveries say the same if they differ in nothing but when things are said to have occurred. */
  predicate SayTheSame(a: Event, b: Event) {
    && a.id == b.id && a.run == b.run && a.correlation == b.correlation && a.kind == b.kind && a.status == b.status
    && a.cost == b.cost && a.estimated == b.estimated && (a.usage.Some? <==> b.usage.Some?)
    && (a.usage.Some? ==>
          var u, v := a.usage.value, b.usage.value;
          && u.source == v.source && u.parser == v.parser && u.model == v.model && u.tokens == v.tokens
          && u.measured == v.measured)
  }

  lemma SameExactly(a: Event, b: Event)
    ensures Semantics(a) == Semantics(b) <==> SayTheSame(a, b)
  {
    var c, d := Semantics(a), Semantics(b);
    assert c.usage.Some? ==> c.usage.value == a.usage.value.(occurred := 0.0);
    assert d.usage.Some? ==> d.usage.value == b.usage.value.(occurred := 0.0);
    if SayTheSame(a, b) { assert c == d; }
  }

  /** An event recorded in a valid database: delivering its id again. */
  lemma RecordedIdIsSpent(s: Db, stored: Event, again: Event, later: Time)
    requires Valid(s) && (again.run, again.id) in s.events && s.events[(again.run, again.id)] == stored
    ensures RecordLifecycle(s, again, later).0 == s
    ensures RecordLifecycle(s, again, later).1.Ok? <==> Semantics(again) == Semantics(stored)
    ensures RecordLifecycle(s, again, later).1 == Err(ConflictingEvent) <==> Semantics(again) != Semantics(stored)
  {
    assert EventSound(s, (again.run, again.id));
    var i :| 0 <= i < |s.reservations| && HasCorrelation(s.reservations[i], stored.run, stored.correlation);
    assert FindCorrelation(s.reservations, stored.run, stored.correlation).Some?;
    if Semantics(again) == Semantics(stored) { SameCorrelation(again, stored); }
  }

  lemma SameCorrelation(a: Event, b: Event)
    requires Semantics(a) == Semantics(b)
    ensures a.run == b.run && a.correlation == b.correlation
  {
    assert a.correlation == Semantics(a).correlation == b.correlation;
    assert a.run == Semantics(a).run == b.run;
  }

  lemma AcceptedMeans(db: Db, e: Event, now: Time)
    requires RecordLifecycle(db, e, now).1.Ok?
    ensures var after := RecordLifecycle(db, e, now).0;
            (e.run, e.id) in after.events && Semantics(after.events[(e.run, e.id)]) == Semantics(e)
  {}

  lemma AcceptedLeaves(db: Db, e: Event, now: Time, after: Db)
    requires Valid(db) && RecordLifecycle(db, e, now).1.Ok? && after == RecordLifecycle(db, e, now).0
    ensures Valid(after)
    ensures (e.run, e.id) in after.events && Semantics(after.events[(e.run, e.id)]) == Semantics(e)
  {
    AcceptedMeans(db, e, now);
    assert Valid(after) by {
      LifecycleTables(db, e, now);
      RecordCoherent(db, e, now);
    }
  }

  lemma SpentLater(db: Db, e: Event, ops: seq<Op>, s: Db, again: Event, later: Time)
    requires Valid(db) && (e.run, e.id) in db.events && Semantics(db.events[(e.run, e.id)]) == Semantics(e)
    requires (forall op :: op in ops && op.OpDelete? ==> op.run != e.run) && s == Run(db, ops)
    requires again.run == e.run && again.id == e.id
    ensures RecordLifecycle(s, again, later).0 == s
    ensures RecordLifecycle(s, again, later).1.Ok? <==> Semantics(again) == Semantics(e)
    ensures RecordLifecycle(s, again, later).1 == Err(ConflictingEvent) <==> Semantics(again) != Semantics(e)
  {
    RunValid(db, ops);
    StaysRecorded(db, ops, (e.run, e.id));
    RecordedIdIsSpent(s, db.events[(e.run, e.id)], again, later);
  }

  /**
   * After an event has been accepted, its id is spent for as long as the run exists,
   * whatever else happens, approvals included: delivering the id again changes nothing,
   * and succeeds exactly when it says the same thing.
   */
  lemma AcceptedIdIsSpent(db: Db, e: Event, now: Time, after: Db, ops: seq<Op>, s: Db,
                          again: Event, later: Time)
    requires Valid(db) && RecordLifecycle(db, e, now).1.Ok? && after == RecordLifecycle(db, e, now).0
    requires (forall op :: op in ops && op.OpDelete? ==> op.run != e.run) && s == Run(after, ops)
    requires again.run == e.run && again.id == e.id
    ensures RecordLifecycle(s, again, later).0 == s
    ensures RecordLifecycle(s, again, later).1.Ok? <==> SayTheSame(again, e)
    ensures RecordLifecycle(s, again, later).1 == Err(ConflictingEvent) <==> !SayTheSame(again, e)
  {
    AcceptedLeaves(db, e, now, after);
    SameExactly(again, e);
    SpentLater(after, e, ops, s, again, later);
  }

  /**
   * The one way an accepted correlation can be refused: another reservation of the run
   * carries that correlation id as its task name, so the orphan row breaks a unique key
   * and the whole delivery is undone.
   */
  lemma RefusedExactly(db: Db, e: Event, now: Time)
    requires e.run in db.generations && (e.run, e.id) !in db.events
    ensures RecordLifecycle(db, e, now).1 == Err(UniqueViolation) <==> Blocked(db, e)
    ensures Blocked(db, e) ==> RecordLifecycle(db, e, now).0 == db
    ensures !Blocked(db, e) ==> RecordLifecycle(db, e, now).1.Ok?
  {
    if !Blocked(db, e) {
      var moved := Deliver(db, e, now).value;
      match FindCorrelation(db.reservations, e.run, e.correlation)
      case Some(i) =>
        assert HasCorrelation(moved.reservations[i], e.run, e.correlation);
      case None =>
        assert HasCorrelation(moved.reservations[|db.reservations|], e.run, e.correlation);
    }
  }
}
