/**
 * The conductor's store: the tables as mutable fields, and one method per transaction.
 * Each method is tied to the transaction's specification and keeps the ledger valid.
 */
module ConductorStore {
  import opened Wrappers
  import opened Sums
  import L = Ledger
  import Inv = LedgerInvariant

  class Store {
    var generations: map<L.Id, int>
    var leases: map<L.Id, L.Time>
    var reservations: seq<L.Reservation>
    var decisions: seq<L.Decision>
    var events: map<(L.Id, L.Id), L.Event>
    var costs: seq<L.CostRow>
    var usage: map<(L.Id, L.Id, string), L.Usage>
    var nextId: nat

    function View(): L.Db
      reads this
    {
      L.Db(generations, leases, reservations, decisions, events, costs, usage, nextId)
    }

    constructor ()
      ensures View() == L.EMPTY && Inv.Valid(View())
    {
      generations, leases, events, usage := map[], map[], map[], map[];
      reservations, decisions, costs := [], [], [];
      nextId := 0;
    }

    method CreateRun(run: L.Id, generation: int, lease: int, now: L.Time) returns (r: Result<(), L.Error>)
      modifies this
      ensures (View(), r) == L.CreateRun(old(View()), run, generation, lease, now)
      ensures Inv.Valid(old(View())) ==> Inv.Valid(View())
    {
      r := Err(L.InvalidArgument);
      if generation >= 0 && lease >= 1 {
        generations := generations[run := generation];
        leases := leases[run := now + lease as real];
        r := Ok(());
      }
      Inv.StaysValid(old(View()), View(), L.OpCreate(run, generation, lease, now));
    }

    method Heartbeat(run: L.Id, lease: int, now: L.Time) returns (r: Result<(), L.Error>)
      modifies this
      ensures (View(), r) == L.Heartbeat(old(View()), run, lease, now)
      ensures Inv.Valid(old(View())) ==> Inv.Valid(View())
    {
      r := Err(L.NoLease);
      if run in leases {
        leases := leases[run := now + lease as real];
        r := Ok(());
      }
      Inv.StaysValid(old(View()), View(), L.OpHeartbeat(run, lease, now));
    }

    /** Two updates: overdue approvals expire, then overdue starts become recoverable. */
    method ExpireReservations(now: L.Time)
      modifies this`reservations
      ensures View() == L.Sweep(old(View()), now)
      ensures Inv.Valid(old(View())) ==> Inv.Valid(View())
    {
      var rows := [];
      for i := 0 to |reservations|
        invariant reservations == old(reservations)
        invariant |rows| == i && forall j :: 0 <= j < i ==> rows[j] == L.ExpireRow(reservations[j], now)
      {
        var r := reservations[i];
        if r.state == L.Approved && r.expires <= now {
          r := r.(state := L.Expired, recoverable := false, reason := None);
        }
        if r.state == L.Started && r.expires <= now && !r.recoverable {
          r := r.(recoverable := true, reason := Some("started reservation exceeded TTL"));
        }
        rows := rows + [r];
      }
      reservations := rows;
      Inv.StaysValid(old(View()), View(), L.OpSweep(now));
    }

    method DecideAndReserve(req: L.Request, evaluator: L.Snapshot -> L.Spec, now: L.Time)
      returns (r: Result<L.Decision, L.Error>)
      modifies this
      ensures (View(), r) == L.DecideAndReserve(old(View()), req, evaluator, now)
      ensures Inv.Valid(old(View())) ==> Inv.Valid(View())
    {
      var before := reservations;
      ExpireReservations(now);
      var existing := L.FindDecision(decisions, req.run, req.key);
      if existing.Some? {
        r := Ok(decisions[existing.value]);
      } else if req.run !in generations {
        reservations := before;  // the transaction rolls back
        r := Err(L.NoRun);
      } else {
        var spec := Judge(req, evaluator, now);
        var d := Enact(req, spec, now);
        r := Ok(d);
      }
      Inv.StaysValid(old(View()), View(), L.OpDecide(req, evaluator, now));
    }

    /** Write the verdict down, and the reservation if there is to be one. */
    method Enact(req: L.Request, spec: L.Spec, now: L.Time) returns (d: L.Decision)
      modifies this`reservations, this`nextId, this`decisions
      ensures (View(), d) == L.Enact(old(View()), req, spec, now)
    {
      var reserved: Option<nat> := None;
      if spec.allowed && spec.reserve {
        reserved := Some(nextId);
        reservations := reservations + [L.Granted(req, nextId, now)];
        nextId := nextId + 1;
      }
      d := L.Decision(req.run, req.key, reserved, spec.allowed, spec.rule, spec.selectedModel, req.estimate,
                      spec.savings);
      decisions := decisions + [d];
    }

    method Judge(req: L.Request, evaluator: L.Snapshot -> L.Spec, now: L.Time) returns (spec: L.Spec)
      requires req.run in generations
      ensures spec == L.Judge(View(), req, evaluator, now)
    {
      if generations[req.run] != req.generation { return L.Deny("STALE_GENERATION"); }
      if req.run !in leases || leases[req.run] <= now { return L.Deny("RUN_LEASE_EXPIRED"); }
      if req.correlation.Some? {
        var same := L.FindCorrelation(reservations, req.run, req.correlation.value);
        if same.Some? { return L.Deny("DUPLICATE_CORRELATION"); }
      }
      if L.TaskTaken(reservations, req.run, req.task) { return L.Deny("DUPLICATE_RESERVATION"); }
      spec := evaluator(L.TakeSnapshot(View(), req.run));
    }

    method RecordLifecycle(e: L.Event, now: L.Time) returns (r: Result<L.Reservation, L.Error>)
      modifies this
      ensures (View(), r) == L.RecordLifecycle(old(View()), e, now)
      ensures Inv.Valid(old(View())) ==> Inv.Valid(View())
    {
      if e.run !in generations {
        r := Err(L.NoRun);
      } else if (e.run, e.id) in events {
        r := if L.Semantics(events[(e.run, e.id)]) != L.Semantics(e) then Err(L.ConflictingEvent)
             else L.Fetch(View(), e.run, e.correlation);
      } else {
        var ok := Deliver(e, now);
        r := Err(L.UniqueViolation);
        if ok {
          Account(e);
          r := L.Fetch(View(), e.run, e.correlation);
        }
      }
      Inv.StaysValid(old(View()), View(), L.OpLifecycle(e, now));
    }

    /** Move the reservation the event belongs to, or make one for an orphan. */
    method Deliver(e: L.Event, now: L.Time) returns (ok: bool)
      modifies this`reservations, this`nextId
      ensures ok <==> L.Deliver(old(View()), e, now).Some?
      ensures View() == if ok then L.Deliver(old(View()), e, now).value else old(View())
    {
      ok := true;
      var row := L.FindCorrelation(reservations, e.run, e.correlation);
      if row.Some? {
        var found := reservations[row.value];
        var (state, recoverable, reason) := L.Transition(found.state, found.recoverable, found.reason, e.kind);
        reservations := reservations[row.value := found.(state := state, recoverable := recoverable, reason := reason)];
      } else if L.TaskTaken(reservations, e.run, e.correlation) {
        ok := false;
      } else {
        reservations := reservations + [L.Orphan(e, nextId, now)];
        nextId := nextId + 1;
      }
    }

    method Account(e: L.Event)
      modifies this`events, this`usage, this`costs
      ensures View() == L.Account(old(View()), e)
    {
      events := events[(e.run, e.id) := e];
      if e.usage.Some? {
        var key := (e.run, e.usage.value.source, e.usage.value.parser);
        if key !in usage { usage := usage[key := e.usage.value]; }
      }
      if e.cost.Some? {
        costs := costs + [L.CostRow(e.run, e.id, e.correlation, e.cost.value, e.estimated == Some(true))];
      }
    }

    method ResolveRecovery(run: L.Id, id: nat, outcome: L.Outcome) returns (r: Result<L.Reservation, L.Error>)
      modifies this
      ensures (View(), r) == L.ResolveRecovery(old(View()), run, id, outcome)
      ensures Inv.Valid(old(View())) ==> Inv.Valid(View())
    {
      var found := L.FindId(reservations, run, id);
      if found.None? {
        r := Err(L.NoReservation);
      } else if !reservations[found.value].recoverable {
        r := Err(L.NotRecoverable);
      } else {
        var i := found.value;
        reservations := reservations[i :=
          reservations[i].(state := L.OutcomeState(outcome), recoverable := false, reason := None)];
        r := Ok(reservations[i]);
      }
      Inv.StaysValid(old(View()), View(), L.OpResolve(run, id, outcome));
    }

    method DeleteRun(run: L.Id, now: L.Time) returns (r: Result<(), L.Error>)
      modifies this
      ensures (View(), r) == L.DeleteRun(old(View()), run, now)
      ensures Inv.Valid(old(View())) ==> Inv.Valid(View())
    {
      if run in leases && leases[run] > now {
        r := Err(L.ActiveLease);
      } else if run !in generations {
        r := Err(L.NoRun);
      } else {
        Purge(run);
        r := Ok(());
      }
      Inv.StaysValid(old(View()), View(), L.OpDelete(run, now));
    }

    /** Deleting the run row takes every row that refers to it. */
    method Purge(run: L.Id)
      modifies this
      ensures View() == L.Purge(old(View()), run)
    {
      generations := generations - {run};
      leases := leases - {run};
      reservations := Filter((x: L.Reservation) => x.run != run, reservations);
      decisions := Filter((x: L.Decision) => x.run != run, decisions);
      events := L.EventsWithout(events, run);
      costs := Filter((x: L.CostRow) => x.run != run, costs);
      usage := L.UsageWithout(usage, run);
    }
  }
}
