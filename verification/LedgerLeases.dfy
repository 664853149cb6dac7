/**
 * A run's lease and generation, told by the history: the last renewal decides how long
 * requests are heard and deletion is refused, and the last creation decides the generation.
 */
module LedgerLeases {
  import opened Wrappers
  import opened Ledger
  import opened LedgerRows
  import opened LedgerUsage

  /** The transaction creates the run, or creates it anew. */
  predicate Creates(op: Op, run: Id) { op.OpCreate? && op.run == run && op.generation >= 0 && op.lease >= 1 }

  /** The transaction renews the run's lease. */
  predicate Renews(db: Db, op: Op, run: Id) {
    Creates(op, run) || (op.OpHeartbeat? && op.run == run && run in db.leases)
  }

  /** When the lease it sets runs out. */
  function Until(op: Op): Time
    requires op.OpCreate? || op.OpHeartbeat?
  {
    op.now + op.lease as real
  }

  lemma RunAfter(db: Db, op: Op, run: Id)
    ensures var after := Step(db, op);
            && (run in after.leases <==> !Deletes(db, op, run) && (run in db.leases || Renews(db, op, run)))
            && (Renews(db, op, run) ==> after.leases[run] == Until(op))
            && (run in db.leases && run in after.leases && !Renews(db, op, run) ==>
                  after.leases[run] == db.leases[run])
    ensures var after := Step(db, op);
            && (run in after.generations <==> !Deletes(db, op, run) && (run in db.generations || Creates(op, run)))
            && (Creates(op, run) ==> after.generations[run] == op.generation)
            && (run in db.generations && run in after.generations && !Creates(op, run) ==>
                  after.generations[run] == db.generations[run])
  {
    if !op.OpCreate? && !op.OpHeartbeat? && !op.OpDelete? { SameRuns(db, op); }
  }

  lemma SameRuns(db: Db, op: Op)
    requires !op.OpCreate? && !op.OpHeartbeat? && !op.OpDelete?
    ensures Step(db, op).leases == db.leases && Step(db, op).generations == db.generations
  {}

  /** The last renewal of the run's lease before m, with no deletion since. */
  ghost predicate LastRenewal(ops: seq<Op>, n: nat, m: nat, run: Id)
    requires m <= |ops|
  {
    && n < m && Renews(At(ops, n), ops[n], run)
    && forall j: nat :: n < j < m ==> !Renews(At(ops, j), ops[j], run) && !Deletes(At(ops, j), ops[j], run)
  }

  lemma LastRenewalNext(ops: seq<Op>, n: nat, m: nat, run: Id)
    requires m < |ops|
    ensures LastRenewal(ops, n, m + 1, run) <==>
              if Renews(At(ops, m), ops[m], run) then n == m
              else LastRenewal(ops, n, m, run) && !Deletes(At(ops, m), ops[m], run)
  {}

  ghost predicate LeaseKnown(ops: seq<Op>, m: nat, run: Id)
    requires m <= |ops|
  {
    && (run in At(ops, m).leases <==> exists n: nat :: LastRenewal(ops, n, m, run))
    && (forall n: nat :: LastRenewal(ops, n, m, run) ==>
          run in At(ops, m).leases && At(ops, m).leases[run] == Until(ops[n]))
  }

  lemma LeaseKnownNext(ops: seq<Op>, m: nat, run: Id)
    requires m < |ops| && LeaseKnown(ops, m, run)
    ensures LeaseKnown(ops, m + 1, run)
  {
    NextAt(ops, m);
    RunAfter(At(ops, m), ops[m], run);
    LastRenewalNext(ops, m, m, run);
    if n: nat :| LastRenewal(ops, n, m, run) { LastRenewalNext(ops, n, m, run); }
    forall n: nat | LastRenewal(ops, n, m + 1, run)
      ensures run in At(ops, m + 1).leases && At(ops, m + 1).leases[run] == Until(ops[n])
    {
      LastRenewalNext(ops, n, m, run);
    }
  }

  /** A run has a lease exactly when it was renewed and not deleted since, and the last renewal says until when. */
  lemma {:induction false} LeaseIsLastRenewal(ops: seq<Op>, m: nat, run: Id)
    requires m <= |ops|
    ensures run in At(ops, m).leases <==> exists n: nat :: LastRenewal(ops, n, m, run)
    ensures forall n: nat :: LastRenewal(ops, n, m, run) ==> At(ops, m).leases[run] == Until(ops[n])
  {
    if m > 0 {
      LeaseIsLastRenewal(ops, m - 1, run);
      LeaseKnownNext(ops, m - 1, run);
    }
  }

  /**
   * What the last renewal decides: until the lease runs out the run cannot be deleted, and
   * from then on no request is granted.
   */
  lemma LeaseDecides(ops: seq<Op>, n: nat, m: nat, run: Id, now: Time)
    requires m <= |ops| && LastRenewal(ops, n, m, run)
    ensures DeleteRun(At(ops, m), run, now).1 == Err(ActiveLease) <==> now < Until(ops[n])
    ensures now < Until(ops[n]) ==> DeleteRun(At(ops, m), run, now).0 == At(ops, m)
    ensures Until(ops[n]) <= now ==> DeleteRun(At(ops, m), run, now).1.Ok?
    ensures forall req: Request, evaluator :: req.run == run && Until(ops[n]) <= now ==>
              !Grants(At(ops, m), req, evaluator, now)
  {
    LeaseIsLastRenewal(ops, m, run);
    ValidAt(ops, m);
  }

  /** The last creation of the run before m, with no deletion since. */
  ghost predicate LastCreation(ops: seq<Op>, n: nat, m: nat, run: Id)
    requires m <= |ops|
  {
    && n < m && Creates(ops[n], run)
    && forall j: nat :: n < j < m ==> !Creates(ops[j], run) && !Deletes(At(ops, j), ops[j], run)
  }

  lemma LastCreationNext(ops: seq<Op>, n: nat, m: nat, run: Id)
    requires m < |ops|
    ensures LastCreation(ops, n, m + 1, run) <==>
              if Creates(ops[m], run) then n == m else LastCreation(ops, n, m, run) && !Deletes(At(ops, m), ops[m], run)
  {}

  ghost predicate GenerationKnown(ops: seq<Op>, m: nat, run: Id)
    requires m <= |ops|
  {
    && (run in At(ops, m).generations <==> exists n: nat :: LastCreation(ops, n, m, run))
    && (forall n: nat :: LastCreation(ops, n, m, run) ==>
          run in At(ops, m).generations && At(ops, m).generations[run] == ops[n].generation)
  }

  lemma GenerationKnownNext(ops: seq<Op>, m: nat, run: Id)
    requires m < |ops| && GenerationKnown(ops, m, run)
    ensures GenerationKnown(ops, m + 1, run)
  {
    NextAt(ops, m);
    RunAfter(At(ops, m), ops[m], run);
    LastCreationNext(ops, m, m, run);
    if n: nat :| LastCreation(ops, n, m, run) { LastCreationNext(ops, n, m, run); }
    forall n: nat | LastCreation(ops, n, m + 1, run)
      ensures run in At(ops, m + 1).generations && At(ops, m + 1).generations[run] == ops[n].generation
    {
      LastCreationNext(ops, n, m, run);
    }
  }

  /** A run exists exactly when it was created and not deleted since, in the generation of the last creation. */
  lemma {:induction false} GenerationIsLastCreation(ops: seq<Op>, m: nat, run: Id)
    requires m <= |ops|
    ensures run in At(ops, m).generations <==> exists n: nat :: LastCreation(ops, n, m, run)
    ensures forall n: nat :: LastCreation(ops, n, m, run) ==> At(ops, m).generations[run] == ops[n].generation
  {
    if m > 0 {
      GenerationIsLastCreation(ops, m - 1, run);
      GenerationKnownNext(ops, m - 1, run);
    }
  }

  /** Only requests of the generation last created are granted. */
  lemma GrantedInGeneration(ops: seq<Op>, n: nat, m: nat, req: Request, evaluator: Snapshot -> Spec, now: Time)
    requires m <= |ops| && LastCreation(ops, n, m, req.run) && Grants(At(ops, m), req, evaluator, now)
    ensures req.generation == ops[n].generation
  {
    GenerationIsLastCreation(ops, m, req.run);
  }
}
