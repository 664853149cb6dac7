/**
 * The per-tier report: reservations left-joined with their costs and decisions, grouped
 * by tier. Money is conserved by the join; savings are counted once per cost row.
 */
module LedgerReport {
  import opened Wrappers
  import opened Sums
  import opened Ledger
  import opened LedgerInvariant

  datatype JoinRow = JoinRow(reservation: Reservation, cost: Option<CostRow>, decision: Option<Decision>)

  // ---- The join ---------------------------------------------------------------

  /** The rows a left join offers for one side: one empty row when nothing matches. */
  function Optional<T>(s: seq<T>): (r: seq<Option<T>>)
    ensures |r| == if |s| == 0 then 1 else |s|
  {
    if s == [] then [None] else seq(|s|, i requires 0 <= i < |s| => Some(s[i]))
  }

  predicate PaysFor(r: Reservation, c: CostRow) {
    c.run == r.run && r.correlation == Some(c.correlation)
  }

  function Pays(r: Reservation): CostRow -> bool { (c: CostRow) => PaysFor(r, c) }

  function Decides(r: Reservation): Decision -> bool {
    (d: Decision) => d.reservation == Some(r.id)
  }

  function WithDecisions(r: Reservation, c: Option<CostRow>, ds: seq<Option<Decision>>): seq<JoinRow> {
    seq(|ds|, i requires 0 <= i < |ds| => JoinRow(r, c, ds[i]))
  }

  function Cross(r: Reservation, cs: seq<Option<CostRow>>, ds: seq<Option<Decision>>): seq<JoinRow> {
    if cs == [] then [] else WithDecisions(r, cs[0], ds) + Cross(r, cs[1..], ds)
  }

  function JoinFor(db: Db, r: Reservation): seq<JoinRow> {
    Cross(r, Optional(Filter(Pays(r), db.costs)), Optional(Filter(Decides(r), db.decisions)))
  }

  function JoinAll(db: Db, rows: seq<Reservation>, run: Id): seq<JoinRow> {
    if rows == [] then []
    else (if rows[0].run == run then JoinFor(db, rows[0]) else []) + JoinAll(db, rows[1..], run)
  }

  function Joined(db: Db, run: Id): seq<JoinRow> { JoinAll(db, db.reservations, run) }

  // ---- What is aggregated ---------------------------------------------------------

  function TierName(t: Option<Id>): Id { if t.Some? then t.value else "unknown" }

  function MeasuredUsd(): JoinRow -> real {
    (x: JoinRow) => if x.cost.Some? && !x.cost.value.estimated then x.cost.value.usd else 0.0
  }

  function EstimatedUsd(): JoinRow -> real {
    (x: JoinRow) => if x.cost.Some? && x.cost.value.estimated then x.cost.value.usd else 0.0
  }

  function SavingsFlag(): JoinRow -> real {
    (x: JoinRow) => if x.decision.Some? && x.decision.value.savings then 1.0 else 0.0
  }

  function TierShare(f: JoinRow -> real, tier: Id, x: JoinRow): real {
    if TierName(x.reservation.tier) == tier then f(x) else 0.0
  }

  function InTier(f: JoinRow -> real, tier: Id): JoinRow -> real { (x: JoinRow) => TierShare(f, tier, x) }

  /** One aggregate column of one group of the report. */
  function TierTotal(f: JoinRow -> real, rows: seq<JoinRow>, tier: Id): real {
    Sum(InTier(f, tier), rows)
  }

  function TierTotals(f: JoinRow -> real, rows: seq<JoinRow>): Id -> real {
    (tier: Id) => TierTotal(f, rows, tier)
  }

  ghost predicate GroupsOf(names: seq<Id>, rows: seq<JoinRow>) {
    && (forall i, j :: 0 <= i < j < |names| ==> names[i] != names[j])
    && (forall x :: x in rows ==> TierName(x.reservation.tier) in names)
  }

  // ---- Grouping conserves sums ------------------------------------------------------

  function AcrossTiers(f: JoinRow -> real, x: JoinRow): Id -> real {
    (tier: Id) => TierShare(f, tier, x)
  }

  lemma {:induction false} OneGroupPays(f: JoinRow -> real, x: JoinRow, names: seq<Id>)
    requires forall i, j :: 0 <= i < j < |names| ==> names[i] != names[j]
    ensures Sum(AcrossTiers(f, x), names)
         == if TierName(x.reservation.tier) in names then f(x) else 0.0
  {
    if names != [] {
      var rest := names[1..];
      assert forall i, j :: 0 <= i < j < |rest| ==> rest[i] == names[i + 1] && rest[j] == names[j + 1];
      OneGroupPays(f, x, rest);
      assert names[0] !in rest;
    }
  }

  lemma {:induction false} SumPlus<T(!new)>(f: T -> real, g: T -> real, h: T -> real, s: seq<T>)
    requires forall x :: x in s ==> h(x) == f(x) + g(x)
    ensures Sum(h, s) == Sum(f, s) + Sum(g, s)
  {
    if s != [] {
      assert s[0] in s;
      SumPlus(f, g, h, s[1..]);
    }
  }

  lemma {:induction false} GroupsConserve(f: JoinRow -> real, rows: seq<JoinRow>, names: seq<Id>)
    requires GroupsOf(names, rows)
    ensures Sum(TierTotals(f, rows), names) == Sum(f, rows)
  {
    if rows == [] {
      SumZero(TierTotals(f, rows), names);
    } else {
      assert rows[0] in rows;
      GroupsConserve(f, rows[1..], names);
      OneGroupPays(f, rows[0], names);
      SumPlus(AcrossTiers(f, rows[0]), TierTotals(f, rows[1..]), TierTotals(f, rows), names);
    }
  }

  // ---- The join conserves costs ------------------------------------------------------

  lemma {:induction false} CrossOfOne(f: JoinRow -> real, g: CostRow -> real, r: Reservation,
                                      cs: seq<Option<CostRow>>, d: Option<Decision>)
    requires forall c :: f(JoinRow(r, Some(c), d)) == g(c)
    requires f(JoinRow(r, None, d)) == 0.0
    ensures Sum(f, Cross(r, cs, [d])) == Sum(OfOption(g), cs)
  {
    if cs != [] {
      assert WithDecisions(r, cs[0], [d]) == [JoinRow(r, cs[0], d)];
      SumConcat(f, [JoinRow(r, cs[0], d)], Cross(r, cs[1..], [d]));
      assert Sum(f, [JoinRow(r, cs[0], d)]) == f(JoinRow(r, cs[0], d)) + Sum(f, []);
      CrossOfOne(f, g, r, cs[1..], d);
    }
  }

  function OfOption(g: CostRow -> real): Option<CostRow> -> real {
    (c: Option<CostRow>) => if c.Some? then g(c.value) else 0.0
  }

  lemma {:induction false} SumSome(g: CostRow -> real, s: seq<CostRow>, t: seq<Option<CostRow>>)
    requires |t| == |s| && forall i :: 0 <= i < |s| ==> t[i] == Some(s[i])
    ensures Sum(OfOption(g), t) == Sum(g, s)
  {
    if s != [] {
      SumSome(g, s[1..], t[1..]);
    }
  }

  lemma SumOptional(g: CostRow -> real, s: seq<CostRow>)
    ensures Sum(OfOption(g), Optional(s)) == Sum(g, s)
  {
    if s != [] {
      SumSome(g, s, Optional(s));
    }
  }

  /** A reservation carries at most one decision, so its join rows are its costs, once each. */
  lemma AtMostOneDecision(ds: seq<Decision>, r: Reservation)
    requires Pairwise(DecisionsApart(), ds)
    ensures |Filter(Decides(r), ds)| <= 1
  {
    PairwiseFilter(DecisionsApart(), Decides(r), ds);
    var found := Filter(Decides(r), ds);
    assert forall d :: d in found ==> d.reservation == Some(r.id);
    if found != [] {
      var k := if |found| > 1 then 1 else 0;
      var a, b := found[0], found[k];
      assert k == 0 || DecisionsApart()(a, b);
      assert a.reservation == b.reservation;
    }
  }

  function Share(g: CostRow -> real, r: Reservation, c: CostRow): real {
    if PaysFor(r, c) then g(c) else 0.0
  }

  function PaidFor(g: CostRow -> real, r: Reservation): CostRow -> real {
    (c: CostRow) => Share(g, r, c)
  }

  lemma {:induction false} FilterIsPaidFor(g: CostRow -> real, r: Reservation, cs: seq<CostRow>)
    ensures Sum(g, Filter(Pays(r), cs)) == Sum(PaidFor(g, r), cs)
  {
    if cs != [] {
      FilterIsPaidFor(g, r, cs[1..]);
      if PaysFor(r, cs[0]) {
        assert Filter(Pays(r), cs)[1..] == Filter(Pays(r), cs[1..]);
      } else {
        assert Filter(Pays(r), cs) == Filter(Pays(r), cs[1..]);
      }
    }
  }

  lemma JoinForCosts(f: JoinRow -> real, g: CostRow -> real, db: Db, r: Reservation)
    requires Tables(db)
    requires forall c, d :: f(JoinRow(r, Some(c), d)) == g(c)
    requires forall d :: f(JoinRow(r, None, d)) == 0.0
    ensures Sum(f, JoinFor(db, r)) == Sum(PaidFor(g, r), db.costs)
  {
    var cs := Filter(Pays(r), db.costs);
    AtMostOneDecision(db.decisions, r);
    var ds := Optional(Filter(Decides(r), db.decisions));
    assert ds == [ds[0]];
    CrossOfOne(f, g, r, Optional(cs), ds[0]);
    SumOptional(g, cs);
    FilterIsPaidFor(g, r, db.costs);
  }

  /** What one cost row brings in over all the reservations of a run. */
  function CollectedBy(g: CostRow -> real, c: CostRow, run: Id): Reservation -> real {
    (r: Reservation) => if r.run == run then Share(g, r, c) else 0.0
  }

  lemma NobodyPays(g: CostRow -> real, c: CostRow, run: Id, rows: seq<Reservation>)
    requires forall r :: r in rows ==> !(r.run == run && PaysFor(r, c))
    ensures Sum(CollectedBy(g, c, run), rows) == 0.0
  {
    forall r | r in rows
      ensures CollectedBy(g, c, run)(r) == 0.0
    {
      assert !(r.run == run && PaysFor(r, c));
    }
    SumZero(CollectedBy(g, c, run), rows);
  }

  /** Exactly one reservation collects each cost of the run. */
  lemma {:induction false} CollectedOnce(g: CostRow -> real, c: CostRow, run: Id, rows: seq<Reservation>)
    requires Pairwise(RowsApart(), rows) && c.run == run
    requires exists i :: 0 <= i < |rows| && HasCorrelation(rows[i], run, c.correlation)
    ensures Sum(CollectedBy(g, c, run), rows) == g(c)
  {
    var i :| 0 <= i < |rows| && HasCorrelation(rows[i], run, c.correlation);
    var rest := rows[1..];
    forall j, k | 0 <= j < k < |rest|
      ensures RowsApart()(rest[j], rest[k])
    {
      assert RowsApart()(rows[j + 1], rows[k + 1]);
    }
    if i == 0 {
      forall r | r in rest
        ensures !(r.run == run && PaysFor(r, c))
      {
        var j :| 0 <= j < |rest| && rest[j] == r;
        assert RowsApart()(rows[0], rows[j + 1]);
      }
      NobodyPays(g, c, run, rest);
      assert CollectedBy(g, c, run)(rows[0]) == g(c);
    } else {
      assert RowsApart()(rows[0], rows[i]);
      assert !(rows[0].run == run && PaysFor(rows[0], c));
      assert HasCorrelation(rest[i - 1], run, c.correlation);
      CollectedOnce(g, c, run, rest);
    }
  }

  /** All that the reservations of a run collect from a list of costs. */
  function Collected(g: CostRow -> real, rows: seq<Reservation>, run: Id, cs: seq<CostRow>): real {
    if cs == [] then 0.0 else Sum(CollectedBy(g, cs[0], run), rows) + Collected(g, rows, run, cs[1..])
  }

  lemma {:induction false} CollectedByNoRows(g: CostRow -> real, run: Id, cs: seq<CostRow>)
    ensures Collected(g, [], run, cs) == 0.0
  {
    if cs != [] { CollectedByNoRows(g, run, cs[1..]); }
  }

  lemma {:induction false} CollectedSplits(g: CostRow -> real, rows: seq<Reservation>, run: Id, cs: seq<CostRow>)
    requires rows != []
    ensures Collected(g, rows, run, cs)
         == (if rows[0].run == run then Sum(PaidFor(g, rows[0]), cs) else 0.0) + Collected(g, rows[1..], run, cs)
  {
    if cs != [] { CollectedSplits(g, rows, run, cs[1..]); }
  }

  lemma {:induction false} JoinAllCosts(f: JoinRow -> real, g: CostRow -> real, db: Db, rows: seq<Reservation>, run: Id)
    requires Tables(db)
    requires forall r, c, d :: f(JoinRow(r, Some(c), d)) == g(c)
    requires forall r, d :: f(JoinRow(r, None, d)) == 0.0
    ensures Sum(f, JoinAll(db, rows, run)) == Collected(g, rows, run, db.costs)
  {
    if rows == [] {
      CollectedByNoRows(g, run, db.costs);
    } else {
      CollectedSplits(g, rows, run, db.costs);
      JoinAllCosts(f, g, db, rows[1..], run);
      if rows[0].run == run {
        JoinForCosts(f, g, db, rows[0]);
        SumConcat(f, JoinFor(db, rows[0]), JoinAll(db, rows[1..], run));
      } else {
        assert JoinAll(db, rows, run) == JoinAll(db, rows[1..], run);
      }
    }
  }

  function OfRun(g: CostRow -> real, run: Id): CostRow -> real {
    (c: CostRow) => if c.run == run then g(c) else 0.0
  }

  lemma {:induction false} CollectedIsAll(g: CostRow -> real, rows: seq<Reservation>, run: Id, cs: seq<CostRow>)
    requires Pairwise(RowsApart(), rows)
    requires forall c :: c in cs && c.run == run ==>
               exists i :: 0 <= i < |rows| && HasCorrelation(rows[i], run, c.correlation)
    ensures Collected(g, rows, run, cs) == Sum(OfRun(g, run), cs)
  {
    if cs != [] {
      assert cs[0] in cs;
      CollectedIsAll(g, rows, run, cs[1..]);
      if cs[0].run == run {
        CollectedOnce(g, cs[0], run, rows);
      } else {
        NobodyPays(g, cs[0], run, rows);
      }
    }
  }

  function MeasuredOf(): CostRow -> real { (c: CostRow) => if c.estimated then 0.0 else c.usd }

  function EstimatedOf(): CostRow -> real { (c: CostRow) => if c.estimated then c.usd else 0.0 }

  lemma CostsHaveRows(db: Db, run: Id)
    requires Tables(db)
    ensures forall c :: c in db.costs && c.run == run ==>
              exists i :: 0 <= i < |db.reservations| && HasCorrelation(db.reservations[i], run, c.correlation)
  {
    forall c | c in db.costs && c.run == run
      ensures exists i :: 0 <= i < |db.reservations| && HasCorrelation(db.reservations[i], run, c.correlation)
    {
      assert CostSound(db, c);
      assert EventSound(db, (c.run, c.event));
    }
  }

  /**
   * Report conservation: in every reachable state, however the groups are listed, the
   * measured column adds up to the measured costs of the run, the estimated column to the
   * estimated ones, and together they are the run's total spend. No cost is lost, none
   * counted twice, and reservations without a tier count under "unknown".
   */
  lemma ReportConserves(ops: seq<Op>, run: Id, names: seq<Id>)
    requires GroupsOf(names, Joined(Run(EMPTY, ops), run))
    ensures var db := Run(EMPTY, ops);
            var rows := Joined(db, run);
            && Sum(TierTotals(MeasuredUsd(), rows), names) == Sum(OfRun(MeasuredOf(), run), db.costs)
            && Sum(TierTotals(EstimatedUsd(), rows), names) == Sum(OfRun(EstimatedOf(), run), db.costs)
            && Sum(TierTotals(MeasuredUsd(), rows), names) + Sum(TierTotals(EstimatedUsd(), rows), names)
               == SpentUsd(db.costs, run)
  {
    var db := Run(EMPTY, ops);
    var rows := Joined(db, run);
    EmptyValid();
    RunValid(EMPTY, ops);
    CostsHaveRows(db, run);
    GroupsConserve(MeasuredUsd(), rows, names);
    GroupsConserve(EstimatedUsd(), rows, names);
    JoinAllCosts(MeasuredUsd(), MeasuredOf(), db, db.reservations, run);
    JoinAllCosts(EstimatedUsd(), EstimatedOf(), db, db.reservations, run);
    CollectedIsAll(MeasuredOf(), db.reservations, run, db.costs);
    CollectedIsAll(EstimatedOf(), db.reservations, run, db.costs);
    SumPlus(OfRun(MeasuredOf(), run), OfRun(EstimatedOf(), run), SpentIn(run), db.costs);
  }

  // ---- Savings are counted once per cost row --------------------------------------------

  function Eligible(db: Db, r: Reservation): bool {
    exists d :: d in db.decisions && d.reservation == Some(r.id) && d.savings
  }

  lemma {:induction false} CrossSavings(r: Reservation, cs: seq<Option<CostRow>>, d: Option<Decision>)
    ensures Sum(SavingsFlag(), Cross(r, cs, [d]))
         == if d.Some? && d.value.savings then |cs| as real else 0.0
  {
    if cs != [] {
      assert WithDecisions(r, cs[0], [d]) == [JoinRow(r, cs[0], d)];
      SumConcat(SavingsFlag(), [JoinRow(r, cs[0], d)], Cross(r, cs[1..], [d]));
      assert Sum(SavingsFlag(), [JoinRow(r, cs[0], d)]) == SavingsFlag()(JoinRow(r, cs[0], d)) + Sum(SavingsFlag(), []);
      CrossSavings(r, cs[1..], d);
    }
  }

  function BillCount(db: Db, r: Reservation): nat { |Filter(Pays(r), db.costs)| }

  /** The savings column adds the number of cost rows of each eligible reservation, and one if it has none. */
  lemma SavingsOfOne(db: Db, r: Reservation)
    requires Tables(db)
    ensures Sum(SavingsFlag(), JoinFor(db, r))
         == if !Eligible(db, r) then 0.0
            else if BillCount(db, r) == 0 then 1.0 else BillCount(db, r) as real
  {
    AtMostOneDecision(db.decisions, r);
    var found := Filter(Decides(r), db.decisions);
    var ds := Optional(found);
    assert ds == [ds[0]];
    CrossSavings(r, Optional(Filter(Pays(r), db.costs)), ds[0]);
    if found != [] {
      assert found[0] in found;
      forall d | d in db.decisions && d.reservation == Some(r.id)
        ensures d == found[0]
      {
        assert Decides(r)(d);
        assert d in found;
      }
    } else {
      forall d | d in db.decisions
        ensures d.reservation != Some(r.id)
      {
        assert d !in found;
        assert !Decides(r)(d);
      }
    }
  }

  function EligibleFlag(db: Db, run: Id): Reservation -> real {
    (r: Reservation) => if r.run == run && Eligible(db, r) then 1.0 else 0.0
  }

  predicate Overbilled(db: Db, run: Id, r: Reservation) {
    r.run == run && Eligible(db, r) && BillCount(db, r) > 1
  }

  /** The savings column of one reservation's join rows, if it belongs to the run. */
  function SavingsShare(db: Db, run: Id): Reservation -> real {
    (r: Reservation) => if r.run == run then Sum(SavingsFlag(), JoinFor(db, r)) else 0.0
  }

  lemma {:induction false} SavingsByRow(db: Db, rows: seq<Reservation>, run: Id)
    ensures Sum(SavingsFlag(), JoinAll(db, rows, run)) == Sum(SavingsShare(db, run), rows)
  {
    if rows != [] {
      SavingsByRow(db, rows[1..], run);
      if rows[0].run == run {
        SumConcat(SavingsFlag(), JoinFor(db, rows[0]), JoinAll(db, rows[1..], run));
      } else {
        assert JoinAll(db, rows, run) == JoinAll(db, rows[1..], run);
      }
    }
  }

  lemma ShareOfOne(db: Db, run: Id, r: Reservation)
    requires Tables(db)
    ensures SavingsShare(db, run)(r) >= EligibleFlag(db, run)(r)
    ensures SavingsShare(db, run)(r) == EligibleFlag(db, run)(r) <==> !Overbilled(db, run, r)
  {
    SavingsOfOne(db, r);
  }

  /** Two sums ordered term by term are equal exactly when every term is. */
  lemma {:induction false} SumsEqualExactly<T(!new)>(f: T -> real, g: T -> real, s: seq<T>)
    requires forall x :: x in s ==> f(x) >= g(x)
    ensures Sum(f, s) >= Sum(g, s)
    ensures Sum(f, s) == Sum(g, s) <==> forall x :: x in s ==> f(x) == g(x)
  {
    if s != [] {
      SumsEqualExactly(f, g, s[1..]);
      assert forall x :: x in s <==> x == s[0] || x in s[1..];
    }
  }

  lemma SavingsCount(db: Db, rows: seq<Reservation>, run: Id)
    requires Tables(db)
    ensures Sum(SavingsFlag(), JoinAll(db, rows, run)) >= Sum(EligibleFlag(db, run), rows)
    ensures Sum(SavingsFlag(), JoinAll(db, rows, run)) == Sum(EligibleFlag(db, run), rows)
       <==> forall r :: r in rows ==> !Overbilled(db, run, r)
  {
    SavingsByRow(db, rows, run);
    forall r { ShareOfOne(db, run, r); }
    SumsEqualExactly(SavingsShare(db, run), EligibleFlag(db, run), rows);
  }

  /**
   * The report's savings count is right exactly when no savings-eligible reservation has
   * more than one cost row; otherwise it is too high.
   */
  lemma SavingsRightExactly(ops: seq<Op>, run: Id, names: seq<Id>)
    requires GroupsOf(names, Joined(Run(EMPTY, ops), run))
    ensures var db := Run(EMPTY, ops);
            Sum(TierTotals(SavingsFlag(), Joined(db, run)), names) == Sum(EligibleFlag(db, run), db.reservations)
            <==> forall r :: r in db.reservations ==> !Overbilled(db, run, r)
    ensures var db := Run(EMPTY, ops);
            Sum(TierTotals(SavingsFlag(), Joined(db, run)), names) >= Sum(EligibleFlag(db, run), db.reservations)
  {
    var db := Run(EMPTY, ops);
    EmptyValid();
    RunValid(EMPTY, ops);
    GroupsConserve(SavingsFlag(), Joined(db, run), names);
    SavingsCount(db, db.reservations, run);
  }
}
