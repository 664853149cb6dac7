/**
 * Building the report: the grouped rows of the store, the usage of each tier's models
 * added to them, and the totals over all tiers.
 */
module ReportBuilder {
  import opened Wrappers
  import opened Sums
  import L = Ledger
  import J = LedgerReport
  import U = LedgerUsage

  type Id = L.Id

  /** One group of the store's query. */
  datatype Group = Group(tier: Id, reservations: nat, completed: nat, failed: nat,
                         measured: real, estimated: real, savings: real, routed: real)

  datatype Row = Row(group: Group, tokens: L.Tokens)

  datatype Report = Report(tiers: map<Id, Row>, measured: real, estimated: real, total: real, projected: Option<real>)

  datatype Spent = Spent(model: Id, tokens: L.Tokens)

  const NO_TOKENS := L.Tokens(0, 0, 0, 0, 0)

  function EmptyGroup(tier: Id): Group { Group(tier, 0, 0, 0, 0.0, 0.0, 0.0, 0.0) }

  /** No reservations and no money. */
  predicate HoldsNothing(g: Group, tier: Id) {
    && g.tier == tier && g.reservations == 0 && g.completed == 0 && g.failed == 0
    && g.measured == 0.0 && g.estimated == 0.0 && g.savings == 0.0 && g.routed == 0.0
  }

  function TierFor(tierOf: map<Id, Id>, model: Id): (tier: Id)
    ensures model in tierOf ==> tier == tierOf[model]
    ensures model !in tierOf ==> tier == "unknown"
  {
    if model in tierOf then tierOf[model] else "unknown"
  }

  /** The tokens that a tier's models have used. */
  function Used(usage: seq<Spent>, tierOf: map<Id, Id>, tier: Id): L.Tokens {
    if usage == [] then NO_TOKENS
    else
      var before, last := Used(usage[..|usage| - 1], tierOf, tier), usage[|usage| - 1];
      if TierFor(tierOf, last.model) == tier then before.Plus(last.tokens) else before
  }

  function Measured(): Group -> real { (g: Group) => g.measured }

  function Estimated(): Group -> real { (g: Group) => g.estimated }

  function Savings(): Group -> real { (g: Group) => g.savings }

  function Routed(): Group -> real { (g: Group) => g.routed }

  function Names(groups: seq<Group>): seq<Id> { seq(|groups|, i requires 0 <= i < |groups| => groups[i].tier) }

  predicate Grouped(groups: seq<Group>) {
    forall i, j :: 0 <= i < j < |groups| ==> groups[i].tier != groups[j].tier
  }

  /** The rows so far, in the order they were added; a tier without reservations holds only tokens. */
  ghost predicate Built(rows: map<Id, Row>, order: seq<Group>, groups: seq<Group>, usage: seq<Spent>,
                        tierOf: map<Id, Id>)
  {
    && Grouped(order) && |groups| <= |order| && order[..|groups|] == groups
    && (forall i :: |groups| <= i < |order| ==> order[i] == EmptyGroup(order[i].tier))
    && (forall i :: 0 <= i < |order| ==>
          order[i].tier in rows && rows[order[i].tier] == Row(order[i], Used(usage, tierOf, order[i].tier)))
    && (forall t :: t in rows ==> Listed(order, t))
    && (forall t :: Used(usage, tierOf, t) != NO_TOKENS ==> t in rows)
  }

  predicate Listed(order: seq<Group>, t: Id) { exists i :: 0 <= i < |order| && order[i].tier == t }

  /** Groups that hold no money add none. */
  lemma TotalUnchanged(f: Group -> real, groups: seq<Group>, order: seq<Group>)
    requires |groups| <= |order| && order[..|groups|] == groups
    requires forall i :: |groups| <= i < |order| ==> f(order[i]) == 0.0
    ensures Sum(f, order) == Sum(f, groups)
  {
    SumConcat(f, groups, order[|groups|..]);
    assert order == groups + order[|groups|..];
    forall x | x in order[|groups|..] ensures f(x) == 0.0 {
      var i :| 0 <= i < |order[|groups|..]| && order[|groups|..][i] == x;
      assert order[|groups| + i] == x;
    }
    SumZero(f, order[|groups|..]);
  }

  /** A tier row for each group, in the query's order. */
  method GroupRows(groups: seq<Group>, ghost tierOf: map<Id, Id>) returns (rows: map<Id, Row>)
    requires Grouped(groups)
    ensures Built(rows, groups, groups, [], tierOf)
  {
    rows := map[];
    for i := 0 to |groups|
      invariant forall j :: 0 <= j < i ==> groups[j].tier in rows && rows[groups[j].tier] == Row(groups[j], NO_TOKENS)
      invariant forall t :: t in rows ==> exists j :: 0 <= j < i && groups[j].tier == t
    {
      rows := rows[groups[i].tier := Row(groups[i], NO_TOKENS)];
    }
    assert groups[..|groups|] == groups;
  }

  /** A row for the tier, made if there is none. */
  method EnsureRow(rows: map<Id, Row>, order: seq<Group>, tier: Id,
                   ghost groups: seq<Group>, ghost usage: seq<Spent>, ghost tierOf: map<Id, Id>)
    returns (rows': map<Id, Row>, order': seq<Group>)
    requires Built(rows, order, groups, usage, tierOf)
    ensures Built(rows', order', groups, usage, tierOf) && tier in rows'
  {
    rows', order' := rows, order;
    if tier !in rows {
      assert Used(usage, tierOf, tier) == NO_TOKENS;
      rows' := rows'[tier := Row(EmptyGroup(tier), NO_TOKENS)];
      order' := order' + [EmptyGroup(tier)];
      assert order'[..|groups|] == groups;
      forall t | t in rows' ensures Listed(order', t) {
        if t == tier { assert order'[|order|].tier == t; } else { ListedMore(order, EmptyGroup(tier), t); }
      }
    }
  }

  lemma ListedMore(order: seq<Group>, g: Group, t: Id)
    requires Listed(order, t)
    ensures Listed(order + [g], t)
  {
    var i :| 0 <= i < |order| && order[i].tier == t;
    assert (order + [g])[i].tier == t;
  }

  /** The usage of each model goes to its tier's row. */
  method AddUsage(rows: map<Id, Row>, order: seq<Group>, u: Spent, tierOf: map<Id, Id>,
                  ghost groups: seq<Group>, ghost usage: seq<Spent>)
    returns (rows': map<Id, Row>, order': seq<Group>)
    requires Built(rows, order, groups, usage, tierOf)
    ensures Built(rows', order', groups, usage + [u], tierOf)
  {
    var tier := TierFor(tierOf, u.model);
    rows', order' := EnsureRow(rows, order, tier, groups, usage, tierOf);
    var row := rows'[tier];
    rows' := rows'[tier := row.(tokens := row.tokens.Plus(u.tokens))];
    assert (usage + [u])[..|usage|] == usage;
    assert Listed(order', tier);
  }

  method Total(f: Group -> real, order: seq<Group>) returns (total: real)
    ensures total == Sum(f, order)
  {
    total := 0.0;
    assert order[..0] == [];
    for i := 0 to |order|
      invariant total == Sum(f, order[..i])
    {
      assert order[..i + 1] == order[..i] + [order[i]];
      SumAppend(f, order[..i], order[i]);
      total := total + f(order[i]);
    }
    assert order[..|order|] == order;
  }

  method Totals(rows: map<Id, Row>, order: seq<Group>, ghost groups: seq<Group>, routing: bool, frontier: real)
    returns (r: Report)
    requires |groups| <= |order| && order[..|groups|] == groups
    requires forall i :: |groups| <= i < |order| ==> order[i] == EmptyGroup(order[i].tier)
    ensures r.tiers == rows && r.total == r.measured + r.estimated
    ensures r.measured == Sum(Measured(), groups) && r.estimated == Sum(Estimated(), groups)
    ensures Projects(r.projected, routing, Sum(Savings(), groups) * frontier - Sum(Routed(), groups))
  {
    var measured := Total(Measured(), order);
    TotalUnchanged(Measured(), groups, order);
    var estimated := Total(Estimated(), order);
    TotalUnchanged(Estimated(), groups, order);
    var savings := Total(Savings(), order);
    TotalUnchanged(Savings(), groups, order);
    var routed := Total(Routed(), order);
    TotalUnchanged(Routed(), groups, order);
    var projected := None;
    if routing { projected := Some(Projected(savings, frontier, routed)); }
    assert Projects(projected, routing, savings * frontier - routed);
    r := Report(rows, measured, estimated, measured + estimated, projected);
  }

  /** What the frontier tier would have cost beyond what routing did, never less than nothing. */
  function Projected(savings: real, frontier: real, routed: real): real {
    var gain := savings * frontier - routed;
    if gain > 0.0 then gain else 0.0
  }

  /** In routing mode alone a saving is projected: the gain, or nothing where it is a loss. */
  predicate Projects(projected: Option<real>, routing: bool, gain: real) {
    && (projected.Some? <==> routing)
    && (projected.Some? ==> projected.value == if gain >= 0.0 then gain else 0.0)
  }

  /**
   * The totals are those of the groups, whatever usage is added; every tier with usage
   * has a row, whose tokens are those of its models.
   */
  method BuildReport(groups: seq<Group>, usage: seq<Spent>, tierOf: map<Id, Id>, routing: bool, frontier: real)
    returns (r: Report)
    requires Grouped(groups)
    ensures r.measured == Sum(Measured(), groups) && r.estimated == Sum(Estimated(), groups)
    ensures r.total == r.measured + r.estimated
    ensures forall g :: g in groups ==> g.tier in r.tiers && r.tiers[g.tier].group == g
    ensures forall t :: t in r.tiers ==> r.tiers[t].tokens == Used(usage, tierOf, t)
    ensures forall t :: t !in r.tiers ==> Used(usage, tierOf, t) == NO_TOKENS
    ensures forall t :: t in r.tiers && t !in Names(groups) ==> HoldsNothing(r.tiers[t].group, t)
    ensures Projects(r.projected, routing, Sum(Savings(), groups) * frontier - Sum(Routed(), groups))
  {
    var rows := GroupRows(groups, tierOf);
    var order := groups;
    for i := 0 to |usage|
      invariant Built(rows, order, groups, usage[..i], tierOf)
    {
      rows, order := AddUsage(rows, order, usage[i], tierOf, groups, usage[..i]);
      assert usage[..i + 1] == usage[..i] + [usage[i]];
    }
    assert usage[..|usage|] == usage;
    BuiltRows(rows, order, groups, usage, tierOf);
    r := Totals(rows, order, groups, routing, frontier);
  }

  lemma BuiltRows(rows: map<Id, Row>, order: seq<Group>, groups: seq<Group>, usage: seq<Spent>,
                  tierOf: map<Id, Id>)
    requires Built(rows, order, groups, usage, tierOf)
    ensures forall g :: g in groups ==> g.tier in rows && rows[g.tier].group == g
    ensures forall t :: t in rows ==> rows[t].tokens == Used(usage, tierOf, t)
    ensures forall t :: t in rows && t !in Names(groups) ==> rows[t].group == EmptyGroup(t)
  {
    forall g | g in groups ensures g.tier in rows && rows[g.tier].group == g {
      var i :| 0 <= i < |groups| && groups[i] == g;
      assert order[..|groups|][i] == order[i];
    }
    forall t | t in rows
      ensures rows[t].tokens == Used(usage, tierOf, t)
      ensures t !in Names(groups) ==> rows[t].group == EmptyGroup(t)
    {
      assert Listed(order, t);
      var i :| 0 <= i < |order| && order[i].tier == t;
      if i < |groups| {
        assert order[..|groups|][i] == order[i];
        assert Names(groups)[i] == t;
      }
    }
  }

  // ---- The store's groups --------------------------------------------------------------

  /** The groups the store's query gives: for each tier, the sums over its rows of the join. */
  ghost predicate GroupsTell(groups: seq<Group>, rows: seq<J.JoinRow>) {
    && Grouped(groups) && J.GroupsOf(Names(groups), rows)
    && forall i :: 0 <= i < |groups| ==>
         && groups[i].measured == J.TierTotal(J.MeasuredUsd(), rows, groups[i].tier)
         && groups[i].estimated == J.TierTotal(J.EstimatedUsd(), rows, groups[i].tier)
         && groups[i].savings == J.TierTotal(J.SavingsFlag(), rows, groups[i].tier)
  }

  lemma {:induction false} SumByName(f: Group -> real, g: Id -> real, groups: seq<Group>)
    requires forall i :: 0 <= i < |groups| ==> f(groups[i]) == g(groups[i].tier)
    ensures Sum(f, groups) == Sum(g, Names(groups))
  {
    if groups != [] {
      assert Names(groups)[1..] == Names(groups[1..]);
      SumByName(f, g, groups[1..]);
    }
  }

  /** In every reachable state, what the report totals is what the run's costs add up to. */
  lemma ReportTotals(ops: seq<L.Op>, run: Id, groups: seq<Group>)
    requires GroupsTell(groups, J.Joined(L.Run(L.EMPTY, ops), run))
    ensures Sum(Measured(), groups) + Sum(Estimated(), groups) == L.SpentUsd(L.Run(L.EMPTY, ops).costs, run)
  {
    var rows := J.Joined(L.Run(L.EMPTY, ops), run);
    SumByName(Measured(), J.TierTotals(J.MeasuredUsd(), rows), groups);
    SumByName(Estimated(), J.TierTotals(J.EstimatedUsd(), rows), groups);
    J.ReportConserves(ops, run, Names(groups));
  }

  /** The saving is projected from the savings column of the whole join, whose worth `SavingsRightExactly` tells. */
  lemma ReportSavings(groups: seq<Group>, rows: seq<J.JoinRow>)
    requires GroupsTell(groups, rows)
    ensures Sum(Savings(), groups) == Sum(J.SavingsFlag(), rows)
  {
    SumByName(Savings(), J.TierTotals(J.SavingsFlag(), rows), groups);
    J.GroupsConserve(J.SavingsFlag(), rows, Names(groups));
  }

  // ---- The store's usage ----------------------------------------------------------------

  /** The usage the store's query gives: the rows of the run's usage table, each once, in some order. */
  ghost predicate UsageOf(usage: seq<Spent>, keys: seq<U.Key>, db: L.Db, run: Id) {
    && |usage| == |keys| && (forall i, j :: 0 <= i < j < |keys| ==> keys[i] != keys[j])
    && (forall k :: k in keys <==> k in db.usage && k.0 == run)
    && forall i :: 0 <= i < |keys| ==> usage[i] == Spent(db.usage[keys[i]].model, db.usage[keys[i]].tokens)
  }

  datatype Field = Input | CacheRead | CacheWrite | Output | Reasoning

  /** One of the five counts. */
  function Part(t: L.Tokens, f: Field): nat {
    match f
    case Input => t.input case CacheRead => t.cacheRead case CacheWrite => t.cacheWrite
    case Output => t.output case Reasoning => t.reasoning
  }

  /** What one row of usage adds to a tier. */
  function Share(u: Spent, tierOf: map<Id, Id>, tier: Id, f: Field): real {
    if TierFor(tierOf, u.model) == tier then Part(u.tokens, f) as real else 0.0
  }

  function ShareIn(tierOf: map<Id, Id>, tier: Id, f: Field): Spent -> real {
    (u: Spent) => Share(u, tierOf, tier, f)
  }

  function Whole(f: Field): Spent -> real { (u: Spent) => Part(u.tokens, f) as real }

  /** A tier's tokens are the sum of its shares. */
  lemma {:induction false} UsedIsSum(usage: seq<Spent>, tierOf: map<Id, Id>, tier: Id, f: Field)
    ensures Part(Used(usage, tierOf, tier), f) as real == Sum(ShareIn(tierOf, tier, f), usage)
  {
    if usage != [] {
      var n := |usage| - 1;
      UsedIsSum(usage[..n], tierOf, tier, f);
      SumAppend(ShareIn(tierOf, tier, f), usage[..n], usage[n]);
      assert usage == usage[..n] + [usage[n]];
    }
  }

  function UsedBy(usage: seq<Spent>, tierOf: map<Id, Id>, f: Field): Id -> real {
    (tier: Id) => Part(Used(usage, tierOf, tier), f) as real
  }

  function SharesOf(u: Spent, tierOf: map<Id, Id>, f: Field): Id -> real {
    (tier: Id) => Share(u, tierOf, tier, f)
  }

  lemma {:induction false} OneTierUses(u: Spent, tierOf: map<Id, Id>, f: Field, names: seq<Id>)
    requires forall i, j :: 0 <= i < j < |names| ==> names[i] != names[j]
    ensures Sum(SharesOf(u, tierOf, f), names)
         == if TierFor(tierOf, u.model) in names then Part(u.tokens, f) as real else 0.0
  {
    if names != [] {
      var rest := names[1..];
      assert forall i, j :: 0 <= i < j < |rest| ==> rest[i] == names[i + 1] && rest[j] == names[j + 1];
      OneTierUses(u, tierOf, f, rest);
      assert names[0] !in rest;
    }
  }

  lemma UsedByOneMore(usage: seq<Spent>, tierOf: map<Id, Id>, f: Field, tier: Id)
    requires usage != []
    ensures UsedBy(usage, tierOf, f)(tier) ==
              SharesOf(usage[|usage| - 1], tierOf, f)(tier) + UsedBy(usage[..|usage| - 1], tierOf, f)(tier)
  {
    var n := |usage| - 1;
    var before := Used(usage[..n], tierOf, tier);
    assert Used(usage, tierOf, tier)
        == if TierFor(tierOf, usage[n].model) == tier then before.Plus(usage[n].tokens) else before;
  }

  /** Across the tiers, each row of usage is counted once. */
  lemma {:induction false} TokensConserved(usage: seq<Spent>, tierOf: map<Id, Id>, f: Field, names: seq<Id>)
    requires forall i, j :: 0 <= i < j < |names| ==> names[i] != names[j]
    requires forall u :: u in usage ==> TierFor(tierOf, u.model) in names
    ensures Sum(UsedBy(usage, tierOf, f), names) == Sum(Whole(f), usage)
  {
    if usage == [] {
      SumZero(UsedBy(usage, tierOf, f), names);
    } else {
      var n := |usage| - 1;
      assert usage == usage[..n] + [usage[n]] && usage[n] in usage;
      TokensConserved(usage[..n], tierOf, f, names);
      OneTierUses(usage[n], tierOf, f, names);
      SumAppend(Whole(f), usage[..n], usage[n]);
      forall t { UsedByOneMore(usage, tierOf, f, t); }
      J.SumPlus(SharesOf(usage[n], tierOf, f), UsedBy(usage[..n], tierOf, f), UsedBy(usage, tierOf, f), names);
    }
  }

  function TokensAt(db: L.Db, f: Field): U.Key -> real {
    (k: U.Key) => if k in db.usage then Part(db.usage[k].tokens, f) as real else 0.0
  }

  lemma {:induction false} UsageByKey(usage: seq<Spent>, keys: seq<U.Key>, db: L.Db, f: Field)
    requires |usage| == |keys|
    requires forall i :: 0 <= i < |keys| ==> keys[i] in db.usage && usage[i].tokens == db.usage[keys[i]].tokens
    ensures Sum(Whole(f), usage) == Sum(TokensAt(db, f), keys)
  {
    if usage != [] { UsageByKey(usage[1..], keys[1..], db, f); }
  }

  /** The keys of the run's usage table are those reported, each with the first report's tokens. */
  lemma KeysReported(ops: seq<L.Op>, k: U.Key, f: Field)
    ensures k in L.Run(L.EMPTY, ops).usage <==> exists n: nat :: U.FirstReport(ops, n, |ops|, k)
    ensures forall n: nat :: U.FirstReport(ops, n, |ops|, k) ==>
              TokensAt(L.Run(L.EMPTY, ops), f)(k) == Part(ops[n].event.usage.value.tokens, f) as real
  {
    assert ops[..|ops|] == ops;
    U.UsageIsFirstReport(ops, |ops|, k);
  }

  /**
   * What the report counts as used, over all tiers, is what the usage table holds for the
   * run: for each source and parser, what the first event that reported it said, once.
   */
  lemma ReportedTokens(ops: seq<L.Op>, run: Id, usage: seq<Spent>, keys: seq<U.Key>, tierOf: map<Id, Id>, f: Field,
                       names: seq<Id>)
    requires UsageOf(usage, keys, L.Run(L.EMPTY, ops), run)
    requires forall i, j :: 0 <= i < j < |names| ==> names[i] != names[j]
    requires forall u :: u in usage ==> TierFor(tierOf, u.model) in names
    ensures Sum(UsedBy(usage, tierOf, f), names) == Sum(TokensAt(L.Run(L.EMPTY, ops), f), keys)
    ensures forall k: U.Key :: k in keys <==> k.0 == run && exists n: nat :: U.FirstReport(ops, n, |ops|, k)
    ensures forall k: U.Key, n: nat :: U.FirstReport(ops, n, |ops|, k) && k in keys ==>
              TokensAt(L.Run(L.EMPTY, ops), f)(k) == Part(ops[n].event.usage.value.tokens, f) as real
  {
    TokensConserved(usage, tierOf, f, names);
    UsageByKey(usage, keys, L.Run(L.EMPTY, ops), f);
    forall k: U.Key { KeysReported(ops, k, f); }
  }
}
