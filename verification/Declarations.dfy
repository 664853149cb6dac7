/**
 * The declaration file's content: which tools a repository declares, at which catalog
 * version, and how a plan's actions change that.
 */
module Declarations {
  import opened Wrappers

  type Id = string

  datatype Operation = Install | Adopt | Verify | Remove

  /** Tool ids with the catalog version declared for them, and the catalog's digest. */
  datatype Declaration = Declaration(digest: Id, tools: map<Id, Id>)

  datatype Catalog = Catalog(digest: Id, tools: map<Id, Id>)

  datatype Intent = Intent(tool: Id, operation: Operation)

  function Tools(d: Option<Declaration>): map<Id, Id> {
    if d.Some? then d.value.tools else map[]
  }

  /** The grounds on which a plan is refused before anything is run. */
  predicate Compatible(existing: Option<Declaration>, plan: seq<Intent>, catalog: Catalog) {
    && (forall i :: 0 <= i < |plan| ==> plan[i].tool in catalog.tools)
    && (existing.Some? ==>
          && (forall t :: t in existing.value.tools ==>
                t in catalog.tools && catalog.tools[t] == existing.value.tools[t])
          && (existing.value.digest != catalog.digest ==>
                && (forall t :: t in existing.value.tools ==> Intent(t, Verify) in plan)
                && (forall a :: a in plan && a.operation == Verify ==> a.tool in existing.value.tools))
          && (forall i :: 0 <= i < |plan| ==>
                (plan[i].operation in {Install, Adopt} <==> plan[i].tool !in existing.value.tools)))
  }

  /** One action's effect on the declared tools. */
  function Declare(tools: map<Id, Id>, a: Intent, catalog: Catalog): map<Id, Id>
    requires a.tool in catalog.tools
  {
    if a.operation == Remove then tools - {a.tool} else tools[a.tool := catalog.tools[a.tool]]
  }

  function Declared(tools: map<Id, Id>, plan: seq<Intent>, catalog: Catalog): map<Id, Id>
    requires forall i :: 0 <= i < |plan| ==> plan[i].tool in catalog.tools
  {
    if plan == [] then tools
    else Declare(Declared(tools, plan[..|plan| - 1], catalog), plan[|plan| - 1], catalog)
  }

  function Updated(existing: Option<Declaration>, plan: seq<Intent>, catalog: Catalog): Declaration
    requires forall i :: 0 <= i < |plan| ==> plan[i].tool in catalog.tools
  {
    Declaration(catalog.digest, Declared(Tools(existing), plan, catalog))
  }

  method UpdatedDeclaration(existing: Option<Declaration>, plan: seq<Intent>, catalog: Catalog)
    returns (d: Declaration)
    requires forall i :: 0 <= i < |plan| ==> plan[i].tool in catalog.tools
    ensures d == Updated(existing, plan, catalog)
  {
    var tools := Tools(existing);
    for i := 0 to |plan|
      invariant tools == Declared(Tools(existing), plan[..i], catalog)
    {
      assert plan[..i + 1][..i] == plan[..i];
      var a := plan[i];
      if a.operation == Remove {
        tools := tools - {a.tool};
      } else {
        tools := tools[a.tool := catalog.tools[a.tool]];
      }
    }
    assert plan[..|plan|] == plan;
    d := Declaration(catalog.digest, tools);
  }

  /** The last action on a tool decides whether it is declared; a tool without one stays as it was. */
  lemma {:induction false} LastActionDecides(tools: map<Id, Id>, plan: seq<Intent>, catalog: Catalog, t: Id, i: nat)
    requires forall j :: 0 <= j < |plan| ==> plan[j].tool in catalog.tools
    requires i <= |plan| && forall j :: i <= j < |plan| ==> plan[j].tool != t
    requires i > 0 ==> plan[i - 1].tool == t
    ensures var after := Declared(tools, plan, catalog);
            if i == 0 then (t in after <==> t in tools) && (t in tools ==> after[t] == tools[t])
            else if plan[i - 1].operation == Remove then t !in after
            else t in after && after[t] == catalog.tools[t]
  {
    if i < |plan| {
      LastActionDecides(tools, plan[..|plan| - 1], catalog, t, i);
    }
  }

  predicate Acts(plan: seq<Intent>, t: Id) { exists i :: 0 <= i < |plan| && plan[i].tool == t }

  /** The last action on the tool removes it. */
  predicate EndsRemoved(plan: seq<Intent>, t: Id) {
    exists i :: 0 <= i < |plan| && plan[i] == Intent(t, Remove) && forall j :: i < j < |plan| ==> plan[j].tool != t
  }

  lemma LastAction(plan: seq<Intent>, t: Id) returns (i: nat)
    ensures i <= |plan| && forall j :: i <= j < |plan| ==> plan[j].tool != t
    ensures i > 0 ==> plan[i - 1].tool == t
    ensures i == 0 <==> !Acts(plan, t)
  {
    i := |plan|;
    while i > 0 && plan[i - 1].tool != t
      invariant i <= |plan| && forall j :: i <= j < |plan| ==> plan[j].tool != t
    {
      i := i - 1;
    }
  }

  /**
   * A plan let through, with a declaration before it or none: every tool declared after it
   * is at the catalog's version; a tool is declared exactly when it was or is acted on, and
   * the last action on it is not its removal; and with a declaration before it, a tool that
   * was not in it is declared by any action on it.
   */
  lemma CompatibleDeclares(existing: Option<Declaration>, plan: seq<Intent>, catalog: Catalog, t: Id)
    requires Compatible(existing, plan, catalog)
    ensures var before, after := Tools(existing), Updated(existing, plan, catalog).tools;
            && (t in after ==> t in catalog.tools && after[t] == catalog.tools[t])
            && (t in after <==> (t in before || Acts(plan, t)) && !EndsRemoved(plan, t))
            && (existing.Some? && t !in before && Acts(plan, t) ==> t in after)
  {
    var i := LastAction(plan, t);
    LastActionDecides(Tools(existing), plan, catalog, t, i);
    if i > 0 { assert plan[i - 1] in plan; }
    assert EndsRemoved(plan, t) <==> i > 0 && plan[i - 1].operation == Remove;
  }
}
