/**
 * The run controller: admitting spawned children against the run's limits, and resuming a
 * run from its receipts. Between two awaits a call runs alone; admission is one such piece.
 */
module Controller {
  import opened Wrappers
  import opened Participants

  const MAX_IDENTIFIER := 256

  /** What a controller holds in memory. */
  datatype Live = Live(
    roster: map<Id, Participant>, contexts: map<Id, seq<string>>, adapters: set<Id>,
    children: map<Id, nat>, dynamicChildren: nat, remaining: int,
    capacity: Capacity, budget: nat, factory: bool)
  {
    function Children(parent: Id): nat { if parent in children then children[parent] else 0 }
  }

  datatype Request = Request(parent: Id, role: Id, context: seq<string>, budget: nat)

  datatype Rejection =
    | UnknownParent | ParticipantCapacity | DynamicCapacity | ParentCapacity
    | MissingAncestor | DepthExceeded | BudgetExceeded | NoFactory | BadIdentifier

  /** A child with its grant, as its admission event will tell. */
  datatype Admission = Admission(child: Participant, role: Id, ordinal: nat, context: seq<string>, budget: nat)

  function Child(live: Live, q: Request): Participant
    requires q.parent in live.roster
  {
    var p := live.roster[q.parent];
    Participant(ChildId(q.parent, q.role, live.Children(q.parent) + 1), p.adapter, p.model, [q.role],
                p.contextLimit, Some(q.parent))
  }

  /** The first ground on which a request is turned down. */
  function Refusal(live: Live, q: Request): Option<Rejection>
    requires Descending(live.roster) && live.adapters <= live.roster.Keys
  {
    if q.parent !in live.adapters then Some(UnknownParent)
    else if |live.roster| >= live.capacity.participants then Some(ParticipantCapacity)
    else if live.dynamicChildren >= live.capacity.dynamicChildren then Some(DynamicCapacity)
    else if live.Children(q.parent) >= live.capacity.childrenPerParent then Some(ParentCapacity)
    else if DepthOf(live.roster, q.parent).None? then Some(MissingAncestor)
    else if DepthOf(live.roster, q.parent).value + 1 > live.capacity.spawnDepth then Some(DepthExceeded)
    else if q.budget > live.remaining then Some(BudgetExceeded)
    else if !live.factory then Some(NoFactory)
    else if |ChildId(q.parent, q.role, live.Children(q.parent) + 1)| > MAX_IDENTIFIER then Some(BadIdentifier)
    else None
  }

  function Admit(live: Live, q: Request): (Live, Admission)
    requires q.parent in live.roster
  {
    var child, ordinal := Child(live, q), live.Children(q.parent) + 1;
    (live.(roster := live.roster[child.id := child],
           contexts := live.contexts[child.id := q.context],
           children := live.children[q.parent := ordinal],
           dynamicChildren := live.dynamicChildren + 1,
           remaining := live.remaining - q.budget),
     Admission(child, q.role, ordinal, q.context, q.budget))
  }

  // ---- A controller's first state ------------------------------------------------------

  function ChildrenOf(roster: map<Id, Participant>, parent: Id): set<Id> {
    set p | p in roster && roster[p].parent == Some(parent)
  }

  function Dynamic(roster: map<Id, Participant>): set<Id> {
    set p | p in roster && roster[p].parent.Some?
  }

  function Parents(roster: map<Id, Participant>): set<Id> {
    set p | p in roster && roster[p].parent.Some? :: roster[p].parent.value
  }

  function PerParent(roster: map<Id, Participant>): map<Id, nat> {
    map q | q in Parents(roster) :: |ChildrenOf(roster, q)|
  }

  function Manned(adapters: set<Id>, roster: map<Id, Participant>, contexts: map<Id, seq<string>>,
                  capacity: Capacity, budget: nat, consumed: nat, factory: bool): Live
  {
    Live(roster, map p | p in roster :: if p in contexts then contexts[p] else [], adapters,
         PerParent(roster), |Dynamic(roster)|, budget - consumed, capacity, budget, factory)
  }

  function Bumped(m: map<Id, nat>, parent: Option<Id>): map<Id, nat> {
    if parent.None? then m
    else m[parent.value := (if parent.value in m then m[parent.value] else 0) + 1]
  }

  lemma ChildrenOneMore(roster: map<Id, Participant>, p: Id, x: Participant, q: Id)
    requires p !in roster
    ensures |ChildrenOf(roster[p := x], q)| == |ChildrenOf(roster, q)| + (if x.parent == Some(q) then 1 else 0)
    ensures q !in Parents(roster) ==> ChildrenOf(roster, q) == {}
  {
    assert ChildrenOf(roster[p := x], q) == ChildrenOf(roster, q) + (if x.parent == Some(q) then {p} else {});
  }

  lemma DynamicOneMore(roster: map<Id, Participant>, p: Id, x: Participant)
    requires p !in roster
    ensures |Dynamic(roster[p := x])| == |Dynamic(roster)| + (if x.parent.Some? then 1 else 0)
  {
    assert Dynamic(roster[p := x]) == Dynamic(roster) + (if x.parent.Some? then {p} else {});
  }

  lemma ParentsOneMore(roster: map<Id, Participant>, p: Id, x: Participant)
    requires p !in roster
    ensures Parents(roster[p := x]) == Parents(roster) + (if x.parent.Some? then {x.parent.value} else {})
  {
    var after := roster[p := x];
    forall q | q in Parents(roster) ensures q in Parents(after) {
      var c :| c in roster && roster[c].parent == Some(q);
      assert after[c].parent == Some(q);
    }
    if x.parent.Some? { assert after[p].parent.value in Parents(after); }
  }

  lemma PerParentOneMore(roster: map<Id, Participant>, p: Id, x: Participant)
    requires p !in roster
    ensures PerParent(roster[p := x]) == Bumped(PerParent(roster), x.parent)
  {
    var a, b := PerParent(roster[p := x]), Bumped(PerParent(roster), x.parent);
    ParentsOneMore(roster, p, x);
    assert a.Keys == b.Keys;
    forall q | q in a.Keys ensures a[q] == b[q] { ChildrenOneMore(roster, p, x, q); }
  }

  /** The roster without some of its ids. */
  function Without(roster: map<Id, Participant>, ids: set<Id>): map<Id, Participant> {
    map p | p in roster && p !in ids :: roster[p]
  }

  method CountChildren(roster: map<Id, Participant>) returns (dynamic: nat, perParent: map<Id, nat>)
    ensures dynamic == |Dynamic(roster)| && perParent == PerParent(roster)
  {
    dynamic, perParent := 0, map[];
    var left := roster.Keys;
    while left != {}
      invariant left <= roster.Keys
      invariant dynamic == |Dynamic(Without(roster, left))| && perParent == PerParent(Without(roster, left))
      decreases |left|
    {
      var p :| p in left;
      assert Without(roster, left - {p}) == Without(roster, left)[p := roster[p]];
      PerParentOneMore(Without(roster, left), p, roster[p]);
      DynamicOneMore(Without(roster, left), p, roster[p]);
      if roster[p].parent.Some? { dynamic := dynamic + 1; }
      perParent := Bumped(perParent, roster[p].parent);
      left := left - {p};
    }
    assert Without(roster, {}) == roster;
  }

  // ---- The object ---------------------------------------------------------------------

  class RunController {
    var participants: map<Id, Participant>
    var contexts: map<Id, seq<string>>
    var adapters: set<Id>
    var childrenPerParent: map<Id, nat>
    var dynamicChildren: nat
    var remainingTokenBudget: int
    const capacity: Capacity
    const totalTokenBudget: nat
    const factory: bool

    function View(): Live
      reads this
    {
      Live(participants, contexts, adapters, childrenPerParent, dynamicChildren, remainingTokenBudget,
           capacity, totalTokenBudget, factory)
    }

    /** A controller over a roster, some of whose children may be there from an earlier process. */
    constructor (adapters: set<Id>, participants: map<Id, Participant>, contexts: map<Id, seq<string>>,
                 capacity: Capacity, budget: nat, consumed: nat, factory: bool)
      requires adapters <= participants.Keys && contexts.Keys <= participants.Keys
      requires |participants| <= capacity.participants && consumed <= budget
      ensures View() == Manned(adapters, participants, contexts, capacity, budget, consumed, factory)
    {
      var dynamic, perParent := CountChildren(participants);
      this.adapters, this.participants := adapters, participants;
      this.contexts := map p | p in participants :: if p in contexts then contexts[p] else [];
      dynamicChildren, childrenPerParent := dynamic, perParent;
      remainingTokenBudget, totalTokenBudget := budget - consumed, budget;
      this.capacity, this.factory := capacity, factory;
    }

    /**
     * The walk up the parents ends, because a parent's id is shorter than its child's: with
     * the depth, or where the lookup of an ancestor fails.
     */
    method SpawnDepth(who: Id) returns (depth: Option<nat>)
      requires Descending(participants) && who in participants
      ensures depth == DepthOf(participants, who)
    {
      var steps := 0;
      var current := participants[who];
      assert Placed(participants, who);
      while current.parent.Some?
        invariant current.id in participants && participants[current.id] == current
        invariant DepthOf(participants, who)
               == match DepthOf(participants, current.id) case None => None case Some(d) => Some(steps + d)
        decreases |current.id|
      {
        assert Placed(participants, current.id);
        if current.parent.value !in participants { return None; }
        assert Placed(participants, current.parent.value);
        steps := steps + 1;
        current := participants[current.parent.value];
      }
      depth := Some(steps);
    }

    /** The checks and updates of `spawn_child` between its request event and its outcome event. */
    method AdmitChild(q: Request) returns (r: Result<Admission, Rejection>)
      requires Descending(participants) && adapters <= participants.Keys
      modifies this
      ensures match r
              case Err(why) => Refusal(old(View()), q) == Some(why) && View() == old(View())
              case Ok(a) => Refusal(old(View()), q).None? && (View(), a) == Admit(old(View()), q)
    {
      if q.parent !in adapters { return Err(UnknownParent); }
      if |participants| >= capacity.participants { return Err(ParticipantCapacity); }
      if dynamicChildren >= capacity.dynamicChildren { return Err(DynamicCapacity); }
      var count := if q.parent in childrenPerParent then childrenPerParent[q.parent] else 0;
      if count >= capacity.childrenPerParent { return Err(ParentCapacity); }
      var depth := SpawnDepth(q.parent);
      if depth.None? { return Err(MissingAncestor); }
      if depth.value + 1 > capacity.spawnDepth { return Err(DepthExceeded); }
      if q.budget > remainingTokenBudget { return Err(BudgetExceeded); }
      if !factory { return Err(NoFactory); }
      var ordinal := count + 1;
      var parent := participants[q.parent];
      var id := ChildId(q.parent, q.role, ordinal);
      if |id| > MAX_IDENTIFIER { return Err(BadIdentifier); }
      var child := Participant(id, parent.adapter, parent.model, [q.role], parent.contextLimit, Some(q.parent));
      participants := participants[id := child];
      contexts := contexts[id := q.context];
      childrenPerParent := childrenPerParent[q.parent := ordinal];
      dynamicChildren := dynamicChildren + 1;
      remainingTokenBudget := remainingTokenBudget - q.budget;
      r := Ok(Admission(child, q.role, ordinal, q.context, q.budget));
    }
  }
}
