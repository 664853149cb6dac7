/**
 * Why roles must be free of slashes: with one, a later child can take an earlier one's id,
 * and the depth limit no longer holds.
 */
module SlashedRoles {
  import opened Wrappers
  import opened Participants
  import opened Controller

  function Member(id: Id, role: Id, parent: Option<Id>): Participant {
    Participant(id, "fake", "m", [role], 1, parent)
  }

  function Asking(parent: Id, role: Id): Request { Request(parent, role, [], 1) }

  /** Admission, then the child's adapter. */
  function Spawned(live: Live, q: Request): Live
    requires q.parent in live.roster
  {
    var (after, a) := Admit(live, q);
    after.(adapters := after.adapters + {a.child.id})
  }

  const A: Id := "a"
  const B: Id := "a/b-1"
  const C: Id := "a/b-1/c-2"
  const X: Id := "a/b-1/c-2/x-1"
  const D: Id := "a/b-1/c-1"

  const START: Live := Live(map[A := Member(A, "root", None)], map[A := []], {A}, map[], 0, 9,
                            Capacity(9, 9, 2, 2, 1), 9, true)

  lemma Ids()
    ensures ChildId(A, "b", 1) == B && ChildId(A, "b-1/c", 2) == C && ChildId(C, "x", 1) == X
    ensures ChildId(B, "c", 1) == D && ChildId(B, "c", 2) == C
    ensures |A| < |B| < |C| < |X| && |B| < |D| == |C|
  {
    assert Decimal(1) == "1" && Decimal(2) == "2";
  }

  lemma Apart()
    ensures A != B && A != C && A != X && A != D && B != C && B != X && B != D && C != X && X != D
    ensures C != D
  {
    Ids();
    assert C[|C| - 1] == '2' && D[|D| - 1] == '1';
  }

  /** With one more child, under this id. */
  function Grown(live: Live, parent: Id, role: Id, n: nat, id: Id): Live {
    Live(live.roster[id := Member(id, role, Some(parent))], live.contexts[id := []], live.adapters + {id},
         live.children[parent := n], live.dynamicChildren + 1, live.remaining - 1, live.capacity, live.budget, true)
  }

  const ONE: Live := Grown(START, A, "b", 1, B)
  const TWO: Live := Grown(ONE, A, "b-1/c", 2, C)
  const THREE: Live := Grown(TWO, C, "x", 1, X)
  const FOUR: Live := Grown(THREE, B, "c", 1, D)
  const FIVE: Live := Grown(FOUR, B, "c", 2, C)

  lemma Placing()
    ensures Descending(START.roster) && Descending(ONE.roster) && Descending(TWO.roster)
    ensures Descending(THREE.roster) && Descending(FOUR.roster) && Descending(FIVE.roster)
  {
    Ids();
    Apart();
  }

  /** The controller raises no objection, admits the child and gives it its adapter. */
  ghost predicate Admits(live: Live, q: Request, after: Live) {
    && Descending(live.roster) && live.adapters <= live.roster.Keys && q.parent in live.adapters
    && Refusal(live, q).None? && after == Spawned(live, q)
  }

  lemma Allowed(live: Live, parent: Id, role: Id, n: nat, depth: nat, id: Id, after: Live)
    requires Descending(live.roster) && live.adapters <= live.roster.Keys && parent in live.adapters
    requires live.roster[parent].adapter == "fake" && live.roster[parent].model == "m"
    requires live.roster[parent].contextLimit == 1
    requires |live.roster| < live.capacity.participants && live.dynamicChildren < live.capacity.dynamicChildren
    requires live.Children(parent) + 1 == n <= live.capacity.childrenPerParent
    requires DepthOf(live.roster, parent) == Some(depth) && depth < live.capacity.spawnDepth
    requires live.remaining >= 1 && live.factory && ChildId(parent, role, n) == id && |id| <= MAX_IDENTIFIER
    requires after == Grown(live, parent, role, n, id)
    ensures Admits(live, Asking(parent, role), after)
  {}

  lemma Sizes()
    ensures |START.roster| == 1 && |ONE.roster| <= 2 && |TWO.roster| <= 3 && |THREE.roster| <= 4 && |FOUR.roster| <= 5
  {}

  lemma First()
    ensures Admits(START, Asking(A, "b"), ONE)
  {
    Ids();
    Sizes();
    Placing();
    Allowed(START, A, "b", 1, 0, B, ONE);
  }

  lemma Second()
    ensures Admits(ONE, Asking(A, "b-1/c"), TWO)
  {
    Ids();
    Apart();
    Sizes();
    Placing();
    Allowed(ONE, A, "b-1/c", 2, 0, C, TWO);
  }

  lemma ThirdParent()
    ensures Descending(TWO.roster) && TWO.adapters <= TWO.roster.Keys && C in TWO.adapters
    ensures TWO.roster[C].adapter == "fake" && TWO.roster[C].model == "m"
    ensures TWO.roster[C].contextLimit == 1
    ensures TWO.Children(C) == 0 && DepthOf(TWO.roster, C) == Some(1)
  {
    Apart();
    Placing();
    assert DepthOf(TWO.roster, A) == Some(0);
  }

  lemma Third()
    ensures Admits(TWO, Asking(C, "x"), THREE)
  {
    Ids();
    Sizes();
    ThirdParent();
    Allowed(TWO, C, "x", 1, 1, X, THREE);
  }

  lemma FourthParent()
    ensures Descending(THREE.roster) && THREE.adapters <= THREE.roster.Keys && B in THREE.adapters
    ensures THREE.roster[B].adapter == "fake" && THREE.roster[B].model == "m"
    ensures THREE.roster[B].contextLimit == 1
    ensures THREE.Children(B) == 0 && DepthOf(THREE.roster, B) == Some(1)
  {
    Apart();
    Placing();
    assert DepthOf(THREE.roster, A) == Some(0);
  }

  lemma Fourth()
    ensures Admits(THREE, Asking(B, "c"), FOUR)
  {
    Ids();
    Sizes();
    FourthParent();
    Allowed(THREE, B, "c", 1, 1, D, FOUR);
  }

  lemma FifthParent()
    ensures Descending(FOUR.roster) && FOUR.adapters <= FOUR.roster.Keys && B in FOUR.adapters
    ensures FOUR.roster[B].adapter == "fake" && FOUR.roster[B].model == "m"
    ensures FOUR.roster[B].contextLimit == 1
    ensures FOUR.Children(B) == 1 && DepthOf(FOUR.roster, B) == Some(1)
  {
    Apart();
    Placing();
    assert DepthOf(FOUR.roster, A) == Some(0);
  }

  lemma Fifth()
    ensures Admits(FOUR, Asking(B, "c"), FIVE)
  {
    Ids();
    Sizes();
    FifthParent();
    Allowed(FOUR, B, "c", 2, 1, C, FIVE);
  }

  lemma Depths()
    ensures Descending(FOUR.roster) && Descending(FIVE.roster)
    ensures X in FOUR.roster && DepthOf(FOUR.roster, X) == Some(2)
    ensures X in FIVE.roster && DepthOf(FIVE.roster, X) == Some(3)
  {
    Apart();
    Placing();
    assert DepthOf(FOUR.roster, A) == Some(0) && DepthOf(FOUR.roster, C) == Some(1);
    assert DepthOf(FIVE.roster, A) == Some(0) && DepthOf(FIVE.roster, B) == Some(1);
    assert DepthOf(FIVE.roster, C) == Some(2);
  }

  /**
   * Five admissions, none refused, under a depth limit of two. The last one takes the id
   * of the second, whose place in the lineage it changes, and a participant admitted long
   * before stands at depth three.
   */
  lemma SlashBreaksDepth()
    ensures Admits(START, Asking(A, "b"), ONE) && Admits(ONE, Asking(A, "b-1/c"), TWO)
    ensures Admits(TWO, Asking(C, "x"), THREE) && Admits(THREE, Asking(B, "c"), FOUR)
    ensures Admits(FOUR, Asking(B, "c"), FIVE)
    ensures Child(FOUR, Asking(B, "c")).id in FOUR.roster && FIVE.roster.Keys == FOUR.roster.Keys
    ensures Descending(FIVE.roster) && X in FOUR.roster && X in FIVE.roster
    ensures DepthOf(FOUR.roster, X) == Some(FOUR.capacity.spawnDepth)
    ensures DepthOf(FIVE.roster, X) == Some(FIVE.capacity.spawnDepth + 1)
  {
    First();
    Second();
    Third();
    Fourth();
    Fifth();
    Depths();
    Collides();
  }

  lemma Collides()
    ensures B in FOUR.roster && Child(FOUR, Asking(B, "c")).id == C
    ensures FIVE.roster.Keys == FOUR.roster.Keys
  {
    Ids();
    Apart();
  }
}
