/**
 * Participants of a run, the ids given to spawned children, and the depth of a
 * participant under its roots.
 */
module Participants {
  import opened Wrappers

  type Id = string

  datatype Participant = Participant(
    id: Id, adapter: Id, model: Id, roles: seq<Id>, contextLimit: nat, parent: Option<Id>)

  datatype Capacity = Capacity(
    participants: nat, dynamicChildren: nat, childrenPerParent: nat, spawnDepth: nat, speakers: nat)

  // ---- Child ids ------------------------------------------------------------------

  function Digit(n: nat): char
    requires n < 10
  {
    '0' + n as char
  }

  function Decimal(n: nat): string {
    if n < 10 then [Digit(n)] else Decimal(n / 10) + [Digit(n % 10)]
  }

  function ChildId(parent: Id, role: Id, ordinal: nat): Id {
    parent + "/" + role + "-" + Decimal(ordinal)
  }

  predicate SlashFree(s: Id) { '/' !in s }

  lemma {:induction false} DecimalDigits(n: nat)
    ensures |Decimal(n)| > 0 && '-' !in Decimal(n) && '/' !in Decimal(n)
  {
    if n >= 10 { DecimalDigits(n / 10); }
  }

  lemma {:induction false} DecimalInjective(a: nat, b: nat)
    requires Decimal(a) == Decimal(b)
    ensures a == b
  {
    DecimalDigits(a / 10);
    DecimalDigits(b / 10);
    var s, t := Decimal(a), Decimal(b);
    assert s[|s| - 1] == t[|t| - 1];
    if a >= 10 && b >= 10 {
      assert s[..|s| - 1] == Decimal(a / 10) && t[..|t| - 1] == Decimal(b / 10);
      DecimalInjective(a / 10, b / 10);
    }
  }

  /** A string splits in only one way at the last occurrence of a character. */
  lemma SplitUnique(a: string, b: string, a': string, b': string, c: char)
    requires a + [c] + b == a' + [c] + b' && c !in b && c !in b'
    ensures a == a' && b == b'
  {
    var s, t := a + [c] + b, a' + [c] + b';
    assert s[|a|] == c && t[|a'|] == c;
    assert forall k :: |a| < k < |s| ==> s[k] == b[k - |a| - 1];
    assert forall k :: |a'| < k < |t| ==> t[k] == b'[k - |a'| - 1];
    assert |a| == |a'|;
    assert a == s[..|a|] && a' == t[..|a'|];
    assert b == s[|a| + 1..] && b' == t[|a'| + 1..];
  }

  /** With roles free of slashes, an id tells its parent, its role and its ordinal. */
  lemma ChildIdInjective(p: Id, r: Id, n: nat, p': Id, r': Id, n': nat)
    requires SlashFree(r) && SlashFree(r') && ChildId(p, r, n) == ChildId(p', r', n')
    ensures p == p' && r == r' && n == n'
  {
    DecimalDigits(n);
    DecimalDigits(n');
    var t, t' := r + "-" + Decimal(n), r' + "-" + Decimal(n');
    assert ChildId(p, r, n) == p + ['/'] + t;
    assert ChildId(p', r', n') == p' + ['/'] + t';
    SplitUnique(p, t, p', t', '/');
    SplitUnique(r, Decimal(n), r', Decimal(n'), '-');
    DecimalInjective(n, n');
  }

  /** How many slashes a string holds. */
  function Slashes(s: string): nat {
    if s == "" then 0 else (if s[0] == '/' then 1 else 0) + Slashes(s[1..])
  }

  lemma {:induction false} SlashesConcat(a: string, b: string)
    ensures Slashes(a + b) == Slashes(a) + Slashes(b)
  {
    if a == "" {
      assert a + b == b;
    } else {
      assert (a + b)[1..] == a[1..] + b;
      SlashesConcat(a[1..], b);
    }
  }

  lemma {:induction false} NoSlashes(s: string)
    ensures Slashes(s) == 0 <==> SlashFree(s)
  {
    if s != "" {
      NoSlashes(s[1..]);
      assert '/' in s <==> s[0] == '/' || '/' in s[1..];
    }
  }

  /** A child's id has one slash more than its parent's. */
  lemma ChildSlashes(parent: Id, role: Id, ordinal: nat)
    requires SlashFree(role)
    ensures Slashes(ChildId(parent, role, ordinal)) == Slashes(parent) + 1
    ensures |ChildId(parent, role, ordinal)| > |parent|
  {
    var tail := role + "-" + Decimal(ordinal);
    assert ChildId(parent, role, ordinal) == parent + ("/" + tail);
    SlashesConcat(parent, "/" + tail);
    SlashesConcat("/", tail);
    assert Slashes("/") == 1 + Slashes("/"[1..]);
    DecimalDigits(ordinal);
    NoSlashes(tail);
  }

  // ---- Depth ----------------------------------------------------------------------

  /** Every entry stands under its own id, and its parent's id is shorter. */
  ghost predicate Descending(roster: map<Id, Participant>) {
    forall p {:trigger Placed(roster, p)} :: p in roster ==> Placed(roster, p)
  }

  ghost predicate Placed(roster: map<Id, Participant>, p: Id)
    requires p in roster
  {
    roster[p].id == p && (roster[p].parent.Some? ==> |roster[p].parent.value| < |p|)
  }

  /** How far a participant is below its root; none if an ancestor is not in the roster. */
  function DepthOf(roster: map<Id, Participant>, p: Id): Option<nat>
    requires Descending(roster) && p in roster
    decreases |p|
  {
    assert Placed(roster, p);
    match roster[p].parent
    case None => Some(0)
    case Some(q) =>
      if q !in roster then None
      else
        match DepthOf(roster, q)
        case None => None
        case Some(d) => Some(d + 1)
  }

  /** Every parent is in the roster itself. */
  predicate Rooted(roster: map<Id, Participant>) {
    forall p :: p in roster ==> roster[p].parent.Some? ==> roster[p].parent.value in roster
  }

  lemma {:induction false} RootedDepth(roster: map<Id, Participant>, p: Id)
    requires Descending(roster) && Rooted(roster) && p in roster
    ensures DepthOf(roster, p).Some?
    decreases |p|
  {
    assert Placed(roster, p);
    if roster[p].parent.Some? { RootedDepth(roster, roster[p].parent.value); }
  }

  /** Everybody has a depth exactly when nobody's parent is missing. */
  lemma RootedExactly(roster: map<Id, Participant>)
    requires Descending(roster)
    ensures Rooted(roster) <==> forall p :: p in roster ==> DepthOf(roster, p).Some?
  {
    if Rooted(roster) {
      forall p | p in roster ensures DepthOf(roster, p).Some? { RootedDepth(roster, p); }
    }
  }

  /** Depth is told by the id: each level adds a slash. */
  ghost predicate Levelled(roster: map<Id, Participant>) {
    forall p {:trigger LevelAt(roster, p)} :: p in roster ==> LevelAt(roster, p)
  }

  ghost predicate LevelAt(roster: map<Id, Participant>, p: Id)
    requires p in roster
  {
    Slashes(p) == if roster[p].parent.None? then 0 else Slashes(roster[p].parent.value) + 1
  }

  lemma {:induction false} DepthIsLevel(roster: map<Id, Participant>, p: Id)
    requires Descending(roster) && Levelled(roster) && p in roster
    ensures DepthOf(roster, p).Some? ==> DepthOf(roster, p).value == Slashes(p)
    decreases |p|
  {
    assert Placed(roster, p) && LevelAt(roster, p);
    if roster[p].parent.Some? && roster[p].parent.value in roster { DepthIsLevel(roster, roster[p].parent.value); }
  }

  ghost predicate Within(a: map<Id, Participant>, b: map<Id, Participant>) {
    forall p :: p in a ==> p in b && a[p] == b[p]
  }

  /** A larger roster leaves the depth of those that had one as it was. */
  lemma {:induction false} DepthExtends(a: map<Id, Participant>, b: map<Id, Participant>, p: Id)
    requires Descending(a) && Descending(b) && Within(a, b) && p in a
    ensures DepthOf(a, p).Some? ==> DepthOf(b, p) == DepthOf(a, p)
    decreases |p|
  {
    assert Placed(a, p);
    if a[p].parent.Some? && a[p].parent.value in a { DepthExtends(a, b, a[p].parent.value); }
  }
}
