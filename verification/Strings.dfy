/** The order of strings by their characters, and the one sorted listing of a set of them. */
module Strings {
  predicate Leq(a: string, b: string) {
    a == [] || (b != [] && (a[0] < b[0] || (a[0] == b[0] && Leq(a[1..], b[1..]))))
  }

  lemma {:induction false} LeqTotal(a: string, b: string)
    ensures Leq(a, b) || Leq(b, a)
  {
    if a != [] && b != [] && a[0] == b[0] { LeqTotal(a[1..], b[1..]); }
  }

  lemma {:induction false} LeqAntisymmetric(a: string, b: string)
    requires Leq(a, b) && Leq(b, a)
    ensures a == b
  {
    if a != [] {
      LeqAntisymmetric(a[1..], b[1..]);
      assert a == [a[0]] + a[1..];
    }
  }

  lemma {:induction false} LeqTransitive(a: string, b: string, c: string)
    requires Leq(a, b) && Leq(b, c)
    ensures Leq(a, c)
  {
    if a != [] && a[0] == b[0] == c[0] { LeqTransitive(a[1..], b[1..], c[1..]); }
  }

  predicate IsLeast(x: string, s: set<string>) { x in s && forall y :: y in s ==> Leq(x, y) }

  lemma {:induction false} LeastExists(s: set<string>)
    requires s != {}
    ensures exists x :: IsLeast(x, s)
  {
    var z :| z in s;
    LeqTotal(z, z);
    if s == {z} {
      assert IsLeast(z, s);
    } else {
      LeastExists(s - {z});
      var x :| IsLeast(x, s - {z});
      LeqTotal(x, z);
      if Leq(x, z) {
        assert IsLeast(x, s);
      } else {
        forall y | y in s ensures Leq(z, y) { if y != z { LeqTransitive(z, x, y); } }
        assert IsLeast(z, s);
      }
    }
  }

  function Least(s: set<string>): (x: string)
    requires s != {}
    ensures IsLeast(x, s)
  {
    LeastExists(s);
    assert forall x, y :: IsLeast(x, s) && IsLeast(y, s) ==> x == y by {
      forall x, y | IsLeast(x, s) && IsLeast(y, s) ensures x == y { LeqAntisymmetric(x, y); }
    }
    var x :| x in s && IsLeast(x, s);
    x
  }

  predicate Ascending(s: seq<string>) {
    forall i, j :: 0 <= i < j < |s| ==> s[i] != s[j] && Leq(s[i], s[j])
  }

  function Sorted(s: set<string>): (r: seq<string>)
    ensures Ascending(r) && |r| == |s|
    ensures forall x :: x in r <==> x in s
  {
    if s == {} then [] else
      var x := Least(s);
      [x] + Sorted(s - {x})
  }
}
