/** Sums, counts and filters over table rows, with the laws the SQL aggregates obey. */
module Sums {

  type Money = r: real | r >= 0.0

  function Sum<T(!new)>(f: T -> real, s: seq<T>): real
  {
    if s == [] then 0.0 else f(s[0]) + Sum(f, s[1..])
  }

  function Count<T(!new)>(p: T -> bool, s: seq<T>): nat
  {
    if s == [] then 0 else (if p(s[0]) then 1 else 0) + Count(p, s[1..])
  }

  function Filter<T(!new)>(p: T -> bool, s: seq<T>): (r: seq<T>)
    ensures forall x :: x in r <==> x in s && p(x)
    ensures |r| <= |s|
  {
    if s == [] then []
    else
      assert forall x :: x in s <==> x == s[0] || x in s[1..];
      (if p(s[0]) then [s[0]] else []) + Filter(p, s[1..])
  }

  lemma {:induction false} SumConcat<T(!new)>(f: T -> real, a: seq<T>, b: seq<T>)
    ensures Sum(f, a + b) == Sum(f, a) + Sum(f, b)
  {
    if a == [] {
      assert a + b == b;
    } else {
      assert (a + b)[1..] == a[1..] + b;
      SumConcat(f, a[1..], b);
    }
  }

  lemma SumAppend<T(!new)>(f: T -> real, s: seq<T>, x: T)
    ensures Sum(f, s + [x]) == Sum(f, s) + f(x)
  {
    SumConcat(f, s, [x]);
    assert Sum(f, [x]) == f(x) + Sum(f, [x][1..]);
  }

  lemma {:induction false} SumUpdate<T(!new)>(f: T -> real, s: seq<T>, i: nat, x: T)
    requires i < |s|
    ensures Sum(f, s[i := x]) == Sum(f, s) - f(s[i]) + f(x)
  {
    if i == 0 {
      assert s[0 := x][1..] == s[1..];
    } else {
      assert s[i := x][1..] == s[1..][i - 1 := x];
      SumUpdate(f, s[1..], i - 1, x);
    }
  }

  /** A pointwise rewrite that never raises f never raises the sum. */
  lemma {:induction false} SumMonotone<T(!new)>(f: T -> real, a: seq<T>, b: seq<T>)
    requires |a| == |b|
    requires forall i :: 0 <= i < |a| ==> f(a[i]) <= f(b[i])
    ensures Sum(f, a) <= Sum(f, b)
  {
    if a != [] {
      assert f(a[0]) <= f(b[0]);
      forall i | 0 <= i < |a[1..]|
        ensures f(a[1..][i]) <= f(b[1..][i])
      {
        assert f(a[i + 1]) <= f(b[i + 1]);
      }
      SumMonotone(f, a[1..], b[1..]);
    }
  }

  lemma {:induction false} SumNonNegative<T(!new)>(f: T -> real, s: seq<T>)
    requires forall x :: x in s ==> f(x) >= 0.0
    ensures Sum(f, s) >= 0.0
  {
    if s != [] {
      assert s[0] in s;
      SumNonNegative(f, s[1..]);
    }
  }

  /** Dropping rows that weigh nothing does not change the sum. */
  lemma {:induction false} SumFilter<T(!new)>(f: T -> real, p: T -> bool, s: seq<T>)
    requires forall x :: x in s && !p(x) ==> f(x) == 0.0
    ensures Sum(f, Filter(p, s)) == Sum(f, s)
  {
    if s != [] {
      assert s[0] in s;
      SumFilter(f, p, s[1..]);
      if p(s[0]) {
        assert Filter(p, s)[1..] == Filter(p, s[1..]);
      } else {
        assert Filter(p, s) == Filter(p, s[1..]);
      }
    }
  }

  lemma {:induction false} SumZero<T(!new)>(f: T -> real, s: seq<T>)
    requires forall x :: x in s ==> f(x) == 0.0
    ensures Sum(f, s) == 0.0
  {
    if s != [] {
      assert s[0] in s;
      SumZero(f, s[1..]);
    }
  }

  lemma {:induction false} CountConcat<T(!new)>(p: T -> bool, a: seq<T>, b: seq<T>)
    ensures Count(p, a + b) == Count(p, a) + Count(p, b)
  {
    if a == [] {
      assert a + b == b;
    } else {
      assert (a + b)[1..] == a[1..] + b;
      CountConcat(p, a[1..], b);
    }
  }

  lemma {:induction false} CountUpdate<T(!new)>(p: T -> bool, s: seq<T>, i: nat, x: T)
    requires i < |s|
    ensures Count(p, s[i := x]) == Count(p, s) - (if p(s[i]) then 1 else 0) + (if p(x) then 1 else 0)
  {
    if i == 0 {
      assert s[0 := x][1..] == s[1..];
    } else {
      assert s[i := x][1..] == s[1..][i - 1 := x];
      CountUpdate(p, s[1..], i - 1, x);
    }
  }

  /** Where one predicate implies another, it holds of no more rows. */
  lemma {:induction false} CountImplied<T(!new)>(p: T -> bool, q: T -> bool, s: seq<T>)
    requires forall x :: x in s && p(x) ==> q(x)
    ensures Count(p, s) <= Count(q, s)
  {
    if s != [] {
      assert s[0] in s;
      CountImplied(p, q, s[1..]);
    }
  }

  /** One item that fails the narrower test makes the count smaller. */
  lemma {:induction false} CountLess<T(!new)>(p: T -> bool, q: T -> bool, s: seq<T>, i: nat)
    requires i < |s| && !p(s[i]) && q(s[i]) && forall x :: x in s && p(x) ==> q(x)
    ensures Count(p, s) < Count(q, s)
  {
    if i == 0 {
      CountImplied(p, q, s[1..]);
    } else {
      CountLess(p, q, s[1..], i - 1);
    }
  }

  lemma CountAppend<T(!new)>(p: T -> bool, s: seq<T>, x: T)
    ensures Count(p, s + [x]) == Count(p, s) + if p(x) then 1 else 0
  {
    CountConcat(p, s, [x]);
    assert Count(p, [x]) == (if p(x) then 1 else 0) + Count(p, [x][1..]);
  }

  /** A pointwise rewrite that never turns p on never raises the count. */
  lemma {:induction false} CountMonotone<T(!new)>(p: T -> bool, a: seq<T>, b: seq<T>)
    requires |a| == |b|
    requires forall i :: 0 <= i < |a| && p(a[i]) ==> p(b[i])
    ensures Count(p, a) <= Count(p, b)
  {
    if a != [] {
      forall i | 0 <= i < |a[1..]| && p(a[1..][i])
        ensures p(b[1..][i])
      {
        assert p(a[i + 1]);
      }
      CountMonotone(p, a[1..], b[1..]);
    }
  }

  lemma {:induction false} CountFilter<T(!new)>(p: T -> bool, q: T -> bool, s: seq<T>)
    ensures Count(p, Filter(q, s)) <= Count(p, s)
  {
    if s != [] {
      CountFilter(p, q, s[1..]);
      if q(s[0]) {
        assert Filter(q, s)[1..] == Filter(q, s[1..]);
      } else {
        assert Filter(q, s) == Filter(q, s[1..]);
      }
    }
  }

  lemma {:induction false} CountZero<T(!new)>(p: T -> bool, s: seq<T>)
    ensures Count(p, s) == 0 <==> forall x :: x in s ==> !p(x)
  {
    if s != [] {
      assert forall x :: x in s <==> x == s[0] || x in s[1..];
      CountZero(p, s[1..]);
    }
  }

  // ---- Pairwise relations, for unique keys -----------------------------------

  lemma {:induction false} FilterConcat<T(!new)>(p: T -> bool, a: seq<T>, b: seq<T>)
    ensures Filter(p, a + b) == Filter(p, a) + Filter(p, b)
  {
    if a == [] {
      assert a + b == b;
    } else {
      assert (a + b)[1..] == a[1..] + b;
      FilterConcat(p, a[1..], b);
    }
  }

  ghost predicate Pairwise<T(!new)>(apart: (T, T) -> bool, s: seq<T>) {
    forall i, j :: 0 <= i < j < |s| ==> apart(s[i], s[j])
  }

  lemma {:induction false} PairwiseFilter<T(!new)>(apart: (T, T) -> bool, p: T -> bool, s: seq<T>)
    requires Pairwise(apart, s)
    ensures Pairwise(apart, Filter(p, s))
  {
    if s != [] {
      forall i, j | 0 <= i < j < |s[1..]|
        ensures apart(s[1..][i], s[1..][j])
      {
        assert apart(s[i + 1], s[j + 1]);
      }
      PairwiseFilter(apart, p, s[1..]);
      var rest := Filter(p, s[1..]);
      forall j | 0 <= j < |rest|
        ensures apart(s[0], rest[j])
      {
        assert rest[j] in s[1..];
        var k :| 0 <= k < |s[1..]| && s[1..][k] == rest[j];
        assert apart(s[0], s[k + 1]);
      }
      if p(s[0]) {
        var r := Filter(p, s);
        assert r == [s[0]] + rest;
        forall i, j | 0 <= i < j < |r|
          ensures apart(r[i], r[j])
        {
          assert r[j] == rest[j - 1];
          if i > 0 { assert r[i] == rest[i - 1]; }
        }
      } else {
        assert Filter(p, s) == rest;
      }
    }
  }
}
