/**
 * The byte stream that a repository digest is taken of: every path and content carries its
 * length and kind, so that the stream can be read in one way only.
 */
module Streams {
  import opened Wrappers

  datatype Content = Link(target: string) | File(bytes: string) | Odd

  /** A file as the stream tells it; odd kinds of file never get that far. */
  datatype Record = Record(path: string, content: Content)

  function Pow256(k: nat): nat { if k == 0 then 1 else 256 * Pow256(k - 1) }

  function BigEndian(n: nat, k: nat): string {
    if k == 0 then "" else BigEndian(n / 256, k - 1) + [(n % 256) as char]
  }

  function Value(s: string): nat {
    if s == "" then 0 else Value(s[..|s| - 1]) * 256 + s[|s| - 1] as nat
  }

  lemma {:induction false} BigEndianReads(n: nat, k: nat)
    requires n < Pow256(k)
    ensures |BigEndian(n, k)| == k && Value(BigEndian(n, k)) == n
  {
    if k > 0 {
      BigEndianReads(n / 256, k - 1);
      var s := BigEndian(n, k);
      assert s[..|s| - 1] == BigEndian(n / 256, k - 1);
    }
  }

  predicate Octets(s: string) { forall i :: 0 <= i < |s| ==> s[i] < 256 as char }

  lemma {:induction false} BigEndianWrites(s: string)
    requires Octets(s)
    ensures BigEndian(Value(s), |s|) == s && Value(s) < Pow256(|s|)
  {
    if s != "" {
      BigEndianWrites(s[..|s| - 1]);
      assert Value(s) / 256 == Value(s[..|s| - 1]) && Value(s) % 256 == s[|s| - 1] as nat;
      assert s == s[..|s| - 1] + [s[|s| - 1]];
    }
  }

  // ---- Writing -----------------------------------------------------------------------

  /** How many bytes the length of a path or link target takes, and that of a file. */
  datatype Widths = Widths(short: nat, long: nat)

  const STANDARD := Widths(4, 8)

  function Prefixed(x: string, k: nat): string { BigEndian(|x|, k) + x }

  function Tail(c: Content, w: Widths): string {
    match c
    case Link(target) => "L" + Prefixed(target, w.short)
    case File(bytes) => "F" + Prefixed(bytes, w.long)
    case Odd => ""
  }

  function Encode(r: Record, w: Widths): string { Prefixed(r.path, w.short) + Tail(r.content, w) }

  function Stream(rs: seq<Record>, w: Widths): string {
    if rs == [] then "" else Encode(rs[0], w) + Stream(rs[1..], w)
  }

  predicate ContentFits(c: Content, w: Widths) {
    match c
    case Link(target) => |target| < Pow256(w.short)
    case File(bytes) => |bytes| < Pow256(w.long)
    case Odd => false
  }

  /** Every length fits its field. */
  predicate Fits(r: Record, w: Widths) { |r.path| < Pow256(w.short) && ContentFits(r.content, w) }

  predicate AllFit(rs: seq<Record>, w: Widths) { forall r :: r in rs ==> Fits(r, w) }

  // ---- Reading -----------------------------------------------------------------------

  /** A field and what follows it. */
  function Field(s: string, k: nat): (r: Option<(string, string)>)
    ensures r.Some? ==> |r.value.1| + k + |r.value.0| == |s|
  {
    if |s| < k || |s| < k + Value(s[..k]) then None
    else Some((s[k..k + Value(s[..k])], s[k + Value(s[..k])..]))
  }

  /** What stands at a path, and what follows it. */
  function Body(s: string, w: Widths): (r: Option<(Content, string)>)
    ensures r.Some? ==> |r.value.1| < |s|
  {
    if s == "" then None
    else if s[0] == 'L' then
      match Field(s[1..], w.short)
      case None => None
      case Some((target, rest)) => Some((Link(target), rest))
    else if s[0] == 'F' then
      match Field(s[1..], w.long)
      case None => None
      case Some((bytes, rest)) => Some((File(bytes), rest))
    else None
  }

  /** The first record and what follows it. */
  function First(s: string, w: Widths): (r: Option<(Record, string)>)
    ensures r.Some? ==> |r.value.1| < |s|
  {
    match Field(s, w.short)
    case None => None
    case Some((path, tail)) =>
      match Body(tail, w)
      case None => None
      case Some((content, rest)) => Some((Record(path, content), rest))
  }

  function Decode(s: string, w: Widths): Option<seq<Record>>
    decreases |s|
  {
    if s == "" then Some([])
    else
      match First(s, w)
      case None => None
      case Some((r, rest)) =>
        match Decode(rest, w)
        case None => None
        case Some(rs) => Some([r] + rs)
  }

  lemma FieldReads(x: string, k: nat, rest: string)
    requires |x| < Pow256(k)
    ensures Field(Prefixed(x, k) + rest, k) == Some((x, rest))
  {
    BigEndianReads(|x|, k);
    var s := Prefixed(x, k) + rest;
    assert s[..k] == BigEndian(|x|, k);
    assert s[k..k + |x|] == x && s[k + |x|..] == rest;
  }

  /** A record begins with its path, and then comes what its content takes. */
  lemma PathReads(r: Record, w: Widths, rest: string)
    requires |r.path| < Pow256(w.short)
    ensures Field(Encode(r, w) + rest, w.short) == Some((r.path, Tail(r.content, w) + rest))
  {
    assert Encode(r, w) + rest == Prefixed(r.path, w.short) + (Tail(r.content, w) + rest);
    FieldReads(r.path, w.short, Tail(r.content, w) + rest);
  }

  lemma MarkedReads(mark: string, x: string, k: nat, rest: string)
    requires |mark| == 1 && |x| < Pow256(k)
    ensures var s := (mark + Prefixed(x, k)) + rest; s[0] == mark[0] && Field(s[1..], k) == Some((x, rest))
  {
    assert ((mark + Prefixed(x, k)) + rest)[1..] == Prefixed(x, k) + rest;
    FieldReads(x, k, rest);
  }

  lemma BodyReads(c: Content, w: Widths, rest: string)
    requires ContentFits(c, w)
    ensures Body(Tail(c, w) + rest, w) == Some((c, rest))
  {
    match c
    case Link(target) => MarkedReads("L", target, w.short, rest);
    case File(bytes) => MarkedReads("F", bytes, w.long, rest);
  }

  lemma FirstReads(r: Record, w: Widths, rest: string)
    requires Fits(r, w)
    ensures First(Encode(r, w) + rest, w) == Some((r, rest))
  {
    PathReads(r, w, rest);
    BodyReads(r.content, w, rest);
  }

  lemma DecodeStep(s: string, w: Widths, r: Record, rest: string, rs: seq<Record>)
    requires First(s, w) == Some((r, rest)) && Decode(rest, w) == Some(rs)
    ensures Decode(s, w) == Some([r] + rs)
  {
    assert s != "";
  }

  /** What was written reads back. */
  lemma {:induction false} RoundTrip(rs: seq<Record>, w: Widths)
    requires AllFit(rs, w)
    ensures Decode(Stream(rs, w), w) == Some(rs)
  {
    if rs != [] {
      var r, more := rs[0], rs[1..];
      assert Fits(r, w) by { assert r in rs; }
      assert AllFit(more, w) by { assert forall x :: x in more ==> x in rs; }
      FirstReads(r, w, Stream(more, w));
      RoundTrip(more, w);
      DecodeStep(Encode(r, w) + Stream(more, w), w, r, Stream(more, w), more);
      assert [r] + more == rs;
    }
  }

  lemma FieldWrites(s: string, k: nat)
    requires Octets(s) && Field(s, k).Some?
    ensures var (x, rest) := Field(s, k).value;
            |x| < Pow256(k) && s == Prefixed(x, k) + rest && Octets(rest)
  {
    BigEndianWrites(s[..k]);
    var (x, rest) := Field(s, k).value;
    assert s == s[..k] + x + rest;
  }

  lemma BodyWrites(s: string, w: Widths)
    requires Octets(s) && Body(s, w).Some?
    ensures var (c, rest) := Body(s, w).value;
            ContentFits(c, w) && s == Tail(c, w) + rest && Octets(rest)
  {
    FieldWrites(s[1..], if s[0] == 'L' then w.short else w.long);
    assert s == [s[0]] + s[1..];
  }

  lemma FirstWrites(s: string, w: Widths)
    requires Octets(s) && First(s, w).Some?
    ensures var (r, rest) := First(s, w).value;
            Fits(r, w) && s == Encode(r, w) + rest && Octets(rest)
  {
    FieldWrites(s, w.short);
    var (path, tail) := Field(s, w.short).value;
    BodyWrites(tail, w);
    var (c, rest) := Body(tail, w).value;
    assert s == (Prefixed(path, w.short) + Tail(c, w)) + rest;
  }

  /** And nothing else reads as the same list: reading and writing are inverse. */
  lemma {:induction false} ReadsOneWay(s: string, w: Widths)
    requires Octets(s) && Decode(s, w).Some?
    ensures AllFit(Decode(s, w).value, w) && Stream(Decode(s, w).value, w) == s
    decreases |s|
  {
    if s != "" {
      var (r, rest) := First(s, w).value;
      FirstWrites(s, w);
      ReadsOneWay(rest, w);
      var rs := Decode(rest, w).value;
      assert ([r] + rs)[1..] == rs;
    }
  }

  /** Two lists of files give the same stream only if they are the same list. */
  lemma StreamInjective(a: seq<Record>, b: seq<Record>, w: Widths)
    requires AllFit(a, w) && AllFit(b, w) && Stream(a, w) == Stream(b, w)
    ensures a == b
  {
    RoundTrip(a, w);
    RoundTrip(b, w);
  }

  lemma Regrouped(x: string, y: string, z: string)
    ensures x + (y + z) == (x + y) + z
  {}

  lemma {:induction false} StreamConcat(a: seq<Record>, b: seq<Record>, w: Widths)
    ensures Stream(a + b, w) == Stream(a, w) + Stream(b, w)
  {
    if a == [] {
      assert a + b == b;
    } else {
      assert (a + b)[1..] == a[1..] + b;
      StreamConcat(a[1..], b, w);
      Regrouped(Encode(a[0], w), Stream(a[1..], w), Stream(b, w));
    }
  }
}
