/**
 * Which files a repository digest covers, and in which order: a directory's own files by
 * name, then its subdirectories by name, each the same way. The order is a function of the
 * paths alone, so the files decide the list.
 */
module RepositoryFiles {
  import opened Wrappers
  import opened Strings
  import opened Trees
  import opened Streams

  const IGNORED: set<string> := {
    ".git", ".hypothesis", ".mypy_cache", ".pytest_cache", ".ruff_cache", ".tox", ".venv",
    "__pycache__", "build", "dist", "node_modules"
  }

  /** A path is kept as its parts. */
  type Path = seq<string>

  datatype Item = Item(path: Path, content: Content)

  predicate Skipped(path: Path, ignored: set<string>)
    requires path != []
  {
    path[|path| - 1] in ignored || path[0] == ".toolbelt"
  }

  function ContentOf(node: Node): Content {
    match node
    case Regular(_, bytes) => File(bytes)
    case Symlink(_, target) => Link(target)
    case _ => Odd
  }

  /** All files below a directory, in the order in which they are digested. */
  function Visit(entries: seq<Entry>, dir: Path, ignored: set<string>): seq<Item>
    decreases entries, 1
  {
    FilesOf(entries, dir, ignored) + DirectoriesOf(entries, dir, ignored)
  }

  function FilesOf(entries: seq<Entry>, dir: Path, ignored: set<string>): seq<Item> {
    if entries == [] then []
    else FileAt(entries[0], dir, ignored) + FilesOf(entries[1..], dir, ignored)
  }

  function FileAt(e: Entry, dir: Path, ignored: set<string>): seq<Item> {
    if Skipped(dir + [e.name], ignored) || e.node.Directory? then [] else [Item(dir + [e.name], ContentOf(e.node))]
  }

  function DirectoriesOf(entries: seq<Entry>, dir: Path, ignored: set<string>): seq<Item>
    decreases entries, 0
  {
    if entries == [] then []
    else DirectoryAt(entries[0], dir, ignored) + DirectoriesOf(entries[1..], dir, ignored)
  }

  function DirectoryAt(e: Entry, dir: Path, ignored: set<string>): seq<Item>
    decreases e, 2
  {
    if !Skipped(dir + [e.name], ignored) && e.node.Directory? then Visit(e.node.entries, dir + [e.name], ignored)
    else []
  }

  // ---- The order of paths -------------------------------------------------------------

  /** Where paths part: a file of the directory comes before what lies deeper, then by name. */
  predicate Precedes(p: Path, q: Path) {
    p != [] && q != [] &&
    if p[0] == q[0] then Precedes(p[1..], q[1..])
    else if |p| == 1 && |q| > 1 then true
    else if |p| > 1 && |q| == 1 then false
    else Leq(p[0], q[0])
  }

  lemma {:induction false} PrecedesOneWay(p: Path, q: Path)
    requires Precedes(p, q)
    ensures !Precedes(q, p)
  {
    if p[0] == q[0] {
      PrecedesOneWay(p[1..], q[1..]);
    } else if Precedes(q, p) {
      LeqAntisymmetric(p[0], q[0]);
    }
  }

  lemma {:induction false} PrecedesBelow(dir: Path, p: Path, q: Path)
    ensures Precedes(dir + p, dir + q) <==> Precedes(p, q)
  {
    if dir == [] {
      assert dir + p == p && dir + q == q;
    } else {
      assert (dir + p)[1..] == dir[1..] + p && (dir + q)[1..] == dir[1..] + q;
      PrecedesBelow(dir[1..], p, q);
    }
  }

  ghost predicate InOrder(s: seq<Item>) {
    forall i, j :: 0 <= i < j < |s| ==> Precedes(s[i].path, s[j].path)
  }

  /** There is only one way to list a set of files in order. */
  lemma {:induction false} OrderUnique(a: seq<Item>, b: seq<Item>)
    requires InOrder(a) && InOrder(b) && forall x :: x in a <==> x in b
    ensures a == b
  {
    if a == [] {
      assert forall i :: 0 <= i < |b| ==> b[i] in b;
      assert |b| == 0;
    } else {
      assert a[0] in b && b[0] in a;
      var i :| 0 <= i < |b| && b[i] == a[0];
      var j :| 0 <= j < |a| && a[j] == b[0];
      if i > 0 && j > 0 { PrecedesOneWay(a[0].path, b[0].path); }
      assert a[0] == b[0];
      forall x ensures x in a[1..] <==> x in b[1..] {
        assert x in a <==> x == a[0] || x in a[1..];
        assert x in b <==> x == b[0] || x in b[1..];
        NotAgain(a);
        NotAgain(b);
      }
      OrderUnique(a[1..], b[1..]);
    }
  }

  lemma NotAgain(a: seq<Item>)
    requires InOrder(a) && a != []
    ensures a[0] !in a[1..]
  {
    if a[0] in a[1..] {
      var i :| 0 <= i < |a[1..]| && a[1..][i] == a[0];
      assert a[i + 1] == a[0];
      PrecedesOneWay(a[0].path, a[i + 1].path);
    }
  }

  // ---- The walk goes in that order ------------------------------------------------------

  lemma {:induction false} FilesHere(entries: seq<Entry>, dir: Path, x: Item, ignored: set<string>) returns (i: nat)
    requires x in FilesOf(entries, dir, ignored)
    ensures i < |entries| && !entries[i].node.Directory?
    ensures x == Item(dir + [entries[i].name], ContentOf(entries[i].node)) && !Skipped(x.path, ignored)
  {
    if x !in FileAt(entries[0], dir, ignored) {
      i := FilesHere(entries[1..], dir, x, ignored);
      i := i + 1;
    } else {
      i := 0;
      assert x == FileAt(entries[0], dir, ignored)[0];
    }
  }

  lemma {:induction false} FileListed(entries: seq<Entry>, dir: Path, i: nat, ignored: set<string>)
    requires i < |entries| && !entries[i].node.Directory? && !Skipped(dir + [entries[i].name], ignored)
    ensures Item(dir + [entries[i].name], ContentOf(entries[i].node)) in FilesOf(entries, dir, ignored)
  {
    if i > 0 {
      FileListed(entries[1..], dir, i - 1, ignored);
    } else {
      assert Item(dir + [entries[0].name], ContentOf(entries[0].node)) == FileAt(entries[0], dir, ignored)[0];
    }
  }

  lemma {:induction false} DirectoriesHere(entries: seq<Entry>, dir: Path, x: Item, ignored: set<string>)
    returns (i: nat)
    requires x in DirectoriesOf(entries, dir, ignored)
    ensures i < |entries| && entries[i].node.Directory? && !Skipped(dir + [entries[i].name], ignored)
    ensures x in Visit(entries[i].node.entries, dir + [entries[i].name], ignored)
  {
    if x in DirectoryAt(entries[0], dir, ignored) {
      i := 0;
    } else {
      i := DirectoriesHere(entries[1..], dir, x, ignored);
      i := i + 1;
    }
  }

  lemma {:induction false} DirectoryListed(entries: seq<Entry>, dir: Path, i: nat, x: Item, ignored: set<string>)
    requires i < |entries| && entries[i].node.Directory? && !Skipped(dir + [entries[i].name], ignored)
    requires x in Visit(entries[i].node.entries, dir + [entries[i].name], ignored)
    ensures x in DirectoriesOf(entries, dir, ignored)
  {
    if i > 0 { DirectoryListed(entries[1..], dir, i - 1, x, ignored); }
  }

  /** Everything visited lies below the directory. */
  lemma {:induction false} VisitBelow(entries: seq<Entry>, dir: Path, x: Item, ignored: set<string>)
    requires x in Visit(entries, dir, ignored)
    ensures |x.path| > |dir| && x.path[..|dir|] == dir
    decreases entries
  {
    if x in FilesOf(entries, dir, ignored) {
      var i := FilesHere(entries, dir, x, ignored);
    } else {
      var i := DirectoriesHere(entries, dir, x, ignored);
      VisitBelow(entries[i].node.entries, dir + [entries[i].name], x, ignored);
      assert x.path[..|dir|] == x.path[..|dir| + 1][..|dir|];
    }
  }

  /** In a directory's part of the walk, paths go on with its name and at least one more. */
  lemma DeeperPath(entries: seq<Entry>, dir: Path, x: Item, ignored: set<string>) returns (i: nat)
    requires x in DirectoriesOf(entries, dir, ignored)
    ensures i < |entries| && entries[i].node.Directory?
    ensures |x.path| > |dir| + 1 && x.path[..|dir|] == dir && x.path[|dir|] == entries[i].name
  {
    i := DirectoriesHere(entries, dir, x, ignored);
    VisitBelow(entries[i].node.entries, dir + [entries[i].name], x, ignored);
    assert x.path[..|dir| + 1][|dir|] == entries[i].name;
    assert x.path[..|dir|] == x.path[..|dir| + 1][..|dir|];
  }

  lemma InOrderConcat(a: seq<Item>, b: seq<Item>)
    requires InOrder(a) && InOrder(b) && forall x, y :: x in a && y in b ==> Precedes(x.path, y.path)
    ensures InOrder(a + b)
  {}

  lemma ByName(dir: Path, p: Path, q: Path)
    requires |p| > |dir| && |q| > |dir| && p[..|dir|] == dir && q[..|dir|] == dir
    requires p[|dir|] != q[|dir|]
    requires |p| == |dir| + 1 || |q| > |dir| + 1
    requires (|p| == |dir| + 1 && |q| > |dir| + 1) || Leq(p[|dir|], q[|dir|])
    ensures Precedes(p, q)
  {
    assert p == dir + p[|dir|..] && q == dir + q[|dir|..];
    PrecedesBelow(dir, p[|dir|..], q[|dir|..]);
  }

  lemma TailListed(entries: seq<Entry>)
    requires Listed(entries) && entries != []
    ensures Listed(entries[1..])
    ensures forall i :: 0 <= i < |entries[1..]| ==>
              entries[0].name != entries[1..][i].name && Leq(entries[0].name, entries[1..][i].name)
  {}

  lemma {:induction false} FilesInOrder(entries: seq<Entry>, dir: Path, ignored: set<string>)
    requires Listed(entries)
    ensures InOrder(FilesOf(entries, dir, ignored))
  {
    if entries != [] {
      TailListed(entries);
      FilesInOrder(entries[1..], dir, ignored);
      forall x, y | x in FileAt(entries[0], dir, ignored) && y in FilesOf(entries[1..], dir, ignored)
        ensures Precedes(x.path, y.path)
      {
        var i := FilesHere(entries[1..], dir, y, ignored);
        ByName(dir, x.path, y.path);
      }
      InOrderConcat(FileAt(entries[0], dir, ignored), FilesOf(entries[1..], dir, ignored));
    }
  }

  lemma {:induction false} DirectoriesInOrder(entries: seq<Entry>, dir: Path, ignored: set<string>)
    requires Listed(entries)
    ensures InOrder(DirectoriesOf(entries, dir, ignored))
    decreases entries, 0
  {
    if entries != [] {
      var e := entries[0];
      TailListed(entries);
      DirectoriesInOrder(entries[1..], dir, ignored);
      if e.node.Directory? { VisitInOrder(e.node.entries, dir + [e.name], ignored); }
      forall x, y | x in DirectoryAt(e, dir, ignored) && y in DirectoriesOf(entries[1..], dir, ignored)
        ensures Precedes(x.path, y.path)
      {
        VisitBelow(e.node.entries, dir + [e.name], x, ignored);
        assert x.path[..|dir| + 1][|dir|] == e.name && x.path[..|dir|] == x.path[..|dir| + 1][..|dir|];
        var i := DeeperPath(entries[1..], dir, y, ignored);
        ByName(dir, x.path, y.path);
      }
      InOrderConcat(DirectoryAt(e, dir, ignored), DirectoriesOf(entries[1..], dir, ignored));
    }
  }

  /** The walk lists a tree's files in the order of their paths. */
  lemma VisitInOrder(entries: seq<Entry>, dir: Path, ignored: set<string>)
    requires Listed(entries)
    ensures InOrder(Visit(entries, dir, ignored))
    decreases entries, 1
  {
    FilesInOrder(entries, dir, ignored);
    DirectoriesInOrder(entries, dir, ignored);
    forall x, y | x in FilesOf(entries, dir, ignored) && y in DirectoriesOf(entries, dir, ignored)
      ensures Precedes(x.path, y.path)
    {
      var i := FilesHere(entries, dir, x, ignored);
      var j := DeeperPath(entries, dir, y, ignored);
      assert i != j;
      ByName(dir, x.path, y.path);
    }
    InOrderConcat(FilesOf(entries, dir, ignored), DirectoriesOf(entries, dir, ignored));
  }

  // ---- The walk covers exactly the files that are not ignored ---------------------------

  function Named(entries: seq<Entry>, name: string): (i: Option<nat>)
    ensures i.Some? ==> i.value < |entries| && entries[i.value].name == name
    ensures i.None? ==> forall j :: 0 <= j < |entries| ==> entries[j].name != name
  {
    if entries == [] then None
    else if entries[0].name == name then Some(0)
    else match Named(entries[1..], name)
         case None => None
         case Some(j) => Some(j + 1)
  }

  /** What a tree holds at a path, unless that is nothing or a directory. */
  function Lookup(entries: seq<Entry>, path: Path): Option<Content>
    decreases |path|
  {
    if path == [] then None
    else
      match Named(entries, path[0])
      case None => None
      case Some(i) =>
        var node := entries[i].node;
        if |path| == 1 then (if node.Directory? then None else Some(ContentOf(node)))
        else if node.Directory? then Lookup(node.entries, path[1..])
        else None
  }

  ghost predicate Reached(dir: Path, path: Path, ignored: set<string>) {
    forall k :: 1 <= k <= |path| ==> !Skipped(dir + path[..k], ignored)
  }

  lemma {:induction false} VisitLooksUp(entries: seq<Entry>, dir: Path, x: Item, ignored: set<string>)
    requires Listed(entries) && x in Visit(entries, dir, ignored)
    ensures |x.path| > |dir| && x.path[..|dir|] == dir
    ensures Lookup(entries, x.path[|dir|..]) == Some(x.content) && Reached(dir, x.path[|dir|..], ignored)
    decreases entries
  {
    VisitBelow(entries, dir, x, ignored);
    var rest := x.path[|dir|..];
    if x in FilesOf(entries, dir, ignored) {
      var i := FilesHere(entries, dir, x, ignored);
      assert rest == [entries[i].name];
      NamedIs(entries, i);
      assert rest[..1] == rest;
    } else {
      var i := DirectoriesHere(entries, dir, x, ignored);
      var name := entries[i].name;
      VisitLooksUp(entries[i].node.entries, dir + [name], x, ignored);
      assert x.path[..|dir| + 1][|dir|] == name;
      assert rest[0] == name && rest[1..] == x.path[|dir| + 1..];
      NamedIs(entries, i);
      LookupDown(entries, i, rest);
      ReachedDown(dir, rest, ignored);
    }
  }

  lemma LookupDown(entries: seq<Entry>, i: nat, rest: Path)
    requires |rest| > 1 && Named(entries, rest[0]) == Some(i) && entries[i].node.Directory?
    ensures Lookup(entries, rest) == Lookup(entries[i].node.entries, rest[1..])
  {}

  lemma ReachedDown(dir: Path, rest: Path, ignored: set<string>)
    requires |rest| > 1 && !Skipped(dir + [rest[0]], ignored) && Reached(dir + [rest[0]], rest[1..], ignored)
    ensures Reached(dir, rest, ignored)
  {
    forall k | 1 <= k <= |rest| ensures !Skipped(dir + rest[..k], ignored) {
      if k > 1 {
        assert dir + rest[..k] == (dir + [rest[0]]) + rest[1..][..k - 1];
      } else {
        assert rest[..1] == [rest[0]];
      }
    }
  }

  lemma NamedIs(entries: seq<Entry>, i: nat)
    requires Listed(entries) && i < |entries|
    ensures Named(entries, entries[i].name) == Some(i)
  {
    var j := Named(entries, entries[i].name).value;
    assert entries[j].name == entries[i].name;
  }

  /** What a path reached from a directory is reached from the next one down. */
  lemma ReachedBelow(dir: Path, path: Path, ignored: set<string>)
    requires |path| > 1 && Reached(dir, path, ignored)
    ensures !Skipped(dir + [path[0]], ignored) && Reached(dir + [path[0]], path[1..], ignored)
  {
    var down, rest := dir + [path[0]], path[1..];
    assert path[..1] == [path[0]] && !Skipped(dir + path[..1], ignored);
    forall k | 1 <= k <= |rest| ensures !Skipped(down + rest[..k], ignored) {
      assert down + rest[..k] == dir + path[..k + 1];
    }
  }

  lemma LookedUpHere(entries: seq<Entry>, dir: Path, path: Path, c: Content, ignored: set<string>)
    requires |path| == 1 && Lookup(entries, path) == Some(c) && Reached(dir, path, ignored)
    ensures Item(dir + path, c) in Visit(entries, dir, ignored)
  {
    var i := Named(entries, path[0]).value;
    assert path == path[..1] == [path[0]] && !Skipped(dir + path[..1], ignored);
    FileListed(entries, dir, i, ignored);
  }

  lemma {:induction false} LookedUpIsVisited(entries: seq<Entry>, dir: Path, path: Path, c: Content,
                                             ignored: set<string>)
    requires Lookup(entries, path) == Some(c) && Reached(dir, path, ignored)
    ensures Item(dir + path, c) in Visit(entries, dir, ignored)
    decreases |path|
  {
    if |path| == 1 {
      LookedUpHere(entries, dir, path, c, ignored);
    } else {
      var i := Named(entries, path[0]).value;
      ReachedBelow(dir, path, ignored);
      LookedUpIsVisited(entries[i].node.entries, dir + [path[0]], path[1..], c, ignored);
      assert (dir + [path[0]]) + path[1..] == dir + path;
      DirectoryListed(entries, dir, i, Item(dir + path, c), ignored);
    }
  }
}
