/**
 * Directory trees as a walker finds them: listings sorted by name, and the paths below
 * them. A character stands for one byte of a name, a link target or a file.
 */
module Trees {
  import opened Strings

  datatype Node =
    | Directory(mode: nat, entries: seq<Entry>)
    | Regular(mode: nat, content: string)
    | Symlink(mode: nat, target: string)
    | Special(mode: nat)

  datatype Entry = Entry(name: string, node: Node)

  predicate ValidName(n: string) { n != "" && '/' !in n }

  /** A sorted listing of distinct, valid names, and so are the listings below it. */
  ghost predicate Listed(entries: seq<Entry>)
    decreases entries
  {
    && (forall i, j :: 0 <= i < j < |entries| ==>
          entries[i].name != entries[j].name && Leq(entries[i].name, entries[j].name))
    && (forall i :: 0 <= i < |entries| ==> ValidName(entries[i].name))
    && (forall i :: 0 <= i < |entries| && entries[i].node.Directory? ==> Listed(entries[i].node.entries))
  }

  /** The path of a name below a prefix; the root's prefix is empty. */
  function Relative(prefix: string, name: string): string {
    if prefix == "" then name else prefix + "/" + name
  }

  /** A path is this entry's, or lies below it. */
  predicate Below(prefix: string, name: string, path: string) {
    var r := Relative(prefix, name);
    r <= path && (|path| > |r| ==> path[|r|] == '/')
  }

  /** Where the names below a prefix begin. */
  function Skip(prefix: string): nat { if prefix == "" then 0 else |prefix| + 1 }

  /** The path below a prefix begins with the name, and goes on, if at all, with a slash. */
  lemma BelowStarts(prefix: string, n: string, path: string)
    requires Below(prefix, n, path)
    ensures var k := Skip(prefix);
      && k + |n| <= |path| && path[k..k + |n|] == n && (k + |n| < |path| ==> path[k + |n|] == '/')
  {
    var r, k := Relative(prefix, n), Skip(prefix);
    assert r[k..] == n && path[..|r|] == r;
    assert path[k..|r|] == path[..|r|][k..];
  }

  lemma NoLonger(n: string, m: string, path: string, k: nat)
    requires ValidName(m) && k + |n| <= |path| && k + |m| <= |path|
    requires path[k..k + |m|] == m && (k + |n| < |path| ==> path[k + |n|] == '/')
    ensures |m| <= |n|
  {
    forall i | k <= i < k + |m| ensures path[i] != '/' { assert path[k..k + |m|][i - k] == path[i]; }
  }

  /** Only one name of a listing leads to a path. */
  lemma BelowOne(prefix: string, n: string, m: string, path: string)
    requires ValidName(n) && ValidName(m) && Below(prefix, n, path) && Below(prefix, m, path)
    ensures n == m
  {
    BelowStarts(prefix, n, path);
    BelowStarts(prefix, m, path);
    NoLonger(n, m, path, Skip(prefix));
    NoLonger(m, n, path, Skip(prefix));
  }

  /** What lies below a directory lies below its name, and is not the directory itself. */
  lemma BelowChild(prefix: string, name: string, child: string, path: string)
    requires ValidName(name) && ValidName(child) && Below(Relative(prefix, name), child, path)
    ensures Below(prefix, name, path) && path != Relative(prefix, name)
  {
    var r := Relative(prefix, name);
    assert Relative(r, child) == r + "/" + child;
    assert path[..|r| + 1] == r + "/";
    assert path[|r|] == '/';
  }

  /** How many entries a listing holds, at any depth. */
  function Entries(entries: seq<Entry>): nat
    decreases entries
  {
    if entries == [] then 0 else 1 + EntriesIn(entries[0].node) + Entries(entries[1..])
  }

  function EntriesIn(node: Node): nat
    decreases node
  {
    if node.Directory? then Entries(node.entries) else 0
  }
}
