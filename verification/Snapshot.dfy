/**
 * The two profile walkers: one recursive, one with an explicit stack. They stop on the
 * same trees, and otherwise find the same entries.
 */
module Snapshot {
  import opened Wrappers
  import opened Trees

  /** A digest stands for the bytes it was taken of. */
  datatype FileState = FileState(kind: string, size: nat, digest: Option<string>, mode: nat, target: Option<string>)

  datatype Limits = Limits(entries: nat, fileBytes: nat, totalBytes: nat)

  type Found = set<(string, FileState)>

  function Redacted(target: string): string {
    if target != "" && target[0] == '/' then "<ABSOLUTE_TARGET>" else target
  }

  function StateOf(node: Node): FileState {
    match node
    case Directory(mode, _) => FileState("directory", 0, None, mode, None)
    case Regular(mode, content) => FileState("file", |content|, Some(content), mode, None)
    case Symlink(mode, target) => FileState("symlink", |Redacted(target)|, None, mode, Some(Redacted(target)))
    case Special(mode) => FileState("other", 0, None, mode, None)
  }

  // ---- What a tree holds -----------------------------------------------------------------

  /** The bytes of the files in a listing and below it. */
  function Bytes(entries: seq<Entry>): nat
    decreases entries
  {
    if entries == [] then 0 else BytesIn(entries[0].node) + Bytes(entries[1..])
  }

  function BytesIn(node: Node): nat
    decreases node
  {
    match node
    case Directory(_, entries) => Bytes(entries)
    case Regular(_, content) => |content|
    case _ => 0
  }

  /** No file is larger than the limit. */
  predicate Small(entries: seq<Entry>, limit: nat)
    decreases entries
  {
    entries == [] || (SmallIn(entries[0].node, limit) && Small(entries[1..], limit))
  }

  predicate SmallIn(node: Node, limit: nat)
    decreases node
  {
    match node
    case Directory(_, entries) => Small(entries, limit)
    case Regular(_, content) => |content| <= limit
    case _ => true
  }

  /** Every entry of a listing and below it, with its path and state. */
  function All(entries: seq<Entry>, prefix: string): Found
    decreases entries
  {
    if entries == [] then {}
    else AllOf(entries[0], prefix) + All(entries[1..], prefix)
  }

  function AllOf(e: Entry, prefix: string): Found
    decreases e
  {
    {(Relative(prefix, e.name), StateOf(e.node))} + AllIn(e.node, Relative(prefix, e.name))
  }

  function AllIn(node: Node, prefix: string): Found
    decreases node
  {
    if node.Directory? then All(node.entries, prefix) else {}
  }

  /** Reading a listing from its end adds up the same. */
  lemma {:induction false} Snoc(entries: seq<Entry>, prefix: string, limit: nat)
    requires entries != []
    ensures var front, e := entries[..|entries| - 1], entries[|entries| - 1];
      && Entries(entries) == Entries(front) + 1 + EntriesIn(e.node)
      && Bytes(entries) == Bytes(front) + BytesIn(e.node)
      && (Small(entries, limit) <==> Small(front, limit) && SmallIn(e.node, limit))
      && All(entries, prefix) == All(front, prefix) + AllOf(e, prefix)
  {
    if |entries| > 1 {
      Snoc(entries[1..], prefix, limit);
      assert entries[1..][..|entries| - 2] == entries[..|entries| - 1][1..];
    }
  }

  // ---- One state to a path ----------------------------------------------------------------

  ghost predicate Functional(s: Found) { forall a, b :: a in s && b in s && a.0 == b.0 ==> a == b }

  lemma {:induction false} AllBelow(entries: seq<Entry>, prefix: string, x: (string, FileState))
    requires Listed(entries) && x in All(entries, prefix)
    ensures exists i :: 0 <= i < |entries| && x in AllOf(entries[i], prefix) && Below(prefix, entries[i].name, x.0)
    decreases entries
  {
    if x in AllOf(entries[0], prefix) {
      OneBelow(entries[0], prefix, x);
    } else {
      ListedTail(entries);
      AllBelow(entries[1..], prefix, x);
      var i :| 0 <= i < |entries[1..]| && x in AllOf(entries[1..][i], prefix)
               && Below(prefix, entries[1..][i].name, x.0);
      assert entries[i + 1] == entries[1..][i];
    }
  }

  lemma OneBelow(e: Entry, prefix: string, x: (string, FileState))
    requires ValidName(e.name) && (e.node.Directory? ==> Listed(e.node.entries)) && x in AllOf(e, prefix)
    ensures Below(prefix, e.name, x.0)
    ensures x.0 == Relative(prefix, e.name) ==> x.1 == StateOf(e.node)
    ensures x.0 != Relative(prefix, e.name) ==> x in AllIn(e.node, Relative(prefix, e.name))
    decreases e
  {
    var r := Relative(prefix, e.name);
    if x in AllIn(e.node, r) {
      var under := e.node.entries;
      AllBelow(under, r, x);
      var i :| 0 <= i < |under| && x in AllOf(under[i], r) && Below(r, under[i].name, x.0);
      BelowChild(prefix, e.name, under[i].name, x.0);
    }
  }

  lemma ListedTail(entries: seq<Entry>)
    requires Listed(entries) && entries != []
    ensures Listed(entries[1..])
  {}

  /** No path is found twice with different states. */
  lemma {:induction false} OneState(entries: seq<Entry>, prefix: string)
    requires Listed(entries)
    ensures Functional(All(entries, prefix))
    decreases entries
  {
    forall a, b | a in All(entries, prefix) && b in All(entries, prefix) && a.0 == b.0
      ensures a == b
    {
      var i := Leading(entries, prefix, a);
      var j := Leading(entries, prefix, b);
      BelowOne(prefix, entries[i].name, entries[j].name, a.0);
      var e := entries[i];
      OneBelow(e, prefix, a);
      OneBelow(e, prefix, b);
      if e.node.Directory? { OneState(e.node.entries, Relative(prefix, e.name)); }
    }
  }

  lemma Leading(entries: seq<Entry>, prefix: string, x: (string, FileState)) returns (i: nat)
    requires Listed(entries) && x in All(entries, prefix)
    ensures i < |entries| && x in AllOf(entries[i], prefix) && Below(prefix, entries[i].name, x.0)
  {
    AllBelow(entries, prefix, x);
    i :| 0 <= i < |entries| && x in AllOf(entries[i], prefix) && Below(prefix, entries[i].name, x.0);
  }
}
