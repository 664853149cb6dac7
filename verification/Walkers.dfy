/** The snapshot walkers as they run: one budget and one snapshot, filled entry by entry. */
module Walkers {
  import opened Wrappers
  import opened Trees
  import opened Snapshot

  const CHUNK_SIZE := 1024 * 1024

  /** A directory still to be read: its path, and its listing. */
  datatype Pending = Pending(path: string, entries: seq<Entry>)

  // ---- What is left to walk ------------------------------------------------------------

  function EntriesLeft(stack: seq<Pending>): nat {
    if stack == [] then 0 else EntriesLeft(stack[..|stack| - 1]) + Entries(stack[|stack| - 1].entries)
  }

  function BytesLeft(stack: seq<Pending>): nat {
    if stack == [] then 0 else BytesLeft(stack[..|stack| - 1]) + Bytes(stack[|stack| - 1].entries)
  }

  predicate SmallLeft(stack: seq<Pending>, limit: nat) {
    stack == [] || (SmallLeft(stack[..|stack| - 1], limit) && Small(stack[|stack| - 1].entries, limit))
  }

  function AllLeft(stack: seq<Pending>): Found {
    if stack == [] then {}
    else AllLeft(stack[..|stack| - 1]) + All(stack[|stack| - 1].entries, stack[|stack| - 1].path)
  }

  lemma Push(stack: seq<Pending>, p: Pending, limit: nat)
    ensures EntriesLeft(stack + [p]) == EntriesLeft(stack) + Entries(p.entries)
    ensures BytesLeft(stack + [p]) == BytesLeft(stack) + Bytes(p.entries)
    ensures SmallLeft(stack + [p], limit) <==> SmallLeft(stack, limit) && Small(p.entries, limit)
    ensures AllLeft(stack + [p]) == AllLeft(stack) + All(p.entries, p.path)
  {
    assert (stack + [p])[..|stack|] == stack;
  }

  function Pairs(m: map<string, FileState>): Found { set k | k in m :: (k, m[k]) }

  /** Recording a pair of a set with one state to a path adds just that pair. */
  lemma PutItem(m: map<string, FileState>, k: string, v: FileState, total: Found)
    requires Functional(total) && Pairs(m) <= total && (k, v) in total
    ensures Pairs(m[k := v]) == Pairs(m) + {(k, v)}
  {
    var after := Pairs(m[k := v]);
    forall y | y in Pairs(m) + {(k, v)} ensures y in after {
      if y in Pairs(m) && y.0 == k { assert y in total; }
      assert y == (y.0, m[k := v][y.0]);
    }
  }

  class Walker {
    const limits: Limits
    const chunks: nat -> nat
    var turn: nat
    var snapshot: map<string, FileState>
    var entries: nat
    var totalBytes: nat

    constructor (limits: Limits, chunks: nat -> nat)
      ensures this.limits == limits && this.chunks == chunks
      ensures snapshot == map[] && entries == 0 && totalBytes == 0
    {
      this.limits, this.chunks := limits, chunks;
      turn, snapshot, entries, totalBytes := 0, map[], 0, 0;
    }

    ghost predicate Valid(total: Found)
      reads this`snapshot, this`entries, this`totalBytes
    {
      && entries <= limits.entries && totalBytes <= limits.totalBytes
      && Pairs(snapshot) <= total && Functional(total)
    }

    // ---- The budget ----------------------------------------------------------------------

    method AddEntry() returns (ok: bool)
      modifies this`entries
      ensures ok <==> old(entries) < limits.entries
      ensures entries == if ok then old(entries) + 1 else old(entries)
    {
      ok := entries < limits.entries;
      if ok { entries := entries + 1; }
    }

    method AddFileBytes(size: nat) returns (ok: bool)
      modifies this`totalBytes
      ensures ok <==> old(totalBytes) + size <= limits.totalBytes
      ensures totalBytes == if ok then old(totalBytes) + size else old(totalBytes)
    {
      ok := totalBytes + size <= limits.totalBytes;
      if ok { totalBytes := totalBytes + size; }
    }

    /** Reading a file chunk by chunk, however the chunks fall, takes it in whole or not at all. */
    method HashFile(content: string) returns (ok: bool, digest: string)
      requires totalBytes <= limits.totalBytes
      modifies this`totalBytes, this`turn
      ensures ok <==> |content| <= limits.fileBytes && old(totalBytes) + |content| <= limits.totalBytes
      ensures ok ==> digest == content && totalBytes == old(totalBytes) + |content|
      ensures totalBytes <= limits.totalBytes
    {
      digest := "";
      if |content| > limits.fileBytes { return false, digest; }
      while |digest| < |content|
        invariant digest <= content && totalBytes == old(totalBytes) + |digest| <= limits.totalBytes
        decreases |content| - |digest|
      {
        var left := |content| - |digest|;
        var asked := if chunks(turn) == 0 then 1 else chunks(turn);
        var size := if asked > CHUNK_SIZE then CHUNK_SIZE else asked;
        var chunk := content[|digest|..|digest| + (if size > left then left else size)];
        turn := turn + 1;
        if |digest| + |chunk| > limits.fileBytes { return false, digest; }
        ok := AddFileBytes(|chunk|);
        if !ok { return; }
        digest := digest + chunk;
      }
      ok := true;
    }

    /** The state of one entry, without what lies below it. */
    method Inspect(node: Node) returns (ok: bool, state: FileState)
      requires totalBytes <= limits.totalBytes
      modifies this`totalBytes, this`turn
      ensures ok <==> || node.Directory?
                      || (SmallIn(node, limits.fileBytes) && old(totalBytes) + BytesIn(node) <= limits.totalBytes)
      ensures ok ==> state == StateOf(node)
      ensures ok ==> totalBytes == old(totalBytes) + (if node.Directory? then 0 else BytesIn(node))
      ensures totalBytes <= limits.totalBytes
    {
      ok := true;
      match node
      case Directory(mode, _) => state := FileState("directory", 0, None, mode, None);
      case Regular(mode, content) =>
        var digest;
        ok, digest := HashFile(content);
        state := FileState("file", |digest|, Some(digest), mode, None);
      case Symlink(mode, target) =>
        var shown := if target != "" && target[0] == '/' then "<ABSOLUTE_TARGET>" else target;
        state := FileState("symlink", |shown|, None, mode, Some(shown));
      case Special(mode) => state := FileState("other", 0, None, mode, None);
    }

    // ---- The recursive walk ----------------------------------------------------------------

    /** What is left of a listing fits the budget. */
    ghost predicate Fits(left: seq<Entry>)
      reads this`entries, this`totalBytes
    {
      && entries + Entries(left) <= limits.entries && Small(left, limits.fileBytes)
      && totalBytes + Bytes(left) <= limits.totalBytes
    }

    method WalkDescriptor(listing: seq<Entry>, prefix: string, ghost total: Found) returns (ok: bool)
      requires Valid(total) && All(listing, prefix) <= total
      modifies this`snapshot, this`entries, this`totalBytes, this`turn
      ensures Valid(total)
      ensures ok <==> old(Fits(listing))
      ensures ok ==> Pairs(snapshot) == Pairs(old(snapshot)) + All(listing, prefix)
      ensures ok ==> entries == old(entries) + Entries(listing) && totalBytes == old(totalBytes) + Bytes(listing)
      decreases Entries(listing), 2
    {
      var left := listing;
      while left != []
        invariant Valid(total) && All(left, prefix) <= total && Entries(left) <= Entries(listing)
        invariant Fits(left) <==> old(Fits(listing))
        invariant Pairs(snapshot) + All(left, prefix) == Pairs(old(snapshot)) + All(listing, prefix)
        invariant entries + Entries(left) == old(entries) + Entries(listing)
        invariant totalBytes + Bytes(left) == old(totalBytes) + Bytes(listing)
        decreases |left|
      {
        ok := WalkFirst(left, prefix, total);
        if !ok { return; }
        left := left[1..];
      }
      ok := true;
    }

    /** The first entry of what is left of a listing. */
    method WalkFirst(left: seq<Entry>, prefix: string, ghost total: Found) returns (ok: bool)
      requires left != [] && Valid(total) && All(left, prefix) <= total
      modifies this`snapshot, this`entries, this`totalBytes, this`turn
      ensures Valid(total) && All(left[1..], prefix) <= total
      ensures if ok then Fits(left[1..]) <==> old(Fits(left)) else !old(Fits(left))
      ensures ok ==> Pairs(snapshot) + All(left[1..], prefix) == Pairs(old(snapshot)) + All(left, prefix)
      ensures ok ==> entries + Entries(left[1..]) == old(entries) + Entries(left)
      ensures ok ==> totalBytes + Bytes(left[1..]) == old(totalBytes) + Bytes(left)
      decreases Entries(left), 1
    {
      ok := WalkEntry(left[0], prefix, total);
    }

    method WalkEntry(e: Entry, prefix: string, ghost total: Found) returns (ok: bool)
      requires Valid(total) && AllOf(e, prefix) <= total
      modifies this`snapshot, this`entries, this`totalBytes, this`turn
      ensures Valid(total)
      ensures ok <==> old(entries) + 1 + EntriesIn(e.node) <= limits.entries && SmallIn(e.node, limits.fileBytes)
                      && old(totalBytes) + BytesIn(e.node) <= limits.totalBytes
      ensures ok ==> Pairs(snapshot) == Pairs(old(snapshot)) + AllOf(e, prefix)
      ensures ok ==> entries == old(entries) + 1 + EntriesIn(e.node) && totalBytes == old(totalBytes) + BytesIn(e.node)
      decreases 1 + EntriesIn(e.node), 0
    {
      var relative := Relative(prefix, e.name);
      ok := AddEntry();
      if !ok { return; }
      var state;
      ok, state := Inspect(e.node);
      if !ok { return; }
      PutItem(snapshot, relative, state, total);
      snapshot := snapshot[relative := state];
      if e.node.Directory? {
        ok := WalkDescriptor(e.node.entries, relative, total);
      }
    }

    // ---- The walk with a stack ---------------------------------------------------------------

    /** A stack and the rest of the listing being read, last entry first, fit the budget. */
    ghost predicate Holds(stack: seq<Pending>, listing: seq<Entry>)
      reads this`entries, this`totalBytes
    {
      && entries + EntriesLeft(stack) + Entries(listing) <= limits.entries
      && SmallLeft(stack, limits.fileBytes) && Small(listing, limits.fileBytes)
      && totalBytes + BytesLeft(stack) + Bytes(listing) <= limits.totalBytes
    }

    /** Read the last entry of a listing. */
    method ReadLast(before: seq<Pending>, path: string, listing: seq<Entry>, ghost total: Found)
      returns (ok: bool, stack: seq<Pending>)
      requires listing != [] && Valid(total) && AllLeft(before) + All(listing, path) <= total
      modifies this`snapshot, this`entries, this`totalBytes, this`turn
      ensures Valid(total)
      ensures !ok ==> !old(Holds(before, listing))
      ensures ok ==> (Holds(stack, listing[..|listing| - 1]) <==> old(Holds(before, listing)))
      ensures ok ==> AllLeft(stack) + All(listing[..|listing| - 1], path) <= total
      ensures var front := listing[..|listing| - 1];
        ok ==>
          && Pairs(snapshot) + (AllLeft(stack) + All(front, path))
             == Pairs(old(snapshot)) + (AllLeft(before) + All(listing, path))
          && EntriesLeft(stack) + |stack| + Entries(front) <= EntriesLeft(before) + |before| + Entries(listing)
    {
      var e := listing[|listing| - 1];
      Snoc(listing, path, limits.fileBytes);
      ok, stack := ReadEntry(before, path, e, total);
      if e.node.Directory? {
        Push(before, Pending(Relative(path, e.name), e.node.entries), limits.fileBytes);
      }
    }

    /** Read one listing: its files are taken in, its directories are pushed. */
    method ReadListing(popped: seq<Pending>, path: string, listing: seq<Entry>, ghost total: Found)
      returns (ok: bool, stack: seq<Pending>)
      requires Valid(total) && AllLeft(popped) + All(listing, path) <= total
      modifies this`snapshot, this`entries, this`totalBytes, this`turn
      ensures Valid(total) && (ok ==> AllLeft(stack) <= total)
      ensures ok ==> (Holds(stack, []) <==> old(Holds(popped, listing)))
      ensures !ok ==> !old(Holds(popped, listing))
      ensures ok ==> Pairs(snapshot) + AllLeft(stack) == Pairs(old(snapshot)) + (AllLeft(popped) + All(listing, path))
      ensures ok ==> EntriesLeft(stack) + |stack| <= EntriesLeft(popped) + |popped| + Entries(listing)
    {
      stack := popped;
      var n := |listing|;
      assert listing[..n] == listing;
      while n > 0
        invariant 0 <= n <= |listing| && Valid(total)
        invariant AllLeft(stack) + All(listing[..n], path) <= total
        invariant Holds(stack, listing[..n]) <==> old(Holds(popped, listing))
        invariant Pairs(snapshot) + (AllLeft(stack) + All(listing[..n], path))
               == Pairs(old(snapshot)) + (AllLeft(popped) + All(listing, path))
        invariant EntriesLeft(stack) + |stack| + Entries(listing[..n])
                  <= EntriesLeft(popped) + |popped| + Entries(listing)
      {
        assert listing[..n][..n - 1] == listing[..n - 1];
        ok, stack := ReadLast(stack, path, listing[..n], total);
        if !ok { return; }
        n := n - 1;
      }
      ok := true;
      assert listing[..0] == [];
    }

    method ReadEntry(stack: seq<Pending>, path: string, e: Entry, ghost total: Found)
      returns (ok: bool, after: seq<Pending>)
      requires Valid(total) && AllOf(e, path) <= total
      modifies this`snapshot, this`entries, this`totalBytes, this`turn
      ensures Valid(total)
      ensures ok <==> old(entries) < limits.entries
                      && (e.node.Directory? || (SmallIn(e.node, limits.fileBytes)
                                                && old(totalBytes) + BytesIn(e.node) <= limits.totalBytes))
      ensures ok ==> entries == old(entries) + 1
      ensures ok ==> totalBytes == old(totalBytes) + (if e.node.Directory? then 0 else BytesIn(e.node))
      ensures ok ==> Pairs(snapshot) == Pairs(old(snapshot)) + {(Relative(path, e.name), StateOf(e.node))}
      ensures ok ==> after == if !e.node.Directory? then stack
                              else stack + [Pending(Relative(path, e.name), e.node.entries)]
    {
      after := stack;
      var relative := Relative(path, e.name);
      ok := AddEntry();
      if !ok { return; }
      var state;
      ok, state := Inspect(e.node);
      if !ok { return; }
      if e.node.Directory? { after := stack + [Pending(relative, e.node.entries)]; }
      PutItem(snapshot, relative, state, total);
      snapshot := snapshot[relative := state];
    }

    /** Every round reads one listing, and there are fewer entries and listings left after it. */
    method WalkStack(root: seq<Entry>, ghost total: Found) returns (ok: bool)
      requires Valid(total) && All(root, "") == total && snapshot == map[]
      modifies this`snapshot, this`entries, this`totalBytes, this`turn
      ensures ok <==> old(Fits(root))
      ensures ok ==> Pairs(snapshot) == total
    {
      var stack := [Pending("", root)];
      Push([], Pending("", root), limits.fileBytes);
      assert [] + [Pending("", root)] == stack;
      while stack != []
        invariant Valid(total) && AllLeft(stack) <= total
        invariant Holds(stack, []) <==> old(Fits(root))
        invariant Pairs(snapshot) + AllLeft(stack) == total
        decreases EntriesLeft(stack) + |stack|
      {
        var top, rest := stack[|stack| - 1], stack[..|stack| - 1];
        ok, stack := ReadListing(rest, top.path, top.entries, total);
        if !ok { return; }
      }
      ok := true;
    }
  }

  // ---- Whole snapshots ---------------------------------------------------------------------

  predicate WithinLimits(root: seq<Entry>, limits: Limits) {
    Entries(root) <= limits.entries && Small(root, limits.fileBytes) && Bytes(root) <= limits.totalBytes
  }

  /** The recursive walk gives every entry of a tree within the limits, and nothing of any other. */
  method TakeDescriptorSnapshot(root: seq<Entry>, limits: Limits, chunks: nat -> nat)
    returns (r: Option<map<string, FileState>>)
    requires Listed(root)
    ensures r.Some? <==> WithinLimits(root, limits)
    ensures r.Some? ==> Pairs(r.value) == All(root, "")
  {
    OneState(root, "");
    var walker := new Walker(limits, chunks);
    var ok := walker.WalkDescriptor(root, "", All(root, ""));
    r := if ok then Some(walker.snapshot) else None;
  }

  /** And so does the walk with a stack. */
  method TakePathSnapshot(root: seq<Entry>, limits: Limits, chunks: nat -> nat)
    returns (r: Option<map<string, FileState>>)
    requires Listed(root)
    ensures r.Some? <==> WithinLimits(root, limits)
    ensures r.Some? ==> Pairs(r.value) == All(root, "")
  {
    OneState(root, "");
    var walker := new Walker(limits, chunks);
    var ok := walker.WalkStack(root, All(root, ""));
    r := if ok then Some(walker.snapshot) else None;
  }

  /** A snapshot is determined by its entries, so the two walks give the same one. */
  lemma SameSnapshot(a: map<string, FileState>, b: map<string, FileState>)
    requires Pairs(a) == Pairs(b)
    ensures a == b
  {
    forall p ensures p in a <==> p in b {
      if p in a { assert (p, a[p]) in Pairs(a); }
      if p in b { assert (p, b[p]) in Pairs(b); }
    }
    forall p | p in a ensures a[p] == b[p] { assert (p, a[p]) in Pairs(b); }
  }

  /** Whichever walk is taken, and however reads fall into chunks, the result is the same. */
  method TakeBoth(root: seq<Entry>, limits: Limits, chunks: nat -> nat, others: nat -> nat)
    returns (a: Option<map<string, FileState>>, b: Option<map<string, FileState>>)
    requires Listed(root)
    ensures a == b
  {
    a := TakeDescriptorSnapshot(root, limits, chunks);
    b := TakePathSnapshot(root, limits, others);
    if a.Some? { SameSnapshot(a.value, b.value); }
  }
}
