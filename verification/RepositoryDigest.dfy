/**
 * The digest that binds a plan to a repository's content: the traversal with its stack,
 * the limits, and the bytes fed to the hash. Two trees feed the same bytes exactly when
 * their files that are not ignored agree.
 */
module RepositoryDigest {
  import opened Wrappers
  import opened Trees
  import opened Streams
  import opened RepositoryFiles

  const MAX_FILES := 25000
  const MAX_BYTES := 64 * 1024 * 1024

  datatype DigestError = FileLimit | ByteLimit | UnsupportedType | FieldOverflow

  datatype Pending = Pending(dir: Path, entries: seq<Entry>)

  // ---- Paths as text -----------------------------------------------------------------

  function Posix(path: Path): string
    requires path != []
  {
    if |path| == 1 then path[0] else path[0] + "/" + Posix(path[1..])
  }

  predicate Proper(path: Path) { path != [] && forall i :: 0 <= i < |path| ==> ValidName(path[i]) }

  lemma FirstPart(path: Path)
    requires Proper(path)
    ensures path[0] <= Posix(path)
    ensures |path| == 1 ==> Posix(path) == path[0]
    ensures |path| > 1 ==> |Posix(path)| > |path[0]| && Posix(path)[|path[0]|] == '/'
                           && Posix(path)[|path[0]| + 1..] == Posix(path[1..])
  {
    if |path| > 1 {
      assert Posix(path) == (path[0] + "/") + Posix(path[1..]);
    }
  }

  /** The text of a path tells its parts. */
  lemma {:induction false} PosixInjective(p: Path, q: Path)
    requires Proper(p) && Proper(q) && Posix(p) == Posix(q)
    ensures p == q
  {
    FirstPart(p);
    FirstPart(q);
    var s := Posix(p);
    assert forall i :: 0 <= i < |p[0]| ==> s[i] == p[0][i] && s[i] != '/';
    assert forall i :: 0 <= i < |q[0]| ==> s[i] == q[0][i] && s[i] != '/';
    assert |p[0]| == |q[0]|;
    assert p[0] == s[..|p[0]|] && q[0] == s[..|q[0]|];
    if |p| > 1 && |q| > 1 { PosixInjective(p[1..], q[1..]); }
    assert p == [p[0]] + p[1..] && q == [q[0]] + q[1..];
  }

  function RecordOf(x: Item): Record
    requires x.path != []
  {
    Record(Posix(x.path), x.content)
  }

  function Records(items: seq<Item>): seq<Record>
    requires forall x :: x in items ==> x.path != []
  {
    if items == [] then [] else [RecordOf(items[0])] + Records(items[1..])
  }

  // ---- What is accepted ----------------------------------------------------------------

  function Size(c: Content): nat { if c.File? then |c.bytes| else 0 }

  function TotalSize(items: seq<Item>): nat {
    if items == [] then 0 else TotalSize(items[..|items| - 1]) + Size(items[|items| - 1].content)
  }

  predicate Accepted(items: seq<Item>) {
    && |items| <= MAX_FILES && TotalSize(items) <= MAX_BYTES
    && forall x :: x in items ==> x.path != [] && !x.content.Odd? && Fits(RecordOf(x), STANDARD)
  }

  /** What has been fed to the hash, and the counts of files and bytes behind it. */
  datatype Progress = Progress(fed: string, files: nat, bytes: nat)

  ghost predicate Tells(h: Progress, done: seq<Item>) {
    && Accepted(done) && h.files == |done| && h.bytes == TotalSize(done)
    && h.fed == Stream(Records(done), STANDARD)
  }

  lemma AcceptedOneMore(done: seq<Item>, x: Item)
    ensures Accepted(done + [x]) <==>
              Accepted(done) && |done| < MAX_FILES && TotalSize(done) + Size(x.content) <= MAX_BYTES
              && x.path != [] && !x.content.Odd? && Fits(RecordOf(x), STANDARD)
  {
    assert (done + [x])[..|done|] == done;
    assert forall y :: y in done + [x] <==> y in done || y == x;
  }

  lemma {:induction false} AcceptedPrefix(a: seq<Item>, b: seq<Item>)
    requires Accepted(a + b)
    ensures Accepted(a)
  {
    if b == [] {
      assert a + b == a;
    } else {
      var front, x := a + b[..|b| - 1], b[|b| - 1];
      assert a + b == front + [x];
      AcceptedOneMore(front, x);
      AcceptedPrefix(a, b[..|b| - 1]);
    }
  }

  lemma {:induction false} RecordsOneMore(done: seq<Item>, x: Item)
    requires Accepted(done) && x.path != []
    ensures Records(done + [x]) == Records(done) + [RecordOf(x)]
  {
    if done != [] {
      assert (done + [x])[1..] == done[1..] + [x];
      AcceptedTail(done);
      RecordsOneMore(done[1..], x);
    }
  }

  lemma {:induction false} TotalSizeConcat(a: seq<Item>, b: seq<Item>)
    ensures TotalSize(a + b) == TotalSize(a) + TotalSize(b)
  {
    if b == [] {
      assert a + b == a;
    } else {
      assert (a + b)[..|a + b| - 1] == a + b[..|b| - 1];
      TotalSizeConcat(a, b[..|b| - 1]);
    }
  }

  lemma AcceptedTail(done: seq<Item>)
    requires Accepted(done) && done != []
    ensures Accepted(done[1..])
  {
    assert done == [done[0]] + done[1..];
    TotalSizeConcat([done[0]], done[1..]);
  }

  lemma FedOneMore(h: Progress, done: seq<Item>, x: Item, fed: string)
    requires Tells(h, done) && Accepted(done + [x]) && x.path != [] && fed == h.fed + Encode(RecordOf(x), STANDARD)
    ensures Tells(Progress(fed, h.files + 1, h.bytes + Size(x.content)), done + [x])
  {
    RecordsOneMore(done, x);
    StreamConcat(Records(done), [RecordOf(x)], STANDARD);
    StreamOne(RecordOf(x), STANDARD);
    assert (done + [x])[..|done|] == done;
  }

  lemma StreamOne(r: Record, w: Widths)
    ensures Stream([r], w) == Encode(r, w)
  {
    assert Stream([r][1..], w) == "";
  }

  // ---- Feeding one file ------------------------------------------------------------------

  /** A length before its bytes, if it fits. */
  method Field(x: string, width: nat) returns (ok: bool, field: string)
    ensures ok <==> |x| < Pow256(width)
    ensures ok ==> field == Prefixed(x, width)
  {
    ok, field := |x| < Pow256(width), "";
    if ok { field := BigEndian(|x|, width) + x; }
  }

  method FeedEntry(h: Progress, x: Item, w: Widths) returns (r: Result<Progress, DigestError>)
    requires x.path != [] && h.bytes <= MAX_BYTES < Pow256(w.long)
    ensures r.Ok? <==> h.files < MAX_FILES && h.bytes + Size(x.content) <= MAX_BYTES
                       && !x.content.Odd? && Fits(RecordOf(x), w)
    ensures r.Ok? ==> r.value == Progress(h.fed + Encode(RecordOf(x), w), h.files + 1, h.bytes + Size(x.content))
  {
    if h.files + 1 > MAX_FILES { return Err(FileLimit); }
    var ok, path := Field(Posix(x.path), w.short);
    if !ok { return Err(FieldOverflow); }
    match x.content
    case Link(target) =>
      var field;
      ok, field := Field(target, w.short);
      if !ok { return Err(FieldOverflow); }
      r := Ok(Progress(h.fed + (path + ("L" + field)), h.files + 1, h.bytes));
    case File(bytes) =>
      if h.bytes + |bytes| > MAX_BYTES { return Err(ByteLimit); }
      var field;
      ok, field := Field(bytes, w.long);
      r := Ok(Progress(h.fed + (path + ("F" + field)), h.files + 1, h.bytes + |bytes|));
    case Odd => return Err(UnsupportedType);
  }

  lemma LongEnough()
    ensures MAX_BYTES < Pow256(8)
  {
    assert Pow256(4) == 4294967296;
    assert Pow256(8) == 256 * 256 * 256 * 256 * Pow256(4);
  }

  // ---- What is left to visit -------------------------------------------------------------

  function VisitAll(children: seq<Pending>): seq<Item> {
    if children == [] then []
    else Visit(children[0].entries, children[0].dir, IGNORED) + VisitAll(children[1..])
  }

  /** A stack's directories, from its top down. */
  function Left(stack: seq<Pending>): seq<Item> {
    if stack == [] then []
    else Visit(stack[|stack| - 1].entries, stack[|stack| - 1].dir, IGNORED) + Left(stack[..|stack| - 1])
  }

  function Reversed(children: seq<Pending>): seq<Pending> {
    if children == [] then [] else Reversed(children[1..]) + [children[0]]
  }

  function Weight(stack: seq<Pending>): nat {
    if stack == [] then 0 else Weight(stack[..|stack| - 1]) + 1 + Entries(stack[|stack| - 1].entries)
  }

  lemma WeightPush(stack: seq<Pending>, p: Pending)
    ensures Weight(stack + [p]) == Weight(stack) + 1 + Entries(p.entries)
  {
    assert (stack + [p])[..|stack|] == stack;
  }

  /** Pushed in reverse, the children are visited in order, before what was left. */
  lemma {:induction false} PushReversed(stack: seq<Pending>, children: seq<Pending>)
    ensures Left(stack + Reversed(children)) == VisitAll(children) + Left(stack)
  {
    if children == [] {
      assert stack + Reversed(children) == stack;
    } else {
      var below, p := stack + Reversed(children[1..]), children[0];
      PushReversed(stack, children[1..]);
      assert stack + Reversed(children) == below + [p];
      LeftPush(below, p);
    }
  }

  lemma LeftPush(stack: seq<Pending>, p: Pending)
    ensures Left(stack + [p]) == Visit(p.entries, p.dir, IGNORED) + Left(stack)
  {
    assert (stack + [p])[..|stack|] == stack;
  }

  lemma {:induction false} WeightReversed(stack: seq<Pending>, children: seq<Pending>)
    ensures Weight(stack + Reversed(children)) == Weight(stack) + Weight(children)
  {
    if children == [] {
      assert stack + Reversed(children) == stack;
    } else {
      var below := stack + Reversed(children[1..]);
      WeightReversed(stack, children[1..]);
      assert stack + Reversed(children) == below + [children[0]];
      WeightPush(below, children[0]);
      WeightFirst(children);
    }
  }

  lemma {:induction false} WeightFirst(children: seq<Pending>)
    requires children != []
    ensures Weight(children) == Weight(children[1..]) + 1 + Entries(children[0].entries)
  {
    if |children| > 1 {
      WeightFirst(children[..|children| - 1]);
      assert children[..|children| - 1][1..] == children[1..][..|children| - 2];
    }
  }

  lemma {:induction false} VisitAllOneMore(children: seq<Pending>, p: Pending)
    ensures VisitAll(children + [p]) == VisitAll(children) + Visit(p.entries, p.dir, IGNORED)
  {
    if children == [] {
      assert [p][1..] == [];
    } else {
      assert (children + [p])[1..] == children[1..] + [p];
      VisitAllOneMore(children[1..], p);
    }
  }

  // ---- The traversal -----------------------------------------------------------------------

  /** One entry: fed if it is a file, noted if it is a directory, passed over if it is ignored. */
  method ReadEntry(h: Progress, e: Entry, dir: Path, ghost done: seq<Item>)
    returns (r: Result<Progress, DigestError>, child: Option<Pending>)
    requires Tells(h, done)
    ensures r.Ok? <==> Accepted(done + FileAt(e, dir, IGNORED))
    ensures r.Ok? ==> Tells(r.value, done + FileAt(e, dir, IGNORED))
    ensures child == if !Skipped(dir + [e.name], IGNORED) && e.node.Directory?
                     then Some(Pending(dir + [e.name], e.node.entries)) else None
  {
    var path := dir + [e.name];
    r, child := Ok(h), None;
    if Skipped(path, IGNORED) || e.node.Directory? {
      assert done + FileAt(e, dir, IGNORED) == done;
      if !Skipped(path, IGNORED) { child := Some(Pending(path, e.node.entries)); }
    } else {
      LongEnough();
      var x := Item(path, ContentOf(e.node));
      r := FeedEntry(h, x, STANDARD);
      AcceptedOneMore(done, x);
      if r.Ok? { FedOneMore(h, done, x, r.value.fed); }
    }
  }

  /** Part of a directory has been read: what is done and noted, with the rest, is all of it. */
  ghost predicate Midway(all: seq<Item>, children: seq<Pending>, p: Pending, i: nat, done: seq<Item>)
    requires i <= |p.entries|
  {
    && Weight(children) + Entries(p.entries[i..]) <= Entries(p.entries)
    && all + FilesOf(p.entries[i..], p.dir, IGNORED) == done + FilesOf(p.entries, p.dir, IGNORED)
    && VisitAll(children) + DirectoriesOf(p.entries[i..], p.dir, IGNORED) == DirectoriesOf(p.entries, p.dir, IGNORED)
  }

  lemma FilesNext(all: seq<Item>, e: Entry, more: seq<Entry>, dir: Path)
    ensures (all + FileAt(e, dir, IGNORED)) + FilesOf(more, dir, IGNORED) == all + FilesOf([e] + more, dir, IGNORED)
  {
    assert ([e] + more)[1..] == more;
  }

  lemma EntriesNext(e: Entry, more: seq<Entry>)
    ensures Entries([e] + more) == 1 + EntriesIn(e.node) + Entries(more)
  {
    assert ([e] + more)[1..] == more;
  }

  lemma MidwayNext(all: seq<Item>, were: seq<Pending>, children: seq<Pending>,
                   child: Option<Pending>,
                   p: Pending, i: nat, done: seq<Item>)
    requires i < |p.entries| && Midway(all, were, p, i, done)
    requires child == if !Skipped(p.dir + [p.entries[i].name], IGNORED) && p.entries[i].node.Directory?
                      then Some(Pending(p.dir + [p.entries[i].name], p.entries[i].node.entries)) else None
    requires children == if child.Some? then were + [child.value] else were
    ensures Midway(all + FileAt(p.entries[i], p.dir, IGNORED), children, p, i + 1, done)
    ensures (all + FileAt(p.entries[i], p.dir, IGNORED)) + FilesOf(p.entries[i + 1..], p.dir, IGNORED)
         == done + FilesOf(p.entries, p.dir, IGNORED)
  {
    var e, more := p.entries[i], p.entries[i + 1..];
    assert p.entries[i..] == [e] + more;
    FilesNext(all, e, more, p.dir);
    EntriesNext(e, more);
    Noted(were, children, child, e, p.dir, more);
  }

  /** One directory: its files are fed, and its subdirectories listed. */
  method ReadDirectory(h: Progress, p: Pending, ghost done: seq<Item>)
    returns (r: Result<Progress, DigestError>, children: seq<Pending>)
    requires Tells(h, done)
    ensures r.Ok? <==> Accepted(done + FilesOf(p.entries, p.dir, IGNORED))
    ensures r.Ok? ==> Tells(r.value, done + FilesOf(p.entries, p.dir, IGNORED))
    ensures r.Ok? ==> VisitAll(children) == DirectoriesOf(p.entries, p.dir, IGNORED)
    ensures r.Ok? ==> Weight(children) <= Entries(p.entries)
  {
    var now := h;
    children := [];
    ghost var all := done;
    for i := 0 to |p.entries|
      invariant Tells(now, all) && Midway(all, children, p, i, done)
    {
      var read, child;
      read, child := ReadEntry(now, p.entries[i], p.dir, all);
      ghost var were := children;
      if child.Some? { children := children + [child.value]; }
      MidwayNext(all, were, children, child, p, i, done);
      if read.Err? {
        NotAccepted(all + FileAt(p.entries[i], p.dir, IGNORED), FilesOf(p.entries[i + 1..], p.dir, IGNORED));
        return Err(read.error), children;
      }
      now := read.value;
      all := all + FileAt(p.entries[i], p.dir, IGNORED);
    }
    r := Ok(now);
    assert all + [] == all;
  }

  lemma NotAccepted(a: seq<Item>, b: seq<Item>)
    ensures !Accepted(a) ==> !Accepted(a + b)
  {
    if Accepted(a + b) { AcceptedPrefix(a, b); }
  }

  lemma {:induction false} Noted(were: seq<Pending>, children: seq<Pending>, child: Option<Pending>, e: Entry,
                                 dir: Path, more: seq<Entry>)
    requires child == if !Skipped(dir + [e.name], IGNORED) && e.node.Directory?
                      then Some(Pending(dir + [e.name], e.node.entries)) else None
    requires children == if child.Some? then were + [child.value] else were
    ensures VisitAll(children) == VisitAll(were) + DirectoryAt(e, dir, IGNORED)
    ensures Weight(children) <= Weight(were) + 1 + EntriesIn(e.node)
    ensures VisitAll(children) + DirectoriesOf(more, dir, IGNORED)
         == VisitAll(were) + DirectoriesOf([e] + more, dir, IGNORED)
  {
    if child.Some? {
      VisitAllOneMore(were, child.value);
      WeightPush(were, child.value);
    } else {
      assert VisitAll(were) + [] == VisitAll(were);
    }
    assert ([e] + more)[1..] == more;
  }

  lemma LeftTop(stack: seq<Pending>)
    requires stack != []
    ensures var top, rest := stack[|stack| - 1], stack[..|stack| - 1];
      && Left(stack) == FilesOf(top.entries, top.dir, IGNORED)
                        + (DirectoriesOf(top.entries, top.dir, IGNORED) + Left(rest))
      && Weight(stack) == Weight(rest) + 1 + Entries(top.entries)
  {}

  /**
   * The traversal feeds the files of the walk, in its order, and stops on exactly the
   * trees that the limits, the kinds of file and the length fields do not accept.
   */
  method RepositoryContent(root: seq<Entry>) returns (r: Result<string, DigestError>)
    ensures r.Ok? <==> Accepted(Visit(root, [], IGNORED))
    ensures r.Ok? ==> r.value == Stream(Records(Visit(root, [], IGNORED)), STANDARD)
  {
    ghost var goal := Visit(root, [], IGNORED);
    var stack := [Pending([], root)];
    var now := Progress("", 0, 0);
    ghost var done: seq<Item> := [];
    LeftPush([], Pending([], root));
    assert [] + [Pending([], root)] == stack;
    while stack != []
      invariant Tells(now, done) && done + Left(stack) == goal
      decreases Weight(stack)
    {
      var read;
      read, stack, done := ReadTop(now, stack, done, goal);
      if read.Err? { return Err(read.error); }
      now := read.value;
    }
    assert done == goal;
    r := Ok(now.fed);
  }

  /** A directory's files done and its subdirectories pushed in its place: the same walk is left. */
  lemma Popped(stack: seq<Pending>, done: seq<Item>, files: seq<Item>, children: seq<Pending>)
    requires stack != []
    requires var top := stack[|stack| - 1];
      && files == FilesOf(top.entries, top.dir, IGNORED)
      && VisitAll(children) == DirectoriesOf(top.entries, top.dir, IGNORED)
      && Weight(children) <= Entries(top.entries)
    ensures var after := stack[..|stack| - 1] + Reversed(children);
      (done + files) + Left(after) == done + Left(stack) && Weight(after) < Weight(stack)
  {
    var rest := stack[..|stack| - 1];
    LeftTop(stack);
    PushReversed(rest, children);
    WeightReversed(rest, children);
    assert (done + files) + (VisitAll(children) + Left(rest)) == done + (files + (VisitAll(children) + Left(rest)));
  }

  /** When a directory's files are not accepted, the walk that begins with it is not. */
  lemma {:induction false} NotPopped(stack: seq<Pending>, done: seq<Item>, files: seq<Item>)
    requires stack != []
    requires files == FilesOf(stack[|stack| - 1].entries, stack[|stack| - 1].dir, IGNORED)
    ensures !Accepted(done + files) ==> !Accepted(done + Left(stack))
  {
    var top, rest := stack[|stack| - 1], stack[..|stack| - 1];
    var deeper := DirectoriesOf(top.entries, top.dir, IGNORED) + Left(rest);
    LeftTop(stack);
    assert done + (files + deeper) == (done + files) + deeper;
    NotAccepted(done + files, deeper);
  }

  /** The directory on top of the stack, in whose place its subdirectories are left. */
  method ReadTop(now: Progress, stack: seq<Pending>, ghost done: seq<Item>, ghost goal: seq<Item>)
    returns (r: Result<Progress, DigestError>, after: seq<Pending>, ghost all: seq<Item>)
    requires stack != [] && Tells(now, done) && done + Left(stack) == goal
    ensures r.Err? ==> !Accepted(goal)
    ensures r.Ok? ==> Tells(r.value, all) && all + Left(after) == goal && Weight(after) < Weight(stack)
  {
    var top := stack[|stack| - 1];
    ghost var files := FilesOf(top.entries, top.dir, IGNORED);
    var children;
    r, children := ReadDirectory(now, top, done);
    after, all := stack[..|stack| - 1] + Reversed(children), done + files;
    if r.Ok? { Popped(stack, done, files, children); } else { NotPopped(stack, done, files); }
  }

  // ---- What the bytes tell ---------------------------------------------------------------

  /** Neither ignored nor below anything ignored. */
  predicate Kept(path: Path) {
    path != [] && path[0] != ".toolbelt" && forall k :: 0 <= k < |path| ==> path[k] !in IGNORED
  }

  /** What the digest covers of a tree at a path. */
  function Covered(root: seq<Entry>, path: Path): Option<Content> {
    if Kept(path) then Lookup(root, path) else None
  }

  lemma ReachedIsKept(path: Path)
    requires path != []
    ensures Reached([], path, IGNORED) <==> Kept(path)
  {
    forall k | 1 <= k <= |path| ensures [] + path[..k] == path[..k] && path[..k][k - 1] == path[k - 1] {}
    if Reached([], path, IGNORED) {
      forall k | 0 <= k < |path| ensures path[k] !in IGNORED && path[0] != ".toolbelt" {
        assert !Skipped([] + path[..k + 1], IGNORED);
      }
    }
  }

  lemma VisitedIsCovered(root: seq<Entry>, x: Item)
    requires Listed(root)
    ensures x in Visit(root, [], IGNORED) <==> Covered(root, x.path) == Some(x.content)
  {
    if x in Visit(root, [], IGNORED) {
      VisitLooksUp(root, [], x, IGNORED);
      assert x.path[0..] == x.path;
      ReachedIsKept(x.path);
    }
    if Covered(root, x.path) == Some(x.content) {
      ReachedIsKept(x.path);
      LookedUpIsVisited(root, [], x.path, x.content, IGNORED);
      assert [] + x.path == x.path;
    }
  }

  lemma {:induction false} LookupProper(entries: seq<Entry>, path: Path)
    requires Listed(entries) && Lookup(entries, path).Some?
    ensures Proper(path)
    decreases |path|
  {
    var i := Named(entries, path[0]).value;
    assert ValidName(entries[i].name);
    if |path| > 1 {
      LookupProper(entries[i].node.entries, path[1..]);
      assert forall k :: 1 <= k < |path| ==> path[k] == path[1..][k - 1];
    }
  }

  lemma {:induction false} RecordsFit(items: seq<Item>)
    requires Accepted(items)
    ensures AllFit(Records(items), STANDARD)
  {
    if items != [] {
      assert items[0] in items;
      AcceptedTail(items);
      RecordsFit(items[1..]);
    }
  }

  ghost predicate AllProper(items: seq<Item>) { forall x :: x in items ==> x.path != [] && Proper(x.path) }

  lemma {:induction false} RecordsInjective(a: seq<Item>, b: seq<Item>)
    requires AllProper(a) && AllProper(b)
    requires Records(a) == Records(b)
    ensures a == b
  {
    if a != [] && b != [] {
      assert a[0] in a && b[0] in b;
      assert Records(a)[0] == RecordOf(a[0]) && Records(b)[0] == RecordOf(b[0]);
      PosixInjective(a[0].path, b[0].path);
      assert Records(a)[1..] == Records(a[1..]) && Records(b)[1..] == Records(b[1..]);
      RecordsInjective(a[1..], b[1..]);
    }
  }

  lemma VisitedProper(root: seq<Entry>)
    requires Listed(root)
    ensures AllProper(Visit(root, [], IGNORED))
  {
    forall x | x in Visit(root, [], IGNORED) ensures x.path != [] && Proper(x.path) {
      VisitedIsCovered(root, x);
      LookupProper(root, x.path);
    }
  }

  /** Trees that feed the same bytes cover the same files. */
  lemma SameBytesSameWalk(a: seq<Entry>, b: seq<Entry>)
    requires Listed(a) && Listed(b)
    requires Accepted(Visit(a, [], IGNORED)) && Accepted(Visit(b, [], IGNORED))
    requires Stream(Records(Visit(a, [], IGNORED)), STANDARD) == Stream(Records(Visit(b, [], IGNORED)), STANDARD)
    ensures Visit(a, [], IGNORED) == Visit(b, [], IGNORED)
  {
    RecordsFit(Visit(a, [], IGNORED));
    RecordsFit(Visit(b, [], IGNORED));
    StreamInjective(Records(Visit(a, [], IGNORED)), Records(Visit(b, [], IGNORED)), STANDARD);
    VisitedProper(a);
    VisitedProper(b);
    RecordsInjective(Visit(a, [], IGNORED), Visit(b, [], IGNORED));
  }

  /** Trees that cover the same files are walked alike, whatever else they hold. */
  lemma SameFilesSameWalk(a: seq<Entry>, b: seq<Entry>)
    requires Listed(a) && Listed(b) && forall path :: Covered(a, path) == Covered(b, path)
    ensures Visit(a, [], IGNORED) == Visit(b, [], IGNORED)
  {
    forall x ensures x in Visit(a, [], IGNORED) <==> x in Visit(b, [], IGNORED) {
      VisitedIsCovered(a, x);
      VisitedIsCovered(b, x);
    }
    VisitInOrder(a, [], IGNORED);
    VisitInOrder(b, [], IGNORED);
    OrderUnique(Visit(a, [], IGNORED), Visit(b, [], IGNORED));
  }

  /**
   * The bytes fed to the hash tell the repository: two accepted trees feed the same bytes
   * exactly when at every path both hold the same file, or link, or neither.
   */
  lemma SameBytesExactly(a: seq<Entry>, b: seq<Entry>)
    requires Listed(a) && Listed(b)
    requires Accepted(Visit(a, [], IGNORED)) && Accepted(Visit(b, [], IGNORED))
    ensures Stream(Records(Visit(a, [], IGNORED)), STANDARD) == Stream(Records(Visit(b, [], IGNORED)), STANDARD)
       <==> forall path :: Covered(a, path) == Covered(b, path)
  {
    if Stream(Records(Visit(a, [], IGNORED)), STANDARD) == Stream(Records(Visit(b, [], IGNORED)), STANDARD) {
      SameBytesSameWalk(a, b);
      forall path ensures Covered(a, path) == Covered(b, path) {
        if Covered(a, path).Some? { VisitedIsCovered(a, Item(path, Covered(a, path).value)); }
        if Covered(b, path).Some? { VisitedIsCovered(b, Item(path, Covered(b, path).value)); }
        if Covered(a, path).Some? { VisitedIsCovered(b, Item(path, Covered(a, path).value)); }
        if Covered(b, path).Some? { VisitedIsCovered(a, Item(path, Covered(b, path).value)); }
      }
    } else if forall path :: Covered(a, path) == Covered(b, path) {
      SameFilesSameWalk(a, b);
    }
  }
}
