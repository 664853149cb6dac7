/**
 * The installer's file transaction: stage every change beside its destination, then move
 * originals aside and new files in, and move them back if anything fails. The environment
 * decides at every file operation whether it happens, raises without effect, is
 * interrupted, or never comes about because the process is lost.
 */
module FileTransaction {
  import opened Wrappers
  import opened Strings

  type Path = string
  type Text = string

  datatype Signal = Go | Fault | Interrupt | Crash

  /** What kind of operation it is; the environment may look at that. */
  datatype Point = Plain | Writing | Syncing

  datatype Outcome = Committed | RolledBack | Incomplete(failures: seq<Path>) | Interrupted | Lost

  /** How far one destination's replacement has come. */
  datatype Record = Record(path: Path, moved: bool, installed: bool)

  // ---- What the environment has answered ----------------------------------------------

  /** Every operation in this range happened. */
  predicate Calm(log: seq<Signal>, from: nat, to: nat) { forall t :: from <= t < to <= |log| ==> log[t] == Go }

  /** None in this range met the end of the process. */
  predicate Alive(log: seq<Signal>, from: nat, to: nat) { forall t :: from <= t < to <= |log| ==> log[t] != Crash }

  /** None in this range was interrupted. */
  predicate Undisturbed(log: seq<Signal>, from: nat, to: nat) {
    forall t :: from <= t < to <= |log| ==> log[t] != Interrupt
  }

  /** None in this range happened. */
  predicate Idle(log: seq<Signal>, from: nat, to: nat) { forall t :: from <= t < to <= |log| ==> log[t] != Go }

  /** What became of a range of operations of which each had to happen. */
  predicate Told(s: Signal, was: seq<Signal>, now: seq<Signal>) {
    && was <= now && (s == Go <==> Calm(now, |was|, |now|))
    && (s == Crash <==> !Alive(now, |was|, |now|)) && (s == Interrupt <==> !Undisturbed(now, |was|, |now|))
  }

  /** The same of operations that may fail; s is never a failure. */
  predicate Got(s: Signal, was: seq<Signal>, now: seq<Signal>) {
    && was <= now && s != Fault && (Calm(now, |was|, |now|) ==> s == Go)
    && (s == Crash <==> !Alive(now, |was|, |now|)) && (s == Interrupt <==> !Undisturbed(now, |was|, |now|))
  }

  function Past(s: Signal): Signal { if s == Fault then Go else s }

  lemma Longer(a: seq<Signal>, b: seq<Signal>, from: nat, to: nat)
    requires a <= b && to <= |a|
    ensures Calm(a, from, to) == Calm(b, from, to) && Alive(a, from, to) == Alive(b, from, to)
    ensures Undisturbed(a, from, to) == Undisturbed(b, from, to) && Idle(a, from, to) == Idle(b, from, to)
  {
    forall t | from <= t < to ensures a[t] == b[t] {}
  }

  lemma Split(log: seq<Signal>, from: nat, mid: nat, to: nat)
    requires from <= mid <= to <= |log|
    ensures Calm(log, from, to) <==> Calm(log, from, mid) && Calm(log, mid, to)
    ensures Alive(log, from, to) <==> Alive(log, from, mid) && Alive(log, mid, to)
    ensures Undisturbed(log, from, to) <==> Undisturbed(log, from, mid) && Undisturbed(log, mid, to)
    ensures Idle(log, from, to) <==> Idle(log, from, mid) && Idle(log, mid, to)
  {}

  /** One range of operations after another. */
  lemma Joined(was: seq<Signal>, mid: seq<Signal>, now: seq<Signal>)
    requires was <= mid <= now
    ensures Calm(now, |was|, |now|) <==> Calm(mid, |was|, |mid|) && Calm(now, |mid|, |now|)
    ensures Alive(now, |was|, |now|) <==> Alive(mid, |was|, |mid|) && Alive(now, |mid|, |now|)
    ensures Undisturbed(now, |was|, |now|) <==> Undisturbed(mid, |was|, |mid|) && Undisturbed(now, |mid|, |now|)
    ensures Idle(now, |was|, |now|) <==> Idle(mid, |was|, |mid|) && Idle(now, |mid|, |now|)
  {
    Longer(mid, now, |was|, |mid|);
    Split(now, |was|, |mid|, |now|);
  }

  /** What is said of the part up to some point stays true as more is heard. */
  lemma Later(was: seq<Signal>, mark: nat, end: seq<Signal>, now: seq<Signal>)
    requires was <= end <= now && |was| <= mark <= |end|
    ensures Calm(now, |was|, mark) == Calm(end, |was|, mark)
    ensures Undisturbed(now, mark, |end|) == Undisturbed(end, mark, |end|)
    ensures Idle(now, mark, |end|) == Idle(end, mark, |end|)
    ensures Alive(now, |was|, |now|) <==> Alive(end, |was|, |end|) && Alive(now, |end|, |now|)
  {
    Longer(end, now, |was|, mark);
    Longer(end, now, mark, |end|);
    Joined(was, end, now);
  }

  lemma ToldThen(was: seq<Signal>, mid: seq<Signal>, now: seq<Signal>, s: Signal)
    requires Told(Go, was, mid) && Told(s, mid, now)
    ensures Told(s, was, now)
  {
    Joined(was, mid, now);
  }

  lemma GotThen(was: seq<Signal>, mid: seq<Signal>, now: seq<Signal>, s: Signal)
    requires Got(Go, was, mid) && (Told(s, mid, now) || Got(s, mid, now))
    ensures Got(Past(s), was, now)
    ensures Calm(now, |was|, |now|) ==> Calm(mid, |was|, |mid|) && Calm(now, |mid|, |now|)
    ensures Idle(now, |was|, |now|) ==> Idle(mid, |was|, |mid|) && Idle(now, |mid|, |now|)
  {
    Joined(was, mid, now);
  }

  // ---- Which destinations change -------------------------------------------------------

  /** A text as it is read: every way of ending a line becomes a line feed. */
  function Read(s: Text): Text {
    if s == "" then ""
    else if s[0] != '\r' then [s[0]] + Read(s[1..])
    else "\n" + Read(if |s| > 1 && s[1] == '\n' then s[2..] else s[1..])
  }

  /** Staging leaves a destination alone when it already reads as it should. */
  predicate Effective(files: map<Path, Text>, changes: map<Path, Option<Text>>, p: Path)
    requires p in changes
  {
    if changes[p].None? then p in files else !(p in files && Read(files[p]) == changes[p].value)
  }

  /** The files once every change with an effect is in place. */
  function Applied(files: map<Path, Text>, changes: map<Path, Option<Text>>): map<Path, Text> {
    map p | p in files.Keys + changes.Keys
            && (if p in changes && Effective(files, changes, p) then changes[p].Some? else p in files)
      :: if p in changes && Effective(files, changes, p) then changes[p].value else files[p]
  }

  /** The files once every staged change is in place. */
  function Changed(files: map<Path, Text>, changes: map<Path, Option<Text>>): map<Path, Text> {
    map p | p in files.Keys + changes.Keys && (p in changes ==> changes[p].Some?)
      :: if p in changes then changes[p].value else files[p]
  }

  /** A destination that differs from its staged text, but reads the same. */
  predicate PassedOver(files: map<Path, Text>, changes: map<Path, Option<Text>>, p: Path) {
    p in changes && changes[p].Some? && p in files && files[p] != changes[p].value && Read(files[p]) == changes[p].value
  }

  /** Every path is as staged exactly when no destination is passed over; one that is stays as it was. */
  lemma AsStagedExactly(files: map<Path, Text>, changes: map<Path, Option<Text>>)
    ensures Applied(files, changes) == Changed(files, changes) <==> forall p :: !PassedOver(files, changes, p)
    ensures forall p :: if PassedOver(files, changes, p) then Same(files, Applied(files, changes), p)
                        else Same(Changed(files, changes), Applied(files, changes), p)
  {
    var applied, changed := Applied(files, changes), Changed(files, changes);
    forall p
      ensures if PassedOver(files, changes, p) then Same(files, applied, p) && !Same(changed, applied, p)
              else Same(changed, applied, p)
    {}
    if forall p :: !PassedOver(files, changes, p) { SameEverywhere(changed, applied); }
  }

  /** Reading leaves no carriage return, and changes nothing exactly when there was none. */
  lemma {:induction false} ReadExactly(s: Text)
    ensures '\r' !in Read(s) && (Read(s) == s <==> '\r' !in s)
  {
    if s != "" {
      ReadExactly(s[1..]);
      if s[0] == '\r' {
        if |s| > 1 { ReadExactly(s[2..]); }
        assert '\r' !in Read(s);
      } else {
        assert s == [s[0]] + s[1..];
      }
    }
  }

  /** Only a destination with a carriage return can be passed over. */
  lemma PassedOverHasReturn(files: map<Path, Text>, changes: map<Path, Option<Text>>, p: Path)
    requires PassedOver(files, changes, p)
    ensures '\r' in files[p] && '\r' !in changes[p].value
  {
    ReadExactly(files[p]);
  }

  // ---- One destination -----------------------------------------------------------------

  /**
   * Where a destination and its backup stand, given what was there before the commit and
   * has not been given up since.
   */
  ghost predicate Tracks(r: Record, before: map<Path, Text>, files: map<Path, Text>, backups: map<Path, Text>,
                         text: Option<Text>)
  {
    var p := r.path;
    && (p in backups ==> r.moved && p in before)
    && (r.moved && p in before ==> p in backups && backups[p] == before[p])
    && (r.installed ==> text.Some? && p in files && files[p] == text.value && (p in before ==> r.moved))
    && (r.moved && !r.installed ==> p !in files)
    && (!r.moved && !r.installed ==> Same(before, files, p))
  }

  predicate Same(a: map<Path, Text>, b: map<Path, Text>, p: Path) {
    (p in a <==> p in b) && (p in a && p in b ==> a[p] == b[p])
  }

  /** The bytes that were at a path are at the path or in its backup. */
  predicate Kept(before: map<Path, Text>, files: map<Path, Text>, backups: map<Path, Text>, p: Path) {
    p in before ==> (p in files && files[p] == before[p]) || (p in backups && backups[p] == before[p])
  }

  class Transaction {
    const dryRun: bool
    const script: (nat, Point) -> Signal
    var heard: seq<Signal>  // what the environment has answered so far
    var order: seq<Path>
    var changes: map<Path, Option<Text>>

    // The destinations; and the files the commit makes beside them, under fresh names.
    var files: map<Path, Text>
    var backups: map<Path, Text>
    var temporaries: map<Path, Text>

    constructor (dryRun: bool, script: (nat, Point) -> Signal, files: map<Path, Text>)
      ensures this.dryRun == dryRun && this.script == script && this.files == files
      ensures heard == [] && order == [] && changes == map[] && Valid()
    {
      this.dryRun, this.script, this.files := dryRun, script, files;
      heard, order, changes, backups, temporaries := [], [], map[], map[], map[];
    }

    /** The order in which destinations were first staged. */
    ghost predicate Valid()
      reads this`order, this`changes
    {
      (forall i, j :: 0 <= i < j < |order| ==> order[i] != order[j]) && forall p :: p in order <==> p in changes
    }

    method Stage(path: Path, text: Option<Text>)
      requires Valid()
      modifies this`order, this`changes
      ensures Valid() && changes == old(changes)[path := text]
    {
      if path !in changes { order := order + [path]; }
      changes := changes[path := text];
    }

    method Attempt(p: Point) returns (s: Signal)
      modifies this`heard
      ensures heard == old(heard) + [s] && s == script(|old(heard)|, p) && Told(s, old(heard), heard)
    {
      s := script(|heard|, p);
      heard := heard + [s];
      assert heard[|old(heard)|] == s;
    }

    /** Writing a new file always fails. */
    ghost predicate Spoils() { forall t: nat :: script(t, Writing) == Fault }

    /** All operations of this kind work. */
    ghost predicate Works(p: Point) { forall t: nat :: script(t, p) == Go }

    // ---- Staging -----------------------------------------------------------------------

    /** Make a new file, empty at first, and write it; if that fails it stays behind as it is. */
    method WriteTemporary(path: Path, text: Text) returns (s: Signal, ghost half: bool)
      requires path !in temporaries
      modifies this`heard, this`temporaries
      ensures Told(s, old(heard), heard)
      ensures s == Go ==> !half && temporaries == old(temporaries)[path := text]
      ensures s != Go ==> temporaries == if half then old(temporaries)[path := ""] else old(temporaries)
      ensures Works(Plain) && Works(Writing) ==> s == Go
      ensures Works(Plain) && Spoils() ==> s == Fault && half
    {
      half := false;
      s := Attempt(Plain);
      if s == Go {
        temporaries := temporaries[path := ""];
        ghost var mid := heard;
        s := Attempt(Writing);
        ToldThen(old(heard), mid, heard, s);
        half := s != Go;
        if s == Go { temporaries := temporaries[path := text]; }
      }
    }

    /** One staged change: whether it has any effect, and its new file if it needs one. */
    method StageOne(path: Path) returns (s: Signal, effective: bool, ghost half: bool)
      requires path in changes && path !in temporaries
      modifies this`heard, this`temporaries
      ensures Told(s, old(heard), heard)
      ensures s == Go ==> !half && (effective <==> Effective(files, changes, path))
      ensures s == Go && effective && changes[path].Some? ==>
                temporaries == old(temporaries)[path := changes[path].value]
      ensures s == Go && !(effective && changes[path].Some?) ==> temporaries == old(temporaries)
      ensures s != Go ==> temporaries == if half then old(temporaries)[path := ""] else old(temporaries)
      ensures Works(Plain) && Works(Writing) ==> s == Go
      ensures Works(Plain) && Spoils() && changes[path].Some? && Effective(files, changes, path) ==>
                s == Fault && half
      ensures Works(Plain) && Spoils() ==> s == Go || (s == Fault && half)
    {
      s, effective, half := Go, true, false;
      var text := changes[path];
      if text.None? {
        effective := path in files;
      } else {
        if path in files {
          s := Attempt(Plain);
          effective := Read(files[path]) != text.value;
        }
        ghost var mid := heard;
        if s == Go && effective {
          s, half := WriteTemporary(path, text.value);
          ToldThen(old(heard), mid, heard, s);
        }
      }
    }

    /** The changes among these that have an effect and a new file. */
    ghost predicate Writes(paths: seq<Path>)
      reads this`files, this`changes
    {
      exists p :: p in paths && p in changes && changes[p].Some? && Effective(files, changes, p)
    }

    method StageNext(n: nat, effective: set<Path>, staged: set<Path>)
      returns (s: Signal, effective': set<Path>, staged': set<Path>, ghost half: Option<Path>)
      requires Valid() && n < |order| && Staged(order[..n], files, changes, temporaries, effective, staged)
      modifies this`heard, this`temporaries
      ensures Told(s, old(heard), heard)
      ensures s == Go ==> half.None? && Staged(order[..n + 1], files, changes, temporaries, effective', staged')
      ensures effective' <= effective + {order[n]} && staged' <= effective'
      ensures temporaries.Keys == staged' + LeftBehind(half) && LeftBehind(half) <= {order[n]} - staged'
      ensures Works(Plain) && Works(Writing) ==> s == Go
      ensures Works(Plain) && Spoils() ==>
                if Writes([order[n]]) then s == Fault && half.Some? else s == Go || (s == Fault && half.Some?)
    {
      var path := order[n];
      assert order[..n + 1] == order[..n] + [path] && path !in order[..n];
      ghost var were := temporaries;
      var change;
      ghost var cut;
      s, change, cut := StageOne(path);
      effective', staged', half := effective, staged, if cut then Some(path) else None;
      if s == Go && change {
        effective' := effective' + {path};
        if changes[path].Some? { staged' := staged' + {path}; }
      }
      if s == Go { StagedMore(order[..n], path, files, changes, were, temporaries, effective, staged, change); }
    }

    method StageTemporaries()
      returns (s: Signal, effective: set<Path>, staged: set<Path>, ghost half: Option<Path>)
      requires Valid() && temporaries == map[]
      modifies this`heard, this`temporaries
      ensures Told(s, old(heard), heard)
      ensures effective <= changes.Keys && staged <= effective
      ensures s == Go ==> half.None? && forall p :: p in changes ==> (p in effective <==> Effective(files, changes, p))
      ensures s == Go ==> forall p :: p in effective ==> Ready(p)
      ensures temporaries.Keys == staged + LeftBehind(half)
      ensures half.Some? ==> half.value in changes && half.value !in staged
      ensures Works(Plain) && Works(Writing) ==> s == Go
      ensures Works(Plain) && Spoils() && Writes(order) ==> s == Fault && half.Some?
    {
      s, effective, staged, half := Go, {}, {}, None;
      for i := 0 to |order|
        invariant s == Go && half.None? && Told(s, old(heard), heard)
        invariant Staged(order[..i], files, changes, temporaries, effective, staged)
        invariant Works(Plain) && Spoils() ==> !Writes(order[..i])
      {
        assert order[..i + 1] == order[..i] + [order[i]];
        ghost var mid := heard;
        s, effective, staged, half := StageNext(i, effective, staged);
        ToldThen(old(heard), mid, heard, s);
        if s != Go { return; }
      }
      assert order[..|order|] == order;
    }

    // ---- Replacing ---------------------------------------------------------------------

    /** Move the original to its backup, if there is one. */
    method MoveAside(path: Path) returns (s: Signal, moved: bool)
      requires path !in backups
      modifies this`heard, this`files, this`backups
      ensures Told(s, old(heard), heard) && (Works(Plain) ==> s == Go)
      ensures moved ==> path in old(files) && files == old(files) - {path}
      ensures moved ==> backups == old(backups)[path := old(files)[path]]
      ensures !moved ==> files == old(files) && backups == old(backups)
      ensures s == Go ==> path !in files && (path in old(files) ==> moved)
    {
      s, moved := Go, false;
      if path in files {
        s := Attempt(Plain);
        if s == Go {
          backups := backups[path := files[path]];
          files := files - {path};
          moved := true;
        }
      }
    }

    /** Move the new file to the destination, if there is to be one. */
    method Install(path: Path) returns (s: Signal, installed: bool)
      requires Ready(path) && path !in files
      modifies this`heard, this`files, this`temporaries
      ensures Told(s, old(heard), heard) && (Works(Plain) ==> s == Go) && Elsewhere(path, old(temporaries), temporaries)
      ensures installed ==> changes[path].Some? && files == old(files)[path := changes[path].value]
      ensures !installed ==> files == old(files)
      ensures s == Go ==> path in files <==> changes[path].Some?
      ensures s == Go && changes[path].Some? ==> files[path] == changes[path].value
      ensures temporaries.Keys <= old(temporaries).Keys
    {
      s, installed := Go, false;
      if changes[path].Some? {
        s := Attempt(Plain);
        if s == Go {
          files := files[path := temporaries[path]];
          temporaries := temporaries - {path};
          installed := true;
        }
      }
    }

    method ReplaceOne(path: Path, ghost before: map<Path, Text>) returns (s: Signal, r: Record)
      requires Ready(path) && path !in backups && Same(before, files, path)
      modifies this`heard, this`files, this`backups, this`temporaries
      ensures Told(s, old(heard), heard) && (Works(Plain) ==> s == Go)
      ensures temporaries.Keys <= old(temporaries).Keys
      ensures Elsewhere(path, old(files), files) && Elsewhere(path, old(backups), backups)
      ensures Elsewhere(path, old(temporaries), temporaries)
      ensures r.path == path && Tracks(r, before, files, backups, changes[path])
      ensures s == Go ==> Settled(path, before)
    {
      r := Record(path, false, false);
      var moved, installed;
      s, moved := MoveAside(path);
      r := r.(moved := moved);
      if s == Go {
        ghost var mid := heard;
        s, installed := Install(path);
        ToldThen(old(heard), mid, heard, s);
        r := r.(installed := installed);
      }
    }

    /** A destination is as staged, and what was there is in its backup. */
    ghost predicate Settled(p: Path, before: map<Path, Text>)
      reads this`files, this`backups, this`changes
    {
      && p in changes && (p in before ==> p in backups)
      && if changes[p].Some? then p in files && files[p] == changes[p].value else p !in files
    }

    /** A destination still has what its replacement needs. */
    ghost predicate Ready(p: Path)
      reads this`temporaries, this`changes
    {
      p in changes && (changes[p].Some? ==> p in temporaries && temporaries[p] == changes[p].value)
    }

    method ReplaceNext(done: seq<Record>, path: Path, ghost before: map<Path, Text>)
      returns (s: Signal, applied: seq<Record>)
      requires Progress(done, before, files, backups, changes) && !Touched(done, path) && Ready(path)
      modifies this`heard, this`files, this`backups, this`temporaries
      ensures Told(s, old(heard), heard) && (Works(Plain) ==> s == Go)
      ensures temporaries.Keys <= old(temporaries).Keys
      ensures Progress(applied, before, files, backups, changes)
      ensures |applied| == |done| + 1 && applied[..|done|] == done && applied[|done|].path == path
      ensures Elsewhere(path, old(files), files) && Elsewhere(path, old(temporaries), temporaries)
      ensures Elsewhere(path, old(backups), backups)
      ensures s == Go ==> Settled(path, before)
    {
      ghost var files', backups' := files, backups;
      var r;
      s, r := ReplaceOne(path, before);
      ProgressGrows(done, r, before, files', backups', files, backups, changes);
      applied := done + [r];
    }

    method ReplaceInOrder(paths: seq<Path>, i: nat, done: seq<Record>, ghost before: map<Path, Text>)
      returns (s: Signal, applied: seq<Record>)
      requires i == |done| < |paths| && Ascending(paths) && forall j :: 0 <= j < i ==> done[j].path == paths[j]
      requires Progress(done, before, files, backups, changes)
      requires forall j :: 0 <= j < i ==> Settled(paths[j], before)
      requires forall j :: i <= j < |paths| ==> Ready(paths[j])
      modifies this`heard, this`files, this`backups, this`temporaries
      ensures Told(s, old(heard), heard) && (Works(Plain) ==> s == Go)
      ensures temporaries.Keys <= old(temporaries).Keys
      ensures |applied| == i + 1 && forall j :: 0 <= j <= i ==> applied[j].path == paths[j]
      ensures Progress(applied, before, files, backups, changes)
      ensures s == Go ==> forall j :: 0 <= j <= i ==> Settled(paths[j], before)
      ensures s == Go ==> forall j :: i < j < |paths| ==> Ready(paths[j])
    {
      ghost var files', backups', temporaries' := files, backups, temporaries;
      s, applied := ReplaceNext(done, paths[i], before);
      forall j | 0 <= j < i ensures applied[j].path == paths[j] { assert applied[..|done|][j] == done[j]; }
      forall j | 0 <= j < i ensures Settled(paths[j], before) {
        assert Same(files', files, paths[j]) && Same(backups', backups, paths[j]);
      }
      forall j | i < j < |paths| ensures Ready(paths[j]) { assert Same(temporaries', temporaries, paths[j]); }
    }

    method ReplaceAll(effective: set<Path>, ghost before: map<Path, Text>) returns (s: Signal, applied: seq<Record>)
      requires files == before && backups == map[] && forall p :: p in effective ==> Ready(p)
      modifies this`heard, this`files, this`backups, this`temporaries
      ensures Told(s, old(heard), heard) && (Works(Plain) ==> s == Go)
      ensures temporaries.Keys <= old(temporaries).Keys
      ensures Progress(applied, before, files, backups, changes)
      ensures s == Go ==> forall p :: p in effective ==> Settled(p, before)
      ensures s == Go ==> forall p :: p !in effective ==> Same(before, files, p)
      ensures s == Go && effective != {} ==> applied != []
    {
      var paths := Sorted(effective);
      applied := [];
      for i := 0 to |paths|
        invariant Told(Go, old(heard), heard) && temporaries.Keys <= old(temporaries).Keys
        invariant |applied| == i && forall j :: 0 <= j < i ==> applied[j].path == paths[j]
        invariant Progress(applied, before, files, backups, changes)
        invariant forall j :: 0 <= j < i ==> Settled(paths[j], before)
        invariant forall j :: i <= j < |paths| ==> Ready(paths[j])
      {
        ghost var mid := heard;
        s, applied := ReplaceInOrder(paths, i, applied, before);
        ToldThen(old(heard), mid, heard, s);
        if s != Go { return; }
      }
      s := Go;
      forall p | p in effective ensures Settled(p, before) {
        assert p in paths;
      }
      forall p | p !in effective ensures Same(before, files, p) {
        assert p !in paths && !Touched(applied, p);
      }
    }

    // ---- Undoing -----------------------------------------------------------------------

    method UndoOne(r: Record, ghost before: map<Path, Text>) returns (s: Signal)
      requires Recorded(r, before, files, backups, changes)
      modifies this`heard, this`files, this`backups
      ensures Told(s, old(heard), heard) && (Works(Plain) ==> s == Go)
      ensures Elsewhere(r.path, old(files), files) && Elsewhere(r.path, old(backups), backups)
      ensures s == Go ==> Same(before, files, r.path) && r.path !in backups
      ensures Kept(before, files, backups, r.path)
    {
      s := Go;
      if r.installed && r.path in files {
        s := Attempt(Plain);
        if s == Go { files := files - {r.path}; }
        assert Kept(before, files, backups, r.path);
      }
      if s == Go && r.moved && r.path in backups {
        ghost var mid := heard;
        s := Attempt(Plain);
        ToldThen(old(heard), mid, heard, s);
        if s == Go {
          files := files[r.path := backups[r.path]];
          backups := backups - {r.path};
        }
      }
    }

    /**
     * Put back every destination begun, last one first; go on past those that will not go
     * back, but not past an interrupt. No byte is lost meanwhile, wherever it may end.
     */
    method RollBack(applied: seq<Record>, ghost before: map<Path, Text>) returns (s: Signal, failures: seq<Path>)
      requires Progress(applied, before, files, backups, changes)
      modifies this`heard, this`files, this`backups
      ensures Got(s, old(heard), heard) && (Works(Plain) ==> s == Go && failures == [])
      ensures Calm(heard, |old(heard)|, |heard|) ==> failures == []
      ensures forall p :: Kept(before, files, backups, p)
      ensures s == Go ==> forall p :: p !in failures ==> Same(before, files, p) && p !in backups
    {
      s, failures := Go, [];
      var n := |applied|;
      while n > 0 && s == Go
        invariant 0 <= n <= |applied| && Got(s, old(heard), heard) && (Works(Plain) ==> s == Go && failures == [])
        invariant Calm(heard, |old(heard)|, |heard|) ==> failures == []
        invariant Unwinding(applied, n, failures, before, files, backups, changes)
        decreases n
      {
        n := n - 1;
        ghost var files', backups', mid := files, backups, heard;
        ghost var were := failures;
        s := UndoOne(applied[n], before);
        GotThen(old(heard), mid, heard, s);
        if s != Go { failures := failures + [applied[n].path]; }
        s := Past(s);
        Unwound(applied, n, were, failures, before, files', backups', files, backups, changes);
      }
      UnwindingKeeps(applied, n, failures, before, files, backups, changes);
    }

    // ---- Cleaning up -------------------------------------------------------------------

    method DeleteBackup(path: Path) returns (s: Signal, ghost gone: set<Path>)
      modifies this`heard, this`backups
      ensures Got(s, old(heard), heard) && (Works(Plain) ==> s == Go && path !in backups)
      ensures gone <= old(backups).Keys && gone <= {path} && backups == old(backups) - gone
      ensures Idle(heard, |old(heard)|, |heard|) ==> gone == {}
    {
      s, gone := Go, {};
      if path in backups {
        s := Attempt(Plain);
        assert heard[|old(heard)|] == s;
        if s == Go {
          backups := backups - {path};
          gone := {path};
        }
        s := Past(s);
      }
    }

    method DeleteEach(applied: seq<Record>) returns (s: Signal, ghost deleted: set<Path>)
      modifies this`heard, this`backups
      ensures Got(s, old(heard), heard)
      ensures deleted <= old(backups).Keys && backups == old(backups) - deleted
      ensures Idle(heard, |old(heard)|, |heard|) ==> deleted == {}
      ensures Works(Plain) ==>
                s == Go && forall j :: 0 <= j < |applied| && applied[j].moved ==> applied[j].path !in backups
    {
      s, deleted := Go, {};
      var n := 0;
      while n < |applied| && s == Go
        invariant n <= |applied| && Got(s, old(heard), heard)
        invariant deleted <= old(backups).Keys && backups == old(backups) - deleted
        invariant Idle(heard, |old(heard)|, |heard|) ==> deleted == {}
        invariant Works(Plain) ==> s == Go && forall j :: 0 <= j < n && applied[j].moved ==> applied[j].path !in backups
        decreases |applied| - n
      {
        if applied[n].moved {
          ghost var gone, mid;
          mid := heard;
          s, gone := DeleteBackup(applied[n].path);
          GotThen(old(heard), mid, heard, s);
          deleted := deleted + gone;
        }
        n := n + 1;
      }
    }

    /** Delete the backups; one that cannot be deleted is left behind. */
    method DeleteBackups(applied: seq<Record>, ghost before: map<Path, Text>)
      returns (s: Signal, ghost deleted: set<Path>)
      requires Progress(applied, before, files, backups, changes)
      modifies this`heard, this`backups
      ensures Got(s, old(heard), heard)
      ensures Works(Plain) ==> s == Go && deleted == old(backups).Keys
      ensures deleted <= old(backups).Keys && (Idle(heard, |old(heard)|, |heard|) ==> deleted == {})
      ensures Progress(applied, before - deleted, files, backups, changes)
    {
      s, deleted := DeleteEach(applied);
      GivenUp(applied, before, files, old(backups), changes, deleted);
      if Works(Plain) { NoneLeft(applied, before, files, old(backups), backups, changes); }
    }

    /** Make the directories durable; if that cannot be done, never mind. */
    method SyncDirectories(applied: seq<Record>) returns (s: Signal)
      modifies this`heard
      ensures Got(s, old(heard), heard)
      ensures (applied != [] && Stirs() ==> s == Interrupt) && (Works(Syncing) ==> s == Go)
    {
      s := Go;
      if applied != [] {
        s := Attempt(Syncing);
        s := Past(s);
      }
    }

    method CleanUp(applied: seq<Record>, ghost before: map<Path, Text>) returns (s: Signal, ghost deleted: set<Path>)
      requires Progress(applied, before, files, backups, changes)
      modifies this`heard, this`backups
      ensures Got(s, old(heard), heard)
      ensures Works(Plain) && Stirs() && applied != [] ==> s == Interrupt && deleted == old(backups).Keys
      ensures Works(Plain) && Works(Syncing) ==> s == Go
      ensures deleted <= old(backups).Keys && (Idle(heard, |old(heard)|, |heard|) ==> deleted == {})
      ensures Progress(applied, before - deleted, files, backups, changes)
    {
      s, deleted := DeleteBackups(applied, before);
      if s == Go {
        ghost var mid := heard;
        s := SyncDirectories(applied);
        GotThen(old(heard), mid, heard, s);
      }
    }

    /** Making the directories durable is always interrupted. */
    ghost predicate Stirs() { forall t: nat :: script(t, Syncing) == Interrupt }

    method DeleteTemporaries(staged: set<Path>) returns (s: Signal)
      modifies this`heard, this`temporaries
      ensures Got(s, old(heard), heard) && (Works(Plain) ==> s == Go)
      ensures forall p :: p in temporaries ==> p in old(temporaries)
      ensures forall p :: p in old(temporaries) && p !in staged ==> p in temporaries
      ensures Calm(heard, |old(heard)|, |heard|) || Works(Plain) ==> forall p :: p in temporaries ==> p !in staged
    {
      s := Go;
      var left := staged;
      while left != {} && s == Go
        invariant Got(s, old(heard), heard) && (Works(Plain) ==> s == Go) && left <= staged
        invariant forall p :: p in temporaries ==> p in old(temporaries)
        invariant forall p :: p in old(temporaries) && p !in staged ==> p in temporaries
        invariant Calm(heard, |old(heard)|, |heard|) || Works(Plain) ==>
          forall p :: p in temporaries && p in staged ==> p in left
        decreases |left|
      {
        var p :| p in left;
        if p in temporaries {
          ghost var mid := heard;
          s := Attempt(Plain);
          GotThen(old(heard), mid, heard, s);
          assert Calm(heard, |mid|, |heard|) ==> heard[|mid|] == Go;
          if s == Go { temporaries := temporaries - {p}; }
          s := Past(s);
        }
        left := left - {p};
      }
    }

    // ---- The commit --------------------------------------------------------------------

    /** The originals of all changes with an effect are in their backups. */
    ghost predicate MovedAside(before: map<Path, Text>, applied: seq<Record>)
      reads this`backups, this`changes
    {
      forall p :: p in changes && Effective(before, changes, p) ==> applied != [] && (p in before ==> p in backups)
    }

    /** Everything up to the point where every replacement is done, or one of them is not. */
    method StageAndReplace()
      returns (s: Signal, applied: seq<Record>, staged: set<Path>, ghost half: Option<Path>)
      requires Valid() && backups == map[] && temporaries == map[]
      modifies this`heard, this`files, this`backups, this`temporaries
      ensures Told(s, old(heard), heard)
      ensures Progress(applied, old(files), files, backups, changes)
      ensures s == Go ==> half.None? && files == Applied(old(files), changes)
      ensures temporaries.Keys <= staged + LeftBehind(half)
      ensures half.Some? ==> half.value in changes && half.value in temporaries && half.value !in staged
      ensures s == Go ==> MovedAside(old(files), applied)
      ensures Works(Plain) && Works(Writing) ==> s == Go
      ensures Works(Plain) && Spoils() && old(Writes(order)) ==> s == Fault && half.Some?
    {
      ghost var before := files;
      applied := [];
      var effective;
      s, effective, staged, half := StageTemporaries();
      if s == Go {
        ghost var mid := heard;
        s, applied := ReplaceAll(effective, before);
        ToldThen(old(heard), mid, heard, s);
        if s == Go { AllSettled(before, effective); }
      }
    }

    /** The rollback, unless the process is gone. */
    method Abandon(s: Signal, applied: seq<Record>, ghost before: map<Path, Text>) returns (r: Outcome)
      requires Progress(applied, before, files, backups, changes)
      modifies this`heard, this`files, this`backups
      ensures old(heard) <= heard && !r.Committed?
      ensures r == Lost <==> s == Crash || !Alive(heard, |old(heard)|, |heard|)
      ensures s == Crash ==> files == old(files)
      ensures r == Interrupted <==> r != Lost && !Undisturbed(heard, |old(heard)|, |heard|)
      ensures Calm(heard, |old(heard)|, |heard|) || Works(Plain) ==> r == if s == Crash then Lost else RolledBack
      ensures r == RolledBack ==> files == before && backups == map[]
      ensures r.Incomplete? ==> r.failures != [] && forall p :: p !in r.failures ==> Same(before, files, p)
      ensures forall p :: Kept(before, files, backups, p)
    {
      ProgressKeeps(applied, before, files, backups, changes);
      if s == Crash { return Lost; }
      var ended, failures := RollBack(applied, before);
      if ended == Crash { return Lost; }
      if ended == Interrupt { return Interrupted; }
      if failures != [] { return Incomplete(failures); }
      SameEverywhere(before, files);
      r := RolledBack;
    }

    /** Stage, replace, and clean up. */
    method Advance() returns (s: Signal, applied: seq<Record>, staged: set<Path>, ghost mark: nat,
                              ghost deleted: set<Path>, ghost half: Option<Path>)
      requires Valid() && backups == map[] && temporaries == map[]
      modifies this`heard, this`files, this`backups, this`temporaries
      ensures old(heard) <= heard && |old(heard)| <= mark <= |heard|
      ensures s == Crash <==> !Alive(heard, |old(heard)|, |heard|)
      ensures s == Go ==> Calm(heard, |old(heard)|, mark) && Undisturbed(heard, mark, |heard|)
      ensures s == Fault || s == Interrupt ==> !Calm(heard, |old(heard)|, mark) || !Undisturbed(heard, mark, |heard|)
      ensures Calm(heard, |old(heard)|, mark) && Undisturbed(heard, mark, |heard|) ==>
                files == Applied(old(files), changes)
      ensures Progress(applied, old(files) - deleted, files, backups, changes) && deleted <= old(files).Keys
      ensures deleted != {} ==> Calm(heard, |old(heard)|, mark) && !Idle(heard, mark, |heard|)
      ensures half.Some? ==> half.value in changes && half.value in temporaries && half.value !in staged
      ensures half.Some? ==> !Calm(heard, |old(heard)|, mark)
      ensures temporaries.Keys <= staged + LeftBehind(half)
      ensures Works(Plain) && Works(Writing) && Stirs() && Changes(old(files)) ==>
                s == Interrupt && forall p :: p in old(files) && p in changes && Effective(old(files), changes, p) ==>
                                                p in deleted
      ensures Works(Plain) && Works(Writing) && Works(Syncing) ==> s == Go
      ensures Works(Plain) && Spoils() && old(Writes(order)) ==> s == Fault && half.Some?
    {
      ghost var before := files;
      deleted := {};
      s, applied, staged, half := StageAndReplace();
      mark := |heard|;
      ghost var mid := heard;
      if s == Go {
        ProgressBackups(applied, before, files, backups, changes);
        s, deleted := CleanUp(applied, before);
      }
      Longer(mid, heard, |old(heard)|, mark);
      Split(heard, |old(heard)|, mark, |heard|);
    }

    /** Some change has an effect. */
    ghost predicate Changes(before: map<Path, Text>)
      reads this`changes
    {
      exists p :: p in changes && Effective(before, changes, p)
    }

    /**
     * All or nothing, but for an interrupt. Up to the mark everything happens exactly when
     * every replacement is done. If nothing then interrupts the clean-up, which ends where
     * `end` says, every change with an effect is in place, whatever happens after.
     * Otherwise every path is as before, if what it takes to roll back happens, less the
     * destinations whose backups the clean-up had deleted already. And wherever the process
     * may end or the rollback may fail, the bytes of every original not deleted are at its
     * path or in its backup.
     */
    method Commit() returns (r: Outcome, ghost mark: nat, ghost end: nat, ghost deleted: set<Path>,
                             ghost half: Option<Path>)
      requires Valid()
      modifies this`heard, this`files, this`backups, this`temporaries
      ensures old(heard) <= heard && |old(heard)| <= mark <= end <= |heard|
      ensures r == Lost <==> !Alive(heard, |old(heard)|, |heard|)
      ensures r == Interrupted <==> r != Lost && !Undisturbed(heard, end, |heard|)
      ensures dryRun ==> r == Committed && files == old(files)
      ensures r == Committed ==> Calm(heard, |old(heard)|, mark) && Undisturbed(heard, mark, end)
      ensures r == RolledBack || r.Incomplete? ==>
                !Calm(heard, |old(heard)|, mark) || !Undisturbed(heard, mark, end)
      ensures !dryRun && Calm(heard, |old(heard)|, mark) && Undisturbed(heard, mark, end) ==>
                files == Applied(old(files), changes)
      ensures r == RolledBack ==> files == old(files) - deleted && backups == map[]
      ensures r.Incomplete? ==>
                r.failures != [] && forall p :: p !in r.failures ==> Same(old(files) - deleted, files, p)
      ensures Calm(heard, end, |heard|) ==> r == Committed || r == RolledBack || r == Lost
      ensures forall p :: Kept(old(files) - deleted, files, backups, p)
      ensures deleted <= old(files).Keys
      ensures deleted != {} ==> Calm(heard, |old(heard)|, mark) && !Idle(heard, mark, end)
      ensures half.Some? ==> half.value in changes && !Calm(heard, |old(heard)|, mark)
      ensures !dryRun && r != Lost && Calm(heard, end, |heard|) ==> temporaries.Keys == LeftBehind(half)
      ensures !dryRun && Works(Plain) && Works(Writing) && Stirs() && Changes(old(files)) ==>
                r == RolledBack && forall p :: p in changes && Effective(old(files), changes, p) ==> p !in files
      ensures Works(Plain) && Works(Writing) && Works(Syncing) ==> r == Committed
      ensures !dryRun && Works(Plain) && Spoils() && old(Writes(order)) ==>
                r == RolledBack && half.Some? && temporaries.Keys == LeftBehind(half)
    {
      mark, end, deleted, half := |heard|, |heard|, {}, None;
      if dryRun { return Committed, mark, end, deleted, half; }
      backups, temporaries := map[], map[];
      var s, applied, staged;
      s, applied, staged, mark, deleted, half := Advance();
      end := |heard|;
      ghost var logEnd := heard;
      r := Finish(s, applied, old(files) - deleted, staged);
      Later(old(heard), mark, logEnd, heard);
    }

    /** Roll back unless all went well; and delete the new files that are left. */
    method Finish(s: Signal, applied: seq<Record>, ghost before: map<Path, Text>, staged: set<Path>)
      returns (r: Outcome)
      requires Progress(applied, before, files, backups, changes)
      modifies this`heard, this`files, this`backups, this`temporaries
      ensures old(heard) <= heard
      ensures r == Lost <==> s == Crash || !Alive(heard, |old(heard)|, |heard|)
      ensures r == Interrupted <==> r != Lost && !Undisturbed(heard, |old(heard)|, |heard|)
      ensures s == Go || s == Crash ==> files == old(files)
      ensures r == Committed ==> s == Go
      ensures r == RolledBack ==> s != Go && s != Crash && files == before && backups == map[]
      ensures r.Incomplete? ==> s != Go && s != Crash
      ensures r.Incomplete? ==> r.failures != [] && forall p :: p !in r.failures ==> Same(before, files, p)
      ensures Calm(heard, |old(heard)|, |heard|) || Works(Plain) ==>
                r == if s == Go then Committed else if s == Crash then Lost else RolledBack
      ensures forall p :: Kept(before, files, backups, p)
      ensures temporaries.Keys <= old(temporaries).Keys
      ensures forall p :: p in old(temporaries) && p !in staged ==> p in temporaries
      ensures r != Lost && (Calm(heard, |old(heard)|, |heard|) || Works(Plain)) ==>
                forall p :: p in temporaries ==> p !in staged
    {
      ProgressKeeps(applied, before, files, backups, changes);
      r := Committed;
      if s != Go { r := Abandon(s, applied, before); }
      if r != Lost {
        ghost var mid := heard;
        var ended := DeleteTemporaries(staged);
        Joined(old(heard), mid, heard);
        if ended == Crash { r := Lost; }
        if ended == Interrupt { r := Interrupted; }
      }
    }

    lemma AllSettled(before: map<Path, Text>, effective: set<Path>)
      requires effective <= changes.Keys
      requires forall p :: p in changes ==> (p in effective <==> Effective(before, changes, p))
      requires forall p :: p in effective ==> Settled(p, before)
      requires forall p :: p !in effective ==> Same(before, files, p)
      ensures files == Applied(before, changes)
    {
      forall p
        ensures Same(files, Applied(before, changes), p)
      {
        if p in effective { assert Settled(p, before); } else { assert Same(before, files, p); }
      }
      SameEverywhere(files, Applied(before, changes));
    }
  }

  /** These staged changes have been looked at, and those that need one have their new file. */
  ghost predicate Staged(done: seq<Path>, files: map<Path, Text>, changes: map<Path, Option<Text>>,
                         temporaries: map<Path, Text>, effective: set<Path>, staged: set<Path>)
  {
    && staged <= effective && temporaries.Keys == staged && (forall p :: p in effective ==> p in done)
    && (forall p :: p in done ==> p in changes && (p in effective <==> Effective(files, changes, p)))
    && (forall p :: p in effective && changes[p].Some? ==> p in temporaries && temporaries[p] == changes[p].value)
  }

  lemma StagedMore(done: seq<Path>, path: Path, files: map<Path, Text>,
                   changes: map<Path, Option<Text>>, were: map<Path, Text>,
                   temporaries: map<Path, Text>, effective: set<Path>, staged: set<Path>,
                   change: bool)
    requires Staged(done, files, changes, were, effective, staged) && path !in done && path in changes
    requires change <==> Effective(files, changes, path)
    requires temporaries == if change && changes[path].Some? then were[path := changes[path].value] else were
    ensures var now := if change then effective + {path} else effective;
            Staged(done + [path], files, changes, temporaries, now,
                   if change && changes[path].Some? then staged + {path} else staged)
  {}

  function LeftBehind(half: Option<Path>): set<Path> { if half.Some? then {half.value} else {} }

  // ---- Records of replacements begun -----------------------------------------------------

  /** Everything but this path is as it was. */
  ghost predicate Elsewhere(p: Path, a: map<Path, Text>, b: map<Path, Text>) {
    forall q :: q != p ==> Same(a, b, q)
  }

  lemma SameEverywhere(a: map<Path, Text>, b: map<Path, Text>)
    requires forall p :: Same(a, b, p)
    ensures a == b
  {
    forall p ensures p in a <==> p in b { assert Same(a, b, p); }
    forall p | p in a ensures a[p] == b[p] { assert Same(a, b, p); }
  }

  /** Was the replacement of this destination begun? */
  ghost predicate Touched(applied: seq<Record>, p: Path) {
    exists i :: 0 <= i < |applied| && applied[i].path == p
  }

  ghost predicate Progress(applied: seq<Record>, before: map<Path, Text>, files: map<Path, Text>,
                           backups: map<Path, Text>, changes: map<Path, Option<Text>>)
  {
    && (forall i, j :: 0 <= i < j < |applied| ==> applied[i].path != applied[j].path)
    && (forall i :: 0 <= i < |applied| ==> Recorded(applied[i], before, files, backups, changes))
    && (forall p :: !Touched(applied, p) ==> Same(before, files, p) && p !in backups)
  }

  ghost predicate Recorded(r: Record, before: map<Path, Text>, files: map<Path, Text>,
                           backups: map<Path, Text>, changes: map<Path, Option<Text>>)
  {
    r.path in changes && Tracks(r, before, files, backups, changes[r.path])
  }

  lemma ProgressGrows(applied: seq<Record>, r: Record, before: map<Path, Text>,
                      files: map<Path, Text>, backups: map<Path, Text>,
                      files': map<Path, Text>, backups': map<Path, Text>, changes: map<Path, Option<Text>>)
    requires Progress(applied, before, files, backups, changes) && !Touched(applied, r.path)
    requires Elsewhere(r.path, files, files') && Elsewhere(r.path, backups, backups')
    requires Recorded(r, before, files', backups', changes)
    ensures Progress(applied + [r], before, files', backups', changes)
  {
    var all := applied + [r];
    forall i | 0 <= i < |all|
      ensures Recorded(all[i], before, files', backups', changes)
    {
      if i < |applied| {
        var p := applied[i].path;
        assert Touched(applied, p) && Recorded(applied[i], before, files, backups, changes);
        assert Same(files, files', p) && Same(backups, backups', p);
      }
    }
    forall p | !Touched(all, p)
      ensures Same(before, files', p) && p !in backups'
    {
      assert all[|applied|] == r && p != r.path;
      assert forall i :: 0 <= i < |applied| ==> all[i] == applied[i];
      assert !Touched(applied, p);
      assert Same(files, files', p) && Same(backups, backups', p);
    }
  }

  /** A destination whose turn in the rollback has come is back, or noted and kept. */
  ghost predicate Back(r: Record, failures: seq<Path>, before: map<Path, Text>,
                       files: map<Path, Text>, backups: map<Path, Text>)
  {
    Kept(before, files, backups, r.path)
    && (r.path !in failures ==> Same(before, files, r.path) && r.path !in backups)
  }

  ghost predicate Unwinding(applied: seq<Record>, n: nat, failures: seq<Path>, before: map<Path, Text>,
                            files: map<Path, Text>, backups: map<Path, Text>, changes: map<Path, Option<Text>>)
    requires n <= |applied|
  {
    && (forall i, j :: 0 <= i < j < |applied| ==> applied[i].path != applied[j].path)
    && (forall i :: 0 <= i < n ==> Recorded(applied[i], before, files, backups, changes))
    && (forall i :: n <= i < |applied| ==> Back(applied[i], failures, before, files, backups))
    && (forall p :: !Touched(applied, p) ==> Same(before, files, p) && p !in backups)
  }

  lemma UnwindingKeeps(applied: seq<Record>, n: nat, failures: seq<Path>, before: map<Path, Text>,
                       files: map<Path, Text>, backups: map<Path, Text>,
                       changes: map<Path, Option<Text>>)
    requires n <= |applied| && Unwinding(applied, n, failures, before, files, backups, changes)
    ensures forall p :: Kept(before, files, backups, p)
    ensures n == 0 ==> forall p :: p !in failures ==> Same(before, files, p) && p !in backups
  {
    forall p
      ensures Kept(before, files, backups, p)
      ensures n == 0 && p !in failures ==> Same(before, files, p) && p !in backups
    {
      if Touched(applied, p) {
        var i :| 0 <= i < |applied| && applied[i].path == p;
        if i < n {
          assert Recorded(applied[i], before, files, backups, changes);
        } else {
          assert Back(applied[i], failures, before, files, backups);
        }
      }
    }
  }

  lemma ProgressKeeps(applied: seq<Record>, before: map<Path, Text>, files: map<Path, Text>,
                      backups: map<Path, Text>, changes: map<Path, Option<Text>>)
    requires Progress(applied, before, files, backups, changes)
    ensures forall p :: Kept(before, files, backups, p)
  {
    UnwindingKeeps(applied, |applied|, [], before, files, backups, changes);
  }

  /** With some backups deleted, the rest is tracked as if their originals had never been. */
  lemma GivenUp(applied: seq<Record>, before: map<Path, Text>, files: map<Path, Text>,
                backups: map<Path, Text>, changes: map<Path, Option<Text>>, deleted: set<Path>)
    requires Progress(applied, before, files, backups, changes) && deleted <= backups.Keys
    ensures Progress(applied, before - deleted, files, backups - deleted, changes)
  {
    forall i | 0 <= i < |applied|
      ensures Recorded(applied[i], before - deleted, files, backups - deleted, changes)
    {
      assert Recorded(applied[i], before, files, backups, changes);
    }
  }

  lemma ProgressBackups(applied: seq<Record>, before: map<Path, Text>, files: map<Path, Text>,
                        backups: map<Path, Text>, changes: map<Path, Option<Text>>)
    requires Progress(applied, before, files, backups, changes)
    ensures backups.Keys <= before.Keys
  {
    forall p | p in backups ensures p in before {
      assert Touched(applied, p);
      var i :| 0 <= i < |applied| && applied[i].path == p;
      assert Recorded(applied[i], before, files, backups, changes);
    }
  }

  lemma NoneLeft(applied: seq<Record>, before: map<Path, Text>, files: map<Path, Text>,
                 were: map<Path, Text>, backups: map<Path, Text>,
                 changes: map<Path, Option<Text>>)
    requires Progress(applied, before, files, were, changes) && backups.Keys <= were.Keys
    requires forall i :: 0 <= i < |applied| && applied[i].moved ==> applied[i].path !in backups
    ensures backups == map[]
  {
    forall p ensures p !in backups {
      if p in were {
        assert Touched(applied, p);
        var i :| 0 <= i < |applied| && applied[i].path == p;
        assert Recorded(applied[i], before, files, were, changes);
      }
    }
  }

  lemma Unwound(applied: seq<Record>, n: nat, were: seq<Path>, failures: seq<Path>,
                before: map<Path, Text>,
                files: map<Path, Text>, backups: map<Path, Text>,
                files': map<Path, Text>, backups': map<Path, Text>, changes: map<Path, Option<Text>>)
    requires n < |applied| && Unwinding(applied, n + 1, were, before, files, backups, changes)
    requires Elsewhere(applied[n].path, files, files') && Elsewhere(applied[n].path, backups, backups')
    requires Back(applied[n], failures, before, files', backups')
    requires failures == were || failures == were + [applied[n].path]
    ensures Unwinding(applied, n, failures, before, files', backups', changes)
  {
    var q := applied[n].path;
    forall i | 0 <= i < n
      ensures Recorded(applied[i], before, files', backups', changes)
    {
      assert Recorded(applied[i], before, files, backups, changes) && applied[i].path != q;
      assert Same(files, files', applied[i].path) && Same(backups, backups', applied[i].path);
    }
    forall i | n < i < |applied|
      ensures Back(applied[i], failures, before, files', backups')
    {
      assert Back(applied[i], were, before, files, backups) && applied[i].path != q;
      assert Same(files, files', applied[i].path) && Same(backups, backups', applied[i].path);
    }
    forall p | !Touched(applied, p)
      ensures Same(before, files', p) && p !in backups'
    {
      assert p != q;
      assert Same(files, files', p) && Same(backups, backups', p);
    }
  }

  // ---- Three runs ---------------------------------------------------------------------

  /** A file whose lines end in carriage return and line feed is left as it is when staged without the former. */
  method LineEndingsStay() returns (r: Outcome, text: Text)
    ensures r == Committed && text == "x\r\n"
  {
    var t := new Transaction(false, (n: nat, p: Point) => Go, map["p" := "x\r\n"]);
    t.Stage("p", Some("x\n"));
    assert Read("x\r\n") == "x\n";
    ghost var mark, end, deleted, half;
    r, mark, end, deleted, half := t.Commit();
    text := t.files["p"];
  }

  /** Works until the directories are to be made durable, and is interrupted there. */
  function LateInterrupt(): (nat, Point) -> Signal { (n: nat, p: Point) => if p == Syncing then Interrupt else Go }

  /** An interrupt when all is done but the last step: neither the original nor the new text is left. */
  method InterruptedCleanUp() returns (r: Outcome, files: map<Path, Text>)
    ensures r == RolledBack && files == map[]
  {
    var t := new Transaction(false, LateInterrupt(), map["p" := "old"]);
    t.Stage("p", Some("new"));
    assert Read("old") == "old";
    assert Effective(t.files, t.changes, "p") && t.Changes(t.files);
    ghost var mark, end, deleted, half;
    r, mark, end, deleted, half := t.Commit();
    files := t.files;
  }

  /** A new file whose writing fails is not deleted. */
  method HalfWritten() returns (r: Outcome, temporaries: map<Path, Text>)
    ensures r == RolledBack && temporaries.Keys == {"p"}
  {
    var t := new Transaction(false, (n: nat, p: Point) => if p == Writing then Fault else Go, map[]);
    t.Stage("p", Some("x"));
    assert "p" in t.order && Effective(t.files, t.changes, "p");
    ghost var mark, end, deleted, half;
    r, mark, end, deleted, half := t.Commit();
    temporaries := t.temporaries;
  }
}
