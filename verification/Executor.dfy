/**
 * The transactional executor: apply, verify, declare; roll back in reverse on failure;
 * recover after a crash. The environment decides at every durable step whether it works,
 * raises, is interrupted, or never happens because the process is gone, so every method
 * below is proved for every failing step and every crash point.
 */
module Executor {
  import opened Wrappers
  import opened D = Declarations
  import opened Journal

  /** What the environment does to one step. A rejected command exits nonzero or times out. */
  datatype Signal = Go | Reject | Fault | Interrupt | Crash

  /** Where in the course of a call a step is taken; the environment may look at that. */
  datatype Point =
    | Ordinary    // reading, checking, and checkpoints
    | Running     // the command of an action's step
    | Checking(action: nat)   // the command that verifies an action
    | Accessing   // an access to the journal
    | Recording   // the access that records an action's command
    | Declared    // after the declaration is written
    | Undoing     // a rollback command
    | Restoring   // the declaration is put back

  datatype Status = Done | Raised | Stopped | Gone

  function StatusOf(s: Signal): Status {
    match s
    case Fault => Raised
    case Interrupt => Stopped
    case Crash => Gone
    case _ => Done
  }

  /** Is this an answer that a call cannot go on from? Only a command can be rejected. */
  predicate Bad(p: Point, s: Signal) { s != Go && (s == Reject ==> p.Running? || p.Checking? || p.Undoing?) }

  datatype Outcome = Finished(state: TxState) | Refused | Escaped

  const MAX_DECLARATION := 1024 * 1024

  class Executor<W(!new)> {
    const script: (nat, Point) -> Signal
    const parse: Bytes -> Option<Declaration>
    const render: Declaration -> Bytes
    var tick: nat
    ghost var since: nat  // the step at which the call began

    var world: W
    var declaration: Option<Bytes>

    // The journal of the transaction, and the saved declaration. A digest stands for the
    // bytes it was taken of.
    var state: Option<TxState>
    var rows: seq<Row<W>>
    var backupRow: Option<Option<Bytes>>
    var backupFile: Option<Bytes>
    var restored: bool

    // What happened, for the theorems: the rows as they were when the declaration was
    // written; an action in effect whose row does not say so; a rollback command or
    // restoration that did not take; which rollback commands may run again; which actions
    // are in effect, their step having run and their rollback command not since; a journal
    // access that raised, since the call began and in earlier calls for the transaction;
    // a change of state the table refused, since the call began; an answer since then that
    // a call cannot go on from; and the actions whose verification command exited zero.
    ghost var declaredRows: seq<Row<W>>
    ghost var leak: Option<nat>
    ghost var stuck: bool
    ghost var again: Again
    ghost var effect: set<nat>
    ghost var journalFault: bool
    ghost var faulted: bool
    ghost var refused: bool
    ghost var trouble: bool
    ghost var passed: set<nat>

    constructor (script: (nat, Point) -> Signal, parse: Bytes -> Option<Declaration>, render: Declaration -> Bytes,
                 world: W, declaration: Option<Bytes>)
      ensures this.script == script && this.parse == parse && this.render == render
      ensures this.world == world && this.declaration == declaration
      ensures state == None
    {
      this.script, this.parse, this.render := script, parse, render;
      this.world, this.declaration := world, declaration;
      tick, since, state, rows, backupRow, backupFile, restored := 0, 0, None, [], None, None, false;
      declaredRows := [];
      leak, stuck, again, effect, journalFault, faulted, refused := None, false, Never, {}, false, false, false;
      trouble, passed := false, {};
    }

    /** Another process, with the journal, the files and the world as this one left them. */
    constructor Reopen(e: Executor<W>, script: (nat, Point) -> Signal)
      ensures this.script == script && parse == e.parse && render == e.render && tick == 0
      ensures state == e.state && declaration == e.declaration && Now() == e.Now()
      ensures backupRow == e.backupRow && backupFile == e.backupFile
      ensures declaredRows == e.declaredRows && journalFault == e.journalFault && faulted == e.faulted
    {
      this.script, parse, render, tick, since := script, e.parse, e.render, 0, 0;
      world, declaration, state, rows := e.world, e.declaration, e.state, e.rows;
      backupRow, backupFile, restored := e.backupRow, e.backupFile, e.restored;
      declaredRows, leak, stuck, again, effect := e.declaredRows, e.leak, e.stuck, e.again, e.effect;
      journalFault, faulted, refused, trouble, passed := e.journalFault, e.faulted, e.refused, false, e.passed;
    }

    // ---- What holds between any two steps -------------------------------------------

    ghost function Now(): Scene<W>
      reads this`rows, this`world, this`leak, this`stuck, this`again, this`effect
    {
      Scene(rows, world, leak, stuck, again, effect)
    }

    ghost predicate RowsOf(plan: seq<Action<W>>)
      reads this`rows, this`world, this`leak, this`stuck, this`again, this`effect
    {
      Now().RowsOf(plan)
    }

    ghost predicate AtHeight(plan: seq<Action<W>>, w0: W)
      reads this`rows, this`leak, this`world, this`stuck, this`again, this`effect
    {
      Now().AtTop(plan, w0)
    }

    /**
     * A changed declaration can be put back; every action was verified when it was written,
     * and a row that is no longer verified has been marked by a rollback since.
     */
    ghost predicate DeclarationSafe(plan: seq<Action<W>>, before: Option<Bytes>)
      reads this`rows, this`declaration, this`backupRow, this`backupFile, this`declaredRows
    {
      && (backupRow.None? ==> declaration == before)
      && (backupRow.Some? ==> backupRow.value == before && (before.Some? ==> backupFile == before))
      && (declaration != before ==> AllVerified(declaredRows, plan) && Marked(declaredRows, rows))
    }

    /** Rolled back means undone: nothing of the plan is left but a leaked action. */
    ghost predicate Concluded(plan: seq<Action<W>>, w0: W, before: Option<Bytes>)
      reads this`state, this`rows, this`world, this`leak, this`stuck, this`again, this`effect, this`declaration
    {
      state == Some(TxRolledBack) ==> Undone(plan, w0, before)
    }

    ghost predicate Undone(plan: seq<Action<W>>, w0: W, before: Option<Bytes>)
      reads this`rows, this`world, this`leak, this`stuck, this`again, this`effect, this`declaration
    {
      declaration == before && Now().Down(plan, w0)
    }

    ghost predicate Steady(plan: seq<Action<W>>, w0: W, before: Option<Bytes>)
      reads this`state, this`rows, this`world, this`leak, this`stuck, this`again, this`effect, this`declaration,
            this`backupRow, this`backupFile, this`declaredRows
    {
      && state.Some?
      && Now().OnCourse(plan, w0)
      && DeclarationSafe(plan, before)
      && Concluded(plan, w0, before)
    }

    ghost predicate Sound(plan: seq<Action<W>>, w0: W, before: Option<Bytes>)
      reads this`state, this`rows, this`world, this`leak, this`stuck, this`again, this`effect, this`declaration,
            this`backupRow, this`backupFile, this`declaredRows, this`faulted, this`journalFault
    {
      Steady(plan, w0, before) && (again == AnyOf ==> faulted || journalFault)
    }

    // ---- Single steps ----------------------------------------------------------------

    method Step(p: Point) returns (s: Signal)
      requires since <= tick
      modifies this`tick, this`trouble
      ensures tick == old(tick) + 1 && forall x :: Always(p, x, since) ==> s == x
      ensures trouble == (old(trouble) || Bad(p, s))
      ensures Unbroken(since) ==> s != Interrupt && s != Crash
      ensures Faultless(since) && (p == Accessing || p == Recording) ==> s != Fault
    {
      s := script(tick, p);
      tick := tick + 1;
      trouble := trouble || Bad(p, s);
    }

    // ---- What the environment does from some step on ---------------------------------

    /** It answers all steps of this kind alike. */
    ghost predicate Always(p: Point, x: Signal, from: nat) {
      forall t :: t >= from ==> script(t, p) == x
    }

    /** It answers all verification commands alike. */
    ghost predicate Verifies(x: Signal, from: nat) { forall i :: Always(Checking(i), x, from) }

    /** The journal works, but perhaps where an action's command is recorded. */
    ghost predicate Journalled(from: nat) { Always(Accessing, Go, from) }

    /** Everything works that is done before the declaration is written. */
    ghost predicate Smooth(from: nat) {
      && Always(Accessing, Go, from) && Always(Ordinary, Go, from) && Always(Running, Go, from)
      && Always(Recording, Go, from) && Verifies(Go, from)
    }

    /** The journal works, and all rollback commands are answered alike. */
    ghost predicate Undoes(from: nat, u: Signal) { Always(Accessing, Go, from) && Always(Undoing, u, from) }

    /** Everything works that a rollback needs. */
    ghost predicate Restores(from: nat) { Undoes(from, Go) && Always(Restoring, Go, from) }

    /** Everything works. */
    ghost predicate Fine(from: nat) { Smooth(from) && Restores(from) && Always(Declared, Go, from) }

    /** Nothing is interrupted, and the process is not lost. */
    ghost predicate Unbroken(from: nat) {
      forall t, p :: t >= from ==> script(t, p) != Interrupt && script(t, p) != Crash
    }

    /** No access to the journal raises. */
    ghost predicate Faultless(from: nat) {
      forall t :: t >= from ==> script(t, Accessing) != Fault && script(t, Recording) != Fault
    }

    /** Whatever may be rejected or raise, the process lives on, and the journal and all undoing work. */
    ghost predicate Backed(from: nat) { Restores(from) && Always(Recording, Go, from) && Unbroken(from) }

    lemma BackedIsFaultless(from: nat)
      requires Backed(from)
      ensures Faultless(from)
    {
      forall t | t >= from ensures script(t, Accessing) != Fault && script(t, Recording) != Fault {}
    }

    /** The process is lost before the declaration is put back. */
    ghost predicate Cut(from: nat) { Always(Restoring, Crash, from) }

    /** Everything works until the declaration is written, and raises then. */
    ghost predicate Late(from: nat) { Smooth(from) && Always(Declared, Fault, from) }

    /** The same, and then rollback commands work, or are rejected; and the process is lost before the end. */
    ghost predicate Spoilt(from: nat, u: Signal) { Late(from) && Undoes(from, u) && Cut(from) }

    /** Everything works but that recording an action's command raises. */
    ghost predicate Mute(from: nat) {
      && Always(Accessing, Go, from) && Always(Ordinary, Go, from) && Always(Running, Go, from)
      && Always(Recording, Fault, from)
    }

    /** The same, and the rollback works. */
    ghost predicate Unrecorded(from: nat) { Mute(from) && Restores(from) }

    /** How the call has gone so far, or one of its steps. */
    ghost predicate Told(s: Status)
      reads this`tick, this`since, this`trouble
    {
      && since <= tick && (s == Done <==> !trouble)
      && (Smooth(since) ==> s == Done) && (Unbroken(since) ==> s == Done || s == Raised)
    }

    /** The same of accesses to the journal alone. */
    ghost predicate Accessed(s: Status)
      reads this`tick, this`since
    {
      since <= tick && (Journalled(since) ==> s == Done) && (Unbroken(since) ==> s == Done || s == Raised)
    }

    /** The same of undoing, which goes on past what raises. */
    ghost predicate Carried(s: Status, failed: bool)
      reads this`tick, this`since
    {
      && since <= tick && (Undoes(since, Go) ==> s == Done && !failed)
      && (Unbroken(since) || Undoes(since, Reject) ==> s == Done)
    }

    /** The same of undoing and putting the declaration back. */
    ghost predicate Returned(s: Status, failed: bool)
      reads this`tick, this`since
    {
      since <= tick && (Restores(since) ==> s == Done && !failed) && (Unbroken(since) ==> s == Done)
    }

    /** A journal access is only said to have raised when one did. */
    ghost predicate Noted(was: bool)
      reads this`journalFault, this`since
    {
      (was ==> journalFault) && (journalFault ==> was || !Faultless(since))
    }

    /** What ended without a failure met no journal access that raised. */
    ghost predicate Clean(was: bool, s: Status, failed: bool)
      reads this`journalFault
    {
      s == Done && !failed ==> journalFault == was
    }

    method Checkpoint(p: Point) returns (s: Status)
      requires since <= tick
      modifies this`tick, this`trouble
      ensures since <= tick && forall x :: Always(p, x, since) ==> s == StatusOf(x)
      ensures Unbroken(since) ==> s == Done || s == Raised
      ensures p != Running && !p.Checking? && p != Undoing ==> trouble == (old(trouble) || s != Done)
      ensures Faultless(since) && (p == Accessing || p == Recording) ==> s != Raised
    {
      var signal := Step(p);
      s := StatusOf(signal);
    }

    /** The declaration is small enough to be read. */
    predicate Readable(before: Option<Bytes>) { before.Some? ==> |before.value| <= MAX_DECLARATION }

    /** One access to the journal database, which happens or does not. */
    method Access(p: Point) returns (s: Status)
      requires since <= tick
      requires p == Accessing || p == Recording
      modifies this`tick, this`trouble, this`journalFault
      ensures since <= tick && forall x :: Always(p, x, since) ==> s == StatusOf(x)
      ensures Unbroken(since) ==> s == Done || s == Raised
      ensures trouble == (old(trouble) || s != Done)
      ensures journalFault == (old(journalFault) || s == Raised) && Noted(old(journalFault))
    {
      s := Checkpoint(p);
      journalFault := journalFault || s == Raised;
    }

    method SetState(next: TxState) returns (s: Status)
      requires since <= tick
      requires state.Some?
      modifies this`tick, this`trouble, this`journalFault, this`state, this`refused
      ensures state == if s == Done then Some(next) else old(state)
      ensures s == Done ==> MayFollow(old(state).value, next)
      ensures s == Raised && MayFollow(old(state).value, next) ==> journalFault
      ensures s == Raised ==> journalFault || refused
      ensures refused ==> old(refused) || !MayFollow(old(state).value, next)
      ensures old(refused) ==> refused
      ensures (old(trouble) ==> trouble) && (s == Done ==> trouble == old(trouble))
      ensures s != Done ==> trouble || !MayFollow(old(state).value, next)
      ensures Clean(old(journalFault), s, false)
      ensures Noted(old(journalFault))
      ensures since <= tick && (Unbroken(since) || Journalled(since) ==> s == Done || s == Raised)
      ensures Journalled(since) ==> (s == Done <==> MayFollow(old(state).value, next))
    {
      s := Access(Accessing);
      if s == Done {
        if MayFollow(state.value, next) {
          state := Some(next);
        } else {
          refused := true;
          s := Raised;
        }
      }
    }

    /** A change of state that the table allows. */
    method MoveTo(next: TxState) returns (s: Status)
      requires since <= tick
      requires state.Some? && MayFollow(state.value, next)
      modifies this`tick, this`trouble, this`journalFault, this`state, this`refused
      ensures state == (if s == Done then Some(next) else old(state)) && refused == old(refused) && Now() == old(Now())
      ensures s == Raised ==> journalFault
      ensures Noted(old(journalFault)) && Accessed(s) && trouble == (old(trouble) || s != Done)
    {
      s := SetState(next);
    }

    /** Inserts or updates an action's row; from then on the row tells what happened to it. */
    method RecordAction(i: nat, action: Action<W>, next: RowState) returns (s: Status)
      requires since <= tick
      requires i <= |rows| && (i < |rows| ==> rows[i].action == action)
      modifies this`tick, this`trouble, this`journalFault, this`rows, this`leak
      ensures s == Done ==>
        && |rows| == (if i < |old(rows)| then |old(rows)| else i + 1)
        && rows[i] == Row(action, next)
        && forall j :: 0 <= j < |old(rows)| && j != i ==> rows[j] == old(rows)[j]
      ensures s == Done ==> leak == if old(leak) == Some(i) then None else old(leak)
      ensures s != Done ==> rows == old(rows) && leak == old(leak)
      ensures journalFault == (old(journalFault) || s == Raised) && Noted(old(journalFault))
      ensures Accessed(s) && trouble == (old(trouble) || s != Done)
    {
      s := Access(Accessing);
      if s == Done {
        rows := if i < |rows| then rows[i := Row(action, next)] else rows + [Row(action, next)];
        if leak == Some(i) { leak := None; }
      }
    }

    /** A command: its effect on the world, or none. */
    method RunCommand(effect: W -> W, p: Point) returns (s: Status, ok: bool)
      requires since <= tick
      modifies this`tick, this`trouble, this`world
      ensures ok ==> s == Done && world == effect(old(world))
      ensures !ok ==> world == old(world)
      ensures p == Running || p == Undoing ==> trouble == (old(trouble) || !ok)
      ensures since <= tick && forall x :: Always(p, x, since) ==> s == StatusOf(x) && ok == (x == Go)
      ensures Unbroken(since) ==> s == Done || s == Raised
    {
      var signal := Step(p);
      s, ok := StatusOf(signal), signal == Go;
      if ok { world := effect(world); }
    }

    // ---- Apply -----------------------------------------------------------------------

    /** The actions whose step is known to have run: those to undo when the call fails. */
    ghost predicate Tracks(plan: seq<Action<W>>, completed: seq<nat>)
      reads this`rows, this`world, this`leak, this`stuck, this`again, this`effect
      requires |rows| <= |plan|
    {
      || completed == Stepped(plan, Now().Height())
      || (leak.Some? && completed == Stepped(plan, |rows|))
    }

    /** The action's one step, if it has one, and the record of its result. */
    method RunStep(action: Action<W>, i: nat, done: seq<nat>) returns (s: Status, completed: seq<nat>)
      requires since <= tick && !trouble
      requires leak.None?
      modifies this`tick, this`trouble, this`world, this`effect, this`leak, this`journalFault
      ensures leak.None? || leak == Some(i)
      ensures world == if leak.Some? then action.Do(old(world)) else old(world)
      ensures effect == if leak.Some? then old(effect) + {i} else old(effect)
      ensures leak.Some? ==> action.Steps()
      ensures completed == if s == Done && action.Steps() then done + [i] else done
      ensures s == Done && action.Steps() ==> leak == Some(i)
      ensures s == Raised && leak.Some? ==> journalFault
      ensures Noted(old(journalFault))
      ensures Told(s)
      ensures Mute(since) ==> if action.Steps() then s == Raised && leak.Some? else s == Done
    {
      s, completed := Done, done;
      if action.Steps() {
        var ok;
        s, ok := RunCommand(action.Do, Running);
        if ok { leak, effect := Some(i), effect + {i}; }
        if s == Done {
          s := Access(Recording);
          if s == Done {
            if ok { completed := done + [i]; } else { s := Raised; }
          }
        }
      }
    }

    method ApplyAction(plan: seq<Action<W>>, ghost w0: W, i: nat, done: seq<nat>)
      returns (s: Status, completed: seq<nat>)
      requires since <= tick && !trouble
      requires i == |rows| < |plan| && RowsOf(plan) && leak.None? && done == Stepped(plan, i)
      requires world == World(plan, w0, i) && forall j :: 0 <= j < i ==> rows[j].state == Mutated
      modifies this`tick, this`trouble, this`world, this`effect, this`rows, this`leak, this`journalFault
      ensures AtHeight(plan, w0) && Tracks(plan, completed)
      ensures s == Done ==>
        |rows| == i + 1 && leak.None? && forall j :: 0 <= j <= i ==> rows[j].state == Mutated
      ensures s == Raised && leak.Some? ==> journalFault
      ensures Noted(old(journalFault))
      ensures Told(s)
      ensures Mute(since) ==> if plan[i].Steps() then s == Raised && leak.Some? && completed == done else s == Done
    {
      completed := done;
      s := RecordAction(i, plan[i], Began);
      if s == Done {
        s, completed := RunBegun(plan, w0, i, done);
      }
    }

    method RunNext(plan: seq<Action<W>>, ghost w0: W, i: nat, done: seq<nat>) returns (s: Status, completed: seq<nat>)
      requires since <= tick && !trouble
      requires i == |rows| - 1 < |plan| && RowsOf(plan) && leak.None? && done == Stepped(plan, i)
      requires rows[i].state == Began && forall j :: 0 <= j < i ==> rows[j].state == Mutated
      requires world == World(plan, w0, i)
      modifies this`tick, this`trouble, this`world, this`effect, this`leak, this`journalFault
      ensures AtHeight(plan, w0) && Tracks(plan, completed)
      ensures s == Done ==> leak == if plan[i].Steps() then Some(i) else None
      ensures s == Done ==> completed == Stepped(plan, i + 1) && world == World(plan, w0, i + 1)
      ensures s == Raised && leak.Some? ==> journalFault
      ensures Noted(old(journalFault))
      ensures Told(s)
      ensures Mute(since) ==> if plan[i].Steps() then s == Raised && leak.Some? && completed == done else s == Done
    {
      ghost var a := Now();
      s, completed := RunStep(plan[i], i, done);
      BegunTop(a, Now(), plan, w0, i);
    }

    method RunBegun(plan: seq<Action<W>>, ghost w0: W, i: nat, done: seq<nat>) returns (s: Status, completed: seq<nat>)
      requires since <= tick && !trouble
      requires i == |rows| - 1 < |plan| && RowsOf(plan) && leak.None? && done == Stepped(plan, i)
      requires rows[i].state == Began && forall j :: 0 <= j < i ==> rows[j].state == Mutated
      requires world == World(plan, w0, i)
      modifies this`tick, this`trouble, this`world, this`effect, this`rows, this`leak, this`journalFault
      ensures AtHeight(plan, w0) && Tracks(plan, completed)
      ensures s == Done ==>
        |rows| == i + 1 && leak.None? && forall j :: 0 <= j <= i ==> rows[j].state == Mutated
      ensures s == Raised && leak.Some? ==> journalFault
      ensures Noted(old(journalFault))
      ensures Told(s)
      ensures Mute(since) ==> if plan[i].Steps() then s == Raised && leak.Some? && completed == done else s == Done
    {
      s, completed := RunNext(plan, w0, i, done);
      if s == Done { s := Settle(plan, w0, i, completed); }
    }

    /** The row that says the action is in effect. */
    method Settle(plan: seq<Action<W>>, ghost w0: W, i: nat, completed: seq<nat>) returns (s: Status)
      requires since <= tick && !trouble
      requires i == |rows| - 1 < |plan| && RowsOf(plan) && rows[i].state == Began
      requires leak == if plan[i].Steps() then Some(i) else None
      requires completed == Stepped(plan, i + 1)
      requires world == World(plan, w0, i + 1) && forall j :: 0 <= j < i ==> rows[j].state == Mutated
      modifies this`tick, this`trouble, this`rows, this`leak, this`journalFault
      ensures AtHeight(plan, w0) && Tracks(plan, completed)
      ensures s == Done ==>
        |rows| == i + 1 && leak.None? && forall j :: 0 <= j <= i ==> rows[j].state == Mutated
      ensures s == Raised && leak.Some? ==> journalFault
      ensures Noted(old(journalFault))
      ensures Told(s) && (Mute(since) ==> s == Done)
    {
      s := RecordMutated(plan, w0, i, completed);
      if s == Done { s := Checkpoint(Ordinary); }
    }

    method RecordMutated(plan: seq<Action<W>>, ghost w0: W, i: nat, ghost completed: seq<nat>) returns (s: Status)
      requires since <= tick && !trouble
      requires i == |rows| - 1 < |plan| && RowsOf(plan) && rows[i].state == Began
      requires leak == if plan[i].Steps() then Some(i) else None
      requires completed == Stepped(plan, i + 1)
      requires world == World(plan, w0, i + 1) && forall j :: 0 <= j < i ==> rows[j].state == Mutated
      modifies this`tick, this`trouble, this`rows, this`leak, this`journalFault
      ensures AtHeight(plan, w0) && Tracks(plan, completed)
      ensures s == Done ==> |rows| == i + 1 && leak.None? && forall j :: 0 <= j <= i ==> rows[j].state == Mutated
      ensures journalFault == (old(journalFault) || s == Raised) && Noted(old(journalFault))
      ensures Accessed(s) && (s == Done <==> !trouble)
    {
      ghost var a := Now();
      s := RecordAction(i, plan[i], Mutated);
      assert Now() == if s == Done then a.(rows := a.rows[i := Row(plan[i], Mutated)], leak := None) else a;
      SettledTop(a, Now(), plan, w0, i);
    }

    /** The first i actions have been applied, each with its row. */
    ghost predicate Applied(plan: seq<Action<W>>, w0: W, i: nat, completed: seq<nat>)
      reads this`rows, this`world, this`leak, this`stuck, this`again, this`effect
    {
      && i == |rows| <= |plan| && RowsOf(plan) && leak.None? && completed == Stepped(plan, i)
      && world == World(plan, w0, i) && forall j :: 0 <= j < i ==> rows[j].state == Mutated
    }

    method ApplyNext(plan: seq<Action<W>>, ghost w0: W, i: nat, done: seq<nat>)
      returns (s: Status, completed: seq<nat>)
      requires since <= tick && !trouble
      requires i < |plan| && Applied(plan, w0, i, done)
      modifies this`tick, this`trouble, this`world, this`effect, this`rows, this`leak, this`journalFault
      ensures AtHeight(plan, w0) && Tracks(plan, completed) && (s == Done ==> Applied(plan, w0, i + 1, completed))
      ensures s == Raised && leak.Some? ==> journalFault
      ensures Noted(old(journalFault)) && Told(s)
      ensures Mute(since) && done == [] ==> if plan[i].Steps() then s == Raised && leak.Some? && completed == []
                                            else s == Done && completed == []
    {
      s, completed := ApplyAction(plan, w0, i, done);
    }

    method ApplyActions(plan: seq<Action<W>>, ghost w0: W) returns (s: Status, completed: seq<nat>)
      requires since <= tick && !trouble
      requires rows == [] && leak.None? && effect == {} && world == w0
      modifies this`tick, this`trouble, this`world, this`effect, this`rows, this`leak, this`journalFault
      ensures AtHeight(plan, w0) && Tracks(plan, completed) && (s == Done ==> Applied(plan, w0, |plan|, completed))
      ensures s == Raised && leak.Some? ==> journalFault
      ensures Noted(old(journalFault)) && Told(s)
      ensures Mute(since) && Stepped(plan, |plan|) != [] ==> s == Raised && leak.Some? && completed == []
    {
      s, completed := Done, [];
      for i := 0 to |plan|
        invariant s == Done && Told(s) && Noted(old(journalFault)) && Applied(plan, w0, i, completed)
        invariant Mute(since) ==> completed == []
      {
        s, completed := ApplyNext(plan, w0, i, completed);
        if s != Done { return; }
      }
    }

    /** The command that verifies an action; it leaves the world alone. */
    method Verify(i: nat) returns (s: Status, ok: bool)
      requires since <= tick
      modifies this`tick, this`trouble, this`passed
      ensures since <= tick && forall x :: Always(Checking(i), x, since) ==> s == StatusOf(x) && ok == (x == Go)
      ensures (Verifies(Go, since) ==> ok) && (Verifies(Reject, since) ==> !ok)
      ensures Unbroken(since) ==> s == Done || s == Raised
      ensures passed == if ok then old(passed) + {i} else old(passed)
      ensures (ok ==> s == Done) && trouble == (old(trouble) || !ok)
    {
      var signal := Step(Checking(i));
      assert Verifies(Go, since) ==> Always(Checking(i), Go, since);
      assert Verifies(Reject, since) ==> Always(Checking(i), Reject, since);
      s, ok := StatusOf(signal), signal == Go;
      if ok { passed := passed + {i}; }
    }

    method VerifyOne(action: Action<W>, i: nat) returns (s: Status)
      requires since <= tick && !trouble
      requires i < |rows| && rows[i].action == action
      modifies this`tick, this`trouble, this`passed, this`rows, this`leak, this`journalFault
      ensures s == Done ==> rows == old(rows)[i := Row(action, Verified)]
      ensures s == Done && action.operation != Remove ==> i in passed
      ensures s != Done ==> rows == old(rows)
      ensures old(passed) <= passed && (Verifies(Reject, since) && action.operation != Remove ==> s != Done)
      ensures leak == if s == Done && old(leak) == Some(i) then None else old(leak)
      ensures Noted(old(journalFault)) && Told(s)
    {
      s := Done;
      if action.operation != Remove {
        var ok;
        s, ok := Verify(i);
        if s == Done {
          s := Access(Accessing);
          if s == Done && !ok { s := Raised; }
        }
      }
      if s == Done { s := RecordAction(i, action, Verified); }
    }

    /** The verification command of every action that has one exited zero. */
    ghost predicate AllPassed(plan: seq<Action<W>>)
      reads this`passed
    {
      forall i :: 0 <= i < |plan| && plan[i].operation != Remove ==> i in passed
    }

    /** The first i actions are verified; the others have been applied. */
    ghost predicate VerifiedUpTo(plan: seq<Action<W>>, i: nat)
      reads this`rows, this`world, this`leak, this`stuck, this`again, this`effect, this`passed
    {
      && RowsOf(plan) && i <= |rows| == |plan| && leak.None?
      && (forall j :: 0 <= j < i ==> rows[j].state == Verified && (plan[j].operation != Remove ==> j in passed))
      && (forall j :: i <= j < |plan| ==> rows[j].state == Mutated)
    }

    method VerifyNext(plan: seq<Action<W>>, i: nat) returns (s: Status)
      requires since <= tick && !trouble
      requires i < |plan| && VerifiedUpTo(plan, i)
      modifies this`tick, this`trouble, this`passed, this`rows, this`leak, this`journalFault
      ensures VerifiedUpTo(plan, if s == Done then i + 1 else i)
      ensures Verifies(Reject, since) && plan[i].operation != Remove ==> s != Done
      ensures Noted(old(journalFault)) && Told(s)
    {
      s := VerifyOne(plan[i], i);
    }

    method VerifyActions(plan: seq<Action<W>>) returns (s: Status)
      requires since <= tick && !trouble
      requires RowsOf(plan) && |rows| == |plan| && leak.None?
      requires forall j :: 0 <= j < |plan| ==> rows[j].state == Mutated
      modifies this`tick, this`trouble, this`passed, this`rows, this`leak, this`journalFault
      ensures RowsOf(plan) && |rows| == |plan| && leak.None?
      ensures forall j :: 0 <= j < |plan| ==> Pending(rows[j].state)
      ensures s == Done ==> AllPassed(plan) && AllVerified(rows, plan)
      ensures Verifies(Reject, since) && Checks(plan) ==> s != Done
      ensures Noted(old(journalFault)) && Told(s)
    {
      s := Done;
      for i := 0 to |plan|
        invariant s == Done && Told(s) && Noted(old(journalFault)) && VerifiedUpTo(plan, i)
        invariant Verifies(Reject, since) ==> forall j :: 0 <= j < i ==> plan[j].operation == Remove
      {
        s := VerifyNext(plan, i);
        if s != Done { return; }
      }
    }

    method RecordDeclarationBackup(before: Option<Bytes>) returns (s: Status)
      requires since <= tick && !trouble
      requires backupRow.None?
      modifies this`tick, this`trouble, this`journalFault, this`backupRow, this`backupFile
      ensures backupRow.Some? ==> backupRow.value == before && (before.Some? ==> backupFile == before)
      ensures s == Done ==> backupRow.Some?
      ensures Noted(old(journalFault))
      ensures Told(s)
    {
      s := Done;
      if before.Some? {
        s := Checkpoint(Ordinary);
        if s == Done { backupFile := before; }
      }
      if s == Done {
        s := Access(Accessing);
        if s == Done { backupRow := Some(before); }
      }
    }

    method WriteDeclaration(content: Option<Bytes>, p: Point) returns (s: Status)
      requires since <= tick
      modifies this`tick, this`trouble, this`declaration
      ensures declaration == if s == Done then content else old(declaration)
      ensures since <= tick && forall x :: Always(p, x, since) ==> s == StatusOf(x)
      ensures Unbroken(since) ==> s == Done || s == Raised
      ensures p == Ordinary || p == Restoring ==> trouble == (old(trouble) || s != Done)
    {
      s := Checkpoint(p);
      if s == Done { declaration := content; }
    }

    function Found(before: Option<Bytes>): Option<Declaration> {
      if before.Some? then parse(before.value) else None
    }

    /** The plan passes preflight against the declaration found. */
    predicate Admits(plan: seq<Action<W>>, catalog: Catalog, before: Option<Bytes>) {
      (before.Some? ==> Found(before).Some?) && Compatible(Found(before), Intents(plan), catalog)
    }

    /** What the declaration file holds once the plan is applied. */
    function NewContent(plan: seq<Action<W>>, catalog: Catalog, before: Option<Bytes>): Bytes
      requires Admits(plan, catalog, before)
    {
      render(Updated(Found(before), Intents(plan), catalog))
    }

    method RenderUpdated(plan: seq<Action<W>>, catalog: Catalog, existing: Option<Declaration>,
                         ghost before: Option<Bytes>)
      returns (content: Bytes)
      requires since <= tick
      requires Admits(plan, catalog, before) && existing == Found(before)
      ensures content == NewContent(plan, catalog, before)
    {
      var updated := UpdatedDeclaration(existing, Intents(plan), catalog);
      content := render(updated);
    }

    method EnterApplying() returns (s: Status)
      requires since <= tick && !trouble
      requires state == Some(Preflight)
      modifies this`tick, this`trouble, this`state, this`journalFault, this`refused
      ensures state == Some(Applying) || (s != Done && state == Some(Preflight))
      ensures refused == old(refused) && Noted(old(journalFault)) && Told(s) && (Mute(since) ==> s == Done)
    {
      s := Checkpoint(Ordinary);
      if s == Done { s := MoveTo(Applying); }
      if s == Done { s := Checkpoint(Ordinary); }
    }

    /** Checks made before anything is run: the plan's binding, and the existing declaration. */
    method Preflighted(plan: seq<Action<W>>, catalog: Catalog, before: Option<Bytes>)
      returns (s: Status, existing: Option<Declaration>)
      requires since <= tick && !trouble
      requires state == Some(Planned)
      modifies this`tick, this`trouble, this`state, this`journalFault, this`refused
      ensures state.Some? && refused == old(refused) && Noted(old(journalFault))
      ensures s == Done ==>
        state == Some(Applying) && existing == Found(before) && Admits(plan, catalog, before)
      ensures s != Done ==> GoesForward(state.value) && state != Some(Verifying)
      ensures since <= tick && (Unbroken(since) ==> s == Done || s == Raised)
      ensures if Admits(plan, catalog, before) then s == Done <==> !trouble else s != Done
      ensures (Smooth(since) || Mute(since)) && Admits(plan, catalog, before) ==> s == Done
    {
      existing := None;
      s := MoveTo(Preflight);
      if s == Done { s := Checkpoint(Ordinary); }  // reading the repository, the catalog and the executables
      if s == Done {
        existing := Found(before);
        if (before.Some? && existing.None?) || !Compatible(existing, Intents(plan), catalog) { s := Raised; }
      }
      if s == Done { s := EnterApplying(); }
    }

    /** Verify every action and save the old declaration. */
    method VerifyAndSave(plan: seq<Action<W>>, before: Option<Bytes>) returns (s: Status)
      requires since <= tick && !trouble
      requires RowsOf(plan) && |rows| == |plan| && leak.None? && backupRow.None?
      requires forall j :: 0 <= j < |plan| ==> rows[j].state == Mutated
      modifies this`tick, this`trouble, this`passed, this`rows, this`leak, this`journalFault, this`backupRow,
               this`backupFile
      ensures RowsOf(plan) && |rows| == |plan| && leak.None?
      ensures forall j :: 0 <= j < |plan| ==> Pending(rows[j].state)
      ensures backupRow.Some? ==> backupRow.value == before && (before.Some? ==> backupFile == before)
      ensures s == Done ==> backupRow.Some? && AllVerified(rows, plan) && AllPassed(plan)
      ensures Verifies(Reject, since) && Checks(plan) ==> s != Done
      ensures Noted(old(journalFault))
      ensures Told(s)
    {
      s := VerifyActions(plan);
      if s == Done { s := Checkpoint(Ordinary); }
      if s == Done { s := Checkpoint(Ordinary); }
      if s == Done { s := RecordDeclarationBackup(before); }
    }

    /** Write the new declaration. */
    method Declare(plan: seq<Action<W>>, ghost before: Option<Bytes>, content: Option<Bytes>)
      returns (s: Status, written: bool)
      requires since <= tick && !trouble
      requires declaration == before && backupRow == Some(before) && (before.Some? ==> backupFile == before)
      requires AllVerified(rows, plan)
      modifies this`tick, this`trouble, this`declaration, this`declaredRows
      ensures DeclarationSafe(plan, before)
      ensures if written then declaration == content else declaration == before && s != Done
      ensures since <= tick && (Unbroken(since) ==> s == Done || s == Raised) && (s == Done <==> !trouble)
      ensures (Smooth(since) ==> written) && (Fine(since) ==> s == Done) && (Late(since) ==> s == Raised)
    {
      declaredRows := rows;
      s := WriteDeclaration(content, Ordinary);
      written := s == Done;
      if written { s := Checkpoint(Declared); }
    }

    /** Verify every action, save the old declaration, write the new one. */
    method VerifyAndDeclare(plan: seq<Action<W>>, before: Option<Bytes>, content: Option<Bytes>)
      returns (s: Status, written: bool)
      requires since <= tick && !trouble
      requires RowsOf(plan) && |rows| == |plan| && leak.None? && backupRow.None?
      requires forall j :: 0 <= j < |plan| ==> rows[j].state == Mutated
      requires declaration == before
      modifies this`tick, this`trouble, this`passed, this`rows, this`leak, this`journalFault, this`declaration,
               this`backupRow, this`backupFile,
               this`declaredRows
      ensures RowsOf(plan) && |rows| == |plan| && leak.None?
      ensures forall j :: 0 <= j < |plan| ==> Pending(rows[j].state)
      ensures DeclarationSafe(plan, before)
      ensures if written then declaration == content && backupRow == Some(before) && AllVerified(rows, plan)
                              && AllPassed(plan)
              else declaration == before && s != Done
      ensures Noted(old(journalFault))
      ensures since <= tick && (Unbroken(since) ==> s == Done || s == Raised) && (s == Done <==> !trouble)
      ensures Verifies(Reject, since) && Checks(plan) ==> !written
      ensures (Smooth(since) ==> written) && (Fine(since) ==> s == Done) && (Late(since) ==> s == Raised)
    {
      written := false;
      s := VerifyAndSave(plan, before);
      if s == Done {
        s, written := Declare(plan, before, content);
      }
    }

    /** Whatever stops the body: the world is at its height, and the declaration is safe. */
    ghost predicate Stands(plan: seq<Action<W>>, w0: W, before: Option<Bytes>, completed: seq<nat>, written: bool)
      reads this`state, this`rows, this`world, this`leak, this`stuck, this`again, this`effect, this`declaration,
            this`backupRow, this`backupFile, this`declaredRows, this`refused
    {
      state.Some? && !refused && InPlace(plan, w0, before, completed, written)
    }

    ghost predicate InPlace(plan: seq<Action<W>>, w0: W, before: Option<Bytes>, completed: seq<nat>, written: bool)
      reads this`rows, this`world, this`leak, this`stuck, this`again, this`effect, this`declaration,
            this`backupRow, this`backupFile, this`declaredRows
    {
      && again == Never && AtHeight(plan, w0) && Tracks(plan, completed)
      && DeclarationSafe(plan, before) && (!written ==> declaration == before)
      && (written ==> backupRow == Some(before) && AllVerified(rows, plan))
    }

    method ApplyUnlessDry(plan: seq<Action<W>>, ghost before: Option<Bytes>, dryRun: bool, ghost w0: W)
      returns (s: Status, completed: seq<nat>)
      requires since <= tick && !trouble
      requires state == Some(Applying) && rows == [] && backupRow.None? && leak.None? && again == Never && !refused
      requires world == w0 && effect == {} && declaration == before
      modifies this`tick, this`trouble, this`state, this`world, this`effect, this`rows, this`leak, this`journalFault,
               this`refused
      ensures Stands(plan, w0, before, completed, false)
      ensures s == Done ==>
        && state == Some(Verifying) && leak.None?
        && (if dryRun then rows == [] && world == w0
            else |rows| == |plan| && forall j :: 0 <= j < |plan| ==> rows[j].state == Mutated)
      ensures state.value == Applying || state.value == Verifying
      ensures s == Raised && leak.Some? ==> journalFault
      ensures Noted(old(journalFault))
      ensures Told(s)
      ensures Mute(since) && !dryRun && Stepped(plan, |plan|) != [] ==> s == Raised && leak.Some? && completed == []
    {
      s, completed := Done, [];
      if !dryRun { s, completed := ApplyActions(plan, w0); }
      if s == Done { s := EnterVerifying(plan, w0, before, completed); }
    }

    method EnterVerifying(ghost plan: seq<Action<W>>, ghost w0: W, ghost before: Option<Bytes>,
                          ghost completed: seq<nat>)
      returns (s: Status)
      requires since <= tick && !trouble
      requires Stands(plan, w0, before, completed, false) && state == Some(Applying)
      modifies this`tick, this`trouble, this`state, this`journalFault, this`refused
      ensures Stands(plan, w0, before, completed, false)
      ensures state == Some(Verifying) || (s != Done && state == Some(Applying))
      ensures Noted(old(journalFault))
      ensures Told(s)
    {
      s := TurnToVerifying();
    }

    method TurnToVerifying() returns (s: Status)
      requires since <= tick && !trouble
      requires state == Some(Applying) && !refused
      modifies this`tick, this`trouble, this`state, this`journalFault, this`refused
      ensures state == Some(Verifying) || (s != Done && state == Some(Applying))
      ensures !refused && Now() == old(Now()) && Noted(old(journalFault)) && Told(s)
    {
      s := MoveTo(Verifying);
      if s == Done { s := Checkpoint(Ordinary); }
    }

    method RenderAndDeclare(plan: seq<Action<W>>, catalog: Catalog, existing: Option<Declaration>,
                            before: Option<Bytes>)
      returns (s: Status, written: bool)
      requires since <= tick && !trouble
      requires RowsOf(plan) && |rows| == |plan| && leak.None? && backupRow.None?
      requires forall j :: 0 <= j < |plan| ==> rows[j].state == Mutated
      requires declaration == before && existing == Found(before) && Admits(plan, catalog, before)
      modifies this`tick, this`trouble, this`passed, this`rows, this`leak, this`journalFault, this`declaration,
               this`backupRow, this`backupFile,
               this`declaredRows
      ensures RowsOf(plan) && |rows| == |plan| && leak.None?
      ensures forall j :: 0 <= j < |plan| ==> Pending(rows[j].state)
      ensures DeclarationSafe(plan, before)
      ensures if written
              then NewlyDeclared(plan, catalog, before) && backupRow == Some(before) && AllVerified(rows, plan)
                   && AllPassed(plan)
              else declaration == before && s != Done
      ensures Noted(old(journalFault))
      ensures since <= tick && (Unbroken(since) ==> s == Done || s == Raised) && (s == Done <==> !trouble)
      ensures Verifies(Reject, since) && Checks(plan) ==> !written
      ensures (Smooth(since) ==> written) && (Fine(since) ==> s == Done) && (Late(since) ==> s == Raised)
    {
      var content := RenderUpdated(plan, catalog, existing, before);
      s, written := VerifyAndDeclare(plan, before, Some(content));
    }

    /** The same, as seen by whoever must roll back. */
    method DeclareStanding(plan: seq<Action<W>>, catalog: Catalog, existing: Option<Declaration>, before: Option<Bytes>,
                           ghost w0: W, ghost completed: seq<nat>)
      returns (s: Status, written: bool)
      requires since <= tick && !trouble
      requires Stands(plan, w0, before, completed, false) && leak.None? && backupRow.None?
      requires existing == Found(before) && Admits(plan, catalog, before)
      requires |rows| == |plan| && forall j :: 0 <= j < |plan| ==> rows[j].state == Mutated
      modifies this`tick, this`trouble, this`passed, this`rows, this`leak, this`journalFault, this`declaration,
               this`backupRow, this`backupFile,
               this`declaredRows
      ensures Stands(plan, w0, before, completed, written) && leak.None? && state == old(state)
      ensures if written then Achieved(plan, catalog, before, false, w0) else s != Done
      ensures Noted(old(journalFault))
      ensures since <= tick && (Unbroken(since) ==> s == Done || s == Raised) && (s == Done <==> !trouble)
      ensures Verifies(Reject, since) && Checks(plan) ==> s != Done
      ensures (Fine(since) ==> s == Done) && (Late(since) ==> s == Raised && written)
    {
      s, written := RenderAndDeclare(plan, catalog, existing, before);
    }

    method Succeed(plan: seq<Action<W>>, catalog: Catalog, before: Option<Bytes>, dryRun: bool, ghost w0: W,
                   ghost completed: seq<nat>, written: bool)
      returns (s: Status)
      requires since <= tick && !trouble
      requires Stands(plan, w0, before, completed, written) && state == Some(Verifying) && leak.None?
      requires Achieved(plan, catalog, before, dryRun, w0)
      modifies this`tick, this`trouble, this`state, this`journalFault, this`refused
      ensures Stands(plan, w0, before, completed, written)
      ensures s == Done ==> Succeeds(plan, catalog, before, dryRun, w0)
      ensures s != Done ==> state == Some(Verifying)
      ensures Now() == old(Now())
      ensures Noted(old(journalFault))
      ensures Accessed(s) && (s == Done <==> !trouble)
    {
      s := MoveTo(Succeeded);
    }

    method DeclareAndSucceed(plan: seq<Action<W>>, catalog: Catalog, existing: Option<Declaration>,
                             before: Option<Bytes>,
                             ghost w0: W, ghost completed: seq<nat>)
      returns (s: Status, written: bool)
      requires since <= tick && !trouble
      requires Stands(plan, w0, before, completed, false) && state == Some(Verifying) && leak.None? && backupRow.None?
      requires existing == Found(before) && Admits(plan, catalog, before)
      requires |rows| == |plan| && forall j :: 0 <= j < |plan| ==> rows[j].state == Mutated
      modifies this`tick, this`trouble, this`passed, this`state, this`rows, this`leak, this`journalFault, this`refused,
               this`declaration, this`backupRow, this`backupFile, this`declaredRows
      ensures Stands(plan, w0, before, completed, written) && leak.None?
      ensures s == Done ==> Succeeds(plan, catalog, before, false, w0)
      ensures s != Done ==> state == Some(Verifying)
      ensures Noted(old(journalFault))
      ensures since <= tick && (Unbroken(since) ==> s == Done || s == Raised) && (s == Done <==> !trouble)
      ensures Verifies(Reject, since) && Checks(plan) ==> s != Done
      ensures Fine(since) ==> s == Done
      ensures Late(since) ==>
                s == Raised && written && state == Some(Verifying) && Achieved(plan, catalog, before, false, w0)
    {
      var declared;
      declared, written := DeclareStanding(plan, catalog, existing, before, w0, completed);
      s := declared;
      if declared == Done { s := Succeed(plan, catalog, before, false, w0, completed, written); }
    }

    method DeclareUnlessDry(plan: seq<Action<W>>, catalog: Catalog, existing: Option<Declaration>,
                            before: Option<Bytes>,
                            dryRun: bool, ghost w0: W, ghost completed: seq<nat>)
      returns (s: Status, written: bool)
      requires since <= tick && !trouble
      requires Stands(plan, w0, before, completed, false) && state == Some(Verifying) && leak.None? && backupRow.None?
      requires existing == Found(before) && Admits(plan, catalog, before)
      requires if dryRun then Achieved(plan, catalog, before, true, w0)
               else |rows| == |plan| && forall j :: 0 <= j < |plan| ==> rows[j].state == Mutated
      modifies this`tick, this`trouble, this`passed, this`state, this`rows, this`leak, this`journalFault, this`refused,
               this`declaration, this`backupRow, this`backupFile, this`declaredRows
      ensures Stands(plan, w0, before, completed, written) && leak.None?
      ensures s == Done ==> Succeeds(plan, catalog, before, dryRun, w0)
      ensures s != Done ==> state == Some(Verifying)
      ensures Noted(old(journalFault))
      ensures since <= tick && (Unbroken(since) ==> s == Done || s == Raised) && (s == Done <==> !trouble)
      ensures Verifies(Reject, since) && Checks(plan) && !dryRun ==> s != Done
      ensures Fine(since) ==> s == Done
      ensures Late(since) && !dryRun ==>
                s == Raised && written && state == Some(Verifying) && Achieved(plan, catalog, before, false, w0)
    {
      if dryRun {
        written := false;
        s := Succeed(plan, catalog, before, true, w0, completed, false);
      } else {
        s, written := DeclareAndSucceed(plan, catalog, existing, before, w0, completed);
      }
    }

    /** The new declaration is in place. */
    ghost predicate NewlyDeclared(plan: seq<Action<W>>, catalog: Catalog, before: Option<Bytes>)
      reads this`declaration
    {
      Admits(plan, catalog, before) && declaration == Some(NewContent(plan, catalog, before))
    }

    /** The body once preflight has let the plan through. */
    method ApplyAdmitted(plan: seq<Action<W>>, catalog: Catalog, existing: Option<Declaration>, before: Option<Bytes>,
                         dryRun: bool, ghost w0: W)
      returns (s: Status, completed: seq<nat>, written: bool)
      requires since <= tick && !trouble
      requires state == Some(Applying) && rows == [] && backupRow.None? && leak.None? && again == Never && !refused
      requires world == w0 && effect == {} && declaration == before
      requires existing == Found(before) && Admits(plan, catalog, before)
      modifies this`tick, this`trouble, this`passed, this`state, this`world, this`effect, this`rows, this`leak,
               this`journalFault, this`refused,
               this`declaration, this`backupRow, this`backupFile, this`declaredRows
      ensures Stands(plan, w0, before, completed, written)
      ensures s == Done ==> Succeeds(plan, catalog, before, dryRun, w0)
      ensures s != Done ==> GoesForward(state.value)
      ensures s == Raised && leak.Some? ==> journalFault
      ensures Noted(old(journalFault))
      ensures since <= tick && (Unbroken(since) ==> s == Done || s == Raised) && (s == Done <==> !trouble)
      ensures Verifies(Reject, since) && Checks(plan) && !dryRun ==> s != Done
      ensures Fine(since) ==> s == Done
      ensures Mute(since) && !dryRun && Stepped(plan, |plan|) != [] ==> s == Raised && leak.Some? && completed == []
      ensures Late(since) && !dryRun ==>
                s == Raised && written && completed == Stepped(plan, |plan|) && state == Some(Verifying)
                && Achieved(plan, catalog, before, false, w0)
    {
      written := false;
      s, completed := ApplyUnlessDry(plan, before, dryRun, w0);
      if s == Done {
        s, written := DeclareUnlessDry(plan, catalog, existing, before, dryRun, w0, completed);
      }
    }

    method Body(plan: seq<Action<W>>, catalog: Catalog, before: Option<Bytes>, dryRun: bool, ghost w0: W)
      returns (s: Status, completed: seq<nat>, written: bool)
      requires since <= tick && !trouble
      requires state == Some(Planned) && rows == [] && backupRow.None? && leak.None? && again == Never && !refused
      requires world == w0 && effect == {} && declaration == before
      modifies this`tick, this`trouble, this`passed, this`state, this`world, this`effect, this`rows, this`leak,
               this`journalFault, this`refused,
               this`declaration, this`backupRow, this`backupFile, this`declaredRows
      ensures Stands(plan, w0, before, completed, written)
      ensures s == Done ==> Succeeds(plan, catalog, before, dryRun, w0)
      ensures s != Done ==> GoesForward(state.value)
      ensures s == Raised && leak.Some? ==> journalFault
      ensures Noted(old(journalFault))
      ensures since <= tick && (Unbroken(since) ==> s == Done || s == Raised) && (s == Done ==> !trouble)
      ensures Admits(plan, catalog, before) ==> (s == Done <==> !trouble)
      ensures Verifies(Reject, since) && Checks(plan) && !dryRun ==> s != Done
      ensures Fine(since) && Admits(plan, catalog, before) ==> s == Done
      ensures Mute(since) && Admits(plan, catalog, before) && !dryRun && Stepped(plan, |plan|) != [] ==>
                s == Raised && leak.Some? && completed == []
      ensures Late(since) && Admits(plan, catalog, before) && !dryRun ==>
                s == Raised && written && completed == Stepped(plan, |plan|) && state == Some(Verifying)
                && Achieved(plan, catalog, before, false, w0)
    {
      completed, written := [], false;
      var existing;
      s, existing := Preflighted(plan, catalog, before);
      if s == Done {
        s, completed, written := ApplyAdmitted(plan, catalog, existing, before, dryRun, w0);
      }
    }

    /** The plan is applied, verified and declared; in a dry run, only admitted. */
    ghost predicate Achieved(plan: seq<Action<W>>, catalog: Catalog, before: Option<Bytes>, dryRun: bool, w0: W)
      reads this`rows, this`world, this`declaration, this`backupRow, this`passed
    {
      if dryRun then rows == [] && world == w0 && declaration == before && Admits(plan, catalog, before)
      else
        && world == World(plan, w0, |plan|)
        && AllVerified(rows, plan) && AllPassed(plan)
        && NewlyDeclared(plan, catalog, before)
        && backupRow == Some(before)
    }

    /** What a successful call leaves behind. */
    ghost predicate Succeeds(plan: seq<Action<W>>, catalog: Catalog, before: Option<Bytes>, dryRun: bool, w0: W)
      reads this`state, this`rows, this`world, this`declaration, this`backupRow, this`passed
    {
      state == Some(Succeeded) && Achieved(plan, catalog, before, dryRun, w0)
    }

    // ---- Rollback --------------------------------------------------------------------

    method TransitionToRollback() returns (s: Status)
      requires since <= tick
      requires state.Some? && !Terminal(state.value)
      modifies this`tick, this`trouble, this`journalFault, this`state, this`refused
      ensures state.Some? && !Terminal(state.value)
      ensures s == Done ==> state == Some(RollingBack)
      ensures s != Done ==> state == old(state) || state == Some(Interrupted)
      ensures s == Raised ==> journalFault
      ensures refused == old(refused) && Noted(old(journalFault))
      ensures Clean(old(journalFault), s, false)
      ensures Accessed(s)
    {
      s := Access(Accessing);
      if s == Done && state != Some(RollingBack) {
        if state == Some(Planned) { s := SetState(Interrupted); }
        if s == Done { s := SetState(RollingBack); }
      }
    }

    /** The action's rollback command, if it has one, and the record of its result. */
    method UndoStep(action: Action<W>, i: nat) returns (s: Status, failed: bool, ghost undone: bool)
      requires since <= tick
      modifies this`tick, this`trouble, this`world, this`effect, this`leak, this`stuck, this`journalFault
      ensures s != Raised && (failed ==> journalFault || stuck)
      ensures world == if undone then action.Undo(old(world)) else old(world)
      ensures leak == if undone && old(leak) == Some(i) then None else old(leak)
      ensures effect == if undone then old(effect) - {i} else old(effect)
      ensures s == Done && !stuck ==> undone || !action.Steps()
      ensures s == Done && !failed ==> (undone <==> action.Steps()) && stuck == old(stuck)
      ensures undone ==> action.Steps()
      ensures Undoes(since, Reject) ==> s == Done && !undone && failed == action.Steps()
      ensures (old(stuck) ==> stuck) && Noted(old(journalFault))
      ensures Clean(old(journalFault), s, failed)
      ensures Carried(s, failed)
    {
      s, failed, undone := Done, false, false;
      if action.Steps() {
        var ok;
        s, ok := RunCommand(action.Undo, Undoing);
        undone, failed := ok, (s == Done || s == Raised) && !ok;
        if ok {
          effect := effect - {i};
          if leak == Some(i) { leak := None; }
        }
        if failed { stuck := true; }
        if s == Done {
          s := Access(Accessing);
          failed := failed || s == Raised;
        }
        if s == Raised { s := Done; }
      }
    }

    /** The last action's rollback command, once run, leaves it cleared. */
    method ClearStep(ghost plan: seq<Action<W>>, ghost w0: W, todo: seq<nat>)
      returns (s: Status, failed: bool, ghost undone: bool)
      requires since <= tick
      requires todo != [] && Now().Underway(plan, w0, todo)
      modifies this`tick, this`trouble, this`world, this`effect, this`leak, this`stuck, this`journalFault
      ensures s != Raised && (failed ==> journalFault || stuck)
      ensures if undone || s == Done then Now().Cleared(plan, w0, todo) else Now().OnCourse(plan, w0)
      ensures s == Done && !failed ==> Last(todo) !in effect
      ensures s == Done && !failed ==> Unwound(old(Now()), Now(), plan, todo, |todo| - 1)
      ensures Undoes(since, Reject) ==>
                s == Done && world == old(world) && effect == old(effect) && failed == rows[Last(todo)].action.Steps()
      ensures leak.Some? ==> leak == old(leak)
      ensures (old(stuck) ==> stuck) && Noted(old(journalFault))
      ensures Clean(old(journalFault), s, failed)
      ensures Carried(s, failed)
    {
      ghost var a := Now();
      s, failed, undone := UndoStep(rows[Last(todo)].action, Last(todo));
      if s == Done && !failed { UnwoundNext(a, a, Now(), plan, todo, |todo|); }
      if undone || s == Done {
        StepDown(a, Now(), plan, w0, todo, undone);
      } else {
        StuckOrNot(a, Now(), plan, w0, todo);
      }
    }

    method ClearAction(ghost plan: seq<Action<W>>, ghost w0: W, todo: seq<nat>) returns (s: Status, failed: bool)
      requires since <= tick
      requires todo != [] && Now().Underway(plan, w0, todo)
      modifies this`tick, this`trouble, this`world, this`effect, this`leak, this`stuck, this`again, this`journalFault
      ensures s != Raised && (failed ==> journalFault || stuck)
      ensures rows == old(rows)
      ensures s == Done ==> Now().Cleared(plan, w0, todo) && again == old(again)
      ensures s == Done && !failed ==> Last(todo) !in effect
      ensures s != Done ==> Now().OnCourse(plan, w0)
      ensures again == old(again) || again == AfterMark(old(again), true, false)
      ensures s == Done && !failed ==> Unwound(old(Now()), Now(), plan, todo, |todo| - 1)
      ensures Undoes(since, Reject) ==>
                s == Done && world == old(world) && effect == old(effect) && failed == rows[Last(todo)].action.Steps()
      ensures leak.Some? ==> leak == old(leak)
      ensures (old(stuck) ==> stuck) && Noted(old(journalFault))
      ensures Clean(old(journalFault), s, failed)
      ensures Carried(s, failed)
    {
      ghost var undone;
      s, failed, undone := ClearStep(plan, w0, todo);
      if undone && s != Done {
        ghost var b := Now();
        again := AfterMark(again, true, false);
        LostUnmarked(b, Now(), plan, w0, todo);
      }
    }

    /** Undo the last of these actions, and mark its row. */
    method UndoAction(ghost plan: seq<Action<W>>, ghost w0: W, todo: seq<nat>) returns (s: Status, failed: bool)
      requires since <= tick
      requires todo != [] && Now().Underway(plan, w0, todo)
      modifies this`tick, this`trouble, this`world, this`effect, this`leak, this`stuck, this`again, this`journalFault,
               this`rows
      ensures s != Raised && (failed ==> journalFault || stuck)
      ensures |rows| == |old(rows)| && KeptAt(old(rows), rows, Last(todo))
      ensures forall i :: 0 <= i < |rows| && i != Last(todo) ==> rows[i] == old(rows)[i]
      ensures s == Done ==> Now().Underway(plan, w0, Front(todo))
      ensures s == Done && !failed ==> rows[Last(todo)].state == RolledBack
      ensures Now().OnCourse(plan, w0)
      ensures AgainFrom(old(again), s)
      ensures s == Done && !failed ==> Unwound(old(Now()), Now(), plan, todo, |todo| - 1)
      ensures Undoes(since, Reject) ==>
                s == Done && world == old(world) && effect == old(effect) && RefusedAt(rows, Last(todo))
      ensures leak.Some? ==> leak == old(leak)
      ensures (old(stuck) ==> stuck) && Noted(old(journalFault))
      ensures Clean(old(journalFault), s, failed)
      ensures Carried(s, failed)
      ensures s == Done ==> journalFault || IsMark(rows[Last(todo)].state)
    {
      ghost var a := Now();
      s, failed := ClearAction(plan, w0, todo);
      if s == Done {
        s, failed := MarkAction(plan, w0, todo, failed, a);
      }
    }

    /** What may run again grows only by a loss of the process, and to everything only by a fault. */
    ghost predicate AgainFrom(was: Again, s: Status)
      reads this`again, this`journalFault
    {
      again == was || journalFault || (s != Done && again == AfterMark(was, true, false))
    }

    method MarkRow(todo: seq<nat>, bad: bool) returns (s: Status, failed: bool)
      requires since <= tick
      requires todo != [] && Last(todo) < |rows|
      modifies this`tick, this`trouble, this`leak, this`again, this`journalFault, this`rows
      ensures failed == bad && again == AfterMark(old(again), s != Done, s == Raised)
      ensures |rows| == |old(rows)| && forall j :: 0 <= j < |rows| && j != Last(todo) ==> rows[j] == old(rows)[j]
      ensures s == Done ==>
                rows[Last(todo)] == Row(old(rows)[Last(todo)].action, if bad then RollbackFailed else RolledBack)
      ensures s == Done ==> leak == if old(leak) == Some(Last(todo)) then None else old(leak)
      ensures s != Done ==> rows == old(rows) && leak == old(leak)
      ensures journalFault == (old(journalFault) || s == Raised) && Noted(old(journalFault))
      ensures Accessed(s)
    {
      var i := Last(todo);
      failed := bad;
      s := RecordAction(i, rows[i].action, if bad then RollbackFailed else RolledBack);
      again := AfterMark(again, s != Done, s == Raised);
    }

    method MarkAction(ghost plan: seq<Action<W>>, ghost w0: W, todo: seq<nat>, bad: bool, ghost a: Scene<W>)
      returns (s: Status, failed: bool)
      requires since <= tick
      requires todo != [] && a.Underway(plan, w0, todo) && a.rows == rows && a.again == again
      requires Now().Cleared(plan, w0, todo)
      requires if bad then journalFault || stuck else Last(todo) !in effect
      modifies this`tick, this`trouble, this`leak, this`again, this`journalFault, this`rows
      ensures world == old(world) && effect == old(effect) && stuck == old(stuck)
      ensures s != Raised && (failed ==> journalFault || stuck) && (s == Done && bad ==> failed)
      ensures |rows| == |old(rows)| && KeptAt(old(rows), rows, Last(todo))
      ensures forall i :: 0 <= i < |rows| && i != Last(todo) ==> rows[i] == old(rows)[i]
      ensures s == Done ==> Now().Underway(plan, w0, Front(todo))
      ensures s == Done && !failed ==> rows[Last(todo)].state == RolledBack
      ensures Now().OnCourse(plan, w0)
      ensures AgainFrom(old(again), s)
      ensures Journalled(since) ==> rows[Last(todo)].state == if bad then RollbackFailed else RolledBack
      ensures leak.Some? ==> leak == old(leak)
      ensures Noted(old(journalFault))
      ensures Clean(old(journalFault), s, failed)
      ensures Carried(s, failed && !bad) && (Journalled(since) ==> s == Done && failed == bad)
      ensures s == Done ==> journalFault || IsMark(rows[Last(todo)].state)
    {
      ghost var b := Now();
      s, failed := MarkRow(todo, bad);
      Marking(a, b, Now(), plan, w0, todo, s != Done, s == Raised);
      if s == Raised { s, failed := Done, true; }
    }

    /** What undoing these actions, as far as it got, has made of a scene. */
    ghost predicate Went(a: Scene<W>, plan: seq<Action<W>>, todo: seq<nat>, s: Status, failed: bool)
      reads this`rows, this`world, this`leak, this`stuck, this`again, this`effect, this`journalFault, this`since
    {
      && Marked(a.rows, rows) && OnlyAt(a.rows, rows, todo)
      && (leak.Some? ==> leak == a.leak) && (a.stuck ==> stuck) && AgainFrom(a.again, s)
      && (s == Done ==> journalFault || SayMarked(rows, todo))
      && (s == Done && !failed ==> Unwound(a, Now(), plan, todo, 0) && SayUndone(rows, todo))
      && (Undoes(since, Go) ==> SayUndone(rows, todo))
      && (Undoes(since, Reject) ==> SayRefused(rows, todo) && world == a.world && effect == a.effect)
    }

    /** How far a rollback has come whose last actions, from n on, have been undone. */
    ghost predicate Halfway(plan: seq<Action<W>>, w0: W, todo: seq<nat>, n: nat, a: Scene<W>, failed: bool)
      reads this`rows, this`world, this`leak, this`stuck, this`again, this`effect, this`journalFault, this`since
      requires n <= |todo|
    {
      && Now().Underway(plan, w0, todo[..n])
      && Marked(a.rows, rows) && OnlyAt(a.rows, rows, todo)
      && (leak.Some? ==> leak == a.leak) && (a.stuck ==> stuck) && AgainFrom(a.again, Done)
      && (journalFault || SayMarked(rows, todo[n..]))
      && (if failed then journalFault || stuck else Unwound(a, Now(), plan, todo, n) && SayUndone(rows, todo[n..]))
      && (Undoes(since, Reject) ==> SayRefused(rows, todo[n..]) && world == a.world && effect == a.effect)
    }

    /** How undoing these actions has gone when n are left, or what stopped it. */
    ghost predicate Reached(plan: seq<Action<W>>, w0: W, todo: seq<nat>, n: nat, a: Scene<W>, was: bool, s: Status,
                            failed: bool)
      reads this`rows, this`world, this`leak, this`stuck, this`again, this`effect, this`journalFault, this`since,
            this`tick
      requires n <= |todo|
    {
      && s != Raised && (failed ==> journalFault || stuck) && Now().OnCourse(plan, w0)
      && (if s == Done then Halfway(plan, w0, todo, n, a, failed) else Went(a, plan, todo, s, failed))
      && Noted(was) && Carried(s, failed) && Clean(was, s, failed)
    }

    method UndoOne(ghost plan: seq<Action<W>>, ghost w0: W, todo: seq<nat>, n: nat, ghost a: Scene<W>, ghost was: bool,
                   bad: bool)
      returns (s: Status, failed: bool)
      requires 0 < n <= |todo| && Increasing(todo) && Reached(plan, w0, todo, n, a, was, Done, bad)
      modifies this`tick, this`trouble, this`world, this`effect, this`leak, this`stuck, this`again, this`journalFault,
               this`rows
      ensures Reached(plan, w0, todo, n - 1, a, was, s, failed)
    {
      s, failed := UndoNext(plan, w0, todo, n, a, bad);
    }

    method UndoNext(ghost plan: seq<Action<W>>, ghost w0: W, todo: seq<nat>, n: nat, ghost a: Scene<W>, bad: bool)
      returns (s: Status, failed: bool)
      requires since <= tick
      requires 0 < n <= |todo| && Increasing(todo) && Halfway(plan, w0, todo, n, a, bad)
      modifies this`tick, this`trouble, this`world, this`effect, this`leak, this`stuck, this`again, this`journalFault,
               this`rows
      ensures s != Raised && (bad ==> failed) && (failed ==> journalFault || stuck)
      ensures Now().OnCourse(plan, w0)
      ensures if s == Done then Halfway(plan, w0, todo, n - 1, a, failed) else Went(a, plan, todo, s, failed)
      ensures Clean(old(journalFault), s, failed)
      ensures Noted(old(journalFault)) && Carried(s, failed && !bad)
    {
      ghost var b := Now();
      assert Front(todo[..n]) == todo[..n - 1];
      s, failed := UndoAction(plan, w0, todo[..n]);
      StillUndoing(a.rows, b.rows, rows, todo, n);
      failed := failed || bad;
      if s == Done && !failed { UnwoundThen(a, b, Now(), plan, todo, n); }
    }

    lemma {:induction false} NoneUndone(plan: seq<Action<W>>, w0: W, todo: seq<nat>)
      requires since <= tick && Now().Underway(plan, w0, todo)
      ensures Reached(plan, w0, todo, |todo|, Now(), journalFault, Done, false) && Increasing(todo)
    {
      assert todo[..|todo|] == todo && todo[|todo|..] == [];
    }

    lemma {:induction false} AllUndone(plan: seq<Action<W>>, w0: W, todo: seq<nat>, a: Scene<W>, was: bool,
                                       failed: bool)
      requires Reached(plan, w0, todo, 0, a, was, Done, failed)
      ensures Went(a, plan, todo, Done, failed) && Now().OnCourse(plan, w0) && Now().Down(plan, w0)
    {
      UndoneByThen(Now(), plan, w0, todo);
    }

    method UndoAll(ghost a: Scene<W>, ghost plan: seq<Action<W>>, ghost w0: W, todo: seq<nat>)
      returns (s: Status, failed: bool)
      requires since <= tick && a == Now()
      requires a.Underway(plan, w0, todo)
      modifies this`tick, this`trouble, this`world, this`effect, this`leak, this`stuck, this`again, this`journalFault,
               this`rows
      ensures s != Raised && (failed ==> journalFault || stuck)
      ensures Now().OnCourse(plan, w0) && (s == Done ==> Now().Down(plan, w0))
      ensures Went(a, plan, todo, s, failed)
      ensures Clean(old(journalFault), s, failed)
      ensures Noted(old(journalFault)) && Carried(s, failed)
    {
      ghost var was := journalFault;
      s, failed := Done, false;
      var n := |todo|;
      NoneUndone(plan, w0, todo);
      while n > 0 && s == Done
        invariant 0 <= n <= |todo| && Reached(plan, w0, todo, n, a, was, s, failed)
        decreases n
      {
        s, failed := UndoOne(plan, w0, todo, n, a, was, failed);
        n := n - 1;
      }
      if s == Done { AllUndone(plan, w0, todo, a, was, failed); }
    }

    method RestoreDeclaration(before: Option<Bytes>) returns (s: Status, failed: bool)
      requires since <= tick
      modifies this`tick, this`trouble, this`declaration, this`restored, this`stuck, this`journalFault
      ensures s != Raised && (failed ==> journalFault || stuck)
      ensures declaration == before || declaration == old(declaration)
      ensures s == Done && !failed ==> declaration == before && stuck == old(stuck)
      ensures (old(stuck) ==> stuck) && Noted(old(journalFault))
      ensures restored == (old(restored) || (s == Done && !failed))
      ensures Clean(old(journalFault), s, failed)
      ensures Returned(s, failed)
      ensures Cut(since) ==> s == Gone && declaration == old(declaration)
    {
      failed := false;
      s := WriteDeclaration(before, Restoring);
      if s == Raised { stuck := true; }
      if s == Done {
        s := Access(Accessing);
        if s == Done { restored := true; }
      }
      if s == Raised { s, failed := Done, true; }
    }

    /** Undo these actions; what changes in their rows leaves the declaration safe. */
    method UndoListed(ghost a: Scene<W>, ghost plan: seq<Action<W>>, ghost w0: W, ghost origin: Option<Bytes>,
                      todo: seq<nat>)
      returns (s: Status, failed: bool)
      requires since <= tick && a == Now()
      requires a.Underway(plan, w0, todo) && DeclarationSafe(plan, origin)
      modifies this`tick, this`trouble, this`world, this`effect, this`leak, this`stuck, this`again, this`journalFault,
               this`rows
      ensures Now().OnCourse(plan, w0) && DeclarationSafe(plan, origin)
      ensures s != Raised && (failed ==> journalFault || stuck)
      ensures s == Done ==> Now().Down(plan, w0)
      ensures Went(a, plan, todo, s, failed)
      ensures Clean(old(journalFault), s, failed)
      ensures Noted(old(journalFault)) && Carried(s, failed)
    {
      s, failed := UndoAll(a, plan, w0, todo);
      if declaration != origin { MarkedOn(declaredRows, old(rows), rows); }
    }

    method RestoreListed(ghost plan: seq<Action<W>>, ghost w0: W, before: Option<Bytes>)
      returns (s: Status, failed: bool)
      requires since <= tick
      requires Now().OnCourse(plan, w0) && DeclarationSafe(plan, before) && Now().Down(plan, w0)
      modifies this`tick, this`trouble, this`declaration, this`restored, this`stuck, this`journalFault
      ensures Now().OnCourse(plan, w0) && DeclarationSafe(plan, before) && Now().Down(plan, w0)
      ensures s != Raised && (failed ==> journalFault || stuck)
      ensures s == Done && !failed ==> declaration == before && stuck == old(stuck)
      ensures (old(stuck) ==> stuck) && Noted(old(journalFault))
      ensures restored == (old(restored) || (s == Done && !failed))
      ensures Clean(old(journalFault), s, failed)
      ensures Returned(s, failed)
      ensures Cut(since) ==> s == Gone && declaration == old(declaration)
    {
      s, failed := RestoreDeclaration(before);
    }

    method UndoAndRestore(ghost a: Scene<W>, ghost plan: seq<Action<W>>, ghost w0: W, ghost origin: Option<Bytes>,
                          todo: seq<nat>, before: Option<Bytes>, restore: bool)
      returns (s: Status, failed: bool)
      requires since <= tick && a == Now()
      requires a.Underway(plan, w0, todo) && DeclarationSafe(plan, origin)
      requires if restore then before == origin else declaration == origin
      modifies this`tick, this`trouble, this`world, this`effect, this`leak, this`stuck, this`again, this`journalFault,
               this`rows,
               this`declaration, this`restored
      ensures Now().OnCourse(plan, w0) && DeclarationSafe(plan, origin)
      ensures s != Raised && (failed ==> journalFault || stuck)
      ensures s == Done && !failed ==> Undone(plan, w0, origin)
      ensures Went(a, plan, todo, s, failed)
      ensures Noted(old(journalFault)) && Returned(s, failed)
      ensures Flagged(old(restored), s, failed, restore)
      ensures Clean(old(journalFault), s, failed)
      ensures Foiled(restore) ==> s == Gone && declaration == old(declaration)
    {
      s, failed := UndoListed(a, plan, w0, origin, todo);
      if s == Done && restore {
        var bad;
        s, bad := RestoreListed(plan, w0, before);
        failed := failed || bad;
      }
    }

    /** The saved declaration is only marked restored when it was to be put back, and is when that has worked. */
    ghost predicate Flagged(was: bool, s: Status, failed: bool, restore: bool)
      reads this`restored
    {
      (was ==> restored) && (restored ==> was || restore) && (restore && s == Done && !failed ==> restored)
    }

    /** The undoing is answered, and the process lost before the declaration is put back. */
    ghost predicate Foiled(restore: bool)
      reads this`since
    {
      restore && Cut(since) && (Undoes(since, Go) || Undoes(since, Reject))
    }

    /** Wherever the undoing stops, the transaction is sound. */
    method UndoSoundly(ghost a: Scene<W>, ghost plan: seq<Action<W>>, ghost w0: W, ghost origin: Option<Bytes>,
                       todo: seq<nat>, before: Option<Bytes>, restore: bool, bad: bool)
      returns (s: Status, failed: bool)
      requires since <= tick && a == Now()
      requires state.Some? && !Terminal(state.value) && (again == AnyOf ==> faulted || journalFault)
      requires bad ==> journalFault
      requires a.Underway(plan, w0, todo) && DeclarationSafe(plan, origin)
      requires if restore then before == origin else declaration == origin
      modifies this`tick, this`trouble, this`world, this`effect, this`leak, this`stuck, this`again, this`journalFault,
               this`rows,
               this`declaration, this`restored
      ensures Sound(plan, w0, origin) && state == old(state) && refused == old(refused)
      ensures s != Raised && (bad ==> failed) && (failed ==> journalFault || stuck)
      ensures s == Done && !failed ==> Undone(plan, w0, origin)
      ensures Went(a, plan, todo, s, failed)
      ensures Noted(old(journalFault)) && Returned(s, failed && !bad)
      ensures Flagged(old(restored), s, failed, restore)
      ensures Clean(old(journalFault), s, failed)
      ensures Foiled(restore) ==> s == Gone && declaration == old(declaration)
    {
      s, failed := UndoAndRestore(a, plan, w0, origin, todo, before, restore);
      failed := failed || bad;
    }

    /** The final state of a rolled-back transaction. */
    method Close(ghost plan: seq<Action<W>>, ghost w0: W, ghost origin: Option<Bytes>, bad: bool)
      returns (s: Status, failed: bool)
      requires since <= tick
      requires Sound(plan, w0, origin) && !Terminal(state.value)
      requires !bad ==> state == Some(RollingBack) && Undone(plan, w0, origin)
      requires state != Some(RollingBack) ==> journalFault
      modifies this`tick, this`trouble, this`journalFault, this`state, this`refused
      ensures Sound(plan, w0, origin) && state != Some(Succeeded)
      ensures s != Raised && (s == Done && failed ==> journalFault || bad)
      ensures s == Done && !failed ==> state == Some(TxRolledBack)
      ensures s == Done && failed && !journalFault ==> state == Some(TxRollbackFailed)
      ensures state == Some(TxRolledBack) ==> !bad
      ensures RollsBack(state.value) || journalFault
      ensures refused == old(refused) || journalFault
      ensures Clean(old(journalFault), s, failed)
      ensures Noted(old(journalFault))
      ensures since <= tick && (Unbroken(since) || Journalled(since) ==> s == Done)
      ensures Journalled(since) && old(state).value == RollingBack ==> s == Done && (failed <==> bad)
    {
      failed := bad;
      s := SetState(if failed then TxRollbackFailed else TxRolledBack);
      if s == Raised { s, failed := Done, true; }
    }

    lemma {:induction false} NotBegun(plan: seq<Action<W>>, todo: seq<nat>, s: Status, failed: bool)
      requires s != Done && !Journalled(since)
      ensures Went(Now(), plan, todo, s, failed)
    {}

    /** The final state, if all that was to be undone has had its turn. */
    method CloseUndone(ghost a: Scene<W>, ghost plan: seq<Action<W>>, ghost w0: W, ghost origin: Option<Bytes>,
                       ghost todo: seq<nat>, reached: Status, bad: bool)
      returns (s: Status, failed: bool)
      requires since <= tick && reached != Raised && (bad ==> journalFault || stuck)
      requires Sound(plan, w0, origin) && !Terminal(state.value) && Went(a, plan, todo, reached, bad)
      requires reached == Done && !bad ==> state == Some(RollingBack) && Undone(plan, w0, origin)
      requires state != Some(RollingBack) ==> journalFault
      modifies this`tick, this`trouble, this`journalFault, this`state, this`refused
      ensures Sound(plan, w0, origin) && state != Some(Succeeded) && Went(a, plan, todo, s, failed)
      ensures s != Raised && (s == Done && failed ==> journalFault || stuck)
      ensures s == Done && !failed ==> state == Some(TxRolledBack)
      ensures s == Done && failed && !journalFault ==> state == Some(TxRollbackFailed)
      ensures state == Some(TxRolledBack) ==> reached == Done && !bad
      ensures RollsBack(state.value) || journalFault
      ensures refused == old(refused) || journalFault
      ensures Clean(old(journalFault), s, failed)
      ensures Noted(old(journalFault)) && since <= tick
      ensures reached == Done && (Unbroken(since) || Journalled(since)) ==> s == Done
      ensures Journalled(since) && old(state) == Some(RollingBack) ==> failed == bad
      ensures reached != Done ==> s == reached && state == old(state)
    {
      s, failed := reached, bad;
      if s == Done { s, failed := Close(plan, w0, origin, bad); }
    }

    /** The part of a rollback that follows the change of state, successful or not. */
    method UndoAndClose(ghost a: Scene<W>, ghost plan: seq<Action<W>>, ghost w0: W, ghost origin: Option<Bytes>,
                        todo: seq<nat>, before: Option<Bytes>, restore: bool, bad: bool)
      returns (s: Status, failed: bool)
      requires since <= tick && a == Now()
      requires state.Some? && !Terminal(state.value) && (again == AnyOf ==> faulted || journalFault)
      requires a.Underway(plan, w0, todo) && DeclarationSafe(plan, origin)
      requires if restore then before == origin else declaration == origin
      requires if bad then journalFault else state == Some(RollingBack)
      modifies this`tick, this`trouble, this`world, this`effect, this`leak, this`stuck, this`again, this`journalFault,
               this`rows,
               this`declaration, this`restored, this`state, this`refused
      ensures Sound(plan, w0, origin) && state != Some(Succeeded)
      ensures s != Raised && (s == Done && failed ==> journalFault || stuck)
      ensures s == Done && !failed ==> state == Some(TxRolledBack)
      ensures s == Done && failed && !journalFault ==> state == Some(TxRollbackFailed)
      ensures state == Some(TxRolledBack) ==> SayUndone(rows, todo)
      ensures Went(a, plan, todo, s, failed)
      ensures refused == old(refused) || journalFault
      ensures RollsBack(state.value) || journalFault
      ensures Noted(old(journalFault)) && Returned(s, failed && !bad)
      ensures Flagged(old(restored), s, failed, restore)
      ensures Clean(old(journalFault), s, failed)
      ensures s == Done && bad ==> failed
      ensures Foiled(restore) ==> s == Gone && state == old(state) && declaration == old(declaration)
    {
      var reached, worse := UndoSoundly(a, plan, w0, origin, todo, before, restore, bad);
      s, failed := CloseUndone(a, plan, w0, origin, todo, reached, worse);
    }

    method EnterRollback(ghost plan: seq<Action<W>>, ghost w0: W, ghost origin: Option<Bytes>, ghost todo: seq<nat>)
      returns (s: Status)
      requires since <= tick
      requires Sound(plan, w0, origin) && !Terminal(state.value) && Now().Underway(plan, w0, todo)
      modifies this`tick, this`trouble, this`journalFault, this`state, this`refused
      ensures Sound(plan, w0, origin) && !Terminal(state.value) && Now().Underway(plan, w0, todo)
      ensures Now() == old(Now()) && declaration == old(declaration)
      ensures s == Done ==> state == Some(RollingBack)
      ensures s == Raised ==> journalFault
      ensures refused == old(refused) && Noted(old(journalFault))
      ensures Clean(old(journalFault), s, false)
      ensures Accessed(s)
    {
      s := TransitionToRollback();
    }

    /**
     * Undo these actions, last one first, put the declaration back if asked to, and close
     * the transaction. Failures are noted and the rest is still done.
     */
    method Rollback(ghost plan: seq<Action<W>>, ghost w0: W, ghost origin: Option<Bytes>,
                    todo: seq<nat>, before: Option<Bytes>, restore: bool)
      returns (s: Status, failed: bool)
      requires since <= tick
      requires Sound(plan, w0, origin) && !Terminal(state.value)
      requires if restore then before == origin else declaration == origin
      requires Now().Underway(plan, w0, todo)
      modifies this`tick, this`trouble, this`world, this`effect, this`leak, this`stuck, this`again, this`journalFault,
               this`rows,
               this`declaration, this`restored, this`state, this`refused
      ensures Sound(plan, w0, origin) && state != Some(Succeeded)
      ensures s != Raised && (s == Done && failed ==> journalFault || stuck)
      ensures s == Done && !failed ==> state == Some(TxRolledBack)
      ensures s == Done && failed && !journalFault ==> state == Some(TxRollbackFailed)
      ensures state == Some(TxRolledBack) ==> SayUndone(rows, todo)
      ensures Went(old(Now()), plan, todo, s, failed)
      ensures refused == old(refused) || journalFault
      ensures RollsBack(state.value) || journalFault || (rows == old(rows) && declaration == old(declaration))
      ensures Noted(old(journalFault)) && Returned(s, failed)
      ensures Flagged(old(restored), s, failed, restore)
      ensures Clean(old(journalFault), s, failed)
      ensures Foiled(restore) ==>
                s == Gone && state == Some(RollingBack) && declaration == old(declaration)
    {
      ghost var a := Now();
      s := EnterRollback(plan, w0, origin, todo);
      failed := s == Raised;
      if s == Done || s == Raised {
        s, failed := UndoAndClose(a, plan, w0, origin, todo, before, restore, failed);
      } else {
        NotBegun(plan, todo, s, failed);
      }
    }

    // ---- Whole calls -----------------------------------------------------------------

    method Plan()
      modifies this`state, this`rows, this`backupRow, this`backupFile, this`restored,
               this`leak, this`stuck, this`again, this`effect, this`journalFault, this`faulted, this`passed
      ensures state == Some(Planned) && rows == [] && backupRow.None? && leak.None? && !stuck && again == Never
      ensures effect == {} && !journalFault && !faulted && passed == {} && !restored
    {
      state, rows, backupRow, backupFile, restored := Some(Planned), [], None, None, false;
      leak, stuck, again, effect, journalFault, faulted := None, false, Never, {}, false, false;
      passed := {};
    }

    /** A fresh transaction in the journal. */
    method BeginTransaction() returns (s: Status)
      requires since <= tick
      modifies this`tick, this`trouble, this`state, this`rows, this`backupRow, this`backupFile, this`restored,
               this`leak, this`stuck, this`again, this`effect, this`journalFault, this`faulted, this`passed
      ensures world == old(world) && declaration == old(declaration) && refused == old(refused)
      ensures s == Done ==> trouble == old(trouble)
      ensures s == Done ==>
        && state == Some(Planned) && rows == [] && backupRow.None? && leak.None? && !stuck && again == Never
        && effect == {} && !journalFault && !faulted && passed == {} && !restored
      ensures s != Done ==>
        state == old(state) && rows == old(rows) && backupRow == old(backupRow) && backupFile == old(backupFile)
      ensures Accessed(s)
    {
      s := Access(Accessing);
      if s == Done { Plan(); }
    }

    /** The call returned a failure, and nothing of it is left. */
    ghost predicate NoOp(plan: seq<Action<W>>, w0: W, before: Option<Bytes>)
      reads this`state, this`declaration, this`leak, this`world
    {
      state == Some(TxRolledBack) && declaration == before && leak.None?
      && (AllInvert(plan, w0) ==> world == w0)
    }

    /** An exception was raised: roll back what is known to have run. */
    method RollBackApply(ghost plan: seq<Action<W>>, ghost w0: W, before: Option<Bytes>, completed: seq<nat>,
                         written: bool)
      returns (o: Outcome)
      requires since <= tick
      requires Stands(plan, w0, before, completed, written) && !Terminal(state.value)
      requires leak.Some? ==> journalFault
      modifies this`tick, this`trouble, this`world, this`effect, this`leak, this`stuck, this`again, this`journalFault,
               this`rows, this`declaration, this`restored, this`state, this`refused
      ensures since <= tick
      ensures Sound(plan, w0, before) && state != Some(Succeeded)
      ensures (o.Finished? || o.Escaped?) && (Unbroken(since) ==> o.Finished?)
      ensures Restores(since) ==> o == Finished(TxRolledBack)
      ensures o.Finished? && !journalFault && !stuck ==> o == Finished(TxRolledBack) && NoOp(plan, w0, before)
      ensures o.Finished? ==> o.state == TxRolledBack || o.state == TxRollbackFailed
      ensures o == Finished(TxRolledBack) ==> state == Some(TxRolledBack)
      ensures refused ==> journalFault
      ensures o == Finished(TxRolledBack) ==> Unwound(old(Now()), Now(), plan, completed, 0)
      ensures o == Finished(TxRolledBack) ==> journalFault == old(journalFault)
      ensures Noted(old(journalFault))
      ensures Spoilt(since, Go) && written ==>
                state == Some(RollingBack) && declaration == old(declaration) && SayUndone(rows, completed)
      ensures Spoilt(since, Reject) && written ==>
                state == Some(RollingBack) && declaration == old(declaration)
                && SayRefused(rows, completed) && world == old(world)
      ensures Restores(since) && old(leak).Some? && completed == [] ==> leak.Some?
    {
      ghost var a := Now();
      CompletedUnderway(a, plan, w0, completed);
      var s, failed := Rollback(plan, w0, before, completed, before, written);
      if s == Done && !failed && a.leak.Some? && completed == [] { StillLeaked(a, Now(), plan, completed); }
      o := if s != Done then Escaped else Finished(if failed then TxRollbackFailed else TxRolledBack);
    }

    /** What stands is sound. */
    lemma {:induction false} KeepsSound(plan: seq<Action<W>>, w0: W, before: Option<Bytes>, completed: seq<nat>,
                                        written: bool)
      requires Stands(plan, w0, before, completed, written) && state != Some(TxRolledBack)
      ensures Sound(plan, w0, before)
    {
      CompletedUnderway(Now(), plan, w0, completed);
    }

    /** An interruption: note it, and let it propagate. */
    method NoteInterruption(ghost plan: seq<Action<W>>, ghost w0: W, ghost before: Option<Bytes>)
      requires since <= tick
      requires Sound(plan, w0, before) && GoesForward(state.value) && !refused
      modifies this`tick, this`trouble, this`journalFault, this`state, this`refused
      ensures Journalled(since) ==> state == Some(Interrupted)
      ensures since <= tick
      ensures Sound(plan, w0, before) && !Terminal(state.value) && !refused && Noted(old(journalFault))
    {
      var s := MoveTo(Interrupted);
    }

    /** The body has ended without an exception: it is done, or the process is lost or interrupted. */
    method Leave(ghost plan: seq<Action<W>>, ghost w0: W, ghost before: Option<Bytes>,
                 ghost completed: seq<nat>, ghost written: bool, s: Status)
      returns (o: Outcome)
      requires since <= tick
      requires Stands(plan, w0, before, completed, written) && s != Raised
      requires if s == Done then state == Some(Succeeded) else GoesForward(state.value)
      modifies this`tick, this`trouble, this`journalFault, this`state, this`refused
      ensures since <= tick && (s == Done ==> trouble == old(trouble))
      ensures s == Stopped && Journalled(since) ==> state == Some(Interrupted)
      ensures Sound(plan, w0, before) && !refused && Noted(old(journalFault))
      ensures if s == Done then o == Finished(Succeeded) && state == old(state)
              else o == Escaped && !Terminal(state.value)
    {
      KeepsSound(plan, w0, before, completed, written);
      if s == Stopped { NoteInterruption(plan, w0, before); }
      o := if s == Done then Finished(Succeeded) else Escaped;
    }

    /** However the body has ended: what becomes of the transaction. */
    method EndBody(plan: seq<Action<W>>, ghost catalog: Catalog, before: Option<Bytes>, ghost dryRun: bool, ghost w0: W,
                   s: Status, completed: seq<nat>, written: bool)
      returns (o: Outcome)
      requires since <= tick
      requires Stands(plan, w0, before, completed, written)
      requires if s == Done then Succeeds(plan, catalog, before, dryRun, w0) else GoesForward(state.value)
      requires s == Raised && leak.Some? ==> journalFault
      modifies this`tick, this`trouble, this`world, this`effect, this`leak, this`stuck, this`again, this`journalFault,
               this`rows, this`declaration, this`restored, this`state, this`refused
      ensures since <= tick
      ensures Sound(plan, w0, before)
      ensures if s == Done
              then o == Finished(Succeeded) && Succeeds(plan, catalog, before, dryRun, w0) && trouble == old(trouble)
              else o != Finished(Succeeded) && state != Some(Succeeded)
      ensures (o.Finished? || o.Escaped?) && (Unbroken(since) && (s == Done || s == Raised) ==> o.Finished?)
      ensures Restores(since) && s == Raised ==> o == Finished(TxRolledBack) && stuck == old(stuck)
      ensures o == Finished(TxRolledBack) ==> state == Some(TxRolledBack)
      ensures o.Finished? && s != Done && !journalFault && !stuck ==>
                o == Finished(TxRolledBack) && NoOp(plan, w0, before)
      ensures s == Stopped && Journalled(since) ==> state == Some(Interrupted)
      ensures refused ==> journalFault
      ensures Noted(old(journalFault))
      ensures Spoilt(since, Go) && written && s == Raised ==>
                state == Some(RollingBack) && declaration == old(declaration) && SayUndone(rows, completed)
      ensures Spoilt(since, Reject) && written && s == Raised ==>
                state == Some(RollingBack) && declaration == old(declaration)
                && SayRefused(rows, completed) && world == old(world)
      ensures Restores(since) && s == Raised && old(leak).Some? && completed == [] ==> leak.Some?
    {
      if s == Raised {
        o := RollBackApply(plan, w0, before, completed, written);
      } else {
        o := Leave(plan, w0, before, completed, written, s);
      }
    }

    /** The transaction proper, once begun. */
    method Transact(plan: seq<Action<W>>, catalog: Catalog, before: Option<Bytes>, dryRun: bool, ghost w0: W)
      returns (o: Outcome)
      requires since <= tick && !trouble
      requires state == Some(Planned) && rows == [] && backupRow.None? && leak.None? && again == Never
      requires !refused && !journalFault && !stuck
      requires world == w0 && effect == {} && declaration == before
      modifies this`tick, this`trouble, this`passed, this`state, this`world, this`effect, this`rows, this`leak,
               this`stuck, this`again, this`journalFault, this`faulted, this`refused, this`declaration,
               this`declaredRows, this`backupRow, this`backupFile, this`restored
      ensures since <= tick
      ensures Sound(plan, w0, before)
      ensures (o.Finished? || o.Escaped?) && (Unbroken(since) ==> o.Finished?)
      ensures o == Finished(Succeeded) ==> !trouble
      ensures Verifies(Reject, since) && Checks(plan) && !dryRun ==> o != Finished(Succeeded)
      ensures Backed(since) ==> o == Finished(Succeeded) || (o == Finished(TxRolledBack) && NoOp(plan, w0, before))
      ensures o == Finished(Succeeded) <==> state == Some(Succeeded)
      ensures o == Finished(Succeeded) ==> Succeeds(plan, catalog, before, dryRun, w0)
      ensures o == Finished(TxRolledBack) ==> state == Some(TxRolledBack)
      ensures o.Finished? && o.state != Succeeded && !journalFault && !stuck ==>
                o == Finished(TxRolledBack) && NoOp(plan, w0, before)
      ensures refused ==> journalFault
      ensures Fine(since) && Admits(plan, catalog, before) ==> o == Finished(Succeeded)
      ensures Spoilt(since, Go) && Admits(plan, catalog, before) && !dryRun ==>
                && state == Some(RollingBack) && NewlyDeclared(plan, catalog, before)
                && SayUndone(rows, Stepped(plan, |plan|))
      ensures Spoilt(since, Reject) && Admits(plan, catalog, before) && !dryRun ==>
                state == Some(RollingBack) && NewlyDeclared(plan, catalog, before)
                && SayRefused(rows, Stepped(plan, |plan|)) && world == World(plan, w0, |plan|)
      ensures Unrecorded(since) && Admits(plan, catalog, before) && !dryRun && Stepped(plan, |plan|) != [] ==>
                o == Finished(TxRolledBack) && leak.Some? && !stuck
    {
      if Backed(since) { BackedIsFaultless(since); }
      var s, completed, written := Body(plan, catalog, before, dryRun, w0);
      o := EndBody(plan, catalog, before, dryRun, w0, s, completed, written);
    }

    /**
     * Apply a plan. Unless nothing was begun, whatever happens leaves the transaction
     * sound. The call returns unless it is interrupted or the process lost. A call that
     * returns a failure has undone everything, and put the declaration back, unless a
     * journal access raised or a rollback command failed; so whatever else fails, however
     * often, it succeeds or leaves nothing behind.
     */
    method Apply(plan: seq<Action<W>>, catalog: Catalog, dryRun: bool) returns (o: Outcome, begun: bool)
      modifies this
      ensures !begun ==> (o.Refused? || o.Escaped?) && world == old(world) && declaration == old(declaration)
                         && state == old(state) && rows == old(rows)
      ensures begun ==> Sound(plan, old(world), old(declaration))
      ensures begun ==> (o == Finished(Succeeded) <==> state == Some(Succeeded))
      ensures o == Finished(Succeeded) ==> Succeeds(plan, catalog, old(declaration), dryRun, old(world))
      ensures o == Finished(TxRolledBack) ==> state == Some(TxRolledBack)
      ensures o.Finished? && o.state != Succeeded && !journalFault && !stuck ==>
                o == Finished(TxRolledBack) && NoOp(plan, old(world), old(declaration))
      ensures refused ==> journalFault
      ensures o == Finished(Succeeded) ==> !trouble
      ensures Verifies(Reject, old(tick)) && Checks(plan) && !dryRun ==> o != Finished(Succeeded)
      ensures Unbroken(old(tick)) ==> o.Finished? || o.Refused?
      ensures Backed(old(tick)) && Readable(old(declaration)) ==> !o.Refused?
      ensures Backed(old(tick)) ==>
                || o.Refused? || o == Finished(Succeeded)
                || (o == Finished(TxRolledBack) && NoOp(plan, old(world), old(declaration)))
      ensures Fine(old(tick)) && Admits(plan, catalog, old(declaration)) && Readable(old(declaration)) ==>
                o == Finished(Succeeded)
      ensures Spoilt(old(tick), Go) && Admits(plan, catalog, old(declaration)) && Readable(old(declaration))
              && !dryRun ==>
                begun && state == Some(RollingBack) && NewlyDeclared(plan, catalog, old(declaration))
                && SayUndone(rows, Stepped(plan, |plan|))
      ensures Spoilt(old(tick), Reject) && Admits(plan, catalog, old(declaration)) && Readable(old(declaration))
              && !dryRun ==>
                begun && state == Some(RollingBack) && NewlyDeclared(plan, catalog, old(declaration))
                && SayRefused(rows, Stepped(plan, |plan|)) && world == World(plan, old(world), |plan|)
      ensures Unrecorded(old(tick)) && Admits(plan, catalog, old(declaration)) && Readable(old(declaration))
              && !dryRun && Stepped(plan, |plan|) != [] ==>
                begun && !stuck && o == Finished(TxRolledBack) && leak.Some?
    {
      o, begun, refused, journalFault, since := Refused, false, false, false, tick;
      trouble := false;
      var before := declaration;
      if Readable(before) {
        var s := BeginTransaction();
        if s == Done {
          o := Transact(plan, catalog, before, dryRun, world);
          begun := true;
        } else if s != Raised {
          o := Escaped;
        }
      }
    }

    /** The saved declaration, checked against its recorded digest. */
    method BackupBytes() returns (s: Status, content: Option<Bytes>)
      requires since <= tick
      modifies this`tick, this`trouble
      ensures s == Done ==> content == if backupRow.Some? then backupRow.value else None
      ensures Smooth(since) && (backupRow.Some? && backupRow.value.Some? ==> backupFile == backupRow.value) ==>
                s == Done
      ensures since <= tick
    {
      content := None;
      s := Checkpoint(Ordinary);
      if s == Done && backupRow.Some? && backupRow.value.Some? {
        if backupFile != backupRow.value { return Raised, None; }
        content := backupFile;
      }
    }

    /** A new call looks the transaction up. */
    method LookUp(ghost plan: seq<Action<W>>, ghost w0: W, ghost before: Option<Bytes>) returns (s: Status)
      requires since <= tick
      requires Sound(plan, w0, before)
      modifies this`tick, this`trouble, this`journalFault, this`faulted, this`refused
      ensures Sound(plan, w0, before) && !refused && state == old(state) && Now() == old(Now())
      ensures declaration == old(declaration) && backupRow == old(backupRow)
      ensures Accessed(s)
    {
      NoteFaults(plan, w0, before);
      s := Access(Accessing);
    }

    /** What an earlier call met counts as met since the transaction began. */
    ghost method NoteFaults(plan: seq<Action<W>>, w0: W, before: Option<Bytes>)
      requires Sound(plan, w0, before)
      modifies this`journalFault, this`faulted, this`refused
      ensures Steady(plan, w0, before) && (again == AnyOf ==> faulted) && !refused
      ensures faulted == (old(faulted) || old(journalFault)) && !journalFault
    {
      faulted := faulted || journalFault;
      refused, journalFault := false, false;
    }

    /**
     * Recover a transaction that some earlier process left behind. A finished one is left
     * alone. Otherwise every action journalled mutated or verified is undone, last first,
     * and the declaration put back; and if the process is lost again, the transaction is
     * as sound as it was, so that another recovery can follow.
     */
    method Recover(ghost plan: seq<Action<W>>, ghost w0: W, ghost before: Option<Bytes>) returns (o: Outcome)
      requires Sound(plan, w0, before)
      modifies this
      ensures Sound(plan, w0, before)
      ensures Terminal(old(state).value) ==>
                && state == old(state) && world == old(world) && declaration == old(declaration)
                && rows == old(rows) && backupRow == old(backupRow) && passed == old(passed)
      ensures o.Finished? && Terminal(old(state).value) ==> o == Finished(old(state).value)
      ensures !Terminal(old(state).value) ==> state != Some(Succeeded) && Marked(old(rows), rows)
      ensures state == Some(TxRolledBack) && !Terminal(old(state).value) ==>
                SayUndone(rows, PendingRows(old(rows))) && Undone(plan, w0, before)
      ensures o.Finished? && !Terminal(old(state).value) && !journalFault && !stuck ==>
                state == Some(TxRolledBack) && o == Finished(TxRolledBack)
      ensures o == Finished(TxRolledBack) && !Terminal(old(state).value) ==> Recovered(old(Now()), plan)
      ensures refused ==> journalFault
      ensures leak.Some? ==> leak == old(leak)
      ensures old(stuck) ==> stuck
      ensures Fine(old(tick)) ==>
                o == Finished(if Terminal(old(state).value) then old(state).value else TxRolledBack)
    {
      since, trouble := tick, false;
      var s := LookUp(plan, w0, before);
      o := Escaped;
      if s == Done {
        if Terminal(state.value) {
          o := Finished(state.value);
        } else {
          o := RecoverOpen(plan, w0, before);
        }
      }
    }

    /**
     * A recovery reported as rolled back: it has run the rollback commands of the actions
     * that were journalled as mutated or verified, last one first, and no others. Nothing
     * but a leaked action stays in effect exactly when there was no action in effect whose
     * row said that undoing it had failed.
     */
    ghost predicate Recovered(was: Scene<W>, plan: seq<Action<W>>)
      reads this`rows, this`world, this`leak, this`stuck, this`again, this`effect
    {
      && |was.rows| <= |plan|
      && Unwound(was, Now(), plan, PendingRows(was.rows), 0) && OnlyAt(was.rows, rows, PendingRows(was.rows))
      && world == Unwind(plan, was.world, PendingRows(was.rows))
      && ((forall i :: i in effect ==> leak == Some(i)) <==> forall i :: i in was.effect ==> !FailedAt(was.rows, i))
    }

    method RecoverOpen(ghost plan: seq<Action<W>>, ghost w0: W, ghost before: Option<Bytes>) returns (o: Outcome)
      requires since <= tick
      requires Sound(plan, w0, before) && !Terminal(state.value) && !refused
      modifies this
      ensures since == old(since) <= tick
      ensures Sound(plan, w0, before)
      ensures state != Some(Succeeded) && Marked(old(rows), rows)
      ensures state == Some(TxRolledBack) ==> SayUndone(rows, PendingRows(old(rows)))
      ensures o.Finished? && !journalFault && !stuck ==> state == Some(TxRolledBack) && o == Finished(TxRolledBack)
      ensures o == Finished(TxRolledBack) ==> Recovered(old(Now()), plan)
      ensures refused ==> journalFault
      ensures leak.Some? ==> leak == old(leak)
      ensures old(stuck) ==> stuck
      ensures Fine(since) ==> o == Finished(TxRolledBack)
    {
      var s, content := BackupBytes();
      o := Escaped;
      if s == Done { o := RollBackRecovery(plan, w0, before, content); }
    }

    /** The note of the recovery. */
    method RecordRecovery(ghost plan: seq<Action<W>>, ghost w0: W, ghost before: Option<Bytes>) returns (s: Status)
      requires since <= tick
      requires Sound(plan, w0, before)
      modifies this`tick, this`trouble, this`journalFault
      ensures Sound(plan, w0, before) && state == old(state) && Now() == old(Now())
      ensures Noted(old(journalFault))
      ensures Accessed(s)
    {
      s := Access(Accessing);
    }

    /** Undo what the journal says is in effect. */
    method UndoPending(ghost plan: seq<Action<W>>, ghost w0: W, ghost before: Option<Bytes>, content: Option<Bytes>)
      returns (s: Status, failed: bool)
      requires since <= tick
      requires Sound(plan, w0, before) && !Terminal(state.value) && !refused
      requires content == if backupRow.Some? then backupRow.value else None
      modifies this
      ensures since == old(since) <= tick
      ensures Sound(plan, w0, before)
      ensures state != Some(Succeeded) && Marked(old(rows), rows)
      ensures state == Some(TxRolledBack) ==> SayUndone(rows, PendingRows(old(rows)))
      ensures s != Raised && (s == Done && failed ==> journalFault || stuck)
      ensures s == Done && !failed ==> state == Some(TxRolledBack) && Recovered(old(Now()), plan)
      ensures refused ==> journalFault
      ensures (leak.Some? ==> leak == old(leak)) && (old(stuck) ==> stuck)
      ensures Fine(since) ==> s == Done && !failed
    {
      ghost var a := Now();
      PendingUnderway(a, plan, w0);
      s, failed := Rollback(plan, w0, before, PendingRows(rows), content, backupRow.Some?);
      if s == Done && !failed { LeftInEffect(a, Now(), plan); }
    }

    method RollBackRecovery(ghost plan: seq<Action<W>>, ghost w0: W, ghost before: Option<Bytes>,
                            content: Option<Bytes>)
      returns (o: Outcome)
      requires since <= tick
      requires Sound(plan, w0, before) && !Terminal(state.value) && !refused
      requires content == if backupRow.Some? then backupRow.value else None
      modifies this
      ensures since == old(since) <= tick
      ensures Sound(plan, w0, before)
      ensures state != Some(Succeeded) && Marked(old(rows), rows)
      ensures state == Some(TxRolledBack) ==> SayUndone(rows, PendingRows(old(rows)))
      ensures o.Finished? && !journalFault && !stuck ==> state == Some(TxRolledBack) && o == Finished(TxRolledBack)
      ensures o == Finished(TxRolledBack) ==> Recovered(old(Now()), plan)
      ensures refused ==> journalFault
      ensures (leak.Some? ==> leak == old(leak)) && (old(stuck) ==> stuck)
      ensures Fine(since) ==> o == Finished(TxRolledBack)
    {
      var s, failed := UndoPending(plan, w0, before, content);
      o := Escaped;
      if s == Done {
        s := RecordRecovery(plan, w0, before);
        if s == Done { o := Finished(if failed then TxRollbackFailed else TxRolledBack); }
      }
    }

    /** Recovering a transaction that had succeeded leaves it so, and no other succeeds by it. */
    method RecoverAgain(ghost plan: seq<Action<W>>, ghost catalog: Catalog, ghost dryRun: bool, ghost w0: W,
                        ghost before: Option<Bytes>)
      returns (o: Outcome)
      requires Sound(plan, w0, before)
      requires state == Some(Succeeded) ==> Succeeds(plan, catalog, before, dryRun, w0)
      modifies this
      ensures Sound(plan, w0, before)
      ensures state == Some(Succeeded) ==> Succeeds(plan, catalog, before, dryRun, w0)
    {
      o := Recover(plan, w0, before);
    }

    /**
     * A process applies a plan and may be lost at any step; later processes recover, and
     * may be lost as well. Once one of them closes the transaction as rolled back, the
     * declaration is as it was, and of the plan nothing is in effect but at most the one
     * action whose row still says begun. As long as no access to the journal raised, the
     * rollback commands need only invert their actions and be idempotent.
     */
    method ApplyThenRecover(plan: seq<Action<W>>, catalog: Catalog, dryRun: bool, attempts: nat)
      returns (o: Outcome, begun: bool)
      modifies this
      ensures begun ==> Sound(plan, old(world), old(declaration))
      ensures begun && state == Some(Succeeded) ==> Succeeds(plan, catalog, old(declaration), dryRun, old(world))
      ensures begun && state == Some(TxRolledBack) ==> declaration == old(declaration)
      ensures begun && state == Some(TxRolledBack) && !stuck && leak.None? && !faulted && !journalFault
              && AllInvert(plan, old(world)) && AllIdempotent(plan, old(world)) ==>
                world == old(world)
      ensures begun && state == Some(TxRolledBack) && !stuck && Undoable(plan, old(world), leak, again) ==>
                if leak.None? then world == old(world)
                else leak.value == |rows| - 1 && rows[leak.value].state == Began
                     && world == plan[leak.value].Do(old(world))
    {
      o, begun := Apply(plan, catalog, dryRun);
      for i := 0 to attempts
        invariant begun ==> Sound(plan, old(world), old(declaration))
        invariant begun && state == Some(Succeeded) ==> Succeeds(plan, catalog, old(declaration), dryRun, old(world))
      {
        if o.Finished? { break; }
        if begun { o := RecoverAgain(plan, catalog, dryRun, old(world), old(declaration)); }
      }
      if begun && state == Some(TxRolledBack) { WhatIsLeft(plan, old(world), old(declaration)); }
    }

    /** Of a transaction that is rolled back nothing is left but a leaked action, if undoing could work. */
    lemma {:induction false} WhatIsLeft(plan: seq<Action<W>>, w0: W, before: Option<Bytes>)
      requires Sound(plan, w0, before) && state == Some(TxRolledBack)
      ensures declaration == before
      ensures !stuck && leak.None? && !faulted && !journalFault && AllInvert(plan, w0) && AllIdempotent(plan, w0) ==>
                world == w0
      ensures !stuck && Undoable(plan, w0, leak, again) ==>
                if leak.None? then world == w0
                else leak.value == |rows| - 1 && rows[leak.value].state == Began && world == plan[leak.value].Do(w0)
    {}
  }

  /** Some action has a verification command. */
  predicate Checks<W>(plan: seq<Action<W>>) { exists i :: 0 <= i < |plan| && plan[i].operation != Remove }

  predicate UndoneAt<W>(rows: seq<Row<W>>, i: nat) { i < |rows| && rows[i].state == RolledBack }

  predicate MarkedAt<W>(rows: seq<Row<W>>, i: nat) { i < |rows| && IsMark(rows[i].state) }

  /** A row is as it was, or what changed was marked by a rollback. */
  ghost predicate KeptAt<W(!new)>(a: seq<Row<W>>, b: seq<Row<W>>, i: nat)
    requires i < |a| == |b|
  {
    b[i] == a[i] || (b[i].action == a[i].action && IsMark(b[i].state))
  }

  ghost predicate SameAt<W(!new)>(a: seq<Row<W>>, b: seq<Row<W>>, i: nat)
    requires i < |a| == |b|
  {
    b[i] == a[i]
  }

  ghost predicate VerifiedAt<W(!new)>(rows: seq<Row<W>>, plan: seq<Action<W>>, i: nat)
    requires i < |rows| == |plan|
  {
    rows[i] == Row(plan[i], Verified)
  }

  /** The row says that undoing the action failed. */
  predicate FailedAt<W>(rows: seq<Row<W>>, i: nat) { i < |rows| && rows[i].state == RollbackFailed }

  /** The row after a rollback command that was rejected, or for an action without one. */
  predicate RefusedAt<W>(rows: seq<Row<W>>, i: nat) {
    i < |rows| && rows[i].state == if rows[i].action.Steps() then RollbackFailed else RolledBack
  }

  ghost predicate SayRefused<W(!new)>(rows: seq<Row<W>>, todo: seq<nat>) {
    forall i :: i in todo ==> RefusedAt(rows, i)
  }

  /** The rows of these actions say that they were undone. */
  ghost predicate SayUndone<W(!new)>(rows: seq<Row<W>>, todo: seq<nat>) {
    forall i :: i in todo ==> UndoneAt(rows, i)
  }

  /** A rollback has been at the rows of these actions. */
  ghost predicate SayMarked<W(!new)>(rows: seq<Row<W>>, todo: seq<nat>) {
    forall i :: i in todo ==> MarkedAt(rows, i)
  }

  /** Rows keep their places and actions; what changed was marked by a rollback. */
  ghost predicate Marked<W(!new)>(a: seq<Row<W>>, b: seq<Row<W>>) {
    |a| == |b| && forall i {:trigger KeptAt(a, b, i)} :: 0 <= i < |a| ==> KeptAt(a, b, i)
  }

  /** No other rows have changed. */
  ghost predicate OnlyAt<W(!new)>(a: seq<Row<W>>, b: seq<Row<W>>, todo: seq<nat>) {
    |a| == |b| && forall i {:trigger SameAt(a, b, i)} :: 0 <= i < |a| && i !in todo ==> SameAt(a, b, i)
  }

  ghost predicate AllVerified<W(!new)>(rows: seq<Row<W>>, plan: seq<Action<W>>) {
    |rows| == |plan| && forall i {:trigger VerifiedAt(rows, plan, i)} :: 0 <= i < |rows| ==> VerifiedAt(rows, plan, i)
  }

  /** One more row marked, and the others as they were. */
  lemma {:induction false} StillUndoing<W(!new)>(start: seq<Row<W>>, a: seq<Row<W>>, b: seq<Row<W>>, todo: seq<nat>,
                                                 n: nat)
    requires 0 < n <= |todo| && Increasing(todo) && Marked(start, a) && OnlyAt(start, a, todo)
    requires |a| == |b| && todo[n - 1] < |b| && KeptAt(a, b, todo[n - 1])
    requires forall i :: 0 <= i < |a| && i != todo[n - 1] ==> b[i] == a[i]
    ensures Marked(start, b) && OnlyAt(start, b, todo)
    ensures SayUndone(a, todo[n..]) && UndoneAt(b, todo[n - 1]) ==> SayUndone(b, todo[n - 1..])
    ensures SayMarked(a, todo[n..]) && MarkedAt(b, todo[n - 1]) ==> SayMarked(b, todo[n - 1..])
    ensures SayRefused(a, todo[n..]) && RefusedAt(b, todo[n - 1]) ==> SayRefused(b, todo[n - 1..])
  {
    forall i | 0 <= i < |a| ensures KeptAt(start, b, i) { assert KeptAt(start, a, i); }
    forall i | 0 <= i < |a| && i !in todo ensures SameAt(start, b, i) { assert SameAt(start, a, i); }
    forall i | i in todo[n - 1..] && i != todo[n - 1]
      ensures i in todo[n..] && (UndoneAt(a, i) ==> UndoneAt(b, i)) && (MarkedAt(a, i) ==> MarkedAt(b, i))
      ensures RefusedAt(a, i) ==> RefusedAt(b, i)
    {
      var k :| 0 <= k < |todo[n - 1..]| && todo[n - 1..][k] == i;
      assert todo[n..][k - 1] == i;
    }
  }

  lemma {:induction false} UndoneByThen<W(!new)>(a: Scene<W>, plan: seq<Action<W>>, w0: W, todo: seq<nat>)
    requires a.Underway(plan, w0, todo[..0])
    ensures todo[0..] == todo && a.Down(plan, w0) && a.OnCourse(plan, w0)
  {
    assert todo[..0] == [];
    if a.Fair(plan, w0) { Journal.AllUndone(a, plan, w0); }
  }

  /** An action that leaked and is not on the list is still in effect, and its row says as little as before. */
  lemma {:induction false} StillLeaked<W(!new)>(a: Scene<W>, b: Scene<W>, plan: seq<Action<W>>, todo: seq<nat>)
    requires a.RowsOf(plan) && b.RowsOf(plan) && OnlyAt(a.rows, b.rows, todo) && a.leak.Some?
    requires b.effect == a.effect - Indices(todo) && a.leak.value !in todo
    ensures b.leak == a.leak
  {
    assert SameAt(a.rows, b.rows, a.leak.value) && a.leak.value in b.effect;
  }

  /** What stays in effect after all pending actions have been undone. */
  lemma {:induction false} LeftInEffect<W(!new)>(a: Scene<W>, b: Scene<W>, plan: seq<Action<W>>)
    requires a.RowsOf(plan) && b.RowsOf(plan) && OnlyAt(a.rows, b.rows, PendingRows(a.rows))
    requires b.effect == a.effect - Indices(PendingRows(a.rows))
    ensures (forall i :: i in b.effect ==> b.leak == Some(i)) <==> forall i :: i in a.effect ==> !FailedAt(a.rows, i)
  {
    PendingRowsAre(a.rows);
    forall i | i in a.effect && i !in PendingRows(a.rows)
      ensures i in b.effect && (b.leak == Some(i) <==> !FailedAt(a.rows, i))
    {
      assert SameAt(a.rows, b.rows, i);
    }
    forall i | i in a.effect && FailedAt(a.rows, i) ensures i !in PendingRows(a.rows) {}
  }

  /** What a rollback leaves of rows it has marked is marked. */
  lemma {:induction false} MarkedOn<W(!new)>(a: seq<Row<W>>, b: seq<Row<W>>, c: seq<Row<W>>)
    requires Marked(a, b) && Marked(b, c)
    ensures Marked(a, c)
  {
    forall i | 0 <= i < |a| ensures KeptAt(a, c, i) { assert KeptAt(a, b, i) && KeptAt(b, c, i); }
  }

  /** Of rows that were all verified, those no longer are that a rollback has marked. */
  lemma {:induction false} NoLongerVerified<W(!new)>(a: seq<Row<W>>, b: seq<Row<W>>, plan: seq<Action<W>>, i: nat)
    requires AllVerified(a, plan) && Marked(a, b) && i < |b|
    ensures b[i].state != Verified <==> MarkedAt(b, i)
    ensures b[i].action == plan[i]
  {
    assert VerifiedAt(a, plan, i) && KeptAt(a, b, i);
  }

  // ---- Four runs ------------------------------------------------------------------------

  /** Installs over nothing, with a rollback that takes the install back. */
  function Install(): Action<int> { Action("tool", Operation.Install, (w: int) => 1, (w: int) => 0) }

  const CATALOG: Catalog := Catalog("digest", map["tool" := "1"])

  /** Works until the declaration is written, raises then, and is gone before it is put back. */
  function LateTrouble(undoing: Signal): (nat, Point) -> Signal {
    (t: nat, p: Point) =>
      match p case Declared => Fault case Undoing => undoing case Restoring => Crash case _ => Go
  }

  lemma {:induction false} OneStep()
    ensures Stepped([Install()], 1) == [0] && World([Install()], 0, 1) == 1
    ensures Intents([Install()]) == [Intent("tool", Operation.Install)]
  {
    assert Stepped([Install()], 0) == [] && World([Install()], 0, 0) == 0;
  }

  /**
   * One install: the declaration is written, the next step raises, the action is undone and
   * its row marked, and the process is lost. There was no declaration before, and now there
   * is one, of an action that is no longer verified, nor in effect.
   */
  method DeclaredWhileUndone() returns (declaration: Option<Bytes>, row: RowState)
    ensures declaration.Some? && row == RolledBack
  {
    var e := new Executor<int>(LateTrouble(Go), (b: Bytes) => None, (d: Declaration) => [], 0, None);
    OneStep();
    assert e.Spoilt(e.tick, Go) && e.Admits([Install()], CATALOG, None);
    var o, begun := e.Apply([Install()], CATALOG, false);
    assert UndoneAt(e.rows, 0);
    declaration, row := e.declaration, e.rows[0].state;
  }

  /** The same, but the rollback command is rejected. */
  method RefusedUndo() returns (e: Executor<int>)
    ensures fresh(e) && e.Sound([Install()], 0, None) && e.state == Some(RollingBack) && e.world == 1
    ensures |e.rows| == 1 && e.rows[0].state == RollbackFailed
  {
    e := new Executor<int>(LateTrouble(Reject), (b: Bytes) => None, (d: Declaration) => [], 0, None);
    OneStep();
    assert e.Spoilt(e.tick, Reject) && e.Admits([Install()], CATALOG, None);
    var o, begun := e.Apply([Install()], CATALOG, false);
    assert RefusedAt(e.rows, 0);
  }

  /**
   * Then another process recovers, meets no trouble and reports the transaction rolled
   * back, with the action still in effect.
   */
  method ForgottenFailure() returns (row: RowState, o: Outcome, world: int)
    ensures row == RollbackFailed && o == Finished(TxRolledBack) && world == 1
  {
    var e := RefusedUndo();
    row := e.rows[0].state;
    var f := new Executor<int>.Reopen(e, (t: nat, p: Point) => Go);
    NothingPending(f.rows);
    assert f.Fine(f.tick);
    o := f.Recover([Install()], 0, None);
    world := f.world;
  }

  lemma {:induction false} NothingPending<W(!new)>(rows: seq<Row<W>>)
    requires |rows| == 1 && rows[0].state == RollbackFailed
    ensures PendingRows(rows) == []
  {
    assert rows[..0] == [] && PendingRows(rows[..0]) == [];
  }

  /** One install whose verification command exits nonzero: it is undone, and nothing is declared. */
  method VerificationRefused() returns (o: Outcome, world: int, declaration: Option<Bytes>)
    ensures o == Finished(TxRolledBack) && world == 0 && declaration == None
  {
    var e := new Executor<int>((t: nat, p: Point) => if p.Checking? then Reject else Go, (b: Bytes) => None,
                               (d: Declaration) => [], 0, None);
    assert e.Backed(e.tick) && e.Verifies(Reject, e.tick);
    InstallInverts();
    var begun;
    o, begun := e.Apply([Install()], CATALOG, false);
    world, declaration := e.world, e.declaration;
  }

  lemma InstallInverts()
    ensures Checks([Install()]) && AllInvert([Install()], 0)
  {
    assert [Install()][0].operation != Remove;
    OneStep();
  }

  /** One install whose command runs but is not recorded: the call fails, and the action stays in effect. */
  method LeftApplied() returns (o: Outcome, world: int)
    ensures o == Finished(TxRolledBack) && world == 1
  {
    var e := new Executor<int>((t: nat, p: Point) => if p == Recording then Fault else Go, (b: Bytes) => None,
                               (d: Declaration) => [], 0, None);
    OneStep();
    assert e.Unrecorded(e.tick) && e.Admits([Install()], CATALOG, None);
    var begun;
    o, begun := e.Apply([Install()], CATALOG, false);
    LeftWorld(e.Now());
    world := e.world;
  }

  lemma {:induction false} LeftWorld(a: Scene<int>)
    requires a.Down([Install()], 0) && a.leak.Some? && !a.stuck
    ensures a.world == 1
  {
    var plan := [Install()];
    OneStep();
    assert Inverts(plan, 0, 0) && Harmless(plan, 0, 0, 0);
    assert Undoable(plan, 0, a.leak, a.again);
  }
}
