/**
 * What the executor writes down about one transaction, which changes of state the journal
 * accepts, and the worlds that applying and undoing a plan's actions lead through.
 */
module Journal {
  import opened Wrappers
  import opened D = Declarations

  type Bytes = seq<bv8>

  /**
   * An action under its catalog contract: an install runs the tool's install command and
   * is undone by its rollback command, a removal the other way round; adopting and
   * verifying run nothing.
   */
  datatype Action<!W> = Action(tool: Id, operation: Operation, install: W -> W, uninstall: W -> W) {
    predicate Steps() { operation == Install || operation == Remove }

    function Do(w: W): W {
      match operation
      case Install => install(w)
      case Remove => uninstall(w)
      case _ => w
    }

    function Undo(w: W): W {
      match operation
      case Install => uninstall(w)
      case Remove => install(w)
      case _ => w
    }

    function Intended(): Intent { Intent(tool, operation) }
  }

  function Intents<W>(plan: seq<Action<W>>): seq<Intent> {
    seq(|plan|, i requires 0 <= i < |plan| => plan[i].Intended())
  }

  // ---- Rows -------------------------------------------------------------------

  datatype RowState = Began | Mutated | Verified | RolledBack | RollbackFailed

  /** The row of one action; its sequence number is its position, counted from 1. */
  datatype Row<!W> = Row(action: Action<W>, state: RowState)

  /** An action that recovery will undo. */
  predicate Pending(s: RowState) { s == Mutated || s == Verified }

  /** What a rollback makes of a row. */
  predicate IsMark(s: RowState) { s == RolledBack || s == RollbackFailed }

  // ---- The transition table -----------------------------------------------------

  datatype TxState =
    | Planned | Preflight | Applying | Verifying | Succeeded
    | RollingBack | TxRolledBack | TxRollbackFailed | Interrupted

  predicate MayFollow(s: TxState, next: TxState) {
    match s
    case Planned => next == Preflight || next == Interrupted
    case Preflight => next == Applying || next == RollingBack || next == Interrupted
    case Applying => next == Verifying || next == RollingBack || next == Interrupted
    case Verifying => next == Succeeded || next == RollingBack || next == Interrupted
    case RollingBack => next == TxRolledBack || next == TxRollbackFailed || next == Interrupted
    case Interrupted => next == Verifying || next == RollingBack
    case Succeeded => false
    case TxRolledBack => false
    case TxRollbackFailed => false
  }

  /** The states a transaction passes through before it succeeds. */
  predicate GoesForward(s: TxState) { s == Planned || s == Preflight || s == Applying || s == Verifying }

  /** The states of a transaction that is being, or has been, rolled back. */
  predicate RollsBack(s: TxState) { s == RollingBack || s == TxRolledBack || s == TxRollbackFailed }

  predicate Terminal(s: TxState) { s == Succeeded || s == TxRolledBack || s == TxRollbackFailed }

  // ---- Worlds -------------------------------------------------------------------

  /** The world once the first k actions have been applied. */
  function World<W>(plan: seq<Action<W>>, w0: W, k: nat): W
    requires k <= |plan|
  {
    if k == 0 then w0 else plan[k - 1].Do(World(plan, w0, k - 1))
  }

  /** Undoing action i where it was the last to be applied. */
  ghost predicate Inverts<W>(plan: seq<Action<W>>, w0: W, i: nat)
    requires i < |plan|
  {
    plan[i].Undo(World(plan, w0, i + 1)) == World(plan, w0, i)
  }

  /** Undoing action i where it is not, or no longer, in effect. */
  ghost predicate Harmless<W>(plan: seq<Action<W>>, w0: W, i: nat, j: nat)
    requires j <= i < |plan|
  {
    plan[i].Undo(World(plan, w0, j)) == World(plan, w0, j)
  }

  /** Undoing action j in the first k, whether or not action i is in effect on top of them. */
  ghost predicate Commutes<W>(plan: seq<Action<W>>, w0: W, i: nat, j: nat, k: nat)
    requires j < i < |plan| && k <= j + 1
  {
    plan[j].Undo(plan[i].Do(World(plan, w0, k))) == plan[i].Do(plan[j].Undo(World(plan, w0, k)))
  }

  /**
   * Which rollback commands may run where their action is no longer in effect: none; only
   * the one that had just run when the process was lost; or any, because marking a row
   * raised and its command will run again after earlier actions have been undone as well.
   */
  datatype Again = Never | SameOne | AnyOf

  ghost predicate AllInvert<W(!new)>(plan: seq<Action<W>>, w0: W) {
    forall i :: 0 <= i < |plan| ==> Inverts(plan, w0, i)
  }

  ghost predicate AllIdempotent<W(!new)>(plan: seq<Action<W>>, w0: W) {
    forall i :: 0 <= i < |plan| ==> Harmless(plan, w0, i, i)
  }

  ghost predicate AllHarmless<W(!new)>(plan: seq<Action<W>>, w0: W) {
    forall i, j :: 0 <= j <= i < |plan| ==> Harmless(plan, w0, i, j)
  }

  /** Undoing an action where it may be undone is unaffected by action o staying in effect. */
  ghost predicate Independent<W(!new)>(plan: seq<Action<W>>, w0: W, o: nat, again: Again)
    requires o < |plan|
  {
    forall j, k :: 0 <= j < o && 0 <= k <= j + 1 && MayRun(j, k, again) ==> Commutes(plan, w0, o, j, k)
  }

  /** Can action j's rollback command run on rung k? */
  predicate MayRun(j: nat, k: nat, again: Again) {
    k == j + 1 || (k == j && again != Never) || (k < j && again == AnyOf)
  }

  /** The first k actions applied, and perhaps one more on top of them. */
  function Rung<W>(plan: seq<Action<W>>, w0: W, over: Option<nat>, k: nat): W
    requires k <= |plan| && (over.Some? ==> over.value < |plan|)
  {
    if over.Some? then plan[over.value].Do(World(plan, w0, k)) else World(plan, w0, k)
  }

  /**
   * What undoing needs of the commands: each inverts its action; if one may run again it
   * is idempotent; if any may, harmless wherever its action is not in effect. Independence
   * matters only under a leftover action.
   */
  ghost predicate Undoable<W(!new)>(plan: seq<Action<W>>, w0: W, over: Option<nat>, again: Again)
    requires over.Some? ==> over.value < |plan|
  {
    && AllInvert(plan, w0)
    && (again != Never ==> AllIdempotent(plan, w0))
    && (again == AnyOf ==> AllHarmless(plan, w0))
    && (over.Some? ==> Independent(plan, w0, over.value, again))
  }

  /** Undoing action i steps down from the rung above it, and does nothing below. */
  lemma {:induction false} UndoSteps<W(!new)>(plan: seq<Action<W>>, w0: W, over: Option<nat>, again: Again, i: nat,
                                              k: nat)
    requires over.Some? ==> i < over.value < |plan|
    requires Undoable(plan, w0, over, again) && k <= i + 1 && i < |plan| && MayRun(i, k, again)
    ensures plan[i].Undo(Rung(plan, w0, over, k)) == Rung(plan, w0, over, if k == i + 1 then i else k)
  {
    assert k == i + 1 ==> Inverts(plan, w0, i);
    assert k <= i ==> Harmless(plan, w0, i, k);
    assert over.Some? ==> Commutes(plan, w0, over.value, i, k);
  }

  /** Actions without a step leave every rung where it is. */
  lemma {:induction false} SteplessRungs<W>(plan: seq<Action<W>>, w0: W, over: Option<nat>, i: nat, k: nat)
    requires i <= k <= |plan| && (over.Some? ==> over.value < |plan|)
    requires forall j :: i <= j < k ==> !plan[j].Steps()
    ensures Rung(plan, w0, over, k) == Rung(plan, w0, over, i)
  {
    if i < k { SteplessRungs(plan, w0, over, i, k - 1); }
  }

  /** Values that each action overwrites, with the former one to put back. */
  function Overwriting(): seq<Action<int>> {
    [Action("a", Install, (w: int) => 1, (w: int) => 0), Action("b", Install, (w: int) => 2, (w: int) => 1)]
  }

  /**
   * Inverse and idempotent commands need not be harmless further down: running the second
   * rollback where neither action is in effect puts the first one's value there.
   */
  lemma {:induction false} OverwritingIsUndoable()
    ensures Undoable(Overwriting(), 0, None, SameOne)
    ensures !Undoable(Overwriting(), 0, None, AnyOf)
    ensures PendingRows([Row(Overwriting()[0], RolledBack), Row(Overwriting()[1], Mutated)]) == [1]
    ensures Overwriting()[1].Undo(0) == 1
  {
    var plan := Overwriting();
    assert World(plan, 0, 1) == 1 && World(plan, 0, 2) == 2;
    assert !Harmless(plan, 0, 1, 0);
    forall i | 0 <= i < |plan| ensures Inverts(plan, 0, i) && Harmless(plan, 0, i, i) {
      assert i == 0 || i == 1;
    }
    var rows := [Row(plan[0], RolledBack), Row(plan[1], Mutated)];
    assert rows[..1] == [rows[0]] && rows[..1][..0] == [];
    assert PendingRows(rows[..1]) == PendingRows(rows[..1][..0]);
  }

  // ---- Where a transaction stands ------------------------------------------------------

  /**
   * The rows, the world, an action in effect whose row does not say so, whether some
   * rollback command has failed to take, and which of them may run again; and which
   * actions are in effect: their step ran, and their rollback command has not since.
   */
  datatype Scene<!W(!new)> = Scene(rows: seq<Row<W>>, world: W, leak: Option<nat>, stuck: bool, again: Again,
                                   effect: set<nat>)
  {
    /** An action in effect has a step, and a row that says so or that undoing it failed, or it leaked. */
    ghost predicate EffectTold() {
      forall i :: i in effect ==>
        i < |rows| && rows[i].action.Steps()
        && (Pending(rows[i].state) || rows[i].state == RollbackFailed || leak == Some(i))
    }

    /** The rows are those of a prefix of the plan; only the last can still be begun. */
    ghost predicate RowsOf(plan: seq<Action<W>>) {
      && |rows| <= |plan|
      && (forall i :: 0 <= i < |rows| ==> rows[i].action == plan[i])
      && (forall i :: 0 <= i < |rows| - 1 ==> rows[i].state != Began)
      && (leak.Some? ==>
            && rows != [] && leak.value == |rows| - 1
            && rows[leak.value].state == Began && rows[leak.value].action.Steps() && leak.value in effect)
      && EffectTold()
    }

    ghost function Height(): nat {
      if rows != [] && rows[|rows| - 1].state == Began then |rows| - 1 else |rows|
    }

    /** The action's rollback command will run, unless the row is marked before. */
    predicate ToUndo(i: nat)
      requires i < |rows|
    {
      rows[i].action.Steps() && Pending(rows[i].state)
    }

    /** The world is at rung k, and every action below it will be undone; above it, what may run again. */
    ghost predicate At(plan: seq<Action<W>>, w0: W, k: nat) {
      && RowsOf(plan) && k <= Height()
      && world == Rung(plan, w0, leak, k)
      && (forall i :: 0 <= i < k ==> Pending(rows[i].state))
      && (forall i :: k <= i < |rows| && ToUndo(i) ==> MayRun(i, k, again))
    }

    /** The world is as its rows say, with nothing undone yet. */
    ghost predicate AtTop(plan: seq<Action<W>>, w0: W) {
      && RowsOf(plan)
      && world == Rung(plan, w0, leak, Height())
      && forall i :: 0 <= i < Height() ==> Pending(rows[i].state)
    }

    /** The commands are such that undoing works from here. */
    ghost predicate Fair(plan: seq<Action<W>>, w0: W) {
      RowsOf(plan) && !stuck && Undoable(plan, w0, leak, again)
    }

    /** Nothing of the plan is left but a leaked action. */
    ghost predicate Down(plan: seq<Action<W>>, w0: W) {
      RowsOf(plan) && (Fair(plan, w0) ==> world == Rung(plan, w0, leak, 0))
    }

    /** Unless a rollback command failed, the world is at some rung. */
    ghost predicate OnCourse(plan: seq<Action<W>>, w0: W) {
      RowsOf(plan) && (Fair(plan, w0) ==> exists k: nat :: At(plan, w0, k))
    }

    /** Where a rollback stands that still has these actions to undo, last one first. */
    ghost predicate Underway(plan: seq<Action<W>>, w0: W, todo: seq<nat>) {
      && RowsOf(plan) && Increasing(todo) && (forall i :: 0 <= i < |todo| ==> todo[i] < |rows|)
      && (!stuck && leak.Some? && leak.value in todo ==>
            AtTop(plan, w0) && Covered(plan, todo, Height()))
      && (forall i :: 0 <= i < |todo| ==> Pending(rows[todo[i]].state) || leak == Some(todo[i]))
      && (forall i :: 0 <= i < |rows| && ToUndo(i) ==> i in todo || again == AnyOf)
      && (Fair(plan, w0) ==> exists k: nat :: At(plan, w0, k) && Covered(plan, todo, k))
    }

    /** The same, where the last of them no longer has any effect. */
    ghost predicate Cleared(plan: seq<Action<W>>, w0: W, todo: seq<nat>)
      requires todo != []
    {
      && RowsOf(plan)
      && (!stuck && leak.Some? ==> leak.value !in todo)
      && (Fair(plan, w0) ==> exists k: nat :: ClearedAt(plan, w0, todo, k))
    }

    ghost predicate ClearedAt(plan: seq<Action<W>>, w0: W, todo: seq<nat>, k: nat)
      requires todo != []
    {
      && RowsOf(plan) && k <= Last(todo) && k <= Height()
      && world == Rung(plan, w0, leak, k)
      && (forall i :: 0 <= i < k ==> Pending(rows[i].state))
      && (forall i :: k <= i < |rows| && ToUndo(i) ==> MayRun(i, k, again) || i == k == Last(todo))
      && Covered(plan, Front(todo), k)
    }
  }

  function Last(s: seq<nat>): nat
    requires s != []
  {
    s[|s| - 1]
  }

  function Front(s: seq<nat>): seq<nat>
    requires s != []
  {
    s[..|s| - 1]
  }

  ghost predicate Increasing(s: seq<nat>) { forall i, j :: 0 <= i < j < |s| ==> s[i] < s[j] }

  /** Every action in effect below rung k has its index among these, or has no step to undo. */
  ghost predicate Covered<W(!new)>(plan: seq<Action<W>>, todo: seq<nat>, k: nat) {
    k <= |plan| && forall i :: 0 <= i < k ==> i in todo || !plan[i].Steps()
  }

  /** Above the last index to undo there is nothing but actions without a step. */
  lemma {:induction false} Lower<W(!new)>(plan: seq<Action<W>>, w0: W, over: Option<nat>, todo: seq<nat>, k: nat)
    requires todo != [] && Increasing(todo) && Covered(plan, todo, k)
    requires over.Some? ==> over.value < |plan|
    ensures k > Last(todo) + 1 ==> Rung(plan, w0, over, k) == Rung(plan, w0, over, Last(todo) + 1)
  {
    var i := Last(todo);
    if k > i + 1 {
      SteplessRungs(plan, w0, over, i + 1, k);
    }
  }

  /** What suffices when more commands may run again suffices when fewer may. */
  lemma {:induction false} UndoableWeakens<W(!new)>(plan: seq<Action<W>>, w0: W, over: Option<nat>, a: Again, b: Again)
    requires over.Some? ==> over.value < |plan|
    requires a == Never || b == AnyOf || a == b
    requires Undoable(plan, w0, over, b)
    ensures Undoable(plan, w0, over, a)
  {
    if over.Some? {
      forall j, k | 0 <= j < over.value && 0 <= k <= j + 1 && MayRun(j, k, a)
        ensures Commutes(plan, w0, over.value, j, k)
      {
        assert MayRun(j, k, b);
      }
    }
  }

  /** Off the list comes only its last index. */
  lemma {:induction false} CoveredFront<W(!new)>(plan: seq<Action<W>>, todo: seq<nat>, k: nat)
    requires todo != [] && Covered(plan, todo, k) && k <= Last(todo)
    ensures Covered(plan, Front(todo), k)
  {
    forall j | 0 <= j < k && plan[j].Steps() ensures j in Front(todo) { InFront(todo, j); }
  }

  /** The action that leaked is the last row's, and what is listed before it covers all below. */
  lemma {:induction false} LeakedLast<W(!new)>(a: Scene<W>, plan: seq<Action<W>>, w0: W, todo: seq<nat>)
    requires todo != [] && a.Underway(plan, w0, todo) && a.leak == Some(Last(todo)) && !a.stuck
    ensures Last(todo) == |a.rows| - 1 == a.Height() && Covered(plan, Front(todo), Last(todo))
    ensures a.world == World(plan, w0, Last(todo) + 1)
    ensures forall j :: 0 <= j < Last(todo) ==> Pending(a.rows[j].state)
  {
    assert a.AtTop(plan, w0) && Covered(plan, todo, a.Height());
    CoveredFront(plan, todo, a.Height());
  }

  /** Undoing the action that leaked needs nothing but its own inverse. */
  lemma {:induction false} UndoLeaked<W(!new)>(a: Scene<W>, b: Scene<W>, plan: seq<Action<W>>, w0: W, todo: seq<nat>)
    requires todo != [] && a.Underway(plan, w0, todo) && a.leak == Some(Last(todo)) && !a.stuck
    requires b == a.(world := plan[Last(todo)].Undo(a.world), leak := None, effect := a.effect - {Last(todo)})
    ensures b.Cleared(plan, w0, todo)
  {
    var i := Last(todo);
    LeakedLast(a, plan, w0, todo);
    if AllInvert(plan, w0) {
      assert Inverts(plan, w0, i);
      assert b.ClearedAt(plan, w0, todo, i);
    }
  }

  /** What is above the last index has no step, and what is at it may run where the world is. */
  lemma {:induction false} AtLast<W(!new)>(a: Scene<W>, plan: seq<Action<W>>, w0: W, todo: seq<nat>, k: nat)
    returns (k1: nat)
    requires todo != [] && a.Underway(plan, w0, todo) && a.leak != Some(Last(todo))
    requires a.At(plan, w0, k) && Covered(plan, todo, k)
    ensures k1 == (if k > Last(todo) + 1 then Last(todo) + 1 else k) <= |plan| && a.world == Rung(plan, w0, a.leak, k1)
    ensures Last(todo) < |plan| && (plan[Last(todo)].Steps() ==> MayRun(Last(todo), k1, a.again))
    ensures a.leak.Some? ==> Last(todo) < a.leak.value < |plan|
  {
    Lower(plan, w0, a.leak, todo, k);
    k1 := if k > Last(todo) + 1 then Last(todo) + 1 else k;
    if plan[Last(todo)].Steps() && k <= Last(todo) { assert a.ToUndo(Last(todo)); }
  }

  /** The world's rung once the last index has been undone, or has nothing to undo. */
  lemma {:induction false} RungDown<W(!new)>(a: Scene<W>, plan: seq<Action<W>>, w0: W, todo: seq<nat>, k: nat)
    returns (k': nat)
    requires todo != [] && a.Underway(plan, w0, todo) && a.leak != Some(Last(todo))
    requires a.Fair(plan, w0) && a.At(plan, w0, k) && Covered(plan, todo, k)
    ensures k' == (if k <= Last(todo) then k else Last(todo))
    ensures Rung(plan, w0, a.leak, k')
         == if plan[Last(todo)].Steps() then plan[Last(todo)].Undo(a.world) else a.world
  {
    var i := Last(todo);
    k' := if k <= i then k else i;
    var k1 := AtLast(a, plan, w0, todo, k);
    if plan[i].Steps() {
      UndoSteps(plan, w0, a.leak, a.again, i, k1);
    } else {
      SteplessRungs(plan, w0, a.leak, i, i + 1);
    }
  }

  /** Above the last index to undo, only what may run on any rung is left to undo. */
  lemma {:induction false} AboveLast<W(!new)>(a: Scene<W>, plan: seq<Action<W>>, w0: W, todo: seq<nat>, i: nat)
    requires todo != [] && a.Underway(plan, w0, todo) && Last(todo) < i < |a.rows| && a.ToUndo(i)
    ensures a.again == AnyOf
  {}

  lemma {:induction false} StaysCleared<W(!new)>(a: Scene<W>, b: Scene<W>, plan: seq<Action<W>>, w0: W, todo: seq<nat>,
                                                 k: nat, k': nat)
    requires todo != [] && a.Underway(plan, w0, todo) && a.leak != Some(Last(todo))
    requires a.At(plan, w0, k) && Covered(plan, todo, k) && k' == (if k <= Last(todo) then k else Last(todo))
    requires b == a.(world := Rung(plan, w0, a.leak, k'), effect := b.effect)
    requires b.effect == a.effect || b.effect == a.effect - {Last(todo)}
    ensures b.ClearedAt(plan, w0, todo, k')
  {
    forall i | k' <= i < |b.rows| && b.ToUndo(i)
      ensures MayRun(i, k', b.again) || i == k' == Last(todo)
    {
      assert a.ToUndo(i);
      if i > Last(todo) { AboveLast(a, plan, w0, todo, i); }
    }
    assert Covered(plan, Front(todo), k');
  }

  /** One rollback command, or none for an action without a step, clears the last index. */
  lemma {:induction false} StepDown<W(!new)>(a: Scene<W>, b: Scene<W>, plan: seq<Action<W>>, w0: W, todo: seq<nat>,
                                             undone: bool)
    requires todo != [] && a.Underway(plan, w0, todo)
    requires b.rows == a.rows && b.again == a.again && (a.stuck ==> b.stuck)
    requires b.world == if undone then plan[Last(todo)].Undo(a.world) else a.world
    requires b.effect == if undone then a.effect - {Last(todo)} else a.effect
    requires b.leak == if undone && a.leak == Some(Last(todo)) then None else a.leak
    requires b.stuck || (undone <==> plan[Last(todo)].Steps())
    ensures b.Cleared(plan, w0, todo)
  {
    if !b.stuck && a.leak == Some(Last(todo)) {
      UndoLeaked(a, b, plan, w0, todo);
    } else if b.Fair(plan, w0) {
      var k: nat :| a.At(plan, w0, k) && Covered(plan, todo, k);
      var k' := RungDown(a, plan, w0, todo, k);
      StaysCleared(a, b, plan, w0, todo, k, k');
    }
  }

  /** Nothing has happened, but that a rollback command may have failed. */
  lemma {:induction false} StuckOrNot<W(!new)>(a: Scene<W>, b: Scene<W>, plan: seq<Action<W>>, w0: W, todo: seq<nat>)
    requires a.Underway(plan, w0, todo) && b == a.(stuck := b.stuck) && (a.stuck ==> b.stuck)
    ensures b.OnCourse(plan, w0)
  {
    if b.Fair(plan, w0) { assert b == a; }
  }

  /** Which commands may run again, once a mark was not made because the process was lost, or it raised. */
  function AfterMark(again: Again, failed: bool, raised: bool): Again {
    if raised then AnyOf else if failed && again == Never then SameOne else again
  }

  /** What is listed before the last index is journalled as in effect. */
  lemma {:induction false} FrontPending<W(!new)>(a: Scene<W>, plan: seq<Action<W>>, w0: W, todo: seq<nat>, i: nat)
    requires todo != [] && a.Underway(plan, w0, todo) && i < |todo| - 1
    ensures Front(todo)[i] == todo[i] < Last(todo) && Pending(a.rows[todo[i]].state)
  {}

  lemma InFront(todo: seq<nat>, i: nat)
    requires todo != [] && i in todo && i != Last(todo)
    ensures i in Front(todo)
  {}

  /** The last index is off the list once its row is marked, or once marking it raised. */
  lemma {:induction false} OneLess<W(!new)>(a: Scene<W>, c: Scene<W>, plan: seq<Action<W>>, w0: W, todo: seq<nat>)
    requires todo != [] && a.Underway(plan, w0, todo) && c.RowsOf(plan) && |c.rows| == |a.rows|
    requires forall j :: 0 <= j < |a.rows| && j != Last(todo) ==> c.rows[j] == a.rows[j]
    requires !c.stuck && c.leak.Some? ==> c.leak.value !in todo
    requires c.again == AnyOf || (c.again == a.again && !c.ToUndo(Last(todo)))
    requires c.Fair(plan, w0) ==> exists k: nat :: c.At(plan, w0, k) && Covered(plan, Front(todo), k)
    ensures c.Underway(plan, w0, Front(todo))
  {
    forall i | 0 <= i < |Front(todo)| ensures Pending(c.rows[Front(todo)[i]].state) {
      FrontPending(a, plan, w0, todo, i);
    }
    forall i | 0 <= i < |c.rows| && c.ToUndo(i) && c.again != AnyOf ensures i in Front(todo) {
      assert a.ToUndo(i);
      InFront(todo, i);
    }
  }

  /** The same scene, but that the row of the last index is marked. */
  ghost predicate MarkedLast<W(!new)>(b: Scene<W>, c: Scene<W>, todo: seq<nat>)
    requires todo != []
  {
    var i := Last(todo);
    && c.world == b.world && c.stuck == b.stuck && c.again == b.again && c.effect == b.effect
    && c.leak == (if b.leak == Some(i) then None else b.leak)
    && |c.rows| == |b.rows| && i < |b.rows|
    && c.rows[i].action == b.rows[i].action && IsMark(c.rows[i].state)
    && (c.rows[i].state == RolledBack ==> i !in c.effect)
    && forall j :: 0 <= j < |b.rows| && j != i ==> c.rows[j] == b.rows[j]
  }

  lemma {:induction false} MarkedRows<W(!new)>(b: Scene<W>, c: Scene<W>, plan: seq<Action<W>>, todo: seq<nat>)
    requires todo != [] && MarkedLast(b, c, todo) && b.RowsOf(plan)
    ensures c.RowsOf(plan) && c.Height() >= b.Height()
  {}

  lemma {:induction false} MarkedRung<W(!new)>(b: Scene<W>, c: Scene<W>, plan: seq<Action<W>>, w0: W, todo: seq<nat>,
                                               k: nat)
    requires todo != [] && MarkedLast(b, c, todo) && b.ClearedAt(plan, w0, todo, k) && c.leak == b.leak
    ensures c.At(plan, w0, k)
  {
    MarkedRows(b, c, plan, todo);
    forall i | k <= i < |c.rows| && c.ToUndo(i) ensures MayRun(i, k, c.again) { assert b.ToUndo(i); }
  }

  /** Marking the cleared action's row leaves the others to undo. */
  lemma {:induction false} Mark<W(!new)>(a: Scene<W>, b: Scene<W>, c: Scene<W>, plan: seq<Action<W>>, w0: W,
                                         todo: seq<nat>)
    requires todo != [] && a.Underway(plan, w0, todo) && a.rows == b.rows && a.again == b.again
    requires b.Cleared(plan, w0, todo) && MarkedLast(b, c, todo)
    ensures c.Underway(plan, w0, Front(todo)) && c.OnCourse(plan, w0)
  {
    MarkedRows(b, c, plan, todo);
    if c.Fair(plan, w0) {
      var k: nat :| b.ClearedAt(plan, w0, todo, k);
      MarkedRung(b, c, plan, w0, todo, k);
    }
    OneLess(a, c, plan, w0, todo);
  }

  /** A cleared scene whose commands may run again as far as they are then allowed to. */
  lemma {:induction false} ClearedOnCourse<W(!new)>(b: Scene<W>, plan: seq<Action<W>>, w0: W, todo: seq<nat>, k: nat,
                                                    again: Again)
    requires todo != [] && b.ClearedAt(plan, w0, todo, k) && again != Never
    requires b.again == again || b.again == Never || again == AnyOf
    ensures b.(again := again).At(plan, w0, k)
  {
    var c := b.(again := again);
    forall i | k <= i < |c.rows| && c.ToUndo(i) ensures MayRun(i, k, c.again) { assert b.ToUndo(i); }
  }

  /** A mark that raised: the command will run again, wherever the world is by then. */
  lemma {:induction false} Unmarked<W(!new)>(a: Scene<W>, b: Scene<W>, c: Scene<W>, plan: seq<Action<W>>, w0: W,
                                             todo: seq<nat>)
    requires todo != [] && a.Underway(plan, w0, todo) && a.rows == b.rows
    requires b.Cleared(plan, w0, todo) && c == b.(again := AnyOf)
    ensures c.Underway(plan, w0, Front(todo)) && c.OnCourse(plan, w0)
  {
    if c.Fair(plan, w0) {
      UndoableWeakens(plan, w0, b.leak, b.again, AnyOf);
      var k: nat :| b.ClearedAt(plan, w0, todo, k);
      ClearedOnCourse(b, plan, w0, todo, k, AnyOf);
    }
    OneLess(a, c, plan, w0, todo);
  }

  /** A process lost before the mark: the command just run may run once more. */
  lemma {:induction false} LostUnmarked<W(!new)>(b: Scene<W>, c: Scene<W>, plan: seq<Action<W>>, w0: W, todo: seq<nat>)
    requires todo != [] && b.Cleared(plan, w0, todo) && c == b.(again := AfterMark(b.again, true, false))
    ensures c.RowsOf(plan) && c.OnCourse(plan, w0)
  {
    if c.Fair(plan, w0) {
      UndoableWeakens(plan, w0, b.leak, b.again, c.again);
      var k: nat :| b.ClearedAt(plan, w0, todo, k);
      ClearedOnCourse(b, plan, w0, todo, k, c.again);
    }
  }

  /** The world after these actions' rollback commands, last one first. */
  function Unwind<W>(plan: seq<Action<W>>, w: W, todo: seq<nat>): W
    requires forall i :: 0 <= i < |todo| ==> todo[i] < |plan|
  {
    if todo == [] then w else Unwind(plan, plan[Last(todo)].Undo(w), Front(todo))
  }

  function Indices(s: seq<nat>): set<nat> { set i | i in s }

  /** Between two scenes the last of these actions, from n on, were undone, last one first, and no more was done. */
  ghost predicate Unwound<W(!new)>(a: Scene<W>, b: Scene<W>, plan: seq<Action<W>>, todo: seq<nat>, n: nat) {
    && n <= |todo| && (forall i :: 0 <= i < |todo| ==> todo[i] < |plan|)
    && Unwind(plan, b.world, todo[..n]) == Unwind(plan, a.world, todo)
    && b.effect == a.effect - Indices(todo[n..]) && b.stuck == a.stuck
  }

  lemma {:induction false} UnwoundNext<W(!new)>(a: Scene<W>, b: Scene<W>, c: Scene<W>, plan: seq<Action<W>>,
                                                todo: seq<nat>, n: nat)
    requires 0 < n <= |todo| && (forall i :: 0 <= i < |todo| ==> todo[i] < |plan|)
    requires (a == b && n == |todo|) || Unwound(a, b, plan, todo, n)
    requires c.world == plan[todo[n - 1]].Undo(b.world) && c.effect == b.effect - {todo[n - 1]} && c.stuck == b.stuck
    ensures Unwound(a, c, plan, todo, n - 1)
  {
    assert todo[..|todo|] == todo && Front(todo[..n]) == todo[..n - 1];
    assert todo[n - 1..] == [todo[n - 1]] + todo[n..];
  }

  /** One more, seen as the last of those that were left. */
  lemma {:induction false} UnwoundThen<W(!new)>(a: Scene<W>, b: Scene<W>, c: Scene<W>, plan: seq<Action<W>>,
                                                todo: seq<nat>, n: nat)
    requires 0 < n <= |todo| && Unwound(a, b, plan, todo, n) && Unwound(b, c, plan, todo[..n], n - 1)
    ensures Unwound(a, c, plan, todo, n - 1)
  {
    assert todo[..n][..n - 1] == todo[..n - 1] && todo[..n][n - 1..] == [todo[n - 1]];
    assert todo[n - 1..] == [todo[n - 1]] + todo[n..];
  }

  /** The three things that can come of marking a row. */
  lemma {:induction false} Marking<W(!new)>(a: Scene<W>, b: Scene<W>, c: Scene<W>, plan: seq<Action<W>>, w0: W,
                                            todo: seq<nat>,
                                            failed: bool, raised: bool)
    requires todo != [] && a.Underway(plan, w0, todo) && a.rows == b.rows && a.again == b.again
    requires b.Cleared(plan, w0, todo) && (raised ==> failed)
    requires c.world == b.world && c.stuck == b.stuck && c.again == AfterMark(b.again, failed, raised)
    requires failed ==> c.rows == b.rows && c.leak == b.leak && c.effect == b.effect
    requires !failed ==> MarkedLast(b, c, todo)
    ensures c.RowsOf(plan) && c.OnCourse(plan, w0)
    ensures !failed || raised ==> c.Underway(plan, w0, Front(todo))
  {
    if !failed {
      Mark(a, b, c, plan, w0, todo);
    } else if raised {
      Unmarked(a, b, c, plan, w0, todo);
    } else {
      LostUnmarked(b, c, plan, w0, todo);
    }
  }

  /** With nothing left to undo, the world is at the lowest rung. */
  lemma {:induction false} AllUndone<W(!new)>(a: Scene<W>, plan: seq<Action<W>>, w0: W)
    requires a.Underway(plan, w0, []) && a.Fair(plan, w0)
    ensures a.world == Rung(plan, w0, a.leak, 0)
  {
    var k: nat :| a.At(plan, w0, k) && Covered(plan, [], k);
    SteplessRungs(plan, w0, a.leak, 0, k);
  }

  /** The sequence numbers of the actions that have a step, among the first n. */
  function Stepped<W>(plan: seq<Action<W>>, n: nat): seq<nat>
    requires n <= |plan|
  {
    if n == 0 then []
    else Stepped(plan, n - 1) + (if plan[n - 1].Steps() then [n - 1] else [])
  }

  lemma {:induction false} SteppedAre<W>(plan: seq<Action<W>>, n: nat)
    requires n <= |plan|
    ensures Increasing(Stepped(plan, n))
    ensures forall i :: i in Stepped(plan, n) <==> 0 <= i < n && plan[i].Steps()
  {
    if n > 0 {
      SteppedAre(plan, n - 1);
      if plan[n - 1].Steps() { IncreasingOneMore(Stepped(plan, n - 1), n - 1); }
    }
  }

  lemma IncreasingOneMore(s: seq<nat>, n: nat)
    requires Increasing(s) && forall x :: x in s ==> x < n
    ensures Increasing(s + [n])
  {
    forall j | 0 <= j < |s| ensures s[j] < n { assert s[j] in s; }
  }

  /** The step of the last row, begun, has run or has not. */
  lemma {:induction false} BegunTop<W(!new)>(a: Scene<W>, b: Scene<W>, plan: seq<Action<W>>, w0: W, i: nat)
    requires a.RowsOf(plan) && i == |a.rows| - 1 < |plan| && a.rows[i].state == Began && a.leak.None?
    requires a.world == World(plan, w0, i) && forall j :: 0 <= j < i ==> a.rows[j].state == Mutated
    requires b.rows == a.rows && (b.leak.None? || (b.leak == Some(i) && plan[i].Steps()))
    requires b.world == if b.leak.Some? then plan[i].Do(a.world) else a.world
    requires b.effect == if b.leak.Some? then a.effect + {i} else a.effect
    ensures b.AtTop(plan, w0) && b.Height() == i
    ensures b.leak.Some? || !plan[i].Steps() ==> b.world == World(plan, w0, i + 1)
  {}

  /** The step of the last row has run: whether the row says so yet or not, the world is at the top. */
  lemma {:induction false} SettledTop<W(!new)>(a: Scene<W>, b: Scene<W>, plan: seq<Action<W>>, w0: W, i: nat)
    requires a.RowsOf(plan) && i == |a.rows| - 1 < |plan| && a.rows[i].state == Began
    requires a.leak == if plan[i].Steps() then Some(i) else None
    requires a.world == World(plan, w0, i + 1) && forall j :: 0 <= j < i ==> a.rows[j].state == Mutated
    requires b == a || b == a.(rows := a.rows[i := Row(plan[i], Mutated)], leak := None)
    ensures b.AtTop(plan, w0)
  {}

  /** The sequence numbers of the rows that recovery will undo, in order. */
  function PendingRows<W>(rows: seq<Row<W>>): seq<nat> {
    if rows == [] then []
    else PendingRows(rows[..|rows| - 1]) + (if Pending(rows[|rows| - 1].state) then [|rows| - 1] else [])
  }

  lemma {:induction false} PendingRowsAre<W>(rows: seq<Row<W>>)
    ensures Increasing(PendingRows(rows))
    ensures forall i :: i in PendingRows(rows) <==> 0 <= i < |rows| && Pending(rows[i].state)
  {
    if rows != [] {
      var front := rows[..|rows| - 1];
      PendingRowsAre(front);
      if Pending(rows[|front|].state) { IncreasingOneMore(PendingRows(front), |front|); }
    }
  }

  /** Nothing has been undone yet, and every action with a step that is in effect is on the list. */
  lemma {:induction false} TopUnderway<W(!new)>(a: Scene<W>, plan: seq<Action<W>>, w0: W, todo: seq<nat>)
    requires a.AtTop(plan, w0) && Increasing(todo) && Covered(plan, todo, a.Height())
    requires forall i :: 0 <= i < |todo| ==>
      todo[i] < |a.rows| && (Pending(a.rows[todo[i]].state) || a.leak == Some(todo[i]))
    ensures a.Underway(plan, w0, todo) && a.OnCourse(plan, w0)
  {
    assert a.At(plan, w0, a.Height());
    assert forall i :: 0 <= i < |a.rows| && a.ToUndo(i) ==> i < a.Height() && plan[i].Steps();
  }

  /** A call that fails can undo what it is known to have run. */
  lemma {:induction false} CompletedUnderway<W(!new)>(a: Scene<W>, plan: seq<Action<W>>, w0: W, completed: seq<nat>)
    requires a.RowsOf(plan) && a.AtTop(plan, w0)
    requires completed == Stepped(plan, a.Height()) || (a.leak.Some? && completed == Stepped(plan, |a.rows|))
    ensures a.Underway(plan, w0, completed) && a.OnCourse(plan, w0)
  {
    SteppedAre(plan, a.Height());
    SteppedAre(plan, |a.rows|);
    forall i | 0 <= i < |completed|
      ensures completed[i] < |a.rows| && (Pending(a.rows[completed[i]].state) || a.leak == Some(completed[i]))
    {
      assert completed[i] in completed;
    }
    TopUnderway(a, plan, w0, completed);
  }

  /** A recovery can undo what the journal says is in effect. */
  lemma {:induction false} PendingUnderway<W(!new)>(a: Scene<W>, plan: seq<Action<W>>, w0: W)
    requires a.RowsOf(plan) && a.OnCourse(plan, w0)
    ensures a.Underway(plan, w0, PendingRows(a.rows))
  {
    var todo := PendingRows(a.rows);
    PendingRowsAre(a.rows);
    forall i | 0 <= i < |todo| ensures todo[i] < |a.rows| && Pending(a.rows[todo[i]].state) {
      assert todo[i] in todo;
    }
    if a.Fair(plan, w0) {
      var k: nat :| a.At(plan, w0, k);
      assert Covered(plan, todo, k);
    }
  }
}
