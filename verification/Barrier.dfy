/**
 * The roster's start barrier: responders take turns at a limited number of speaker slots,
 * and each waits after its first event until enough of them have published one, or one of
 * them has ended early. Children answer without waiting.
 */
module Barrier {
  import opened Sums

  datatype Stage = Waiting | Listening | Publishing | AtGate | Ended

  /** A responder: whether the gate (still) applies to it, and how much it has published. */
  datatype Responder = Responder(gated: bool, stage: Stage, passed: bool, counted: bool, published: nat)

  datatype State = State(
    limit: nat, roster: nat, responders: seq<Responder>,
    slots: nat, gate: bool, started: nat, responding: int)

  function Target(s: State): nat { if s.limit < s.roster then s.limit else s.roster }

  datatype Op =
    | Enter(i: nat)      // takes a speaker slot
    | Emit(i: nat)       // the adapter yields an emission
    | Publish(i: nat)    // its publication completes
    | Pass(i: nat)       // the gate lets it go on
    | End(i: nat)        // the adapter is exhausted, or something raised
    | Spawn              // a child responder is started

  predicate Holds(r: Responder) { r.stage.Listening? || r.stage.Publishing? || r.stage.AtGate? }

  predicate Enabled(s: State, op: Op) {
    match op
    case Enter(i) => i < |s.responders| && s.responders[i].stage.Waiting? && s.slots > 0
    case Emit(i) => i < |s.responders| && s.responders[i].stage.Listening?
    case Publish(i) => i < |s.responders| && s.responders[i].stage.Publishing?
    case Pass(i) => i < |s.responders| && s.responders[i].stage.AtGate? && s.gate
    case End(i) => i < |s.responders| && (s.responders[i].stage.Listening? || s.responders[i].stage.Publishing?)
    case Spawn => true
  }

  function With(s: State, i: nat, r: Responder): State
    requires i < |s.responders|
  {
    s.(responders := s.responders[i := r])
  }

  function Step(s: State, op: Op): State
    requires Enabled(s, op)
  {
    match op
    case Enter(i) => With(s, i, s.responders[i].(stage := Listening)).(slots := s.slots - 1)
    case Emit(i) =>
      var r := s.responders[i];
      With(s, i, r.(stage := Publishing, counted := true))
        .(responding := if r.counted then s.responding else s.responding + 1)
    case Publish(i) =>
      var r := s.responders[i].(published := s.responders[i].published + 1);
      if r.passed then With(s, i, r.(stage := Listening))
      else
        var gate := s.gate || s.started + 1 >= Target(s);
        With(s, i, if gate then r.(stage := Listening, passed := true) else r.(stage := AtGate))
          .(started := s.started + 1, gate := gate)
    case Pass(i) => With(s, i, s.responders[i].(stage := Listening, passed := true))
    case End(i) =>
      var r := s.responders[i];
      With(s, i, r.(stage := Ended, counted := false))
        .(gate := s.gate || !r.passed,
          responding := if r.counted then s.responding - 1 else s.responding,
          slots := s.slots + 1)
    case Spawn => s.(responders := s.responders + [Responder(false, Waiting, true, false, 0)])
  }

  function Roster(n: nat): seq<Responder> { seq(n, i => Responder(true, Waiting, false, false, 0)) }

  function Init(limit: nat, n: nat): State { State(limit, n, Roster(n), limit, false, 0, 0) }

  // ---- Invariant --------------------------------------------------------------------

  function Holding(): Responder -> bool { (r: Responder) => Holds(r) }

  function Counted(): Responder -> bool { (r: Responder) => r.counted }

  function Gated(): Responder -> bool { (r: Responder) => r.gated }

  function FirstDone(): Responder -> bool { (r: Responder) => r.gated && r.published >= 1 }

  /** Ended without ever getting past the gate. */
  predicate EndedEarly(r: Responder) { r.stage.Ended? && !r.passed }

  /** It has had an emission, and has not ended. */
  predicate Answers(r: Responder) {
    r.stage.Publishing? || r.stage.AtGate? || (r.stage.Listening? && r.published >= 1)
  }

  predicate Consistent(s: State, r: Responder) {
    && (r.counted <==> Answers(r))
    && (r.stage.Waiting? || EndedEarly(r) ==> r.published == 0)
    && (!r.gated ==> r.passed)
    && (r.gated && r.passed ==> s.gate && r.published >= 1)
    && (EndedEarly(r) ==> s.gate)
    && (!r.passed && r.stage != Ended ==> r.published == if r.stage.AtGate? then 1 else 0)
    && (!r.passed ==> r.published <= 1)
    && (r.stage.AtGate? ==> !r.passed)
  }

  ghost predicate SomeEndedEarly(s: State) {
    exists i :: 0 <= i < |s.responders| && EndedEarly(s.responders[i])
  }

  /** Slots and counters tell how many responders there are of each kind. */
  predicate Tallied(s: State) {
    && s.slots + Count(Holding(), s.responders) == s.limit
    && s.responding == Count(Counted(), s.responders)
    && s.started == Count(FirstDone(), s.responders)
    && s.roster == Count(Gated(), s.responders)
  }

  ghost predicate Inv(s: State) {
    && s.limit >= 1 && s.roster >= 1 && Tallied(s)
    && (s.started >= Target(s) ==> s.gate)
    && (s.gate ==> s.started >= Target(s) || SomeEndedEarly(s))
    && RosterFirst(s)
    && forall i :: 0 <= i < |s.responders| ==> Consistent(s, s.responders[i])
  }

  /** The gate applies to the roster, which comes first; children follow. */
  predicate RosterFirst(s: State) {
    s.roster <= |s.responders| && forall i :: 0 <= i < |s.responders| ==> (s.responders[i].gated <==> i < s.roster)
  }

  lemma {:induction false} InitCounts(n: nat)
    ensures Count(Holding(), Roster(n)) == 0 && Count(Counted(), Roster(n)) == 0
    ensures Count(FirstDone(), Roster(n)) == 0 && Count(Gated(), Roster(n)) == n
  {
    if n > 0 {
      assert Roster(n)[1..] == Roster(n - 1);
      InitCounts(n - 1);
    }
  }

  lemma InitHolds(limit: nat, n: nat)
    requires limit >= 1 && n >= 1
    ensures Inv(Init(limit, n))
  {
    InitCounts(n);
  }

  lemma CountsAfter(rs: seq<Responder>, i: nat, r: Responder)
    requires i < |rs|
    ensures var a := rs[i];
      && Count(Holding(), rs[i := r]) == Count(Holding(), rs)
           - (if Holds(a) then 1 else 0) + (if Holds(r) then 1 else 0)
      && Count(Counted(), rs[i := r]) == Count(Counted(), rs)
           - (if a.counted then 1 else 0) + (if r.counted then 1 else 0)
      && Count(FirstDone(), rs[i := r]) == Count(FirstDone(), rs)
           - (if a.gated && a.published >= 1 then 1 else 0) + (if r.gated && r.published >= 1 then 1 else 0)
      && Count(Gated(), rs[i := r]) == Count(Gated(), rs) - (if a.gated then 1 else 0) + (if r.gated then 1 else 0)
  {
    CountUpdate(Holding(), rs, i, r);
    CountUpdate(Counted(), rs, i, r);
    CountUpdate(FirstDone(), rs, i, r);
    CountUpdate(Gated(), rs, i, r);
  }

  lemma SpawnKeeps(s: State)
    requires Inv(s)
    ensures Inv(Step(s, Spawn))
  {
    var r := Responder(false, Waiting, true, false, 0);
    CountAppend(Holding(), s.responders, r);
    CountAppend(Counted(), s.responders, r);
    CountAppend(FirstDone(), s.responders, r);
    CountAppend(Gated(), s.responders, r);
    EarlyStays(s, Step(s, Spawn));
  }

  /** Nobody who ended early comes back. */
  lemma EarlyStays(s: State, t: State)
    requires |s.responders| <= |t.responders|
    requires forall j :: 0 <= j < |s.responders| && s.responders[j].stage.Ended? ==> t.responders[j] == s.responders[j]
    ensures SomeEndedEarly(s) ==> SomeEndedEarly(t)
  {}

  lemma StepTallies(s: State, op: Op)
    requires Tallied(s) && Enabled(s, op) && !op.Spawn? && Consistent(s, s.responders[op.i])
    ensures Tallied(Step(s, op))
  {
    CountsAfter(s.responders, op.i, Step(s, op).responders[op.i]);
  }

  lemma StepConsistent(s: State, op: Op, j: nat)
    requires Enabled(s, op) && !op.Spawn? && j < |s.responders| && Consistent(s, s.responders[j])
    ensures Consistent(Step(s, op), Step(s, op).responders[j])
  {}

  /** The gate is open when the target is met, and only then or when somebody has ended early. */
  lemma StepGates(s: State, op: Op)
    requires Enabled(s, op) && !op.Spawn?
    requires s.started >= Target(s) ==> s.gate
    requires s.gate ==> s.started >= Target(s) || SomeEndedEarly(s)
    ensures var t := Step(s, op);
            (t.started >= Target(t) ==> t.gate) && (t.gate ==> t.started >= Target(t) || SomeEndedEarly(t))
  {
    var t := Step(s, op);
    EarlyStays(s, t);
    assert EndedEarly(t.responders[op.i]) ==> SomeEndedEarly(t);
  }

  lemma StepKeeps(s: State, op: Op)
    requires Inv(s) && Enabled(s, op)
    ensures Inv(Step(s, op))
  {
    if op.Spawn? {
      SpawnKeeps(s);
    } else {
      var t := Step(s, op);
      StepTallies(s, op);
      StepGates(s, op);
      forall j | 0 <= j < |t.responders| ensures Consistent(t, t.responders[j]) { StepConsistent(s, op, j); }
    }
  }

  // ---- Every run ----------------------------------------------------------------------

  ghost predicate Reaches(s: State, ops: seq<Op>, t: State)
    decreases |ops|
  {
    if ops == [] then s == t
    else Enabled(s, ops[0]) && Reaches(Step(s, ops[0]), ops[1..], t)
  }

  lemma {:induction false} RunKeeps(s: State, ops: seq<Op>, t: State)
    requires Inv(s) && Reaches(s, ops, t)
    ensures Inv(t)
    decreases |ops|
  {
    if ops != [] {
      StepKeeps(s, ops[0]);
      RunKeeps(Step(s, ops[0]), ops[1..], t);
    }
  }

  /** Never more responders at once than speaker slots. */
  lemma WithinLimit(limit: nat, n: nat, ops: seq<Op>, t: State)
    requires limit >= 1 && n >= 1 && Reaches(Init(limit, n), ops, t)
    ensures t.responding <= t.limit
  {
    InitHolds(limit, n);
    RunKeeps(Init(limit, n), ops, t);
    forall r | r in t.responders && r.counted ensures Holds(r) {
      var i :| 0 <= i < |t.responders| && t.responders[i] == r;
      assert Consistent(t, t.responders[i]);
    }
    CountImplied(Counted(), Holding(), t.responders);
  }

  lemma {:induction false} Unchanging(s: State, ops: seq<Op>, t: State)
    requires Reaches(s, ops, t)
    ensures t.limit == s.limit && t.roster == s.roster
    decreases |ops|
  {
    if ops != [] { Unchanging(Step(s, ops[0]), ops[1..], t); }
  }

  /** How many of the roster have published something. */
  function Begun(s: State): nat { Count(FirstDone(), s.responders) }

  predicate HasBegun(s: State, j: nat) { j < |s.responders| && s.responders[j].published >= 1 }

  predicate GaveUp(s: State, j: nat) {
    j < |s.responders| && s.responders[j].stage.Ended? && s.responders[j].published == 0
  }

  /** As many of the roster as can speak at once have published something, or all, or one has ended with nothing. */
  ghost predicate MayGoOn(s: State, limit: nat, n: nat) {
    Begun(s) >= limit || (forall j: nat :: j < n ==> HasBegun(s, j)) || exists j: nat :: j < n && GaveUp(s, j)
  }

  lemma AllBegun(s: State)
    requires Inv(s)
    ensures Begun(s) >= s.roster <==> forall j: nat :: j < s.roster ==> HasBegun(s, j)
  {
    if forall j: nat :: j < s.roster ==> HasBegun(s, j) {
      forall r | r in s.responders && r.gated ensures FirstDone()(r) {
        var j :| 0 <= j < |s.responders| && s.responders[j] == r;
        assert HasBegun(s, j);
      }
      CountImplied(Gated(), FirstDone(), s.responders);
    } else {
      var j: nat :| j < s.roster && !HasBegun(s, j);
      CountLess(FirstDone(), Gated(), s.responders, j);
    }
  }

  lemma OneGaveUp(s: State)
    requires Inv(s)
    ensures SomeEndedEarly(s) <==> exists j: nat :: j < s.roster && GaveUp(s, j)
  {
    if SomeEndedEarly(s) {
      var j :| 0 <= j < |s.responders| && EndedEarly(s.responders[j]);
      assert Consistent(s, s.responders[j]) && GaveUp(s, j);
    }
    if j: nat :| j < s.roster && GaveUp(s, j) {
      assert Consistent(s, s.responders[j]) && EndedEarly(s.responders[j]);
    }
  }

  /** The gate is open exactly when it should be. */
  lemma GateOpensExactly(limit: nat, n: nat, ops: seq<Op>, t: State)
    requires limit >= 1 && n >= 1 && Reaches(Init(limit, n), ops, t)
    ensures t.gate <==> MayGoOn(t, limit, n)
  {
    InitHolds(limit, n);
    RunKeeps(Init(limit, n), ops, t);
    Unchanging(Init(limit, n), ops, t);
    AllBegun(t);
    OneGaveUp(t);
    if j: nat :| j < n && GaveUp(t, j) { assert Consistent(t, t.responders[j]); }
  }

  /**
   * No responder of the roster gets past its first event before as many of them as can
   * speak at once have published one, or all have, or one has ended without; and until
   * then it keeps its slot and waits.
   */
  lemma NoSecondBeforeTarget(limit: nat, n: nat, ops: seq<Op>, t: State, i: nat)
    requires limit >= 1 && n >= 1 && Reaches(Init(limit, n), ops, t)
    requires i < n && HasBegun(t, i)
    ensures MayGoOn(t, limit, n) || (t.responders[i].stage.AtGate? && t.responders[i].published == 1)
  {
    InitHolds(limit, n);
    RunKeeps(Init(limit, n), ops, t);
    Unchanging(Init(limit, n), ops, t);
    GateOpensExactly(limit, n, ops, t);
    assert Consistent(t, t.responders[i]);
  }

  /** The number responding is the number that have had an emission and not ended. */
  lemma RespondingExactly(limit: nat, n: nat, ops: seq<Op>, t: State)
    requires limit >= 1 && n >= 1 && Reaches(Init(limit, n), ops, t)
    ensures t.responding == Count(Answering(), t.responders)
  {
    InitHolds(limit, n);
    RunKeeps(Init(limit, n), ops, t);
    forall r | r in t.responders ensures r.counted <==> Answers(r) {
      var i :| 0 <= i < |t.responders| && t.responders[i] == r;
      assert Consistent(t, t.responders[i]);
    }
    CountImplied(Counted(), Answering(), t.responders);
    CountImplied(Answering(), Counted(), t.responders);
  }

  /** Whoever listens or publishes may end: that frees its slot, and opens the gate if it ends with nothing. */
  lemma EndingFrees(s: State, i: nat)
    requires Inv(s) && i < |s.responders| && (s.responders[i].stage.Listening? || s.responders[i].stage.Publishing?)
    ensures Enabled(s, End(i)) && Step(s, End(i)).slots == s.slots + 1
    ensures s.responders[i].gated && s.responders[i].published == 0 ==> Step(s, End(i)).gate
  {
    assert Consistent(s, s.responders[i]);
  }

  /** What a responder has published, and is publishing. */
  function Output(r: Responder): nat { r.published + if r.stage.Publishing? then 1 else 0 }

  function Emits(i: nat): Op -> bool { (op: Op) => op == Emit(i) }

  /** Nothing is published but what was emitted, and once. */
  lemma {:induction false} OnlyEmitted(s: State, ops: seq<Op>, t: State, i: nat)
    requires Reaches(s, ops, t) && i < |s.responders|
    ensures i < |t.responders| && Output(t.responders[i]) <= Output(s.responders[i]) + Count(Emits(i), ops)
    decreases |ops|
  {
    if ops != [] { OnlyEmitted(Step(s, ops[0]), ops[1..], t, i); }
  }

  function Answering(): Responder -> bool { (r: Responder) => Answers(r) }

  /** A closed gate cannot hold everybody up. */
  lemma SomebodyMoves(s: State, i: nat)
    requires Inv(s) && i < |s.responders| && s.responders[i].stage != Ended
    requires forall j :: 0 <= j < |s.responders| ==>
               s.responders[j].stage.Waiting? || s.responders[j].stage.AtGate? || s.responders[j].stage.Ended?
    ensures s.gate || (s.slots > 0 && exists j :: 0 <= j < |s.responders| && s.responders[j].stage.Waiting?)
  {
    forall r | r in s.responders && Holds(r) ensures r.gated && r.published >= 1 {
      var j :| 0 <= j < |s.responders| && s.responders[j] == r;
      assert Consistent(s, s.responders[j]);
    }
    if s.slots == 0 {
      CountImplied(Holding(), FirstDone(), s.responders);
    } else if !s.gate && forall j :: 0 <= j < |s.responders| ==> !s.responders[j].stage.Waiting? {
      forall r | r in s.responders && r.gated ensures r.published >= 1 {
        var j :| 0 <= j < |s.responders| && s.responders[j] == r;
        assert Consistent(s, s.responders[j]);
      }
      CountImplied(Gated(), FirstDone(), s.responders);
    }
  }

  /**
   * No deadlock between the slots and the gate: while a responder is unfinished, some
   * responder can enter, go on publishing, pass the gate or end.
   */
  lemma NoDeadlock(limit: nat, n: nat, ops: seq<Op>, t: State, i: nat) returns (op: Op)
    requires limit >= 1 && n >= 1 && Reaches(Init(limit, n), ops, t)
    requires i < |t.responders| && t.responders[i].stage != Ended
    ensures Enabled(t, op) && !op.Spawn?
  {
    InitHolds(limit, n);
    RunKeeps(Init(limit, n), ops, t);
    if j :| 0 <= j < |t.responders| && t.responders[j].stage.Listening? {
      op := Emit(j);
    } else if j :| 0 <= j < |t.responders| && t.responders[j].stage.Publishing? {
      op := Publish(j);
    } else {
      SomebodyMoves(t, i);
      if t.gate && t.responders[i].stage.AtGate? {
        op := Pass(i);
      } else if j :| 0 <= j < |t.responders| && t.responders[j].stage.AtGate? && t.gate {
        op := Pass(j);
      } else {
        op := EnterSome(t, i);
      }
    }
  }

  /** With nobody in a slot, a slot is free for whoever waits. */
  lemma EnterSome(t: State, i: nat) returns (op: Op)
    requires Inv(t) && i < |t.responders| && t.responders[i].stage != Ended
    requires forall j :: 0 <= j < |t.responders| ==>
               || t.responders[j].stage.Waiting? || t.responders[j].stage.Ended?
               || (t.responders[j].stage.AtGate? && !t.gate)
    requires t.gate || (t.slots > 0 && exists j :: 0 <= j < |t.responders| && t.responders[j].stage.Waiting?)
    ensures Enabled(t, op) && op.Enter?
  {
    if t.gate {
      forall r | r in t.responders ensures !Holds(r) {
        var j :| 0 <= j < |t.responders| && t.responders[j] == r;
      }
      CountZero(Holding(), t.responders);
      op := Enter(i);
    } else {
      var j :| 0 <= j < |t.responders| && t.responders[j].stage.Waiting?;
      op := Enter(j);
    }
  }

  // ---- The controller's fields ---------------------------------------------------------

  /** The semaphore, the gate with its shared count, and the number responding, as `_respond` uses them. */
  class Speakers {
    const limit: nat
    const roster: nat
    var responders: seq<Responder>
    var slots: nat
    var gate: bool
    var started: nat
    var responding: int

    function View(): State
      reads this
    {
      State(limit, roster, responders, slots, gate, started, responding)
    }

    constructor (limit: nat, n: nat)
      requires limit >= 1
      ensures View() == Init(limit, n)
    {
      this.limit, roster, slots := limit, n, limit;
      responders := Roster(n);
      gate, started, responding := false, 0, 0;
    }

    method Enter(i: nat)
      requires Enabled(View(), Op.Enter(i))
      modifies this
      ensures View() == Step(old(View()), Op.Enter(i))
    {
      slots := slots - 1;
      responders := responders[i := responders[i].(stage := Listening)];
    }

    method Emit(i: nat)
      requires Enabled(View(), Op.Emit(i))
      modifies this
      ensures View() == Step(old(View()), Op.Emit(i))
    {
      if !responders[i].counted { responding := responding + 1; }
      responders := responders[i := responders[i].(stage := Publishing, counted := true)];
    }

    method Published(i: nat)
      requires Enabled(View(), Publish(i))
      modifies this
      ensures View() == Step(old(View()), Publish(i))
    {
      var r := responders[i].(published := responders[i].published + 1, stage := Listening);
      if !r.passed {
        started := started + 1;
        var target := if limit < roster then limit else roster;
        if started >= target { gate := true; }
        r := if gate then r.(passed := true) else r.(stage := AtGate);
      }
      responders := responders[i := r];
    }

    method PassGate(i: nat)
      requires Enabled(View(), Pass(i))
      modifies this
      ensures View() == Step(old(View()), Pass(i))
    {
      responders := responders[i := responders[i].(stage := Listening, passed := true)];
    }

    method Finish(i: nat)
      requires Enabled(View(), End(i))
      modifies this
      ensures View() == Step(old(View()), End(i))
    {
      var r := responders[i];
      if !r.passed { gate := true; }
      if r.counted { responding := responding - 1; }
      slots := slots + 1;
      responders := responders[i := r.(stage := Ended, counted := false)];
    }
  }
}
