/**
 * The collaboration room and its event store. A publisher takes the lock, stores its
 * event, lists the subscribers and puts the event into their queues one by one; other
 * coroutines run wherever it awaits, and other processes may append to the same store.
 */
module Room {
  import opened Sums
  import opened Strings

  type Id = string

  datatype Event = Event(run: Id, sequence: nat, kind: Id, actor: Id, payload: Id)

  // ---- The event store -----------------------------------------------------------

  function MaxSequence(rows: seq<Event>, run: Id): nat {
    if rows == [] then 0
    else
      var e := rows[|rows| - 1];
      var before := MaxSequence(rows[..|rows| - 1], run);
      if e.run == run && e.sequence > before then e.sequence else before
  }

  function Stamped(rows: seq<Event>, e: Event): Event {
    e.(sequence := MaxSequence(rows, e.run) + 1)
  }

  function OfRun(run: Id): Event -> bool { (e: Event) => e.run == run }

  /** The events of a run; the store returns them by sequence, which is the order they came in. */
  function Replay(rows: seq<Event>, run: Id): seq<Event> { Filter(OfRun(run), rows) }

  /** Every event's sequence counts the events of its run up to itself. */
  ghost predicate Numbered(rows: seq<Event>) {
    forall i :: 0 <= i < |rows| ==> rows[i].sequence == Count(OfRun(rows[i].run), rows[..i]) + 1
  }

  lemma {:induction false} MaxIsCount(rows: seq<Event>, run: Id)
    requires Numbered(rows)
    ensures MaxSequence(rows, run) == Count(OfRun(run), rows)
  {
    if rows != [] {
      var front := rows[..|rows| - 1];
      forall i | 0 <= i < |front|
        ensures front[i].sequence == Count(OfRun(front[i].run), front[..i]) + 1
      {
        assert front[..i] == rows[..i];
      }
      MaxIsCount(front, run);
      CountAppend(OfRun(run), front, rows[|rows| - 1]);
      assert rows == front + [rows[|rows| - 1]];
    }
  }

  /** Appending keeps the numbering, whoever appends and to whichever run. */
  lemma AppendNumbers(rows: seq<Event>, e: Event)
    requires Numbered(rows)
    ensures Numbered(rows + [Stamped(rows, e)])
    ensures forall x :: x in rows && x.run == e.run ==> x.sequence < Stamped(rows, e).sequence
  {
    var after := rows + [Stamped(rows, e)];
    MaxIsCount(rows, e.run);
    forall i | 0 <= i < |after|
      ensures after[i].sequence == Count(OfRun(after[i].run), after[..i]) + 1
    {
      assert after[..i] == rows[..i];
      if i == |rows| { assert rows[..i] == rows; }
    }
    forall x | x in rows && x.run == e.run
      ensures x.sequence <= MaxSequence(rows, e.run)
    {
      MaxBounds(rows, x);
    }
  }

  lemma {:induction false} MaxBounds(rows: seq<Event>, x: Event)
    requires x in rows
    ensures x.sequence <= MaxSequence(rows, x.run)
  {
    if x != rows[|rows| - 1] {
      MaxBounds(rows[..|rows| - 1], x);
    }
  }

  /** The stored sequences of a run are 1, 2, ..., n, without gaps or repeats. */
  lemma {:induction false} ReplayIsGapless(rows: seq<Event>, run: Id)
    requires Numbered(rows)
    ensures |Replay(rows, run)| == Count(OfRun(run), rows)
    ensures forall i :: 0 <= i < |Replay(rows, run)| ==> Replay(rows, run)[i].sequence == i + 1
  {
    if rows != [] {
      var front, e := rows[..|rows| - 1], rows[|rows| - 1];
      forall i | 0 <= i < |front|
        ensures front[i].sequence == Count(OfRun(front[i].run), front[..i]) + 1
      {
        assert front[..i] == rows[..i];
      }
      ReplayIsGapless(front, run);
      assert rows == front + [e];
      CountAppend(OfRun(run), front, e);
      FilterConcat(OfRun(run), front, [e]);
      assert Replay(rows, run) == Replay(front, run) + Filter(OfRun(run), [e]);
    }
  }

  // ---- The room, one step at a time ------------------------------------------------

  /** How far the publisher that holds the lock has come. */
  datatype Phase =
    | Free
    | Holding(event: Event)
    | Stored(event: Event)
    | Delivering(event: Event, rest: seq<Id>)

  /**
   * The store's rows, the publish lock, the subscribers' queues; and for the theorems the
   * events this room has stored, where in them each subscriber joined and what it has taken.
   */
  datatype State = State(
    rows: seq<Event>, phase: Phase, queues: map<Id, seq<Event>>, size: nat,
    log: seq<Event>, since: map<Id, nat>, taken: map<Id, seq<Event>>)

  function Init(rows: seq<Event>, size: nat): State { State(rows, Free, map[], size, [], map[], map[]) }

  datatype Op =
    | Subscribe(who: Id)
    | Acquire(event: Event)
    | Persist
    | List
    | Put
    | Release
    | Get(who: Id)
    | Foreign(event: Event)

  /** What each step needs before it can be taken. */
  ghost predicate Enabled(s: State, op: Op) {
    match op
    case Subscribe(who) => who !in s.queues
    case Acquire(_) => s.phase.Free?
    case Persist => s.phase.Holding?
    case List => s.phase.Stored?
    case Put => s.phase.Delivering? && s.phase.rest != [] && s.phase.rest[0] in s.queues
                && |s.queues[s.phase.rest[0]]| < s.size
    case Release => s.phase.Delivering? && s.phase.rest == []
    case Get(who) => who in s.queues && s.queues[who] != [] && who in s.taken
    case Foreign(_) => true
  }

  function Step(s: State, op: Op): State
    requires Enabled(s, op)
  {
    match op
    case Subscribe(who) =>
      s.(queues := s.queues[who := []], since := s.since[who := |s.log|
         - (if s.phase.Stored? && s.log != [] then 1 else 0)], taken := s.taken[who := []])
    case Acquire(e) => s.(phase := Holding(e))
    case Persist =>
      var e := Stamped(s.rows, s.phase.event);
      s.(rows := s.rows + [e], log := s.log + [e], phase := Stored(e))
    case List => s.(phase := Delivering(s.phase.event, Sorted(s.queues.Keys)))
    case Put =>
      var p := s.phase.rest[0];
      s.(queues := s.queues[p := s.queues[p] + [s.phase.event]],
         phase := Delivering(s.phase.event, s.phase.rest[1..]))
    case Release => s.(phase := Free)
    case Get(who) =>
      s.(queues := s.queues[who := s.queues[who][1..]], taken := s.taken[who := s.taken[who] + [s.queues[who][0]]])
    case Foreign(e) => s.(rows := s.rows + [Stamped(s.rows, e)])
  }

  /** Is the event being published still owed to this subscriber? */
  predicate Owed(s: State, p: Id) {
    s.phase.Stored? || (s.phase.Delivering? && p in s.phase.rest)
  }

  function Upto(s: State, p: Id): int { if Owed(s, p) then |s.log| - 1 else |s.log| }

  /** What p has taken and what waits for it are the events since it joined, in order. */
  ghost predicate Sliced(s: State, p: Id)
    requires p in s.queues && p in s.since && p in s.taken
  {
    && s.since[p] <= Upto(s, p) <= |s.log|
    && s.taken[p] + s.queues[p] == s.log[s.since[p]..Upto(s, p)]
    && |s.queues[p]| <= s.size
  }

  ghost predicate PhaseSound(s: State) {
    && (s.phase.Stored? || s.phase.Delivering? ==> s.log != [] && s.log[|s.log| - 1] == s.phase.event)
    && (s.phase.Delivering? ==>
          && Ascending(s.phase.rest)
          && (forall p :: p in s.phase.rest ==> p in s.queues))
  }

  ghost predicate LogSound(s: State) {
    && (forall i :: 0 <= i < |s.log| ==> s.log[i] in s.rows)
    && (forall i, j :: 0 <= i < j < |s.log| && s.log[i].run == s.log[j].run ==> s.log[i].sequence < s.log[j].sequence)
  }

  ghost predicate Inv(s: State) {
    && s.size > 0 && s.queues.Keys == s.since.Keys == s.taken.Keys
    && Numbered(s.rows) && LogSound(s) && PhaseSound(s)
    && forall p :: p in s.queues ==> Sliced(s, p)
  }

  lemma PersistKeepsLog(s: State)
    requires Numbered(s.rows) && LogSound(s) && Enabled(s, Persist)
    ensures LogSound(Step(s, Persist)) && Numbered(Step(s, Persist).rows)
  {
    AppendNumbers(s.rows, s.phase.event);
  }

  lemma ForeignKeepsLog(s: State, e: Event)
    requires Numbered(s.rows) && LogSound(s)
    ensures LogSound(Step(s, Foreign(e))) && Numbered(Step(s, Foreign(e)).rows)
  {
    AppendNumbers(s.rows, e);
  }

  lemma StepKeepsLog(s: State, op: Op)
    requires Numbered(s.rows) && LogSound(s) && Enabled(s, op)
    ensures Numbered(Step(s, op).rows) && LogSound(Step(s, op))
  {
    match op
    case Persist => PersistKeepsLog(s);
    case Foreign(e) => ForeignKeepsLog(s, e);
    case _ =>
  }

  lemma ListKeepsPhase(s: State)
    requires PhaseSound(s) && Enabled(s, List)
    ensures PhaseSound(Step(s, List))
  {}

  lemma StepKeepsPhase(s: State, op: Op)
    requires PhaseSound(s) && Enabled(s, op) && !op.List?
    ensures PhaseSound(Step(s, op))
  {}

  lemma StepKeepsKeys(s: State, op: Op)
    requires s.queues.Keys == s.since.Keys == s.taken.Keys && Enabled(s, op)
    ensures var t := Step(s, op); t.queues.Keys == t.since.Keys == t.taken.Keys && t.size == s.size
  {}

  lemma GetKeepsSlice(s: State, op: Op, p: Id)
    requires op.Get? && Enabled(s, op) && p in s.queues && p in s.since && p in s.taken
    requires Sliced(s, p)
    ensures p in Step(s, op).queues && p in Step(s, op).taken && Sliced(Step(s, op), p)
  {
    var t := Step(s, op);
    if op.who == p { assert t.taken[p] + t.queues[p] == s.taken[p] + s.queues[p]; }
  }

  /** The event being put is the next one the subscriber is owed. */
  lemma SliceGrows(log: seq<Event>, taken: seq<Event>, queue: seq<Event>, since: nat)
    requires log != [] && since <= |log| - 1 && taken + queue == log[since..|log| - 1]
    ensures taken + (queue + [log[|log| - 1]]) == log[since..|log|]
  {
    assert taken + (queue + [log[|log| - 1]]) == (taken + queue) + [log[|log| - 1]];
  }

  lemma PutKeepsSlice(s: State, op: Op, p: Id)
    requires op.Put? && Enabled(s, op) && p in s.queues && p in s.since && p in s.taken
    requires PhaseSound(s) && Sliced(s, p)
    ensures p in Step(s, op).queues && Sliced(Step(s, op), p)
  {
    var rest := s.phase.rest;
    if rest[0] == p {
      assert p !in rest[1..];
      SliceGrows(s.log, s.taken[p], s.queues[p], s.since[p]);
    } else {
      assert p in rest <==> p in rest[1..];
      assert Step(s, op).queues[p] == s.queues[p];
    }
  }

  lemma PersistKeepsSlice(s: State, op: Op, p: Id)
    requires op.Persist? && Enabled(s, op) && p in s.queues && p in s.since && p in s.taken
    requires Sliced(s, p)
    ensures Sliced(Step(s, op), p)
  {
    var t := Step(s, op);
    assert t.log[..|s.log|] == s.log;
    assert s.log[s.since[p]..|s.log|] == t.log[s.since[p]..|s.log|];
  }

  lemma SubscribeKeepsSlice(s: State, who: Id, p: Id)
    requires Inv(s) && Enabled(s, Subscribe(who)) && p in Step(s, Subscribe(who)).queues
    ensures Sliced(Step(s, Subscribe(who)), p)
  {
    if p != who { assert Sliced(s, p); }
  }

  lemma ListKeepsSlice(s: State, p: Id)
    requires Enabled(s, List) && p in s.queues && p in s.since && p in s.taken && Sliced(s, p)
    ensures Sliced(Step(s, List), p)
  {
    assert p in Sorted(s.queues.Keys);
  }

  lemma OtherKeepsSlice(s: State, op: Op, p: Id)
    requires Enabled(s, op) && p in s.queues && p in s.since && p in s.taken && Sliced(s, p)
    requires op.Acquire? || op.Release? || op.Foreign?
    ensures p in Step(s, op).queues && Sliced(Step(s, op), p)
  {
  }

  /** Every step, whoever takes it, keeps the room's invariant. */
  lemma StepKeeps(s: State, op: Op)
    requires Inv(s) && Enabled(s, op)
    ensures Inv(Step(s, op))
  {
    var t := Step(s, op);
    StepKeepsLog(s, op);
    if op.List? { ListKeepsPhase(s); } else { StepKeepsPhase(s, op); }
    StepKeepsKeys(s, op);
    forall p | p in t.queues
      ensures Sliced(t, p)
    {
      assert p in s.queues ==> Sliced(s, p);
      match op
      case Get(_) => GetKeepsSlice(s, op, p);
      case Put => PutKeepsSlice(s, op, p);
      case Persist => PersistKeepsSlice(s, op, p);
      case Subscribe(who) => SubscribeKeepsSlice(s, who, p);
      case List => ListKeepsSlice(s, p);
      case _ => OtherKeepsSlice(s, op, p);
    }
  }

  // ---- What others do while a publisher waits ------------------------------------------

  predicate OfOthers(op: Op) { op.Subscribe? || op.Get? || op.Foreign? }

  /** No queue is full. */
  predicate Roomy(s: State) { forall p :: p in s.queues ==> |s.queues[p]| < s.size }

  /** Every subscriber is still there, from where it joined. */
  ghost predicate Kept(s: State, t: State) {
    forall p :: p in s.queues && p in s.since ==> p in t.queues && p in t.since && t.since[p] == s.since[p]
  }

  /** The same publisher is at the same point. */
  ghost predicate Past(s: State, t: State) { Kept(s, t) && t.phase == s.phase && t.log == s.log }

  /** The publisher may have put its event into some queues. */
  ghost predicate Grown(s: State, t: State) { Kept(s, t) && t.log == s.log }

  /** A subscriber's part of one publication is the event once, unless it is owed still. */
  ghost predicate Credited(s: State, t: State, p: Id, e: Event) {
    && p in s.queues && p in s.taken && p in t.queues && p in t.taken
    && t.taken[p] + t.queues[p] == s.taken[p] + s.queues[p] + (if Owed(t, p) then [] else [e])
  }

  lemma OneMore(log: seq<Event>, n: nat, e: Event)
    requires n <= |log|
    ensures (log + [e])[n..|log|] == log[n..|log|] && (log + [e])[n..|log| + 1] == log[n..|log|] + [e]
  {}

  lemma Gained(s: State, t: State, p: Id, e: Event)
    requires p in s.queues && p in s.taken && p in s.since && Sliced(s, p) && s.phase.Free?
    requires p in t.queues && p in t.taken && p in t.since && Sliced(t, p)
    requires t.since[p] == s.since[p] && t.log == s.log + [e]
    ensures Credited(s, t, p, e)
  {
    OneMore(s.log, s.since[p], e);
  }

  lemma AllCredited(s: State, t: State, e: Event)
    requires Inv(s) && Inv(t) && Kept(s, t) && s.phase.Free? && t.log == s.log + [e]
    ensures forall p :: p in s.queues ==> Credited(s, t, p, e)
  {
    forall p | p in s.queues ensures Credited(s, t, p, e) { Gained(s, t, p, e); }
  }

  /** If nobody did anything meanwhile, the queue that is waited for was as full before. */
  lemma StillOwed(s: State, t: State, e: Event)
    requires Inv(s) && Inv(t) && t.taken == s.taken && t.phase.Delivering? && t.phase.rest != []
    requires forall p :: p in s.queues ==> Credited(s, t, p, e)
    ensures t.phase.rest[0] in s.queues && t.queues[t.phase.rest[0]] == s.queues[t.phase.rest[0]]
  {
    var p := t.phase.rest[0];
    assert p in t.taken && Credited(s, t, p, e);
    assert t.taken[p] + t.queues[p] == t.taken[p] + s.queues[p];
    assert t.queues[p] == (t.taken[p] + t.queues[p])[|t.taken[p]|..];
  }

  /** A run: each operation enabled where it is taken. */
  ghost predicate Reaches(s: State, ops: seq<Op>, t: State)
    decreases |ops|
  {
    if ops == [] then s == t
    else Enabled(s, ops[0]) && Reaches(Step(s, ops[0]), ops[1..], t)
  }

  lemma {:induction false} RunKeeps(s: State, ops: seq<Op>, t: State)
    requires Inv(s) && Reaches(s, ops, t)
    ensures Inv(t)
    decreases |ops|
  {
    if ops != [] {
      StepKeeps(s, ops[0]);
      RunKeeps(Step(s, ops[0]), ops[1..], t);
    }
  }

  /**
   * Ordered delivery: under any interleaving of publishers, subscribers, consumers and
   * foreign writers, what a subscriber has taken plus what waits in its queue is one
   * unbroken stretch of the events the room stored, in the order of their sequences, from
   * where it joined up to the last event, or to the one before while that is still owed;
   * everything delivered was stored first, and no queue outgrows its size.
   */
  lemma OrderedDelivery(rows: seq<Event>, size: nat, ops: seq<Op>, t: State, p: Id)
    requires Numbered(rows) && size > 0
    requires Reaches(Init(rows, size), ops, t) && p in t.queues && p in t.taken && p in t.since
    ensures t.since[p] <= Upto(t, p) <= |t.log|
    ensures t.taken[p] + t.queues[p] == t.log[t.since[p]..Upto(t, p)]
    ensures forall e :: e in t.taken[p] + t.queues[p] ==> e in t.rows
    ensures forall i, j :: 0 <= i < j < |t.log| && t.log[i].run == t.log[j].run ==>
              t.log[i].sequence < t.log[j].sequence
    ensures |t.queues[p]| <= t.size
    ensures forall run :: forall i :: 0 <= i < |Replay(t.rows, run)| ==> Replay(t.rows, run)[i].sequence == i + 1
  {
    RunKeeps(Init(rows, size), ops, t);
    assert Sliced(t, p);
    forall run { ReplayIsGapless(t.rows, run); }
  }

  /** While the lock is held some step can be taken: the publisher's own, or a full queue's consumer's. */
  lemma NeverStuck(s: State) returns (op: Op)
    requires Inv(s) && !s.phase.Free?
    ensures Enabled(s, op)
    ensures || op.Persist? || op.List? || op.Put? || op.Release?
            || (op.Get? && s.phase.Delivering? && op.who in s.phase.rest)
  {
    match s.phase
    case Holding(_) => op := Persist;
    case Stored(_) => op := List;
    case Delivering(_, rest) =>
      if rest == [] {
        op := Release;
      } else if |s.queues[rest[0]]| < s.size {
        op := Put;
      } else {
        assert rest[0] in s.queues.Keys;
        op := Get(rest[0]);
      }
  }
}
