/** A run's persisted events, and what they alone say about its participants and budget. */
module Receipts {
  import opened Wrappers
  import opened Participants

  datatype Kind =
    | RunStarted(capacity: Capacity, budget: nat)
    | RunEnded
    | Joined(participant: Participant)
    | Admitted(participant: Participant, context: seq<string>, budget: nat)
    | Speaking
    | Spoken
    | Degraded(who: Id)
    | Other

  datatype Event = Event(run: Id, sequence: nat, actor: Id, kind: Kind)

  datatype Snapshot = Snapshot(participant: Participant, context: seq<string>, budget: nat)

  datatype Activity = Active | Terminal

  datatype Reconstructed = Reconstructed(
    terminal: bool, states: map<Id, Activity>, participants: map<Id, Snapshot>, consumed: nat)

  datatype HistoryError = NotStarted | MixedRuns | OutOfOrder

  const NOTHING := Reconstructed(false, map[], map[], 0)

  function Observe(r: Reconstructed, e: Event): Reconstructed {
    match e.kind
    case Joined(p) =>
      r.(states := r.states[p.id := Active], participants := r.participants[p.id := Snapshot(p, [], 0)])
    case Admitted(p, context, budget) =>
      r.(states := r.states[p.id := Active], participants := r.participants[p.id := Snapshot(p, context, budget)],
         consumed := r.consumed + budget)
    case RunEnded => r.(terminal := true)
    case Speaking => if e.actor in r.states then r.(states := r.states[e.actor := Active]) else r
    case Spoken => if e.actor in r.states then r.(states := r.states[e.actor := Terminal]) else r
    case Degraded(who) => if who in r.states then r.(states := r.states[who := Terminal]) else r
    case _ => r
  }

  function Observed(events: seq<Event>): Reconstructed {
    if events == [] then NOTHING else Observe(Observed(events[..|events| - 1]), events[|events| - 1])
  }

  lemma ObservedAppend(events: seq<Event>, e: Event)
    ensures Observed(events + [e]) == Observe(Observed(events), e)
  {
    assert (events + [e])[..|events|] == events;
  }

  ghost predicate History(events: seq<Event>) {
    && events != [] && events[0].kind.RunStarted?
    && (forall i :: 0 <= i < |events| ==> events[i].run == events[0].run && events[i].sequence > 0)
    && (forall i, j :: 0 <= i < j < |events| ==> events[i].sequence < events[j].sequence)
  }

  /** Exactly the histories of one run, in order from its start, are folded. */
  method ReconstructRun(events: seq<Event>) returns (r: Result<Reconstructed, HistoryError>)
    ensures r.Ok? <==> History(events)
    ensures r.Ok? ==> r.value == Observed(events)
  {
    if events == [] || !events[0].kind.RunStarted? { return Err(NotStarted); }
    var seen := NOTHING;
    var previous := 0;
    for i := 0 to |events|
      invariant seen == Observed(events[..i])
      invariant previous == if i == 0 then 0 else events[i - 1].sequence
      invariant forall j :: 0 <= j < i ==> events[j].run == events[0].run && 0 < events[j].sequence <= previous
      invariant forall j, k :: 0 <= j < k < i ==> events[j].sequence < events[k].sequence
    {
      var e := events[i];
      if e.run != events[0].run { return Err(MixedRuns); }
      if e.sequence <= previous {
        assert i > 0 ==> events[i - 1].sequence >= events[i].sequence;
        return Err(OutOfOrder);
      }
      previous := e.sequence;
      assert events[..i + 1] == events[..i] + [e];
      ObservedAppend(events[..i], e);
      seen := Observe(seen, e);
    }
    assert events[..|events|] == events;
    r := Ok(seen);
  }

  // ---- What a history says, event by event ------------------------------------------------

  /** Does this event say anything about whether p is active? */
  predicate Concerns(e: Event, p: Id) {
    match e.kind
    case Joined(q) => q.id == p
    case Admitted(q, _, _) => q.id == p
    case Speaking => e.actor == p
    case Spoken => e.actor == p
    case Degraded(who) => who == p
    case _ => false
  }

  predicate Enrols(e: Event, p: Id) { (e.kind.Joined? || e.kind.Admitted?) && e.kind.participant.id == p }

  /** An event that does not concern a participant leaves its activity alone. */
  lemma Unconcerned(r: Reconstructed, e: Event, p: Id)
    requires !Concerns(e, p)
    ensures p in Observe(r, e).states <==> p in r.states
    ensures p in r.states ==> Observe(r, e).states[p] == r.states[p]
  {}

  lemma Concerned(r: Reconstructed, e: Event, p: Id)
    requires Concerns(e, p) && (p in r.states || Enrols(e, p))
    ensures p in Observe(r, e).states
    ensures Observe(r, e).states[p] == if e.kind.Spoken? || e.kind.Degraded? then Terminal else Active
  {}

  /** A participant is known once it joined or was admitted, and from then on its last event decides. */
  lemma {:induction false} LastEventDecides(events: seq<Event>, p: Id, i: nat, j: nat)
    requires i < |events| && Concerns(events[i], p) && forall k :: i < k < |events| ==> !Concerns(events[k], p)
    requires j <= i && Enrols(events[j], p)
    ensures p in Observed(events).states
    ensures Observed(events).states[p]
         == if events[i].kind.Spoken? || events[i].kind.Degraded? then Terminal else Active
  {
    var front := events[..|events| - 1];
    if i < |front| {
      LastEventDecides(front, p, i, j);
      Unconcerned(Observed(front), events[|events| - 1], p);
    } else {
      if j < i { StaysKnown(front, p, j); }
      Concerned(Observed(front), events[i], p);
    }
  }

  lemma {:induction false} StaysKnown(events: seq<Event>, p: Id, j: nat)
    requires j < |events| && Enrols(events[j], p)
    ensures p in Observed(events).states
  {
    if j < |events| - 1 { StaysKnown(events[..|events| - 1], p, j); }
  }

  /** The participants of a history are those that joined or were admitted. */
  lemma {:induction false} EnrolledExactly(events: seq<Event>, p: Id)
    ensures p in Observed(events).participants <==> exists j :: 0 <= j < |events| && Enrols(events[j], p)
  {
    if events != [] {
      var n := |events| - 1;
      EnrolledExactly(events[..n], p);
      if j :| 0 <= j < n && Enrols(events[..n][j], p) { assert Enrols(events[j], p); }
      if j :| 0 <= j < n && Enrols(events[j], p) { assert Enrols(events[..n][j], p); }
    }
  }

  /** The last event that says whether p is active. */
  ghost predicate LastWord(events: seq<Event>, i: nat, p: Id) {
    i < |events| && Concerns(events[i], p) && forall k :: i < k < |events| ==> !Concerns(events[k], p)
  }

  lemma {:induction false} SomeLastWord(events: seq<Event>, p: Id, j: nat)
    requires j < |events| && Concerns(events[j], p)
    ensures exists i: nat :: j <= i && LastWord(events, i, p)
    decreases |events| - j
  {
    if k :| j < k < |events| && Concerns(events[k], p) {
      SomeLastWord(events, p, k);
    } else {
      assert LastWord(events, j, p);
    }
  }

  /** Enrolled, and its last word was not that it had spoken or was degraded. */
  ghost predicate StillActive(events: seq<Event>, p: Id) {
    && (exists j :: 0 <= j < |events| && Enrols(events[j], p))
    && exists i: nat :: LastWord(events, i, p) && !events[i].kind.Spoken? && !events[i].kind.Degraded?
  }

  lemma ActiveExactly(events: seq<Event>, p: Id)
    ensures p in Observed(events).participants && p in Observed(events).states
            && Observed(events).states[p] != Terminal
       <==> StillActive(events, p)
  {
    EnrolledExactly(events, p);
    if j :| 0 <= j < |events| && Enrols(events[j], p) {
      SomeLastWord(events, p, j);
      forall i: nat | LastWord(events, i, p)
        ensures p in Observed(events).states
        ensures Observed(events).states[p]
             == if events[i].kind.Spoken? || events[i].kind.Degraded? then Terminal else Active
      {
        assert j <= i;
        LastEventDecides(events, p, i, j);
      }
    }
  }

  /** A run is over exactly when some event ended it. */
  lemma {:induction false} OverExactly(events: seq<Event>)
    ensures Observed(events).terminal <==> exists i :: 0 <= i < |events| && events[i].kind.RunEnded?
  {
    if events != [] {
      var front := events[..|events| - 1];
      OverExactly(front);
      if Observed(front).terminal {
        var i :| 0 <= i < |front| && front[i].kind.RunEnded?;
        assert events[i].kind.RunEnded?;
      }
    }
  }
}
