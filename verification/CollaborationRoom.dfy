/**
 * The event store and the room as objects. `publish` is cut where it awaits, so that the
 * methods below are the pieces other coroutines interleave with; each is one step of the
 * room's state machine.
 */
module CollaborationRoom {
  import opened Strings
  import R = Room

  class EventStore {
    var rows: seq<R.Event>

    constructor ()
      ensures rows == []
    {
      rows := [];
    }

    method Append(event: R.Event) returns (persisted: R.Event)
      modifies this
      ensures persisted == R.Stamped(old(rows), event) && rows == old(rows) + [persisted]
      ensures R.Numbered(old(rows)) ==>
                R.Numbered(rows) && persisted.sequence == |R.Replay(old(rows), event.run)| + 1
    {
      persisted := event.(sequence := R.MaxSequence(rows, event.run) + 1);
      if R.Numbered(rows) {
        R.AppendNumbers(rows, event);
        R.MaxIsCount(rows, event.run);
        R.ReplayIsGapless(rows, event.run);
      }
      rows := rows + [persisted];
    }
  }

  class Room {
    const store: EventStore
    const queueSize: nat
    var subscribers: map<R.Id, seq<R.Event>>
    var phase: R.Phase
    ghost var log: seq<R.Event>
    ghost var since: map<R.Id, nat>
    ghost var taken: map<R.Id, seq<R.Event>>

    ghost function View(): R.State
      reads this, store
    {
      R.State(store.rows, phase, subscribers, queueSize, log, since, taken)
    }

    constructor (store: EventStore, queueSize: nat)
      requires queueSize >= 1
      ensures this.store == store && View() == R.Init(store.rows, queueSize)
      ensures R.Numbered(store.rows) ==> R.Inv(View())
    {
      this.store, this.queueSize := store, queueSize;
      subscribers, phase := map[], R.Free;
      log, since, taken := [], map[], map[];
    }

    method Subscribe(who: R.Id) returns (ok: bool)
      modifies this`subscribers, this`since, this`taken
      ensures ok <==> who !in old(subscribers)
      ensures View() == if ok then R.Step(old(View()), R.Subscribe(who)) else old(View())
    {
      if who in subscribers { return false; }
      since := since[who := |log| - (if phase.Stored? && log != [] then 1 else 0)];
      taken := taken[who := []];
      subscribers := subscribers[who := []];
      ok := true;
    }

    method TakeLock(event: R.Event)
      requires R.Enabled(View(), R.Acquire(event))
      modifies this`phase
      ensures View() == R.Step(old(View()), R.Acquire(event))
      ensures R.Inv(old(View())) ==> R.Inv(View())
    {
      if R.Inv(View()) { R.StepKeeps(View(), R.Acquire(event)); }
      phase := R.Holding(event);
    }

    method Persist()
      requires R.Enabled(View(), R.Persist)
      modifies this`phase, this`log, store
      ensures View() == R.Step(old(View()), R.Persist)
      ensures R.Inv(old(View())) ==> R.Inv(View())
    {
      if R.Inv(View()) { R.StepKeeps(View(), R.Persist); }
      var persisted := store.Append(phase.event);
      log := log + [persisted];
      phase := R.Stored(persisted);
    }

    method ListSubscribers()
      requires R.Enabled(View(), R.List)
      modifies this`phase
      ensures View() == R.Step(old(View()), R.List)
      ensures R.Inv(old(View())) ==> R.Inv(View())
    {
      if R.Inv(View()) { R.StepKeeps(View(), R.List); }
      phase := R.Delivering(phase.event, Sorted(subscribers.Keys));
    }

    /** Into the next subscriber's queue, once it has room. */
    method PutNext()
      requires R.Enabled(View(), R.Put)
      modifies this`phase, this`subscribers
      ensures View() == R.Step(old(View()), R.Put)
      ensures R.Inv(old(View())) ==> R.Inv(View())
      ensures phase == R.Delivering(old(phase).event, old(phase).rest[1..])
      ensures var p := old(phase).rest[0];
              subscribers == old(subscribers)[p := old(subscribers)[p] + [phase.event]]
    {
      if R.Inv(View()) { R.StepKeeps(View(), R.Put); }
      var p := phase.rest[0];
      subscribers := subscribers[p := subscribers[p] + [phase.event]];
      phase := R.Delivering(phase.event, phase.rest[1..]);
    }

    method ReleaseLock()
      requires R.Enabled(View(), R.Release)
      modifies this`phase
      ensures View() == R.Step(old(View()), R.Release)
      ensures R.Inv(old(View())) ==> R.Inv(View())
    {
      if R.Inv(View()) { R.StepKeeps(View(), R.Release); }
      phase := R.Free;
    }

    /** A consumer takes the oldest event from its queue. */
    method Get(who: R.Id) returns (event: R.Event)
      requires R.Enabled(View(), R.Get(who))
      modifies this`subscribers, this`taken
      ensures View() == R.Step(old(View()), R.Get(who))
      ensures event == old(subscribers)[who][0]
    {
      event := subscribers[who][0];
      taken := taken[who := taken[who] + [event]];
      subscribers := subscribers[who := subscribers[who][1..]];
    }

    /** What another coroutine or process does while the publisher waits, if it can. */
    method Meanwhile(op: R.Op)
      requires R.Inv(View()) && R.OfOthers(op)
      modifies this`subscribers, this`since, this`taken, store
      ensures R.Inv(View()) && R.Past(old(View()), View())
      ensures View() == if R.Enabled(old(View()), op) then R.Step(old(View()), op) else old(View())
    {
      ghost var s := View();
      if R.Enabled(s, op) { R.StepKeeps(s, op); }
      match op
      case Subscribe(who) => var _ := Subscribe(who);
      case Foreign(event) => var _ := store.Append(event);
      case Get(who) => if who in subscribers && subscribers[who] != [] { var _ := Get(who); }
    }

    method MeanwhileAll(ops: seq<R.Op>)
      requires R.Inv(View()) && forall op :: op in ops ==> R.OfOthers(op)
      modifies this`subscribers, this`since, this`taken, store
      ensures R.Inv(View()) && R.Past(old(View()), View())
      ensures ops == [] ==> taken == old(taken)
    {
      for i := 0 to |ops|
        invariant R.Inv(View()) && R.Past(old(View()), View())
        invariant i == 0 ==> taken == old(taken)
      {
        Meanwhile(ops[i]);
      }
    }

    /** The delivery loop: while the next queue is full, others have their turns. */
    method DeliverAll(others: seq<R.Op>)
      requires R.Inv(View()) && phase.Delivering? && forall op :: op in others ==> R.OfOthers(op)
      modifies this`subscribers, this`since, this`taken, this`phase, store
      ensures R.Inv(View()) && phase.Delivering? && phase.event == old(phase).event && R.Grown(old(View()), View())
      ensures phase.rest != [] ==> |subscribers[phase.rest[0]]| >= queueSize
      ensures others == [] ==> taken == old(taken)
    {
      var i := 0;
      while phase.rest != [] && (|subscribers[phase.rest[0]]| < queueSize || i < |others|)
        invariant R.Inv(View()) && phase.Delivering? && phase.event == old(phase).event
        invariant i <= |others| && R.Grown(old(View()), View())
        invariant others == [] ==> taken == old(taken)
        decreases |phase.rest| + |others| - i
      {
        if |subscribers[phase.rest[0]]| < queueSize {
          PutNext();
        } else {
          Meanwhile(others[i]);
          i := i + 1;
        }
      }
    }

    /** The publisher's steps up to the listing, with what others do while the event is being stored. */
    method StoreAndList(event: R.Event, others: seq<R.Op>) returns (persisted: R.Event)
      requires R.Inv(View()) && phase.Free? && forall op :: op in others ==> R.OfOthers(op)
      modifies this, store
      ensures R.Inv(View()) && phase.Delivering? && phase.event == persisted
      ensures persisted == R.Stamped(old(store.rows), event) && log == old(log) + [persisted]
      ensures R.Kept(old(View()), View())
      ensures others == [] ==> taken == old(taken)
    {
      TakeLock(event);
      Persist();
      persisted := phase.event;
      MeanwhileAll(others);
      ListSubscribers();
    }

    /**
     * A publication, with what others do while it stores and while it waits for full
     * queues. Every subscriber from before gets the event once, after all it got before;
     * but if the others end with a queue still full, the publisher still waits for that
     * one, and owes the event to it and those after it.
     */
    method Publish(event: R.Event, storing: seq<R.Op>, waiting: seq<R.Op>) returns (done: bool, persisted: R.Event)
      requires R.Inv(View()) && phase.Free?
      requires forall op :: op in storing || op in waiting ==> R.OfOthers(op)
      modifies this, store
      ensures R.Inv(View()) && persisted == R.Stamped(old(store.rows), event) && log == old(log) + [persisted]
      ensures forall p :: p in old(subscribers) ==> R.Credited(old(View()), View(), p, persisted)
      ensures if done then phase.Free?
              else phase.Delivering? && phase.rest != [] && |subscribers[phase.rest[0]]| >= queueSize
      ensures storing == [] && waiting == [] ==> taken == old(taken)
      ensures storing == [] && waiting == [] && R.Roomy(old(View())) ==> done
    {
      ghost var s := View();
      persisted := StoreAndList(event, storing);
      DeliverAll(waiting);
      done := phase.rest == [];
      if done { ReleaseLock(); }
      R.AllCredited(s, View(), persisted);
      if !done && taken == s.taken { R.StillOwed(s, View(), persisted); }
    }
  }
}
