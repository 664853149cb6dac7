/**
 * Whole runs of the controller: concurrent spawns, their events being stored one after
 * another, crashes and resumptions. What the stored events say is always what the
 * controller holds in memory, apart from what was not stored yet.
 */
module Replay {
  import opened Wrappers
  import opened Sums
  import opened Participants
  import opened Receipts
  import opened Controller
  import opened Rosters

  /**
   * A run: its stored events and the controller's memory; and for the theorems the roots
   * whose joining is stored or not, every admission in force in order, and how many of
   * those have had their event stored.
   */
  datatype Run = Run(
    id: Id, log: seq<Event>, live: Live,
    joined: map<Id, Participant>, unjoined: map<Id, Participant>,
    admitted: seq<Admission>, stored: nat)

  datatype Op =
    | Join(who: Id)                 // a root's joined event is stored
    | Spawn(request: Request)       // the checks, and the admission if there is no objection
    | Store                         // the oldest outstanding admitted event is stored
    | Equip(who: Id)                // an admitted child gets its adapter
    | Note(actor: Id, kind: Kind)   // any other event is stored
    | Resume(factory: bool)         // the process was lost; another resumes the run

  function Put(run: Run, actor: Id, kind: Kind): seq<Event> {
    run.log + [Event(run.id, |run.log| + 1, actor, kind)]
  }

  function Roots(run: Run): map<Id, Participant> { run.joined + run.unjoined }

  predicate Enabled(run: Run, op: Op) {
    match op
    case Join(who) => who in run.unjoined
    case Spawn(q) => SlashFree(q.role)
    case Store => run.stored < |run.admitted|
    case Equip(who) =>
      who in run.live.roster && exists i :: 0 <= i < run.stored <= |run.admitted| && run.admitted[i].child.id == who
    case Note(_, kind) => !kind.RunStarted? && !kind.Joined? && !kind.Admitted?
    case Resume(_) => !Observed(run.log).terminal
  }

  function SnapshotRoster(seen: Reconstructed): map<Id, Participant> {
    map p | p in seen.participants :: seen.participants[p].participant
  }

  function SnapshotContexts(seen: Reconstructed): map<Id, seq<string>> {
    map p | p in seen.participants :: seen.participants[p].context
  }

  function Unfinished(seen: Reconstructed): set<Id> {
    set p: Id | p in seen.participants && p in seen.states && seen.states[p] != Terminal
  }

  /** The controller a resumption builds from the receipts. */
  function Restored(seen: Reconstructed, capacity: Capacity, budget: nat, factory: bool): Live {
    Manned(Unfinished(seen), SnapshotRoster(seen), SnapshotContexts(seen), capacity, budget,
           seen.consumed, factory)
  }

  function AfterJoin(run: Run, who: Id): Run
    requires who in run.unjoined
  {
    var p := run.unjoined[who];
    run.(log := Put(run, "runtime", Joined(p)), joined := run.joined[who := p], unjoined := run.unjoined - {who})
  }

  function AfterAdmission(run: Run, q: Request): Run
    requires q.parent in run.live.roster
  {
    var (live, a) := Admit(run.live, q);
    run.(live := live, admitted := run.admitted + [a])
  }

  function AfterStore(run: Run): Run
    requires run.stored < |run.admitted|
  {
    var a := run.admitted[run.stored];
    run.(log := Put(run, "runtime", Admitted(a.child, a.context, a.budget)), stored := run.stored + 1)
  }

  function AfterResume(run: Run, factory: bool): Run
    requires run.stored <= |run.admitted|
  {
    run.(log := Put(run, "runtime", Other),
         live := Restored(Observed(run.log), run.live.capacity, run.live.budget, factory),
         unjoined := map[],
         admitted := run.admitted[..run.stored])
  }

  function Step(run: Run, op: Op): Run
    requires Descending(run.live.roster) && run.live.adapters <= run.live.roster.Keys
    requires run.stored <= |run.admitted| && Enabled(run, op)
  {
    match op
    case Join(who) => AfterJoin(run, who)
    case Spawn(q) => if Refusal(run.live, q).Some? then run else AfterAdmission(run, q)
    case Store => AfterStore(run)
    case Equip(who) => run.(live := run.live.(adapters := run.live.adapters + {who}))
    case Note(actor, kind) => run.(log := Put(run, actor, kind))
    case Resume(factory) => AfterResume(run, factory)
  }

  function Begin(id: Id, roots: map<Id, Participant>, capacity: Capacity, budget: nat, factory: bool): Run {
    Run(id, [Event(id, 1, "user", RunStarted(capacity, budget))],
        Manned(roots.Keys, roots, map[], capacity, budget, 0, factory), map[], roots, [], 0)
  }

  // ---- Invariant ------------------------------------------------------------------------

  ghost predicate RootsApart(run: Run) {
    && RootsSound(run.joined) && RootsSound(run.unjoined)
    && forall p :: p in run.joined ==> p !in run.unjoined
  }

  /** The stored events tell these roots and these admissions, and no more. */
  ghost predicate Tells(log: seq<Event>, roots: map<Id, Participant>, adm: seq<Admission>) {
    && Observed(log).participants == Snapshots(roots, adm)
    && Observed(log).consumed == Granted(adm)
    && Observed(log).states.Keys == Observed(log).participants.Keys
  }

  /** The log is a history of this run under this policy. */
  ghost predicate Logged(id: Id, log: seq<Event>, capacity: Capacity, budget: nat) {
    && log != [] && log[0].kind == RunStarted(capacity, budget)
    && forall i :: 0 <= i < |log| ==> log[i].run == id && log[i].sequence == i + 1
  }

  ghost predicate ChildrenCounted(live: Live, adm: seq<Admission>, q: Id) {
    live.Children(q) == Count(OfParent(q), adm)
  }

  ghost predicate FewChildren(live: Live, adm: seq<Admission>, q: Id) {
    Count(OfParent(q), adm) <= live.capacity.childrenPerParent
  }

  ghost predicate Shallow(live: Live, p: Id) { Slashes(p) <= live.capacity.spawnDepth }

  /** The controller's memory holds all roots and all admissions in force. */
  ghost predicate Held(live: Live, roots: map<Id, Participant>, adm: seq<Admission>) {
    && live.roster == RosterOf(roots, adm)
    && live.contexts == Contexts(roots, adm)
    && live.adapters <= live.roster.Keys
    && (forall q :: ChildrenCounted(live, adm, q))
    && live.dynamicChildren == |adm|
    && live.remaining == live.budget - Granted(adm)
  }

  ghost predicate Limited(live: Live, adm: seq<Admission>) {
    && |live.roster| <= live.capacity.participants
    && |adm| <= live.capacity.dynamicChildren
    && (forall q :: FewChildren(live, adm, q))
    && (forall p :: p in live.roster ==> Shallow(live, p))
    && live.remaining >= 0
  }

  /** What memory alone has to fulfil. */
  ghost predicate Sane(live: Live, roots: map<Id, Participant>, adm: seq<Admission>) {
    && RootsSound(roots) && AllGenuine(adm)
    && Held(live, roots, adm) && Limited(live, adm)
    && Descending(live.roster) && Levelled(live.roster)
  }

  ghost predicate Inv(run: Run) {
    && run.stored <= |run.admitted|
    && RootsApart(run)
    && Tells(run.log, run.joined, run.admitted[..run.stored])
    && Logged(run.id, run.log, run.live.capacity, run.live.budget)
    && Sane(run.live, Roots(run), run.admitted)
  }

  // ---- What is stored ------------------------------------------------------------------

  lemma PutTells(run: Run, actor: Id, kind: Kind)
    ensures Observed(Put(run, actor, kind)) == Observe(Observed(run.log), Event(run.id, |run.log| + 1, actor, kind))
  {
    ObservedAppend(run.log, Event(run.id, |run.log| + 1, actor, kind));
  }

  lemma PutLogs(run: Run, actor: Id, kind: Kind, capacity: Capacity, budget: nat)
    requires Logged(run.id, run.log, capacity, budget)
    ensures Logged(run.id, Put(run, actor, kind), capacity, budget)
  {}

  lemma JoinTells(run: Run, who: Id, adm: seq<Admission>)
    requires Tells(run.log, run.joined, adm) && AllGenuine(adm)
    requires who in run.unjoined && run.unjoined[who].id == who && SlashFree(who)
    ensures Tells(AfterJoin(run, who).log, AfterJoin(run, who).joined, adm)
  {
    SnapshotsJoin(run.joined, adm, run.unjoined[who]);
    PutTells(run, "runtime", Joined(run.unjoined[who]));
  }

  lemma StoreTells(run: Run)
    requires run.stored < |run.admitted| && Tells(run.log, run.joined, run.admitted[..run.stored])
    ensures Tells(AfterStore(run).log, run.joined, run.admitted[..run.stored + 1])
  {
    var a := run.admitted[run.stored];
    assert run.admitted[..run.stored + 1][..run.stored] == run.admitted[..run.stored];
    PutTells(run, "runtime", Admitted(a.child, a.context, a.budget));
  }

  lemma NoteTells(run: Run, actor: Id, kind: Kind, adm: seq<Admission>)
    requires Tells(run.log, run.joined, adm) && !kind.RunStarted? && !kind.Joined? && !kind.Admitted?
    ensures Tells(Put(run, actor, kind), run.joined, adm)
  {
    PutTells(run, actor, kind);
  }

  // ---- What is held --------------------------------------------------------------------

  /** An admission is the parent's next child. */
  lemma SpawnGenuine(live: Live, adm: seq<Admission>, q: Request)
    requires AllGenuine(adm) && q.parent in live.roster && SlashFree(q.role) && ChildrenCounted(live, adm, q.parent)
    ensures AllGenuine(adm + [Admit(live, q).1])
  {
    var after := adm + [Admit(live, q).1];
    forall i | 0 <= i < |after| ensures Genuine(after, i) {
      assert after[..i] == adm[..i];
      if i < |adm| {
        assert Genuine(adm, i);
      } else {
        assert adm[..i] == adm;
      }
    }
  }

  /** What the memory holds grows by exactly that child, and its grant comes out of the budget. */
  lemma SpawnHeld(live: Live, roots: map<Id, Participant>, adm: seq<Admission>, q: Request)
    requires Held(live, roots, adm) && q.parent in live.roster
    ensures Held(Admit(live, q).0, roots, adm + [Admit(live, q).1])
  {
    var (after, a) := Admit(live, q);
    assert (adm + [a])[..|adm|] == adm;
    forall p ensures ChildrenCounted(after, adm + [a], p) {
      assert ChildrenCounted(live, adm, p) && ChildrenCounted(live, adm, q.parent);
      CountAppend(OfParent(p), adm, a);
    }
  }

  lemma SpawnShallow(live: Live, q: Request)
    requires Descending(live.roster) && Levelled(live.roster) && q.parent in live.roster && SlashFree(q.role)
    requires DepthOf(live.roster, q.parent).Some?
    requires DepthOf(live.roster, q.parent).value + 1 <= live.capacity.spawnDepth
    ensures Shallow(live, Child(live, q).id)
  {
    DepthIsLevel(live.roster, q.parent);
    ChildSlashes(q.parent, q.role, live.Children(q.parent) + 1);
  }

  lemma SpawnFew(live: Live, q: Request, adm: seq<Admission>)
    requires q.parent in live.roster && live.Children(q.parent) < live.capacity.childrenPerParent
    requires forall p :: ChildrenCounted(live, adm, p) && FewChildren(live, adm, p)
    ensures forall p :: FewChildren(Admit(live, q).0, adm + [Admit(live, q).1], p)
  {
    var (after, a) := Admit(live, q);
    forall p ensures FewChildren(after, adm + [a], p) {
      assert ChildrenCounted(live, adm, p) && FewChildren(live, adm, p);
      CountAppend(OfParent(p), adm, a);
    }
  }

  lemma SpawnLimited(live: Live, adm: seq<Admission>, q: Request)
    requires Descending(live.roster) && Levelled(live.roster) && live.adapters <= live.roster.Keys
    requires Limited(live, adm) && live.dynamicChildren == |adm| && SlashFree(q.role)
    requires forall p :: ChildrenCounted(live, adm, p)
    requires Refusal(live, q).None?
    ensures Limited(Admit(live, q).0, adm + [Admit(live, q).1])
  {
    SpawnShallow(live, q);
    SpawnFew(live, q, adm);
    var after := Admit(live, q).0;
    forall p | p in after.roster ensures Shallow(after, p) {
      if p in live.roster { assert Shallow(live, p); }
    }
  }

  lemma SpawnSane(live: Live, roots: map<Id, Participant>, adm: seq<Admission>, q: Request)
    requires Sane(live, roots, adm) && SlashFree(q.role) && Refusal(live, q).None?
    ensures Sane(Admit(live, q).0, roots, adm + [Admit(live, q).1])
    ensures Child(live, q).id !in live.roster
  {
    assert ChildrenCounted(live, adm, q.parent);
    SpawnGenuine(live, adm, q);
    FreshId(roots, adm, q.parent, q.role);
    SpawnHeld(live, roots, adm, q);
    SpawnLimited(live, adm, q);
    RosterLevels(roots, adm + [Admit(live, q).1]);
  }

  lemma EquipSane(live: Live, roots: map<Id, Participant>, adm: seq<Admission>, who: Id)
    requires Sane(live, roots, adm) && who in live.roster
    ensures Sane(live.(adapters := live.adapters + {who}), roots, adm)
  {
    var after := live.(adapters := live.adapters + {who});
    forall q ensures ChildrenCounted(after, adm, q) && FewChildren(after, adm, q) {
      assert ChildrenCounted(live, adm, q) && FewChildren(live, adm, q);
    }
    forall p | p in after.roster ensures Shallow(after, p) { assert Shallow(live, p); }
  }

  // ---- What a resumption rebuilds --------------------------------------------------------

  /** A controller built over a roster counts the children that are in it. */
  lemma MannedCounts(live: Live, adapters: set<Id>, roots: map<Id, Participant>, adm: seq<Admission>,
                     contexts: map<Id, seq<string>>, consumed: nat)
    requires RootsSound(roots) && AllGenuine(adm)
    requires live == Manned(adapters, RosterOf(roots, adm), contexts, live.capacity, live.budget, consumed,
                            live.factory)
    ensures live.dynamicChildren == |adm| && forall q :: ChildrenCounted(live, adm, q)
  {
    var roster := RosterOf(roots, adm);
    RosterCounts(roots, adm, "");
    forall q ensures ChildrenCounted(live, adm, q) {
      RosterCounts(roots, adm, q);
      if q !in Parents(roster) { NoChildren(roster, q); }
    }
  }

  lemma NoChildren(roster: map<Id, Participant>, q: Id)
    requires q !in Parents(roster)
    ensures ChildrenOf(roster, q) == {}
  {}

  lemma StoredRoster(seen: Reconstructed, roots: map<Id, Participant>, adm: seq<Admission>)
    requires seen.participants == Snapshots(roots, adm)
    ensures SnapshotRoster(seen) == RosterOf(roots, adm) && SnapshotContexts(seen) == Contexts(roots, adm)
  {
    SnapshotsAre(roots, adm);
  }

  /** What a resumption rebuilds is what was stored: the joined roots and the stored admissions. */
  lemma ResumeHeld(log: seq<Event>, roots: map<Id, Participant>, adm: seq<Admission>,
                   capacity: Capacity, budget: nat, factory: bool)
    requires RootsSound(roots) && AllGenuine(adm) && Tells(log, roots, adm)
    ensures Held(Restored(Observed(log), capacity, budget, factory), roots, adm)
  {
    var seen := Observed(log);
    var live := Restored(seen, capacity, budget, factory);
    StoredRoster(seen, roots, adm);
    MannedCounts(live, Unfinished(seen), roots, adm, SnapshotContexts(seen), seen.consumed);
    SnapshotsAre(roots, adm);
    assert live.contexts == Contexts(roots, adm);
  }

  /** A part of a roster, and of its admissions, is within the same limits. */
  lemma PartLimited(part: Live, whole: Live, adm: seq<Admission>, n: nat)
    requires n <= |adm| && Limited(whole, adm) && Within(part.roster, whole.roster)
    requires part.capacity == whole.capacity && part.remaining >= 0
    ensures Limited(part, adm[..n])
  {
    forall p | p in part.roster ensures Shallow(part, p) { assert Shallow(whole, p); }
    SmallerRoster(part.roster, whole.roster);
    forall q ensures FewChildren(part, adm[..n], q) {
      assert FewChildren(whole, adm, q);
      CountConcat(OfParent(q), adm[..n], adm[n..]);
      assert adm == adm[..n] + adm[n..];
    }
  }

  /** What was stored is part of what was held. */
  lemma StoredPart(joined: map<Id, Participant>, roots: map<Id, Participant>, adm: seq<Admission>,
                   n: nat)
    requires RootsSound(joined) && Within(joined, roots) && AllGenuine(adm) && n <= |adm|
    ensures Within(RosterOf(joined, adm[..n]), RosterOf(roots, adm)) && Granted(adm[..n]) <= Granted(adm)
    ensures AllGenuine(adm[..n])
  {
    GenuinePrefix(adm, n);
    PrefixWithin(joined, adm, n);
    RosterGrows(joined, roots, adm);
  }

  lemma ResumeSane(log: seq<Event>, whole: Live, joined: map<Id, Participant>,
                   roots: map<Id, Participant>, adm: seq<Admission>, n: nat, factory: bool)
    requires n <= |adm| && Tells(log, joined, adm[..n]) && RootsSound(joined) && Within(joined, roots)
    requires Sane(whole, roots, adm)
    ensures Sane(Restored(Observed(log), whole.capacity, whole.budget, factory), joined, adm[..n])
  {
    var live := Restored(Observed(log), whole.capacity, whole.budget, factory);
    StoredPart(joined, roots, adm, n);
    ResumeHeld(log, joined, adm[..n], whole.capacity, whole.budget, factory);
    PartLimited(live, whole, adm, n);
    RosterLevels(joined, adm[..n]);
  }

  // ---- Each step -----------------------------------------------------------------------

  lemma OneMoved(a: map<Id, Participant>, b: map<Id, Participant>, who: Id)
    requires who in b && forall p :: p in a ==> p !in b
    ensures a[who := b[who]] + (b - {who}) == a + b
    ensures forall p :: p in a[who := b[who]] ==> p !in b - {who}
  {}

  lemma JoinRoots(run: Run, who: Id)
    requires RootsApart(run) && who in run.unjoined
    ensures RootsApart(AfterJoin(run, who)) && Roots(AfterJoin(run, who)) == Roots(run)
  {
    OneMoved(run.joined, run.unjoined, who);
  }

  lemma JoinKeeps(run: Run, who: Id)
    requires Inv(run) && who in run.unjoined
    ensures Inv(AfterJoin(run, who))
  {
    JoinRoots(run, who);
    GenuinePrefix(run.admitted, run.stored);
    JoinTells(run, who, run.admitted[..run.stored]);
    PutLogs(run, "runtime", Joined(run.unjoined[who]), run.live.capacity, run.live.budget);
  }

  lemma StoreKeeps(run: Run)
    requires Inv(run) && run.stored < |run.admitted|
    ensures Inv(AfterStore(run))
  {
    var a := run.admitted[run.stored];
    StoreTells(run);
    PutLogs(run, "runtime", Admitted(a.child, a.context, a.budget), run.live.capacity, run.live.budget);
  }

  lemma NoteKeeps(run: Run, actor: Id, kind: Kind)
    requires Inv(run) && !kind.RunStarted? && !kind.Joined? && !kind.Admitted?
    ensures Inv(run.(log := Put(run, actor, kind)))
  {
    NoteTells(run, actor, kind, run.admitted[..run.stored]);
    PutLogs(run, actor, kind, run.live.capacity, run.live.budget);
  }

  lemma EquipKeeps(run: Run, who: Id)
    requires Inv(run) && who in run.live.roster
    ensures Inv(run.(live := run.live.(adapters := run.live.adapters + {who})))
  {
    EquipSane(run.live, Roots(run), run.admitted, who);
  }

  lemma SpawnKeeps(run: Run, q: Request)
    requires Inv(run) && SlashFree(q.role) && Refusal(run.live, q).None?
    ensures Inv(AfterAdmission(run, q)) && Child(run.live, q).id !in run.live.roster
  {
    SpawnSane(run.live, Roots(run), run.admitted, q);
    assert AfterAdmission(run, q).admitted[..run.stored] == run.admitted[..run.stored];
  }

  /** A run cut back to its joined roots and stored admissions. */
  lemma CutBack(t: Run)
    requires t.stored == |t.admitted| && t.unjoined == map[] && RootsSound(t.joined)
    requires Tells(t.log, t.joined, t.admitted) && Logged(t.id, t.log, t.live.capacity, t.live.budget)
    requires Sane(t.live, t.joined, t.admitted)
    ensures Inv(t)
  {
    assert Roots(t) == t.joined && t.admitted[..t.stored] == t.admitted;
  }

  lemma ResumeKeeps(run: Run, factory: bool)
    requires Inv(run)
    ensures Inv(AfterResume(run, factory))
  {
    ResumeSane(run.log, run.live, run.joined, Roots(run), run.admitted, run.stored, factory);
    NoteTells(run, "runtime", Other, run.admitted[..run.stored]);
    PutLogs(run, "runtime", Other, run.live.capacity, run.live.budget);
    CutBack(AfterResume(run, factory));
  }

  lemma StepKeeps(run: Run, op: Op)
    requires Inv(run) && Enabled(run, op)
    ensures Inv(Step(run, op))
  {
    match op
    case Join(who) => JoinKeeps(run, who);
    case Spawn(q) => if Refusal(run.live, q).None? { SpawnKeeps(run, q); }
    case Store => StoreKeeps(run);
    case Equip(who) => EquipKeeps(run, who);
    case Note(actor, kind) => NoteKeeps(run, actor, kind);
    case Resume(factory) => ResumeKeeps(run, factory);
  }

  // ---- Every run -------------------------------------------------------------------------

  ghost predicate Reaches(run: Run, ops: seq<Op>, t: Run)
    requires Inv(run)
    decreases |ops|
  {
    if ops == [] then run == t
    else Enabled(run, ops[0]) && (StepKeeps(run, ops[0]); Reaches(Step(run, ops[0]), ops[1..], t))
  }

  lemma {:induction false} RunKeeps(run: Run, ops: seq<Op>, t: Run)
    requires Inv(run) && Reaches(run, ops, t)
    ensures Inv(t)
    decreases |ops|
  {
    if ops != [] {
      StepKeeps(run, ops[0]);
      RunKeeps(Step(run, ops[0]), ops[1..], t);
    }
  }

  lemma BeginSane(live: Live, roots: map<Id, Participant>)
    requires RootsSound(roots) && |roots| <= live.capacity.participants
    requires live == Manned(roots.Keys, roots, map[], live.capacity, live.budget, 0, live.factory)
    ensures Sane(live, roots, [])
  {
    MannedCounts(live, roots.Keys, roots, [], map[], 0);
    RosterLevels(roots, []);
    forall p | p in roots ensures Shallow(live, p) { NoSlashes(p); }
    assert live.contexts == Contexts(roots, []);
  }

  lemma BeginHolds(id: Id, roots: map<Id, Participant>, capacity: Capacity, budget: nat,
                   factory: bool)
    requires RootsSound(roots) && |roots| <= capacity.participants
    ensures Inv(Begin(id, roots, capacity, budget, factory))
  {
    var run := Begin(id, roots, capacity, budget, factory);
    assert Roots(run) == roots;
    BeginSane(run.live, roots);
    assert Observed(run.log) == Observe(Observed([]), run.log[0]);
  }

  predicate Outstanding(run: Run, p: Id) {
    exists i :: run.stored <= i < |run.admitted| && run.admitted[i].child.id == p
  }

  lemma StoredIsHeld(run: Run, p: Id)
    requires Inv(run) && p in Observed(run.log).participants
    ensures p in run.live.roster && p !in run.unjoined && !Outstanding(run, p)
    ensures Observed(run.log).participants[p].participant == run.live.roster[p]
    ensures p in run.live.contexts && Observed(run.log).participants[p].context == run.live.contexts[p]
  {
    var adm := run.admitted[..run.stored];
    SnapshotsAre(run.joined, adm);
    StoredPart(run.joined, Roots(run), run.admitted, run.stored);
    RosterKeys(run.joined, adm, p);
    if Admits(adm, p) { AdmittedHasSlash(adm, p); }
    forall i | run.stored <= i < |run.admitted| ensures run.admitted[i].child.id != p {
      AdmittedOnce(run.joined, run.admitted, run.stored, i);
    }
    ContextsPrefix(run.joined, run.admitted, run.stored, p);
    ContextsGrow(run.joined, Roots(run), run.admitted, p);
  }

  lemma HeldIsStored(run: Run, p: Id)
    requires Inv(run) && p in run.live.roster && p !in run.unjoined && !Outstanding(run, p)
    ensures p in Observed(run.log).participants
  {
    SnapshotsAre(run.joined, run.admitted[..run.stored]);
    HeldIsIn(run.joined, run.unjoined, run.admitted, run.stored, p);
  }

  lemma HeldIsIn(joined: map<Id, Participant>, unjoined: map<Id, Participant>, adm: seq<Admission>,
                 n: nat, p: Id)
    requires n <= |adm| && p in RosterOf(joined + unjoined, adm) && p !in unjoined
    requires forall i :: n <= i < |adm| ==> adm[i].child.id != p
    ensures p in RosterOf(joined, adm[..n])
  {
    RosterKeys(joined, adm[..n], p);
    RosterKeys(joined + unjoined, adm, p);
    if Admits(adm, p) {
      var i :| 0 <= i < |adm| && adm[i].child.id == p;
      assert adm[..n][i].child.id == p;
    }
  }

  /**
   * Replay equals live state. After any number of concurrent spawns, crashes and
   * resumptions: the stored history reconstructs; it names exactly the participants held
   * in memory, but for roots whose joining and children whose admission was not stored
   * yet; each with the same lineage and context; and the budget it says was consumed is
   * the budget consumed, but for the grants of those children.
   */
  lemma ReplayEqualsLive(start: Run, ops: seq<Op>, run: Run)
    requires Inv(start) && Reaches(start, ops, run)
    ensures History(run.log)
    ensures forall p :: p in Observed(run.log).participants
                   <==> p in run.live.roster && p !in run.unjoined && !Outstanding(run, p)
    ensures forall p :: p in Observed(run.log).participants && p in run.live.roster ==>
              && Observed(run.log).participants[p].participant == run.live.roster[p]
              && p in run.live.contexts && Observed(run.log).participants[p].context == run.live.contexts[p]
    ensures run.stored <= |run.admitted|
    ensures Observed(run.log).consumed + Granted(run.admitted[run.stored..]) == run.live.budget - run.live.remaining
  {
    RunKeeps(start, ops, run);
    forall p | p in Observed(run.log).participants { StoredIsHeld(run, p); }
    forall p | p in run.live.roster && p !in run.unjoined && !Outstanding(run, p) { HeldIsStored(run, p); }
    ConsumedIsTold(run);
    LogIsHistory(run);
  }

  lemma LogIsHistory(run: Run)
    requires Inv(run)
    ensures History(run.log)
  {}

  lemma ConsumedIsTold(run: Run)
    requires Inv(run)
    ensures run.stored <= |run.admitted|
    ensures Observed(run.log).consumed + Granted(run.admitted[run.stored..]) == run.live.budget - run.live.remaining
  {
    GrantedSplits(run.admitted, run.stored);
  }

  /** A resumption runs again exactly those whose last stored word was not that they had spoken or were degraded. */
  lemma ResumedExactly(run: Run, factory: bool, p: Id)
    requires Inv(run)
    ensures p in AfterResume(run, factory).live.adapters <==> StillActive(run.log, p)
  {
    ActiveExactly(run.log, p);
  }

  /**
   * What an admission makes: the parent's next child, with the parent's adapter, model and
   * context limit, the role and context asked for, and the grant out of what remained.
   */
  lemma SpawnMakes(run: Run, q: Request)
    requires Inv(run) && SlashFree(q.role) && Refusal(run.live, q).None?
    ensures var after, a := AfterAdmission(run, q), Admit(run.live, q).1;
            && after.admitted == run.admitted + [a] && after.log == run.log
            && a.child.id !in run.live.roster && after.live.roster == run.live.roster[a.child.id := a.child]
            && a.child.parent == Some(q.parent) && a.child.roles == [q.role]
            && a.child.adapter == run.live.roster[q.parent].adapter
            && a.child.model == run.live.roster[q.parent].model
            && a.child.contextLimit == run.live.roster[q.parent].contextLimit
            && a.budget == q.budget && after.live.remaining == run.live.remaining - q.budget
            && a.context == q.context && after.live.contexts == run.live.contexts[a.child.id := q.context]
            && after.live.adapters == run.live.adapters
  {
    SpawnKeeps(run, q);
  }

  /**
   * Which requests are granted: those of a participant that is running, while there are
   * fewer participants, children and siblings than allowed, it is not too deep, the grants
   * so far leave the budget for it, children can be made, and the new id is not too long.
   */
  lemma GrantedExactly(run: Run, q: Request)
    requires Inv(run)
    ensures Refusal(run.live, q).None? <==>
              && q.parent in run.live.adapters && run.live.factory
              && |run.live.roster| < run.live.capacity.participants
              && |Dynamic(run.live.roster)| < run.live.capacity.dynamicChildren
              && |ChildrenOf(run.live.roster, q.parent)| < run.live.capacity.childrenPerParent
              && DepthOf(run.live.roster, q.parent).Some? && Slashes(q.parent) + 1 <= run.live.capacity.spawnDepth
              && Granted(run.admitted) + q.budget <= run.live.budget
              && |ChildId(q.parent, q.role, |ChildrenOf(run.live.roster, q.parent)| + 1)| <= MAX_IDENTIFIER
  {
    RosterCounts(Roots(run), run.admitted, q.parent);
    assert ChildrenCounted(run.live, run.admitted, q.parent);
    if q.parent in run.live.roster { DepthIsLevel(run.live.roster, q.parent); }
  }

  lemma ResumedEntry(run: Run, factory: bool, p: Id)
    requires Inv(run) && p in run.live.roster && p in AfterResume(run, factory).live.roster
    ensures AfterResume(run, factory).live.roster[p] == run.live.roster[p]
  {
    var adm := run.admitted[..run.stored];
    StoredPart(run.joined, Roots(run), run.admitted, run.stored);
    ResumeHeld(run.log, run.joined, adm, run.live.capacity, run.live.budget, factory);
    assert AfterResume(run, factory).live.roster == RosterOf(run.joined, adm);
    HeldRoster(run.live, Roots(run), run.admitted);
  }

  lemma SpawnedEntry(run: Run, q: Request, p: Id)
    requires Inv(run) && SlashFree(q.role) && Refusal(run.live, q).None? && p in run.live.roster
    ensures p in AfterAdmission(run, q).live.roster
    ensures AfterAdmission(run, q).live.roster[p] == run.live.roster[p]
  {
    SpawnMakes(run, q);
  }

  /** Nothing changes a participant while it is held. */
  lemma ParticipantsKept(run: Run, op: Op, p: Id)
    requires Inv(run) && Enabled(run, op) && p in run.live.roster && p in Step(run, op).live.roster
    ensures Step(run, op).live.roster[p] == run.live.roster[p]
  {
    if op.Resume? {
      ResumedEntry(run, op.factory, p);
    } else if op.Spawn? && Refusal(run.live, op.request).None? {
      SpawnedEntry(run, op.request, p);
    }
  }

  /** A resumption gives back exactly the grants whose admissions were never stored. */
  lemma ResumeReturnsLostGrants(run: Run, factory: bool)
    requires Inv(run)
    ensures AfterResume(run, factory).live.remaining == run.live.remaining + Granted(run.admitted[run.stored..])
  {
    GrantedSplits(run.admitted, run.stored);
  }

  /**
   * Concurrent spawning is safe. Under any interleaving: participants, dynamic children,
   * children of one parent and depth stay within capacity; grants and what remains add up
   * to the budget; and no two participants ever share an id.
   */
  lemma SpawningIsSafe(start: Run, ops: seq<Op>, run: Run)
    requires Inv(start) && Reaches(start, ops, run)
    ensures Descending(run.live.roster)
    ensures |run.live.roster| <= run.live.capacity.participants
    ensures |Dynamic(run.live.roster)| <= run.live.capacity.dynamicChildren
    ensures forall q :: |ChildrenOf(run.live.roster, q)| <= run.live.capacity.childrenPerParent
    ensures forall p :: p in run.live.roster ==> WithinDepth(run.live, p)
    ensures Granted(run.admitted) + run.live.remaining == run.live.budget && run.live.remaining >= 0
    ensures |run.live.roster| == |Roots(run)| + |run.admitted|
  {
    RunKeeps(start, ops, run);
    WithinCapacity(run.live, Roots(run), run.admitted);
  }

  /** A participant's depth, if the walk to its root succeeds, is allowed. */
  ghost predicate WithinDepth(live: Live, p: Id)
    requires Descending(live.roster) && p in live.roster
  {
    DepthOf(live.roster, p).Some? ==> DepthOf(live.roster, p).value <= live.capacity.spawnDepth
  }

  lemma WithinCapacity(live: Live, roots: map<Id, Participant>, adm: seq<Admission>)
    requires Sane(live, roots, adm)
    ensures |Dynamic(live.roster)| <= live.capacity.dynamicChildren
    ensures forall q :: |ChildrenOf(live.roster, q)| <= live.capacity.childrenPerParent
    ensures forall p :: p in live.roster ==> WithinDepth(live, p)
    ensures Granted(adm) + live.remaining == live.budget
    ensures |live.roster| == |roots| + |adm|
  {
    RosterCounts(roots, adm, "");
    forall q ensures |ChildrenOf(live.roster, q)| <= live.capacity.childrenPerParent {
      RosterCounts(roots, adm, q);
      assert FewChildren(live, adm, q);
    }
    forall p | p in live.roster ensures WithinDepth(live, p) {
      assert Shallow(live, p);
      DepthIsLevel(live.roster, p);
    }
  }

  // ---- Parents that were never stored ----------------------------------------------------

  /**
   * After a resumption the walk up the parents succeeds for everybody exactly when the
   * parent of every stored admission is a joined root or a stored child.
   */
  lemma ResumedDepthsExactly(run: Run, factory: bool)
    requires Inv(run)
    ensures var roster := AfterResume(run, factory).live.roster;
      && Descending(roster)
      && ((forall p :: p in roster ==> DepthOf(roster, p).Some?) <==>
          (forall i :: 0 <= i < run.stored ==> ParentThere(run.joined, run.admitted[..run.stored], i)))
  {
    var after, adm := AfterResume(run, factory), run.admitted[..run.stored];
    ResumeKeeps(run, factory);
    GenuinePrefix(run.admitted, run.stored);
    ResumedRoster(after, run.joined, adm);
    RosterRooted(run.joined, adm);
    RootedExactly(after.live.roster);
  }

  lemma HeldRoster(live: Live, roots: map<Id, Participant>, adm: seq<Admission>)
    requires Sane(live, roots, adm)
    ensures live.roster == RosterOf(roots, adm) && Descending(live.roster)
  {}

  lemma NoneUnjoined(run: Run)
    requires run.unjoined == map[]
    ensures Roots(run) == run.joined
  {}

  lemma ResumedRoster(after: Run, joined: map<Id, Participant>, adm: seq<Admission>)
    requires Inv(after) && after.unjoined == map[] && after.joined == joined && after.admitted == adm
    ensures after.live.roster == RosterOf(joined, adm) && Descending(after.live.roster)
  {
    NoneUnjoined(after);
    HeldRoster(after.live, joined, adm);
  }

  /** A roster holds the last child admitted, and not a root that never joined. */
  lemma OrphanHeld(joined: map<Id, Participant>, adm: seq<Admission>, root: Id)
    requires RootsSound(joined) && AllGenuine(adm) && adm != [] && root !in joined && SlashFree(root)
    ensures var child := adm[|adm| - 1].child;
            child.id in RosterOf(joined, adm) && RosterOf(joined, adm)[child.id] == child
    ensures root !in RosterOf(joined, adm)
  {
    AdmittedEntry(joined, adm, |adm| - 1);
    RosterKeys(joined, adm, root);
    if Admits(adm, root) { AdmittedHasSlash(adm, root); }
  }

  lemma NoDepth(roster: map<Id, Participant>, p: Id)
    requires Descending(roster) && p in roster && roster[p].parent.Some? && roster[p].parent.value !in roster
    ensures DepthOf(roster, p).None?
  {}

  /** The last child admitted has no depth when its parent is a root that never joined. */
  lemma OrphanHasNoDepth(run: Run, root: Id)
    requires Inv(run) && run.unjoined == map[] && run.admitted != []
    requires run.admitted[|run.admitted| - 1].child.parent == Some(root) && root !in run.joined && SlashFree(root)
    ensures var child := run.admitted[|run.admitted| - 1].child;
            child.id in run.live.roster && DepthOf(run.live.roster, child.id).None?
  {
    NoneUnjoined(run);
    HeldRoster(run.live, run.joined, run.admitted);
    OrphanHeld(run.joined, run.admitted, root);
    NoDepth(run.live.roster, run.admitted[|run.admitted| - 1].child.id);
  }

  lemma SpawnThenStore(run: Run, q: Request, after: Run)
    requires Inv(run) && run.stored == |run.admitted| && SlashFree(q.role) && Refusal(run.live, q).None?
    requires after == AfterStore(AfterAdmission(run, q))
    ensures Inv(after) && after.stored == |after.admitted|
    ensures after.joined == run.joined && after.unjoined == run.unjoined
    ensures after.admitted == run.admitted + [Admit(run.live, q).1]
  {
    SpawnKeeps(run, q);
    StoreKeeps(AfterAdmission(run, q));
  }

  lemma ResumeCuts(run: Run, factory: bool, after: Run)
    requires Inv(run) && run.stored == |run.admitted| && after == AfterResume(run, factory)
    ensures Inv(after) && after.unjoined == map[] && after.joined == run.joined && after.admitted == run.admitted
  {
    ResumeKeeps(run, factory);
  }

  /** A child admitted under a root not yet joined, and stored: a crash then loses its parent, and its depth. */
  lemma LosesItsParent(run: Run, q: Request, factory: bool, before: Run, after: Run)
    requires Inv(run) && run.stored == |run.admitted| && q.parent in run.unjoined && SlashFree(q.role)
    requires Refusal(run.live, q).None?
    requires before == AfterStore(AfterAdmission(run, q)) && after == AfterResume(before, factory)
    ensures Inv(after) && Child(run.live, q).id in after.live.roster
    ensures DepthOf(after.live.roster, Child(run.live, q).id).None?
  {
    SpawnThenStore(run, q, before);
    ResumeCuts(before, factory, after);
    assert after.admitted[|after.admitted| - 1].child == Child(run.live, q);
    OrphanHasNoDepth(after, q.parent);
  }

  const LONE: Participant := Participant("b", "fake", "m", ["root"], 1, None)
  const SMALL: Capacity := Capacity(2, 1, 1, 1, 1)
  const HELPER: Request := Request("b", "helper", [], 1)
  const STARTING: Run := Begin("run", map["b" := LONE], SMALL, 1, true)

  lemma StartingHolds()
    ensures Inv(STARTING) && "b" in STARTING.unjoined && SlashFree(HELPER.role)
  {
    var roots := map["b" := LONE];
    assert RootsSound(roots) && |roots| == 1;
    BeginHolds("run", roots, SMALL, 1, true);
  }

  lemma HelperIsAccepted(live: Live)
    requires live == Manned({"b"}, map["b" := LONE], map[], SMALL, 1, 0, true)
    ensures Refusal(live, HELPER).None?
  {
    var roots := map["b" := LONE];
    assert live.Children("b") == 0 by { NoChildren(roots, "b"); }
    assert DepthOf(roots, "b") == Some(0);
    assert Decimal(1) == "1" && |ChildId("b", "helper", 1)| == 10;
    assert Dynamic(roots) == {};
  }

  /** It happens in the shortest of runs: one root, one spawn before the root has joined. */
  lemma ParentLostEarly(before: Run, after: Run)
    requires "b" in STARTING.live.roster
    requires before == AfterStore(AfterAdmission(STARTING, HELPER)) && after == AfterResume(before, true)
    ensures Refusal(STARTING.live, HELPER).None?
    ensures Inv(STARTING) && Inv(after) && exists p :: p in after.live.roster && DepthOf(after.live.roster, p).None?
  {
    StartingHolds();
    assert STARTING.live.adapters == {"b"};
    HelperIsAccepted(STARTING.live);
    LosesItsParent(STARTING, HELPER, true, before, after);
  }

  /** A crash before the roots have joined loses them as well. */
  lemma RootLostEarly()
    ensures Inv(STARTING) && "b" in STARTING.live.roster
    ensures "b" !in AfterResume(STARTING, true).live.roster
  {
    var roots := map["b" := LONE];
    assert RootsSound(roots) && |roots| == 1;
    BeginHolds("run", roots, Capacity(2, 1, 1, 1, 1), 1, true);
    ResumeHeld(STARTING.log, map[], [], STARTING.live.capacity, 1, true);
  }
}
