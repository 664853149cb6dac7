/**
 * The conductor's reservation database: its tables, and what each transaction
 * does to them. A transaction that raises leaves the database as it found it.
 * Identifiers of new rows come from a counter, so they are always fresh.
 */
module Ledger {
  import opened Wrappers
  import opened Sums

  type Id = string
  type Time = real

  datatype Kind = Start | Stop | Cost | Cancel | Fail

  datatype State = Approved | Started | Stopped | Costed | Cancelled | Expired | Failed

  datatype Reservation = Reservation(
    id: nat, run: Id, task: Id, correlation: Option<Id>, operation: Id,
    tier: Option<Id>, model: Option<Id>, effort: Option<Id>,
    estimate: Money, state: State, recoverable: bool, reason: Option<string>, expires: Time)

  datatype Decision = Decision(
    run: Id, key: Id, reservation: Option<nat>, allowed: bool, rule: string,
    selectedModel: Option<Id>, estimate: Money, savings: bool)

  datatype Tokens = Tokens(input: nat, cacheRead: nat, cacheWrite: nat, output: nat, reasoning: nat) {
    function Plus(t: Tokens): Tokens {
      Tokens(input + t.input, cacheRead + t.cacheRead, cacheWrite + t.cacheWrite,
             output + t.output, reasoning + t.reasoning)
    }
  }

  datatype Usage = Usage(
    source: Id, parser: string, model: Id, tokens: Tokens, measured: bool, occurred: Time)

  datatype Event = Event(
    id: Id, run: Id, correlation: Id, kind: Kind, status: Option<string>,
    occurred: Time, usage: Option<Usage>, cost: Option<Money>, estimated: Option<bool>)

  datatype CostRow = CostRow(run: Id, event: Id, correlation: Id, usd: Money, estimated: bool)

  datatype Db = Db(
    generations: map<Id, int>,
    leases: map<Id, Time>,
    reservations: seq<Reservation>,
    decisions: seq<Decision>,
    events: map<(Id, Id), Event>,
    costs: seq<CostRow>,
    usage: map<(Id, Id, string), Usage>,
    nextId: nat)

  /** The slack budget comparisons allow. */
  const SLACK: real := 0.000000000001

  const EMPTY := Db(map[], map[], [], [], map[], [], map[], 0)

  datatype Error =
    | InvalidArgument | NoRun | NoLease | ConflictingEvent | UniqueViolation
    | NoReservation | NotRecoverable | ActiveLease

  /** What a hook asks for; the money is finite and nonnegative by construction. */
  datatype Request = Request(
    run: Id, task: Id, correlation: Option<Id>, key: Id, operation: Id,
    tier: Id, model: Id, estimate: Money, ttl: Time, generation: int, effort: Option<Id>)

  datatype Snapshot = Snapshot(activeByTier: map<Id, nat>, reserved: Money, spent: Money) {
    function Active(tier: Id): nat { if tier in activeByTier then activeByTier[tier] else 0 }
  }

  datatype Spec = Spec(allowed: bool, rule: string, selectedModel: Option<Id>, savings: bool, reserve: bool)

  function Deny(rule: string): Spec { Spec(false, rule, None, false, true) }

  // ---- Lookups --------------------------------------------------------------

  predicate HasCorrelation(r: Reservation, run: Id, correlation: Id) {
    r.run == run && r.correlation == Some(correlation)
  }

  function FindCorrelation(rows: seq<Reservation>, run: Id, correlation: Id): (i: Option<nat>)
    ensures i.Some? ==> i.value < |rows| && HasCorrelation(rows[i.value], run, correlation)
    ensures i.None? ==> forall j :: 0 <= j < |rows| ==> !HasCorrelation(rows[j], run, correlation)
  {
    if rows == [] then None
    else if HasCorrelation(rows[0], run, correlation) then Some(0)
    else
      assert forall j :: 1 <= j < |rows| ==> rows[j] == rows[1..][j - 1];
      match FindCorrelation(rows[1..], run, correlation)
      case None => None
      case Some(i) => Some(i + 1)
  }

  predicate TaskTaken(rows: seq<Reservation>, run: Id, task: Id) {
    exists i :: 0 <= i < |rows| && rows[i].run == run && rows[i].task == task
  }

  function FindId(rows: seq<Reservation>, run: Id, id: nat): (i: Option<nat>)
    ensures i.Some? ==> i.value < |rows| && rows[i.value].run == run && rows[i.value].id == id
    ensures i.None? ==> forall j :: 0 <= j < |rows| ==> !(rows[j].run == run && rows[j].id == id)
  {
    if rows == [] then None
    else if rows[0].run == run && rows[0].id == id then Some(0)
    else
      assert forall j :: 1 <= j < |rows| ==> rows[j] == rows[1..][j - 1];
      match FindId(rows[1..], run, id)
      case None => None
      case Some(i) => Some(i + 1)
  }

  function FindDecision(rows: seq<Decision>, run: Id, key: Id): (i: Option<nat>)
    ensures i.Some? ==> i.value < |rows| && rows[i.value].run == run && rows[i.value].key == key
    ensures i.None? ==> forall j :: 0 <= j < |rows| ==> !(rows[j].run == run && rows[j].key == key)
  {
    if rows == [] then None
    else if rows[0].run == run && rows[0].key == key then Some(0)
    else
      assert forall j :: 1 <= j < |rows| ==> rows[j] == rows[1..][j - 1];
      match FindDecision(rows[1..], run, key)
      case None => None
      case Some(i) => Some(i + 1)
  }

  // ---- Aggregates -----------------------------------------------------------

  predicate Occupies(s: State) { s == Approved || s == Started }

  predicate Reserves(s: State) { Occupies(s) || s == Stopped }

  function ActiveIn(run: Id, tier: Option<Id>): Reservation -> bool {
    (r: Reservation) => r.run == run && r.tier == tier && Occupies(r.state)
  }

  function ReservedIn(run: Id): Reservation -> real {
    (r: Reservation) => if r.run == run && Reserves(r.state) then r.estimate else 0.0
  }

  function SpentIn(run: Id): CostRow -> real {
    (c: CostRow) => if c.run == run then c.usd else 0.0
  }

  function ActiveCount(rows: seq<Reservation>, run: Id, tier: Option<Id>): nat {
    Count(ActiveIn(run, tier), rows)
  }

  function ReservedUsd(rows: seq<Reservation>, run: Id): Money {
    SumNonNegative(ReservedIn(run), rows);
    Sum(ReservedIn(run), rows)
  }

  function SpentUsd(costs: seq<CostRow>, run: Id): Money {
    SumNonNegative(SpentIn(run), costs);
    Sum(SpentIn(run), costs)
  }

  /** The key under which a tier appears in the snapshot: a missing tier reads "None". */
  function TierKey(tier: Option<Id>): Id { if tier.Some? then tier.value else "None" }

  /** The group for the missing tier comes first, so a tier named "None" overwrites it. */
  function ReportedActive(rows: seq<Reservation>, run: Id, tier: Id): nat {
    var named := ActiveCount(rows, run, Some(tier));
    if named > 0 then named
    else if tier == "None" then ActiveCount(rows, run, None)
    else 0
  }

  function TakeSnapshot(db: Db, run: Id): Snapshot {
    Snapshot(
      map r | r in db.reservations && r.run == run && Occupies(r.state)
        :: TierKey(r.tier) := ReportedActive(db.reservations, run, TierKey(r.tier)),
      ReservedUsd(db.reservations, run),
      SpentUsd(db.costs, run))
  }

  // ---- The lifecycle table ----------------------------------------------------

  function Transition(state: State, recoverable: bool, reason: Option<string>, kind: Kind)
    : (State, bool, Option<string>)
  {
    match kind
    case Start =>
      if state == Approved then (Started, false, None)
      else if state == Stopped || state == Costed then (state, false, None)
      else (state, recoverable, reason)
    case Stop =>
      if state == Approved then (Stopped, true, Some("stop before start"))
      else if state == Started then (Stopped, false, None)
      else if state == Costed then (state, false, None)
      else (state, recoverable, reason)
    case Cost =>
      if state == Stopped then (Costed, recoverable, reason)
      else if state == Approved || state == Started then (Costed, true, Some("cost before stop"))
      else (state, recoverable, reason)
    case Cancel => (Cancelled, false, None)
    case Fail => (Failed, false, None)
  }

  function OrphanState(kind: Kind): State {
    match kind
    case Start => Started
    case Stop => Stopped
    case Cost => Costed
    case Cancel => Cancelled
    case Fail => Failed
  }

  function OrphanReason(kind: Kind): string {
    match kind
    case Start => "start before reservation"
    case Stop => "stop before reservation"
    case Cost => "cost before reservation"
    case Cancel => "cancel before reservation"
    case Fail => "fail before reservation"
  }

  /** What two deliveries of one event must share: everything but the clock readings. */
  function Semantics(e: Event): Event {
    e.(occurred := 0.0,
       usage := if e.usage.Some? then Some(e.usage.value.(occurred := 0.0)) else None)
  }

  // ---- Transactions -----------------------------------------------------------

  function CreateRun(db: Db, run: Id, generation: int, lease: int, now: Time): (Db, Result<(), Error>) {
    if generation < 0 || lease < 1 then (db, Err(InvalidArgument))
    else (db.(generations := db.generations[run := generation],
              leases := db.leases[run := now + lease as real]), Ok(()))
  }

  function Heartbeat(db: Db, run: Id, lease: int, now: Time): (Db, Result<(), Error>) {
    if run !in db.leases then (db, Err(NoLease))
    else (db.(leases := db.leases[run := now + lease as real]), Ok(()))
  }

  function ExpireRow(r: Reservation, now: Time): Reservation {
    if r.state == Approved && r.expires <= now then
      r.(state := Expired, recoverable := false, reason := None)
    else if r.state == Started && r.expires <= now && !r.recoverable then
      r.(recoverable := true, reason := Some("started reservation exceeded TTL"))
    else r
  }

  function ExpireRows(rows: seq<Reservation>, now: Time): (s: seq<Reservation>)
    ensures |s| == |rows|
    ensures forall i :: 0 <= i < |rows| ==> s[i] == ExpireRow(rows[i], now)
  {
    seq(|rows|, i requires 0 <= i < |rows| => ExpireRow(rows[i], now))
  }

  function Sweep(db: Db, now: Time): Db {
    db.(reservations := ExpireRows(db.reservations, now))
  }

  /** The first ground on which a request is turned down, or else the evaluator's verdict. */
  function Judge(db: Db, req: Request, evaluator: Snapshot -> Spec, now: Time): Spec
    requires req.run in db.generations
  {
    if db.generations[req.run] != req.generation then Deny("STALE_GENERATION")
    else if req.run !in db.leases || db.leases[req.run] <= now then Deny("RUN_LEASE_EXPIRED")
    else if req.correlation.Some?
            && FindCorrelation(db.reservations, req.run, req.correlation.value).Some?
    then Deny("DUPLICATE_CORRELATION")
    else if TaskTaken(db.reservations, req.run, req.task) then Deny("DUPLICATE_RESERVATION")
    else evaluator(TakeSnapshot(db, req.run))
  }

  function Granted(req: Request, id: nat, now: Time): Reservation {
    Reservation(id, req.run, req.task, req.correlation, req.operation, Some(req.tier), Some(req.model),
                req.effort, req.estimate, Approved, false, None, now + req.ttl)
  }

  /** The database after the verdict is written down, with the decision row it adds. */
  function Enact(db: Db, req: Request, spec: Spec, now: Time): (Db, Decision) {
    var reserving := spec.allowed && spec.reserve;
    var d := Decision(req.run, req.key, if reserving then Some(db.nextId) else None,
                      spec.allowed, spec.rule, spec.selectedModel, req.estimate, spec.savings);
    var rows := if reserving then db.reservations + [Granted(req, db.nextId, now)] else db.reservations;
    (db.(reservations := rows,
         decisions := db.decisions + [d],
         nextId := if reserving then db.nextId + 1 else db.nextId), d)
  }

  function DecideAndReserve(db: Db, req: Request, evaluator: Snapshot -> Spec, now: Time)
    : (Db, Result<Decision, Error>)
  {
    var swept := Sweep(db, now);
    match FindDecision(swept.decisions, req.run, req.key)
    case Some(i) => (swept, Ok(swept.decisions[i]))
    case None =>
      if req.run !in db.generations then (db, Err(NoRun))
      else
        var (after, d) := Enact(swept, req, Judge(swept, req, evaluator, now), now);
        (after, Ok(d))
  }

  function Orphan(e: Event, id: nat, now: Time): Reservation {
    Reservation(id, e.run, e.correlation, Some(e.correlation), "spawn", None, None, None, 0.0,
                OrphanState(e.kind), true, Some(OrphanReason(e.kind)), now + 300.0)
  }

  function Moved(r: Reservation, kind: Kind): Reservation {
    var (s, rec, why) := Transition(r.state, r.recoverable, r.reason, kind);
    r.(state := s, recoverable := rec, reason := why)
  }

  /** The rows an event leaves behind, or None when it would break a unique key. */
  function Deliver(db: Db, e: Event, now: Time): Option<Db> {
    match FindCorrelation(db.reservations, e.run, e.correlation)
    case Some(i) =>
      Some(db.(reservations := db.reservations[i := Moved(db.reservations[i], e.kind)]))
    case None =>
      if TaskTaken(db.reservations, e.run, e.correlation) then None
      else Some(db.(reservations := db.reservations + [Orphan(e, db.nextId, now)], nextId := db.nextId + 1))
  }

  /** The event row itself, its usage (first source wins) and its cost. */
  function Account(db: Db, e: Event): Db {
    var key := if e.usage.Some? then (e.run, e.usage.value.source, e.usage.value.parser) else ("", "", "");
    db.(events := db.events[(e.run, e.id) := e],
        usage := if e.usage.Some? && key !in db.usage then db.usage[key := e.usage.value] else db.usage,
        costs := if e.cost.Some?
                 then db.costs + [CostRow(e.run, e.id, e.correlation, e.cost.value, e.estimated == Some(true))]
                 else db.costs)
  }

  function Fetch(db: Db, run: Id, correlation: Id): Result<Reservation, Error> {
    match FindCorrelation(db.reservations, run, correlation)
    case Some(i) => Ok(db.reservations[i])
    case None => Err(NoReservation)
  }

  function RecordLifecycle(db: Db, e: Event, now: Time): (Db, Result<Reservation, Error>) {
    if e.run !in db.generations then (db, Err(NoRun))
    else if (e.run, e.id) in db.events then
      if Semantics(db.events[(e.run, e.id)]) != Semantics(e) then (db, Err(ConflictingEvent))
      else (db, Fetch(db, e.run, e.correlation))
    else
      match Deliver(db, e, now)
      case None => (db, Err(UniqueViolation))
      case Some(moved) =>
        var after := Account(moved, e);
        (after, Fetch(after, e.run, e.correlation))
  }

  datatype Outcome = ToCancelled | ToFailed | ToExpired

  function OutcomeState(o: Outcome): State {
    match o case ToCancelled => Cancelled case ToFailed => Failed case ToExpired => Expired
  }

  function ResolveRecovery(db: Db, run: Id, id: nat, outcome: Outcome): (Db, Result<Reservation, Error>) {
    match FindId(db.reservations, run, id)
    case None => (db, Err(NoReservation))
    case Some(i) =>
      if !db.reservations[i].recoverable then (db, Err(NotRecoverable))
      else
        var r := db.reservations[i].(state := OutcomeState(outcome), recoverable := false, reason := None);
        (db.(reservations := db.reservations[i := r]), Ok(r))
  }

  function EventsWithout(events: map<(Id, Id), Event>, run: Id): map<(Id, Id), Event> {
    map k | k in events && k.0 != run :: events[k]
  }

  function UsageWithout(usage: map<(Id, Id, string), Usage>, run: Id): map<(Id, Id, string), Usage> {
    map k | k in usage && k.0 != run :: usage[k]
  }

  /** Deleting a run takes every row that refers to it. */
  function Purge(db: Db, run: Id): Db {
    Db(db.generations - {run},
       db.leases - {run},
       Filter((r: Reservation) => r.run != run, db.reservations),
       Filter((d: Decision) => d.run != run, db.decisions),
       EventsWithout(db.events, run),
       Filter((c: CostRow) => c.run != run, db.costs),
       UsageWithout(db.usage, run),
       db.nextId)
  }

  function DeleteRun(db: Db, run: Id, now: Time): (Db, Result<(), Error>) {
    if run in db.leases && db.leases[run] > now then (db, Err(ActiveLease))
    else if run !in db.generations then (db, Err(NoRun))
    else (Purge(db, run), Ok(()))
  }

  // ---- Runs -------------------------------------------------------------------

  /** One transaction, with the clock reading it saw. */
  datatype Op =
    | OpCreate(run: Id, generation: int, lease: int, now: Time)
    | OpHeartbeat(run: Id, lease: int, now: Time)
    | OpDecide(req: Request, evaluator: Snapshot -> Spec, now: Time)
    | OpLifecycle(event: Event, now: Time)
    | OpSweep(now: Time)
    | OpResolve(run: Id, id: nat, outcome: Outcome)
    | OpDelete(run: Id, now: Time)

  function Step(db: Db, op: Op): Db {
    match op
    case OpCreate(run, generation, lease, now) => CreateRun(db, run, generation, lease, now).0
    case OpHeartbeat(run, lease, now) => Heartbeat(db, run, lease, now).0
    case OpDecide(req, evaluator, now) => DecideAndReserve(db, req, evaluator, now).0
    case OpLifecycle(event, now) => RecordLifecycle(db, event, now).0
    case OpSweep(now) => Sweep(db, now)
    case OpResolve(run, id, outcome) => ResolveRecovery(db, run, id, outcome).0
    case OpDelete(run, now) => DeleteRun(db, run, now).0
  }

  function Run(db: Db, ops: seq<Op>): Db
    decreases |ops|
  {
    if ops == [] then db else Run(Step(db, ops[0]), ops[1..])
  }
}
