/**
 The durable reserve / apply / finalize / compensate / retry protocol of
 apps/support/durable_assignment_service.py beside the capacity ledger. Each
 database transaction is one total function on the world of tables; a
 transaction that raises or returns early leaves the world unchanged.
 */
module AssignmentProtocol {
  import opened Base
  import opened CapacityLedger

  datatype AttemptState =
    AttemptReserved | ExternalApplied | Completed | Compensating | Compensated | Retryable | RepairRequired

  datatype AttemptKind = Automatic | Manual

  datatype Attempt = Attempt(
    ticket: TicketId,
    cycle: CycleId,
    kind: AttemptKind,
    row: nat,
    agent: AgentId,
    owner: OwnerId,
    state: AttemptState,
    compensatedAt: Option<nat>,
    nextRetryAt: Option<nat>,
    retries: nat)

  datatype CycleState = CycleQueued | CycleAssigned | CycleClosed

  datatype Cycle = Cycle(ticket: TicketId, state: CycleState)

  datatype RowStatus = Pending | Queued | Failed

  datatype Failure = NoFailure | StaleCycle | ManualOwnerObserved | OtherFailure

  /** A queue row that has a cycle; `id` is its primary key. */
  datatype QueueRow = QueueRow(
    id: nat,
    ticket: TicketId,
    eligible: bool,
    status: RowStatus,
    failure: Failure,
    nextAttemptAt: Option<nat>,
    claimExpiresAt: Option<nat>,
    tries: nat)

  datatype AssignedRow = AssignedRow(ticket: TicketId, agent: Option<AgentId>, owner: OwnerId)

  datatype Config = Config(enforce: bool, freshness: nat, claimTtl: nat, dir: Directory)

  datatype World = World(
    cfg: Config,
    ledger: Ledger,
    attempts: map<AttemptId, Attempt>,
    cycles: map<CycleId, Cycle>,
    queue: map<CycleId, QueueRow>,
    assignments: map<CycleId, AssignedRow>,
    now: nat)

  predicate IsLive(s: AttemptState) {
    s in {AttemptReserved, ExternalApplied, Compensating, Retryable, RepairRequired}
  }

  function LiveOn(w: World, c: CycleId): set<AttemptId> {
    set id | id in w.attempts && w.attempts[id].cycle == c && IsLive(w.attempts[id].state)
  }

  function CompletedOn(w: World, c: CycleId): set<AttemptId> {
    set id | id in w.attempts && w.attempts[id].cycle == c && w.attempts[id].state == Completed
  }

  /** The row an attempt still references. */
  predicate RowLinked(w: World, at: Attempt) {
    at.cycle in w.queue && w.queue[at.cycle].id == at.row
  }

  predicate Due(moment: Option<nat>, now: nat) {
    moment.None? || moment.value <= now
  }

  predicate RowReady(row: QueueRow, now: nat) {
    && row.eligible
    && row.status in {Pending, Queued}
    && Due(row.nextAttemptAt, now)
    && Due(row.claimExpiresAt, now)
  }

  /** Every transition out of a ticket transaction starts by getting the occupancy row. */
  function Enter(w: World, t: TicketId): World {
    if w.cfg.enforce then w.(ledger := EnsureRow(w.ledger, t)) else w
  }

  function HasRoom(w: World, a: AgentId): bool {
    if w.cfg.enforce then CapacityReady(w.ledger, a, w.cfg.dir, w.now, w.cfg.freshness)
    else a in w.ledger.agents && a in w.cfg.dir.maxChats
         && w.ledger.agents[a].chats < (if w.cfg.dir.maxChats[a] == 0 then 5 else w.cfg.dir.maxChats[a])
  }

  // ----- reserve ----------------------------------------------------------

  datatype ReserveRequest = ReserveRequest(
    id: AttemptId,
    kind: AttemptKind,
    cycle: CycleId,
    agent: AgentId,
    eligible: bool,
    deferred: bool)

  datatype ReserveOutcome =
    | RowUnavailable
    | DeferredByBarrier
    | StaleCycleRow
    | CompletedSameCycle
    | ExistingAttempt
    | CandidateRejected
    | KeyTaken
    | Granted

  predicate KeyUsed(w: World, c: CycleId, kind: AttemptKind) {
    exists id | id in w.attempts :: w.attempts[id].cycle == c && w.attempts[id].kind == kind
  }

  /** Which branch one candidate's reservation transaction takes. */
  function ClassifyReserve(w: World, r: ReserveRequest): ReserveOutcome {
    if r.cycle !in w.queue || r.cycle !in w.cycles then RowUnavailable
    else if r.kind == Automatic && !RowReady(w.queue[r.cycle], w.now) then RowUnavailable
    else if r.kind == Automatic && r.deferred then DeferredByBarrier
    else if w.cycles[r.cycle].state != CycleQueued then StaleCycleRow
    else if r.kind == Automatic && CompletedOn(w, r.cycle) != {} then CompletedSameCycle
    else if LiveOn(w, r.cycle) != {} then ExistingAttempt
    else if !r.eligible || r.agent !in w.cfg.dir.ownerOf || !HasRoom(w, r.agent) then CandidateRejected
    else if KeyUsed(w, r.cycle, r.kind) || r.id in w.attempts then KeyTaken
    else Granted
  }

  /** Count a non-enforcing hold or release on the stored counter itself. */
  function AddChats(l: Ledger, a: AgentId, delta: int): Ledger {
    if a in l.agents then
      l.(agents := l.agents[a := l.agents[a].(chats := Max(l.agents[a].chats + delta, 0))])
    else l
  }

  function StampAgent(l: Ledger, a: AgentId, now: nat): Ledger {
    if a in l.agents then l.(agents := l.agents[a := l.agents[a].(lastAssignedAt := Some(now))]) else l
  }

  /** Take capacity for an attempt: identified hold when enforcing, counter otherwise. */
  function TakeCapacity(w: World, id: AttemptId, t: TicketId, a: AgentId): Ledger
    requires w.cfg.enforce ==> t in w.ledger.occupancy
  {
    var stamped := StampAgent(w.ledger, a, w.now);
    if w.cfg.enforce then Hold(stamped, ForAttempt(id), t, a, true) else AddChats(stamped, a, 1)
  }

  function Grant(w: World, r: ReserveRequest): World
    requires r.cycle in w.queue && r.agent in w.cfg.dir.ownerOf
    requires w.cfg.enforce ==> w.queue[r.cycle].ticket in w.ledger.occupancy
  {
    var row := w.queue[r.cycle];
    w.(
      ledger := TakeCapacity(w, r.id, row.ticket, r.agent),
      queue := w.queue[r.cycle := row.(claimExpiresAt := Some(w.now + w.cfg.claimTtl), tries := row.tries + 1)],
      attempts := w.attempts[r.id := Attempt(
                                       row.ticket, r.cycle, r.kind, row.id, r.agent, w.cfg.dir.ownerOf[r.agent],
                                       AttemptReserved, None, None, 0)])
  }

  function Reserve(w: World, r: ReserveRequest): World {
    var outcome := ClassifyReserve(w, r);
    if outcome == RowUnavailable then w
    else
      var e := Enter(w, w.queue[r.cycle].ticket);
      match outcome
      case StaleCycleRow =>
        if r.kind == Automatic then
          e.(queue := e.queue[r.cycle := e.queue[r.cycle].(status := Failed, failure := StaleCycle)])
        else e
      case CompletedSameCycle => e.(queue := e.queue - {r.cycle})
      case KeyTaken => w
      case Granted => Grant(e, r)
      case _ => e
  }

  // ----- external effect and finalization ---------------------------------

  /** Record a provider-confirmed owner. */
  function MarkExternal(w: World, id: AttemptId): World {
    if id !in w.attempts then w
    else
      var e := Enter(w, w.attempts[id].ticket);
      if w.attempts[id].state == Completed then e
      else if w.attempts[id].state in {AttemptReserved, ExternalApplied, RepairRequired} then
        e.(attempts := e.attempts[id := e.attempts[id].(state := ExternalApplied)])
      else w
  }

  predicate CanFinalize(w: World, id: AttemptId) {
    && id in w.attempts
    && var at := w.attempts[id];
    && at.state == ExternalApplied
    && at.cycle in w.cycles
    && w.cycles[at.cycle].state == CycleQueued
    && (w.cfg.enforce ==>
          && at.ticket in w.ledger.occupancy
          && w.ledger.occupancy[at.ticket].state == Active
          && w.ledger.occupancy[at.ticket].owner == Some(at.owner))
  }

  function CountAssignment(l: Ledger, a: AgentId): Ledger {
    if a in l.agents then l.(agents := l.agents[a := l.agents[a].(total := l.agents[a].total + 1)]) else l
  }

  /** Finalize exactly once: projection, counter, queue row, attempt and cycle together. */
  function Finalize(w: World, id: AttemptId): World {
    if id in w.attempts && w.attempts[id].state == Completed then Enter(w, w.attempts[id].ticket)
    else if !CanFinalize(w, id) then w
    else
      var at := w.attempts[id];
      w.(
      ledger := CountAssignment(w.ledger, at.agent),
      assignments := w.assignments[at.cycle := AssignedRow(at.ticket, Some(at.agent), at.owner)],
      queue := if RowLinked(w, at) then w.queue - {at.cycle} else w.queue,
      attempts := w.attempts[id := at.(state := Completed, nextRetryAt := None)],
      cycles := w.cycles[at.cycle := w.cycles[at.cycle].(state := CycleAssigned)])
  }

  // ----- compensation -----------------------------------------------------

  datatype Compensation = Compensation(retryable: bool, repair: bool, quarantine: bool, code: Failure)

  /** The early returns of a compensation: nothing is written. */
  predicate CompensationIgnored(at: Attempt, c: Compensation) {
    || at.state in {Completed, Compensated}
    || (at.compensatedAt.Some? && (c.retryable || c.repair))
  }

  function RetryDelay(retries: nat): nat {
    var exponent := Min(Max(retries - 1, 0), 5);
    Min(60 * [1, 2, 4, 8, 16, 32][exponent], 1800)
  }

  function CompensatedAttempt(at: Attempt, c: Compensation, now: nat): Attempt {
    var first := at.compensatedAt.None?;
    var counted := if first then at.(compensatedAt := Some(now), retries := at.retries + 1) else at;
    if c.repair then counted.(state := RepairRequired, nextRetryAt := None)
    else if c.retryable then counted.(state := Retryable, nextRetryAt := Some(now + RetryDelay(counted.retries)))
    else counted.(state := Compensated, nextRetryAt := None)
  }

  function ReleasedRow(row: QueueRow, at: Attempt, c: Compensation): QueueRow {
    row.(
    claimExpiresAt := None,
    nextAttemptAt := at.nextRetryAt,
    failure := c.code,
    status := if c.quarantine then Failed else Queued)
  }

  /** An enforcing repair keeps its reservation until conclusive readback. */
  predicate RepairKeepsHold(w: World, id: AttemptId, c: Compensation) {
    c.repair && (w.cfg.enforce || ForAttempt(id) in w.ledger.reservations)
  }

  function ReleaseCapacity(w: World, id: AttemptId, at: Attempt): Ledger {
    var op := ForAttempt(id);
    var released := if w.cfg.enforce || op in w.ledger.reservations
                    then Materialize(Conclude(w.ledger, op, false), {at.agent}, w.cfg.enforce)
                    else w.ledger;
    if !w.cfg.enforce && at.compensatedAt.None? then AddChats(released, at.agent, -1) else released
  }

  function Compensate(w: World, id: AttemptId, c: Compensation): World {
    if id !in w.attempts then w
    else
      var at := w.attempts[id];
      var e := Enter(w, at.ticket);
      if CompensationIgnored(at, c) then e
      else if RepairKeepsHold(e, id, c) then
        e.(attempts := e.attempts[id := at.(state := RepairRequired)], ledger := Degrade(e.ledger, {at.agent}))
      else
        var after := CompensatedAttempt(at, c, e.now);
        e.(
        ledger := ReleaseCapacity(e, id, at),
        attempts := e.attempts[id := after],
        queue := if RowLinked(e, at) then e.queue[at.cycle := ReleasedRow(e.queue[at.cycle], after, c)] else e.queue)
  }

  // ----- retry ------------------------------------------------------------

  predicate CanRetry(w: World, id: AttemptId, eligible: bool) {
    && id in w.attempts
    && w.attempts[id].state == Retryable
    && eligible
    && (w.cfg.enforce ==>
          && ForAttempt(id) in w.ledger.reservations
          && w.ledger.reservations[ForAttempt(id)].state == Released)
    && (w.cfg.enforce ==> HasRoom(w, w.attempts[id].agent))
  }

  /** Re-reserve a due retry without creating another attempt. */
  function Retry(w: World, id: AttemptId, eligible: bool): World {
    if !CanRetry(w, id, eligible) then w
    else
      var at := w.attempts[id];
      var e := Enter(w, at.ticket);
      e.(
      ledger := TakeCapacity(e, id, at.ticket, at.agent),
      attempts := e.attempts[id := at.(state := AttemptReserved, compensatedAt := None, nextRetryAt := None)])
  }

  // ----- administrative transfer ------------------------------------------

  predicate CanTransfer(w: World, t: TicketId, transfer: TransferId, target: AgentId, revision: nat) {
    && w.cfg.enforce
    && t in w.ledger.occupancy
    && w.ledger.occupancy[t].revision == revision
    && w.ledger.occupancy[t].state == Active
    && (exists c | c in w.assignments :: w.assignments[c].ticket == t)
    && target in w.cfg.dir.ownerOf
    && w.ledger.occupancy[t].owner != Some(w.cfg.dir.ownerOf[target])
    && HoldersOf(w.ledger, t) == {}
    && ForTransfer(transfer) !in w.ledger.reservations
    && HasRoom(w, target)
  }

  /** Hold the transfer target before the provider call. */
  function TransferHold(w: World, t: TicketId, transfer: TransferId, target: AgentId, revision: nat): World {
    if !CanTransfer(w, t, transfer, target, revision) then w
    else w.(ledger := Hold(w.ledger, ForTransfer(transfer), t, target, true))
  }

  // ----- observations -----------------------------------------------------

  /**
   One provider observation as it reaches its write transaction: what was
   captured before the read, what was read, and the rows that the unordered
   `.first()` queries of the projection return.
   */
  datatype Observation = Observation(
    ticket: TicketId,
    captured: set<AgentId>,
    revision: nat,
    snap: Snapshot,
    current: bool,
    viaClose: bool,
    project: bool,
    closeFails: bool,
    cycle: Option<CycleId>,
    assignedCycle: Option<CycleId>)

  datatype ObservationOutcome = NotCurrent | Rejected | PendingClose | Applied

  /** The chosen rows belong to the ticket, and none is overlooked. */
  predicate Picks(w: World, o: Observation) {
    && (match o.cycle
        case Some(c) => c in w.cycles && w.cycles[c].ticket == o.ticket && w.cycles[c].state != CycleClosed
        case None => forall c | c in w.cycles && w.cycles[c].ticket == o.ticket :: w.cycles[c].state == CycleClosed)
    && (match o.assignedCycle
        case Some(c) => c in w.assignments && w.assignments[c].ticket == o.ticket
        case None => forall c | c in w.assignments :: w.assignments[c].ticket != o.ticket)
  }

  function ClassifyObservation(w: World, o: Observation): ObservationOutcome {
    var l := EnsureRow(w.ledger, o.ticket);
    if !o.snap.complete then Rejected
    else if o.viaClose && !o.current then NotCurrent
    else if !Admissible(l.occupancy[o.ticket], o.revision, o.snap) then Rejected
    else if !o.viaClose && o.snap.inSupport && o.snap.closed && !o.snap.closedAtKnown then PendingClose
    else if !o.viaClose && ObservedState(o.snap) == Closed && o.cycle.Some? && o.closeFails then Rejected
    else Applied
  }

  /** Agents a rejected observation degrades; a close that failed had collected the assigned ones too. */
  function RejectedAgents(w: World, o: Observation): set<AgentId> {
    if !o.snap.complete then o.captured
    else
      o.captured
      + (if o.ticket in w.ledger.occupancy then OptionSet(w.ledger.occupancy[o.ticket].agent) else {})
      + OptionSet(w.cfg.dir.Lookup(o.snap.owner))
      + (if Admissible(EnsureRow(w.ledger, o.ticket).occupancy[o.ticket], o.revision, o.snap)
         then AssignedAgents(w, o) else {})
  }

  /** A live attempt whose confirmed or held effect the projection must not pre-empt. */
  predicate ProtectedBy(w: World, o: Observation, id: AttemptId) {
    && id in w.attempts
    && w.attempts[id].state in {AttemptReserved, ExternalApplied, RepairRequired}
    && ForAttempt(id) in w.ledger.reservations
    && w.ledger.reservations[ForAttempt(id)].ticket == o.ticket
    && w.ledger.reservations[ForAttempt(id)].state in {Held, Converted}
    && Some(w.ledger.reservations[ForAttempt(id)].agent) == w.cfg.dir.Lookup(o.snap.owner)
  }

  predicate RowProjectable(w: World, c: CycleId) {
    && c in w.queue
    && (w.queue[c].status in {Pending, Queued}
        || (w.queue[c].status == Failed && w.queue[c].failure == ManualOwnerObserved))
  }

  predicate ProjectsNewOwner(w: World, o: Observation) {
    && ObservedState(o.snap) == Active
    && o.assignedCycle.None?
    && o.cycle.Some?
    && o.cycle.value in w.cycles
    && w.cycles[o.cycle.value].state == CycleQueued
    && RowProjectable(w, o.cycle.value)
    && !(exists id | id in w.attempts :: ProtectedBy(w, o, id))
  }

  /** Project the observed owner on proven cycle rows only. */
  function ProjectOwner(w: World, o: Observation): World {
    var s := ObservedState(o.snap);
    if s != Active then
      if s == Unassigned && o.assignedCycle.Some? then w.(assignments := w.assignments - {o.assignedCycle.value}) else w
    else if o.assignedCycle.Some? then
      if o.cycle != o.assignedCycle || o.assignedCycle.value !in w.assignments || o.snap.owner.None? then w
      else if w.assignments[o.assignedCycle.value].owner != o.snap.owner.value then
        w.(assignments := w.assignments[o.assignedCycle.value :=
                                    AssignedRow(o.ticket, w.cfg.dir.Lookup(o.snap.owner), o.snap.owner.value)])
      else w
    else if ProjectsNewOwner(w, o) then
      var c := o.cycle.value;
      w.(
      assignments := w.assignments[c := AssignedRow(o.ticket, w.cfg.dir.Lookup(o.snap.owner), o.snap.owner.value)],
      cycles := w.cycles[c := w.cycles[c].(state := CycleAssigned)],
      queue := w.queue - {c})
    else w
  }

  /** Close one cycle: its projections go, its record is kept elsewhere. */
  function CloseCycle(w: World, c: CycleId): World {
    if c !in w.cycles || w.cycles[c].state == CycleClosed then w
    else w.(
      cycles := w.cycles[c := w.cycles[c].(state := CycleClosed)],
      assignments := w.assignments - {c},
      queue := w.queue - {c})
  }

  function ProjectClose(w: World, o: Observation): World {
    if !o.viaClose && ObservedState(o.snap) == Closed && o.cycle.Some? then CloseCycle(w, o.cycle.value) else w
  }

  function AssignedAgents(w: World, o: Observation): set<AgentId> {
    if !o.project then
      set c | c in w.assignments && w.assignments[c].ticket == o.ticket && w.assignments[c].agent.Some?
        :: w.assignments[c].agent.value
    else if o.assignedCycle.Some? && o.assignedCycle.value in w.assignments then
      OptionSet(w.assignments[o.assignedCycle.value].agent)
    else {}
  }

  /** An owner that changed to an active agent counts as that agent's newest assignment. */
  function StampObserved(l: Ledger, row: Occupancy, o: Observation, d: Directory, now: nat): Ledger {
    if ObservedState(o.snap) == Active && d.Lookup(o.snap.owner).Some? && row.owner != o.snap.owner
    then StampAgent(l, d.Lookup(o.snap.owner).value, now) else l
  }

  function AppliedWorld(w: World, o: Observation): World
    requires o.ticket in w.ledger.occupancy
  {
    var projected := ProjectClose(if o.project then ProjectOwner(w, o) else w, o);
    var extra := o.captured + AssignedAgents(w, o);
    var l := ApplyObservation(w.ledger, o.ticket, o.snap, w.cfg.dir, extra, true);
    projected.(ledger := StampObserved(l, w.ledger.occupancy[o.ticket], o, w.cfg.dir, w.now))
  }

  /** The write transaction of an enforcing observation, with its failure path. */
  function Observe(w: World, o: Observation): World {
    if !w.cfg.enforce || !Picks(w, o) then w
    else
      match ClassifyObservation(w, o)
      case NotCurrent => Enter(w, o.ticket)
      case PendingClose => Enter(w, o.ticket)
      case Rejected => w.(ledger := Degrade(w.ledger, RejectedAgents(w, o)))
      case Applied => AppliedWorld(Enter(w, o.ticket), o)
  }

  // ----- the transition system --------------------------------------------

  datatype Act =
    | Tick(seconds: nat)
    | OpenCycle(cycle: CycleId, ticket: TicketId)
    | Enqueue(cycle: CycleId, rowId: nat, eligible: bool)
    | CloseAct(cycle: CycleId)
    | ReserveAct(request: ReserveRequest)
    | MarkAct(id: AttemptId)
    | FinalizeAct(id: AttemptId)
    | CompensateAct(id: AttemptId, compensation: Compensation)
    | RetryAct(id: AttemptId, eligible: bool)
    | TransferAct(ticket: TicketId, transfer: TransferId, target: AgentId, revision: nat)
    | CaptureAct(ticket: TicketId)
    | ObserveAct(observation: Observation)
    | DegradeAct(agents: set<AgentId>)
    | ReadyAct(agent: AgentId)
    | RepairCrashAct(id: AttemptId)

  function OpenNew(w: World, c: CycleId, t: TicketId): World {
    if c in w.cycles then w else w.(cycles := w.cycles[c := Cycle(t, CycleQueued)])
  }

  function EnqueueRow(w: World, c: CycleId, rowId: nat, eligible: bool): World {
    if c !in w.cycles || c in w.queue then w
    else w.(queue := w.queue[c := QueueRow(rowId, w.cycles[c].ticket, eligible, Pending, NoFailure, None, None, 0)])
  }

  function MarkReady(w: World, a: AgentId): World {
    if a !in w.ledger.agents then w
    else
      var row := w.ledger.agents[a].(readiness := Ready, reconciledAt := Some(w.now));
      w.(ledger := w.ledger.(agents := w.ledger.agents[a := row]))
  }

  /** No other attempt of the cycle is live: the unique constraint on live attempts admits `id` beside the rest. */
  predicate LiveAlone(w: World, id: AttemptId)
    requires id in w.attempts
  {
    forall j | j in w.attempts && j != id && w.attempts[j].cycle == w.attempts[id].cycle :: !IsLive(w.attempts[j].state)
  }

  /** The state write of the repair loop's exception handler, which looks at nothing. */
  function Overwritten(w: World, id: AttemptId): World
    requires id in w.attempts
  {
    w.(attempts := w.attempts[id := w.attempts[id].(state := RepairRequired)])
  }

  /** The unique constraint refuses the write: it raises, and the row stays as it was. */
  predicate OverwriteRefused(w: World, id: AttemptId) {
    id in w.attempts && !LiveAlone(w, id)
  }

  function RepairCrash(w: World, id: AttemptId): World {
    if id !in w.attempts || OverwriteRefused(w, id) then w else Overwritten(w, id)
  }

  /** A close outside enforcement also decrements the assigned agent's counter. */
  function CloseTransaction(w: World, c: CycleId): World {
    var closed := CloseCycle(w, c);
    if !w.cfg.enforce && closed != w && c in w.assignments && w.assignments[c].agent.Some?
    then closed.(ledger := AddChats(closed.ledger, w.assignments[c].agent.value, -1))
    else closed
  }

  function Next(w: World, act: Act): World {
    match act
    case Tick(n) => w.(now := w.now + n)
    case OpenCycle(c, t) => OpenNew(w, c, t)
    case Enqueue(c, rowId, eligible) => EnqueueRow(w, c, rowId, eligible)
    case CloseAct(c) => CloseTransaction(w, c)
    case ReserveAct(r) => Reserve(w, r)
    case MarkAct(id) => MarkExternal(w, id)
    case FinalizeAct(id) => Finalize(w, id)
    case CompensateAct(id, c) => Compensate(w, id, c)
    case RetryAct(id, eligible) => Retry(w, id, eligible)
    case TransferAct(t, transfer, target, revision) => TransferHold(w, t, transfer, target, revision)
    case CaptureAct(t) => Enter(w, t)
    case ObserveAct(o) => Observe(w, o)
    case DegradeAct(ids) => w.(ledger := Degrade(w.ledger, ids))
    case ReadyAct(a) => MarkReady(w, a)
    case RepairCrashAct(id) => RepairCrash(w, id)
  }

  /** A database that knows its agents and nothing else. */
  function Start(cfg: Config): World {
    var rows := map a | a in cfg.dir.ownerOf :: AgentRow(0, 0, Uninitialized, None, None, 0);
    World(cfg, Ledger(map[], map[], rows), map[], map[], map[], map[], 0)
  }

  /** The world after a whole interleaving of transactions. */
  function Run(w: World, acts: seq<Act>): World
    decreases |acts|
  {
    if acts == [] then w else Next(Run(w, acts[..|acts| - 1]), acts[|acts| - 1])
  }
}
