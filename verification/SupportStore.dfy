/**
 The same transactions as row updates: the tables are fields that the methods
 reassign, and each method is tied to the function that specifies it.
 */
module SupportStore {
  import opened Base
  import opened CapacityLedger
  import opened AssignmentProtocol
  import Safety = AssignmentSafety

  class Store {
    const cfg: Config
    var occupancy: map<TicketId, Occupancy>
    var reservations: map<Operation, Reservation>
    var agents: map<AgentId, AgentRow>
    var attempts: map<AttemptId, Attempt>
    var cycles: map<CycleId, Cycle>
    var queue: map<CycleId, QueueRow>
    var assignments: map<CycleId, AssignedRow>
    var now: nat

    ghost function Tables(): Ledger
      reads this
    {
      Ledger(occupancy, reservations, agents)
    }

    ghost function State(): World
      reads this
    {
      World(cfg, Tables(), attempts, cycles, queue, assignments, now)
    }

    constructor (cfg: Config)
      ensures this.cfg == cfg
      ensures State() == Start(cfg)
    {
      this.cfg := cfg;
      occupancy, reservations := map[], map[];
      agents := map a | a in cfg.dir.ownerOf :: AgentRow(0, 0, Uninitialized, None, None, 0);
      attempts, cycles, queue, assignments, now := map[], map[], map[], map[], 0;
    }

    /** What other workers commit while this one waits. */
    method CommitOthers(acts: seq<Act>)
      modifies this
      ensures State() == Run(old(State()), acts)
    {
      hide Run;
      Safety.RunKeepsConfig(State(), acts);
      var w := Run(World(cfg, Ledger(occupancy, reservations, agents), attempts, cycles, queue, assignments, now), acts);
      occupancy, reservations, agents := w.ledger.occupancy, w.ledger.reservations, w.ledger.agents;
      attempts, cycles, queue, assignments, now := w.attempts, w.cycles, w.queue, w.assignments, w.now;
    }

    /** Project occupancy onto each listed agent row, one row at a time. */
    method MaterializeAgents(ids: set<AgentId>)
      modifies this`agents
      ensures Tables() == Materialize(old(Tables()), ids, cfg.enforce)
    {
      ghost var before := Tables();
      hide CapacityCount;
      var todo := ids;
      while todo != {}
        invariant todo <= ids
        invariant agents.Keys == before.agents.Keys
        invariant forall a | a in agents ::
                    agents[a] == if a in ids && a !in todo then Materialized(before, a, cfg.enforce) else before.agents[a]
        decreases |todo|
      {
        var a :| a in todo;
        todo := todo - {a};
        if a in agents {
          var l := Ledger(occupancy, reservations, agents);
          CountIgnoresAgents(l, before, a);
          var row := agents[a].(revision := agents[a].revision + 1);
          if cfg.enforce {
            row := row.(chats := CapacityCount(l, a));
          }
          agents := agents[a := row];
        }
      }
    }

    /** Invalidate readiness on unresolved provider evidence. */
    method DegradeAgents(ids: set<AgentId>)
      modifies this`agents
      ensures Tables() == Degrade(old(Tables()), ids)
    {
      ghost var before := agents;
      var todo := ids;
      while todo != {}
        invariant todo <= ids
        invariant agents.Keys == before.Keys
        invariant forall a | a in agents ::
                    agents[a] == if a in ids && a !in todo then DegradedRow(before[a]) else before[a]
        decreases |todo|
      {
        var a :| a in todo;
        todo := todo - {a};
        if a in agents {
          agents := agents[a := agents[a].(readiness := Degraded, revision := agents[a].revision + 1)];
        }
      }
    }

    method EnterTicket(t: TicketId)
      modifies this`occupancy
      ensures State() == Enter(old(State()), t)
      ensures cfg.enforce ==> t in occupancy
    {
      if cfg.enforce && t !in occupancy {
        occupancy := occupancy[t := Occupancy(None, None, Unknown, 0, None)];
      }
    }

    /** Hold once for an operation; the caller has entered the ticket. */
    method HoldCapacity(op: Operation, t: TicketId, a: AgentId)
      requires t in occupancy
      modifies this`occupancy, this`reservations, this`agents
      ensures Tables() == Hold(old(Tables()), op, t, a, cfg.enforce)
    {
      if op !in reservations {
        reservations := reservations[op := Reservation(t, a, Held)];
      } else if reservations[op].state == Released {
        reservations := reservations[op := reservations[op].(state := Held)];
      }
      occupancy := occupancy[t := occupancy[t].(revision := occupancy[t].revision + 1)];
      assert Tables() == HeldTables(old(Tables()), op, t, a);
      MaterializeAgents({a});
    }

    /** Conclude a held reservation exactly once. */
    method ConcludeReservation(op: Operation, converted: bool)
      modifies this`reservations
      ensures Tables() == Conclude(old(Tables()), op, converted)
    {
      if op !in reservations || reservations[op].state != Held {
        assert op in reservations ==> reservations == reservations[op := reservations[op]];
        return;
      }
      reservations := reservations[op := reservations[op].(state := if converted then Converted else Released)];
    }

    /** Conclude one held reservation if the observation settles it. */
    method SettleOne(op: Operation, s: Snapshot)
      requires op in reservations && reservations[op].state == Held
      modifies this`reservations
      ensures reservations == old(reservations)[op := Settled(old(reservations)[op], s, cfg.dir)]
    {
      assert reservations == reservations[op := reservations[op]];
      if ObservedState(s) == Active && cfg.dir.Owns(reservations[op].agent, s.owner) {
        ConcludeReservation(op, true);
      } else if ObservedState(s) in {Closed, OutOfScope} {
        ConcludeReservation(op, false);
      }
    }

    /** Settle the ticket's held reservations; report whom they were held for. */
    method SettleReservations(t: TicketId, s: Snapshot) returns (holders: set<AgentId>)
      modifies this`reservations
      ensures reservations == SettleTicket(old(reservations), t, s, cfg.dir)
      ensures holders == HoldersOf(old(Tables()), t)
    {
      hide Settled;
      ReservationsSettle(reservations, t, s, cfg.dir);
      ghost var before := reservations;
      var todo := set op | op in reservations && reservations[op].ticket == t && reservations[op].state == Held;
      ghost var held := todo;
      holders := {};
      while todo != {}
        invariant todo <= held
        invariant reservations.Keys == before.Keys
        invariant forall op | op in before ::
                    reservations[op] == if op in held && op !in todo then Settled(before[op], s, cfg.dir) else before[op]
        invariant holders == set op | op in held && op !in todo :: before[op].agent
        decreases |todo|
      {
        var op :| op in todo;
        holders := holders + {reservations[op].agent};
        SettleOne(op, s);
        todo := todo - {op};
      }
      assert forall op | op in before && before[op].ticket == t && before[op].state == Held :: op in held;
    }

    /** The ledger writes of an applied observation, in the order the rows are written. */
    method WriteObservation(t: TicketId, s: Snapshot, extra: set<AgentId>)
      requires t in occupancy
      modifies this`occupancy, this`reservations, this`agents
      ensures Tables() == ApplyObservation(old(Tables()), t, s, cfg.dir, extra, cfg.enforce)
    {
      var affected := extra + OptionSet(occupancy[t].agent);
      var row := occupancy[t].(owner := s.owner, agent := cfg.dir.Lookup(s.owner), state := ObservedState(s));
      affected := affected + OptionSet(row.agent);
      var holders := SettleReservations(t, s);
      affected := affected + holders;
      occupancy := occupancy[t := row.(revision := row.revision + 1, providerUpdatedAt := s.updatedAt)];
      assert Tables() == Rewritten(old(Tables()), t, s, cfg.dir);
      MaterializeAgents(affected);
    }

    method StampAssignment(a: AgentId)
      modifies this`agents
      ensures Tables() == StampAgent(old(Tables()), a, now)
    {
      if a in agents {
        agents := agents[a := agents[a].(lastAssignedAt := Some(now))];
      }
    }

    method AddChat(a: AgentId, delta: int)
      modifies this`agents
      ensures Tables() == AddChats(old(Tables()), a, delta)
    {
      if a in agents {
        agents := agents[a := agents[a].(chats := Max(agents[a].chats + delta, 0))];
      }
    }

    /** Stamp the agent and take its capacity, by hold or by counter. */
    method TakeFor(id: AttemptId, t: TicketId, a: AgentId)
      requires cfg.enforce ==> t in occupancy
      modifies this`occupancy, this`reservations, this`agents
      ensures Tables() == TakeCapacity(old(State()), id, t, a)
    {
      StampAssignment(a);
      if cfg.enforce {
        HoldCapacity(ForAttempt(id), t, a);
      } else {
        AddChat(a, 1);
      }
    }

    /** Whether the agent's snapshot is fresh and its tickets leave room. */
    method CapacityIsReady(a: AgentId) returns (ready: bool)
      ensures ready == HasRoom(State(), a)
    {
      if a !in agents || a !in cfg.dir.maxChats {
        return false;
      }
      var row := agents[a];
      if !cfg.enforce {
        return row.chats < if cfg.dir.maxChats[a] == 0 then 5 else cfg.dir.maxChats[a];
      }
      if row.readiness != Ready || row.reconciledAt.None? || row.reconciledAt.value + cfg.freshness < now {
        return false;
      }
      var occupied := set t | t in occupancy && occupancy[t].state == Active && occupancy[t].agent == Some(a);
      var held := set op | op in reservations && reservations[op].state == Held && reservations[op].agent == a
        :: reservations[op].ticket;
      assert occupied == Occupied(Tables(), a) && held == Reserved(Tables(), a);
      return |occupied + held| < cfg.dir.maxChats[a];
    }

    /** Whether the automatic query finds the row: eligible, waiting, due and unclaimed. */
    method FindsRow(c: CycleId) returns (found: bool)
      requires c in queue
      ensures found == RowReady(queue[c], now)
    {
      var row := queue[c];
      if !row.eligible || row.status == Failed {
        return false;
      }
      if row.nextAttemptAt.Some? && row.nextAttemptAt.value > now {
        return false;
      }
      return row.claimExpiresAt.None? || row.claimExpiresAt.value <= now;
    }

    /** One candidate's reservation transaction. */
    method TryReserve(r: ReserveRequest) returns (outcome: ReserveOutcome)
      modifies this
      ensures outcome == ClassifyReserve(old(State()), r)
      ensures State() == Reserve(old(State()), r)
    {
      hide TakeCapacity, EnsureRow, Grant, HasRoom, RowReady;
      if r.cycle !in queue || r.cycle !in cycles {
        return RowUnavailable;
      }
      var found := FindsRow(r.cycle);
      if r.kind == Automatic && !found {
        return RowUnavailable;
      }
      var ticket := queue[r.cycle].ticket;
      if r.kind == Automatic && r.deferred {
        EnterTicket(ticket);
        return DeferredByBarrier;
      }
      if cycles[r.cycle].state != CycleQueued {
        EnterTicket(ticket);
        if r.kind == Automatic {
          queue := queue[r.cycle := queue[r.cycle].(status := Failed, failure := StaleCycle)];
        }
        return StaleCycleRow;
      }
      outcome := ReserveQueued(r);
    }

    /** The part of a reservation that follows once its cycle is known to be queued. */
    method ReserveQueued(r: ReserveRequest) returns (outcome: ReserveOutcome)
      requires r.cycle in queue && r.cycle in cycles && cycles[r.cycle].state == CycleQueued
      requires r.kind == Automatic ==> RowReady(queue[r.cycle], now) && !r.deferred
      modifies this
      ensures outcome == ClassifyReserve(old(State()), r)
      ensures State() == Reserve(old(State()), r)
    {
      hide TakeCapacity, EnsureRow, Grant, HasRoom, RowReady;
      ghost var w := State();
      var ticket := queue[r.cycle].ticket;
      var completed := exists id | id in attempts :: attempts[id].cycle == r.cycle && attempts[id].state == Completed;
      var live := exists id | id in attempts :: attempts[id].cycle == r.cycle && IsLive(attempts[id].state);
      AttemptQueries(w, r.cycle);
      if r.kind == Automatic && completed {
        EnterTicket(ticket);
        queue := queue - {r.cycle};
        return CompletedSameCycle;
      }
      if live {
        EnterTicket(ticket);
        return ExistingAttempt;
      }
      var ready := CapacityIsReady(r.agent);
      if !r.eligible || r.agent !in cfg.dir.ownerOf || !ready {
        EnterTicket(ticket);
        return CandidateRejected;
      }
      // The unique keys of the attempts table; a violation rolls the transaction back.
      var used := exists id | id in attempts :: attempts[id].cycle == r.cycle && attempts[id].kind == r.kind;
      if used || r.id in attempts {
        return KeyTaken;
      }
      EnterTicket(ticket);
      GrantRow(r);
      return Granted;
    }

    /** Claim the row, create the attempt, and take the agent's capacity. */
    method GrantRow(r: ReserveRequest)
      requires r.cycle in queue && r.agent in cfg.dir.ownerOf
      requires cfg.enforce ==> queue[r.cycle].ticket in occupancy
      modifies this
      ensures State() == Grant(old(State()), r)
    {
      hide TakeCapacity;
      ghost var e := State();
      var row := queue[r.cycle];
      queue := queue[r.cycle := row.(claimExpiresAt := Some(now + cfg.claimTtl), tries := row.tries + 1)];
      attempts := attempts[r.id := Attempt(
                             row.ticket, r.cycle, r.kind, row.id, r.agent, cfg.dir.ownerOf[r.agent],
                             AttemptReserved, None, None, 0)];
      TakeIgnoresRows(e, State(), r.id, row.ticket, r.agent);
      TakeFor(r.id, row.ticket, r.agent);
    }

    /** Record a confirmed provider owner; a wrong state is refused without a write. */
    method MarkExternalApplied(id: AttemptId) returns (ok: bool)
      modifies this
      ensures State() == MarkExternal(old(State()), id)
      ensures ok <==> id in attempts && attempts[id].state in {Completed, ExternalApplied}
    {
      if id !in attempts {
        return false;
      }
      var state := attempts[id].state;
      if state == Completed {
        EnterTicket(attempts[id].ticket);
        return true;
      }
      if state !in {AttemptReserved, ExternalApplied, RepairRequired} {
        return false;
      }
      EnterTicket(attempts[id].ticket);
      attempts := attempts[id := attempts[id].(state := ExternalApplied)];
      return true;
    }

    /** Finalize exactly once after the provider is known to hold the target owner. */
    method FinalizeAttempt(id: AttemptId) returns (ok: bool)
      modifies this
      ensures State() == Finalize(old(State()), id)
      ensures ok <==> id in attempts && attempts[id].state == Completed
    {
      if id !in attempts {
        return false;
      }
      var at := attempts[id];
      if at.state == Completed {
        EnterTicket(at.ticket);
        return true;
      }
      if at.state != ExternalApplied {
        return false;
      }
      if cfg.enforce && (at.ticket !in occupancy || occupancy[at.ticket].state != Active
                         || occupancy[at.ticket].owner != Some(at.owner))
      {
        return false;
      }
      if at.cycle !in cycles || cycles[at.cycle].state != CycleQueued {
        return false;
      }
      assignments := assignments[at.cycle := AssignedRow(at.ticket, Some(at.agent), at.owner)];
      if at.agent in agents {
        agents := agents[at.agent := agents[at.agent].(total := agents[at.agent].total + 1)];
      }
      if at.cycle in queue && queue[at.cycle].id == at.row {
        queue := queue - {at.cycle};
      }
      attempts := attempts[id := at.(state := Completed, nextRetryAt := None)];
      cycles := cycles[at.cycle := cycles[at.cycle].(state := CycleAssigned)];
      return true;
    }

    method GiveBack(id: AttemptId, at: Attempt)
      modifies this`reservations, this`agents
      ensures Tables() == ReleaseCapacity(old(State()), id, at)
    {
      var op := ForAttempt(id);
      if cfg.enforce || op in reservations {
        ConcludeReservation(op, false);
        MaterializeAgents({at.agent});
      }
      if !cfg.enforce && at.compensatedAt.None? {
        AddChat(at.agent, -1);
      }
    }

    /** Release capacity and update the retry or repair state exactly once. */
    method CompensateAttempt(id: AttemptId, c: Compensation)
      modifies this
      ensures State() == Compensate(old(State()), id, c)
    {
      if id !in attempts {
        return;
      }
      var at := attempts[id];
      EnterTicket(at.ticket);
      if at.state in {Completed, Compensated} {
        return;
      }
      var already := at.compensatedAt.Some?;
      if already && (c.retryable || c.repair) {
        return;
      }
      ghost var e := State();
      if c.repair && (cfg.enforce || ForAttempt(id) in reservations) {
        attempts := attempts[id := at.(state := RepairRequired)];
        DegradeAgents({at.agent});
        return;
      }
      GiveBack(id, at);
      var after := at;
      if !already {
        after := after.(compensatedAt := Some(now), retries := after.retries + 1);
      }
      if c.repair {
        after := after.(state := RepairRequired, nextRetryAt := None);
      } else if c.retryable {
        after := after.(state := Retryable, nextRetryAt := Some(now + RetryDelay(after.retries)));
      } else {
        after := after.(state := Compensated, nextRetryAt := None);
      }
      if at.cycle in queue && queue[at.cycle].id == at.row {
        var row := queue[at.cycle].(
        claimExpiresAt := None, nextAttemptAt := after.nextRetryAt,
        failure := c.code, status := if c.quarantine then Failed else Queued);
        queue := queue[at.cycle := row];
      }
      attempts := attempts[id := after];
      assert after == CompensatedAttempt(at, c, now);
    }

    /** Re-reserve a due retry without creating another attempt. */
    method RetryAttempt(id: AttemptId, eligible: bool) returns (ok: bool)
      modifies this
      ensures ok == CanRetry(old(State()), id, eligible)
      ensures State() == Retry(old(State()), id, eligible)
    {
      hide TakeCapacity, EnsureRow, HasRoom;
      if id !in attempts {
        return false;
      }
      var at := attempts[id];
      var op := ForAttempt(id);
      if cfg.enforce && (op !in reservations || reservations[op].state != Released) {
        return false;
      }
      var ready := CapacityIsReady(at.agent);
      if at.state != Retryable || !eligible || (cfg.enforce && !ready) {
        return false;
      }
      ghost var w := State();
      assert CanRetry(w, id, eligible);
      EnterTicket(at.ticket);
      ghost var e := State();
      attempts := attempts[id := at.(state := AttemptReserved, compensatedAt := None, nextRetryAt := None)];
      TakeIgnoresRows(e, State(), id, at.ticket, at.agent);
      TakeFor(id, at.ticket, at.agent);
      return true;
    }

    /**
     The repair loop's exception handler writes its state without a look at the row;
     the unique constraint on live attempts refuses it when the cycle has another.
     */
    method OverwriteAfterCrash(id: AttemptId) returns (raised: bool)
      modifies this`attempts
      ensures raised <==> OverwriteRefused(old(State()), id)
      ensures State() == RepairCrash(old(State()), id)
    {
      if id !in attempts {
        return false;
      }
      raised := exists j | j in attempts ::
        j != id && attempts[j].cycle == attempts[id].cycle && IsLive(attempts[j].state);
      if !raised {
        attempts := attempts[id := attempts[id].(state := RepairRequired)];
      }
    }

    /** Hold the transfer target before the provider call. */
    method ReserveTransfer(t: TicketId, transfer: TransferId, target: AgentId, revision: nat) returns (ok: bool)
      modifies this
      ensures ok == CanTransfer(old(State()), t, transfer, target, revision)
      ensures State() == TransferHold(old(State()), t, transfer, target, revision)
    {
      hide HasRoom, Hold;
      if !cfg.enforce || t !in occupancy {
        return false;
      }
      var row := occupancy[t];
      if row.revision != revision || row.state != Active {
        return false;
      }
      var projected := exists c | c in assignments :: assignments[c].ticket == t;
      if !projected || target !in cfg.dir.ownerOf || row.owner == Some(cfg.dir.ownerOf[target]) {
        return false;
      }
      var awaiting := exists op | op in reservations :: reservations[op].ticket == t && reservations[op].state == Held;
      TicketQuery(Tables(), t);
      var ready := CapacityIsReady(target);
      if awaiting || !ready || ForTransfer(transfer) in reservations {
        return false;
      }
      HoldCapacity(ForTransfer(transfer), t, target);
      return true;
    }

    /** Whether the ticket's queued cycle takes the observed owner, no live attempt being in its way. */
    method AwaitsOwner(o: Observation) returns (awaits: bool)
      ensures awaits == ProjectsNewOwner(State(), o)
    {
      if ObservedState(o.snap) != Active || o.assignedCycle.Some? || o.cycle.None? {
        return false;
      }
      var c := o.cycle.value;
      if c !in cycles || cycles[c].state != CycleQueued || c !in queue {
        return false;
      }
      var row := queue[c];
      if row.status == Failed && row.failure != ManualOwnerObserved {
        return false;
      }
      var agent := cfg.dir.Lookup(o.snap.owner);
      var underway := exists id | id in attempts ::
        && attempts[id].state in {AttemptReserved, ExternalApplied, RepairRequired}
        && ForAttempt(id) in reservations
        && reservations[ForAttempt(id)].ticket == o.ticket
        && reservations[ForAttempt(id)].state != Released
        && Some(reservations[ForAttempt(id)].agent) == agent;
      assert underway <==> exists id | id in attempts :: ProtectedBy(State(), o, id);
      return !underway;
    }

    /** Update only proven cycle projections. */
    method ProjectRows(o: Observation)
      modifies this`assignments, this`cycles, this`queue
      ensures State() == ProjectOwner(old(State()), o)
    {
      var state := ObservedState(o.snap);
      if state != Active {
        if state == Unassigned && o.assignedCycle.Some? {
          assignments := assignments - {o.assignedCycle.value};
        }
        return;
      }
      var owner := o.snap.owner.value;
      var row := AssignedRow(o.ticket, cfg.dir.Lookup(o.snap.owner), owner);
      if o.assignedCycle.Some? {
        var c := o.assignedCycle.value;
        if o.cycle == o.assignedCycle && c in assignments && assignments[c].owner != owner {
          assignments := assignments[c := row];
        }
        return;
      }
      var awaits := AwaitsOwner(o);
      if awaits {
        var c := o.cycle.value;
        assignments := assignments[c := row];
        cycles := cycles[c := cycles[c].(state := CycleAssigned)];
        queue := queue - {c};
      }
    }

    method CloseRows(c: CycleId)
      modifies this`assignments, this`cycles, this`queue
      ensures State() == CloseCycle(old(State()), c)
    {
      if c in cycles && cycles[c].state != CycleClosed {
        cycles := cycles[c := cycles[c].(state := CycleClosed)];
        assignments := assignments - {c};
        queue := queue - {c};
      }
    }

    /** The write transaction of an observation whose checks have passed. */
    method ApplyRows(o: Observation)
      requires cfg.enforce && o.ticket in occupancy
      modifies this
      ensures State() == AppliedWorld(old(State()), o)
    {
      ghost var w := State();
      hide ProjectOwner, AssignedAgents, ApplyObservation, StampAgent;
      var assignees := CollectAssigned(o);
      var extra := o.captured + assignees;
      var previous := occupancy[o.ticket].owner;
      if o.project {
        ProjectRows(o);
      }
      if !o.viaClose && ObservedState(o.snap) == Closed && o.cycle.Some? {
        CloseRows(o.cycle.value);
      }
      WriteObservation(o.ticket, o.snap, extra);
      var agent := cfg.dir.Lookup(o.snap.owner);
      if ObservedState(o.snap) == Active && agent.Some? && previous != o.snap.owner {
        StampAssignment(agent.value);
      }
    }

    /** Everyone an attempted write had collected before it failed. */
    method CollectAffected(o: Observation) returns (affected: set<AgentId>)
      ensures affected == RejectedAgents(State(), o)
    {
      affected := o.captured;
      if !o.snap.complete {
        return;
      }
      var row := if o.ticket in occupancy then occupancy[o.ticket] else Occupancy(None, None, Unknown, 0, None);
      affected := affected + OptionSet(row.agent) + OptionSet(cfg.dir.Lookup(o.snap.owner));
      var current := Current(row, o);
      if current {
        var assignees := CollectAssigned(o);
        affected := affected + assignees;
      }
    }

    /** The agents of the ticket's assignments: all, or the one the projection looks at. */
    method CollectAssigned(o: Observation) returns (assignees: set<AgentId>)
      ensures assignees == AssignedAgents(State(), o)
    {
      assignees := {};
      if !o.project {
        assignees := set c | c in assignments && assignments[c].ticket == o.ticket && assignments[c].agent.Some?
          :: assignments[c].agent.value;
      } else if o.assignedCycle.Some? && o.assignedCycle.value in assignments {
        assignees := OptionSet(assignments[o.assignedCycle.value].agent);
      }
    }

    /** The revision, timestamp and owner checks against the locked row. */
    method Current(row: Occupancy, o: Observation) returns (ok: bool)
      ensures ok == Admissible(row, o.revision, o.snap)
    {
      if row.revision != o.revision {
        return false;
      }
      if row.providerUpdatedAt.None? {
        return true;
      }
      if o.snap.updatedAt.None? || o.snap.updatedAt.value < row.providerUpdatedAt.value {
        return false;
      }
      return o.snap.updatedAt != row.providerUpdatedAt || row.owner == o.snap.owner;
    }

    /** Degrade whom a failed observation concerned; its own transaction left nothing behind. */
    method RejectObservation(o: Observation)
      modifies this`agents
      ensures Tables() == Degrade(old(Tables()), RejectedAgents(old(State()), o))
    {
      hide RejectedAgents, Degrade;
      var affected := CollectAffected(o);
      DegradeAgents(affected);
    }

    /** The nested close raises after the projection was written, and all of it is undone. */
    method RollBackClose(o: Observation)
      modifies this
      ensures State() == old(State())
    {
      hide ProjectOwner, EnsureRow;
      var rows, owned, open, waiting := occupancy, assignments, cycles, queue;
      EnterTicket(o.ticket);
      if o.project {
        ProjectRows(o);
      }
      occupancy, assignments, cycles, queue := rows, owned, open, waiting;
    }

    /** The checks of an observation under the ticket lock, in order; `closing` when only the nested close failed. */
    method CheckObservation(o: Observation) returns (outcome: ObservationOutcome, closing: bool)
      ensures outcome == ClassifyObservation(State(), o)
    {
      hide Admissible;
      if !o.snap.complete {
        return Rejected, false;
      }
      if o.viaClose && !o.current {
        return NotCurrent, false;
      }
      var row := if o.ticket in occupancy then occupancy[o.ticket] else Occupancy(None, None, Unknown, 0, None);
      var current := Current(row, o);
      if !current {
        return Rejected, false;
      }
      if !o.viaClose && o.snap.inSupport && o.snap.closed {
        if !o.snap.closedAtKnown {
          return PendingClose, false;
        }
        if o.cycle.Some? && o.closeFails {
          return Rejected, true;
        }
      }
      return Applied, false;
    }

    /** Apply an observation under the ticket lock, or reject it and degrade whom it concerned. */
    method ReconcileTicket(o: Observation) returns (outcome: ObservationOutcome)
      requires cfg.enforce
      modifies this
      ensures outcome == ClassifyObservation(old(State()), o)
      ensures State() == Observe(old(State()), o)
    {
      hide ClassifyObservation, AppliedWorld, RejectedAgents, Degrade, Picks;
      var closing;
      outcome, closing := CheckObservation(o);
      var l := Ledger(occupancy, reservations, agents);
      if !Picks(World(cfg, l, attempts, cycles, queue, assignments, now), o) {
        return;
      }
      match outcome
      case NotCurrent => EnterTicket(o.ticket);
      case PendingClose => EnterTicket(o.ticket);
      case Rejected =>
        if closing {
          RollBackClose(o);
        }
        RejectObservation(o);
      case Applied =>
        EnterTicket(o.ticket);
        ApplyRows(o);
    }

    /** Offer one queue row to the ranked candidates, one transaction each. */
    method ReserveRanked(rs: seq<ReserveRequest>) returns (outcome: Option<ReserveOutcome>)
      modifies this
      ensures (State(), outcome) == ReserveFirst(old(State()), rs)
    {
      ghost var start := State();
      hide Reserve, ClassifyReserve;
      var i := 0;
      while i < |rs|
        invariant 0 <= i <= |rs|
        invariant ReserveFirst(start, rs) == ReserveFirst(State(), rs[i..])
      {
        assert rs[i..][0] == rs[i] && rs[i..][1..] == rs[i + 1..];
        var result := TryReserve(rs[i]);
        if result != CandidateRejected {
          return Some(result);
        }
        i := i + 1;
      }
      return None;
    }
  }

  /** Only held reservations can be settled. */
  lemma ReservationsSettle(reservations: map<Operation, Reservation>, t: TicketId, s: Snapshot, d: Directory)
    ensures forall op | op in reservations && reservations[op].state != Held ::
              Settled(reservations[op], s, d) == reservations[op]
  {
  }

  lemma CountIgnoresAgents(l: Ledger, m: Ledger, a: AgentId)
    requires l.occupancy == m.occupancy && l.reservations == m.reservations
    ensures CapacityCount(l, a) == CapacityCount(m, a)
  {
    UnionIgnoresAgents(l, m, a);
  }

  /** Try the candidates in order until one transaction does not just reject its agent. */
  function ReserveFirst(w: World, rs: seq<ReserveRequest>): (World, Option<ReserveOutcome>)
    decreases |rs|
  {
    if rs == [] then (w, None)
    else if ClassifyReserve(w, rs[0]) == CandidateRejected then ReserveFirst(Reserve(w, rs[0]), rs[1..])
    else (Reserve(w, rs[0]), Some(ClassifyReserve(w, rs[0])))
  }

  /** The attempt queries of a reservation are emptiness tests of the specification's sets. */
  lemma AttemptQueries(w: World, c: CycleId)
    ensures (exists id | id in w.attempts :: w.attempts[id].cycle == c && w.attempts[id].state == Completed)
            <==> CompletedOn(w, c) != {}
    ensures (exists id | id in w.attempts :: w.attempts[id].cycle == c && IsLive(w.attempts[id].state))
            <==> LiveOn(w, c) != {}
  {
    assert forall id | id in w.attempts && w.attempts[id].cycle == c && w.attempts[id].state == Completed :: id in CompletedOn(w, c);
    assert forall id | id in w.attempts && w.attempts[id].cycle == c && IsLive(w.attempts[id].state) :: id in LiveOn(w, c);
  }

  /** A ticket has a holder exactly when it has a held reservation. */
  lemma TicketQuery(l: Ledger, t: TicketId)
    ensures (exists op | op in l.reservations :: l.reservations[op].ticket == t && l.reservations[op].state == Held)
            <==> HoldersOf(l, t) != {}
  {
    assert forall op | op in l.reservations && l.reservations[op].ticket == t && l.reservations[op].state == Held ::
        l.reservations[op].agent in HoldersOf(l, t);
  }

  /** Taking capacity looks at the ledger and the clock only. */
  lemma TakeIgnoresRows(w: World, v: World, id: AttemptId, t: TicketId, a: AgentId)
    requires w.cfg == v.cfg && w.ledger == v.ledger && w.now == v.now
    requires w.cfg.enforce ==> t in w.ledger.occupancy
    ensures TakeCapacity(w, id, t, a) == TakeCapacity(v, id, t, a)
  {
  }
}
