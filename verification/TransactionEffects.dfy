/**
 What the transactions that take capacity or confirm an owner write, row by row, and
 what they leave alone.
 */
module TransactionEffects {
  import opened Base
  import opened CapacityLedger
  import opened AssignmentProtocol
  import opened AssignmentInvariants
  import opened CapacityGate
  import opened OwnerProjection
  import opened RetryCount

  // ----- taking capacity --------------------------------------------------

  /** Every agent but one keeps its row. */
  ghost predicate OnlyAgent(l: Ledger, m: Ledger, a: AgentId) {
    && m.agents.Keys == l.agents.Keys
    && forall b | b in l.agents && b != a :: m.agents[b] == l.agents[b]
  }

  /** One identified hold: a reservation, a new ticket revision, and the agent's counter projected from its tickets. */
  ghost predicate HoldTaken(w: World, v: World, op: Operation, t: TicketId, a: AgentId) {
    && v.ledger.occupancy == w.ledger.occupancy[t := FoundRow(w, t).(revision := FoundRow(w, t).revision + 1)]
    && v.ledger.reservations == w.ledger.reservations[op := Reservation(t, a, Held)]
    && OnlyAgent(w.ledger, v.ledger, a)
    && (a in w.ledger.agents ==>
          && v.ledger.agents[a].chats == |CountedTickets(v.ledger, a)|
          && v.ledger.agents[a].revision == w.ledger.agents[a].revision + 1)
  }

  /** Without enforcement one more on the stored counter, and nothing else. */
  ghost predicate CounterRaised(w: World, v: World, a: AgentId) {
    && v.ledger.occupancy == w.ledger.occupancy && v.ledger.reservations == w.ledger.reservations
    && OnlyAgent(w.ledger, v.ledger, a)
    && (a in w.ledger.agents ==>
          && v.ledger.agents[a].chats == Max(w.ledger.agents[a].chats + 1, 0)
          && v.ledger.agents[a].revision == w.ledger.agents[a].revision)
  }

  /** The attempt's agent has capacity taken for it, counts this as its newest assignment, and keeps its standing. */
  ghost predicate CapacityTaken(w: World, v: World, id: AttemptId, t: TicketId, a: AgentId) {
    && (if w.cfg.enforce then HoldTaken(w, v, ForAttempt(id), t, a) else CounterRaised(w, v, a))
    && (a in w.ledger.agents && a in v.ledger.agents ==>
          && v.ledger.agents[a].lastAssignedAt == Some(w.now)
          && SameStanding(w.ledger.agents[a], v.ledger.agents[a]))
  }

  predicate SameStanding(before: AgentRow, after: AgentRow) {
    after.readiness == before.readiness && after.reconciledAt == before.reconciledAt && after.total == before.total
  }

  lemma CountedIsUnion(l: Ledger, a: AgentId)
    ensures CapacityCount(l, a) == |CountedTickets(l, a)|
  {
    assert CapacitySet(l, a) == CountedTickets(l, a);
  }

  lemma UnionOfTables(l: Ledger, m: Ledger, a: AgentId)
    requires l.occupancy == m.occupancy && l.reservations == m.reservations
    ensures CapacityCount(l, a) == |CountedTickets(m, a)|
  {
    UnionIgnoresAgents(l, m, a);
    CountedIsUnion(m, a);
  }

  /** Taking capacity, before the attempt row is written. */
  lemma TakesCapacity(w: World, v: World, id: AttemptId, t: TicketId, a: AgentId)
    requires w.cfg.enforce ==> t in Enter(w, t).ledger.occupancy
    requires v.ledger == TakeCapacity(Enter(w, t), id, t, a)
    requires ForAttempt(id) in w.ledger.reservations ==> w.ledger.reservations[ForAttempt(id)] == Reservation(t, a, ReservationState.Released)
    ensures CapacityTaken(w, v, id, t, a)
  {
    hide CountedTickets, CapacityCount, HoldTaken, CounterRaised, Hold, AddChats;
    if w.cfg.enforce {
      TakesHold(w, v, id, t, a);
    } else {
      RaisesCounter(w, v, a);
    }
  }

  lemma TakesHold(w: World, v: World, id: AttemptId, t: TicketId, a: AgentId)
    requires w.cfg.enforce && t in Enter(w, t).ledger.occupancy
    requires v.ledger == Hold(StampAgent(Enter(w, t).ledger, a, w.now), ForAttempt(id), t, a, true)
    requires ForAttempt(id) in w.ledger.reservations ==> w.ledger.reservations[ForAttempt(id)] == Reservation(t, a, ReservationState.Released)
    ensures HoldTaken(w, v, ForAttempt(id), t, a)
    ensures a in w.ledger.agents && a in v.ledger.agents ==>
              && v.ledger.agents[a].lastAssignedAt == Some(w.now)
              && SameStanding(w.ledger.agents[a], v.ledger.agents[a])
  {
    hide CountedTickets, CapacityCount;
    UnionOfTables(HeldTables(StampAgent(Enter(w, t).ledger, a, w.now), ForAttempt(id), t, a), v.ledger, a);
  }

  lemma RaisesCounter(w: World, v: World, a: AgentId)
    requires v.ledger == AddChats(StampAgent(w.ledger, a, w.now), a, 1)
    ensures CounterRaised(w, v, a)
    ensures a in w.ledger.agents && a in v.ledger.agents ==>
              && v.ledger.agents[a].lastAssignedAt == Some(w.now)
              && SameStanding(w.ledger.agents[a], v.ledger.agents[a])
  {
  }

  // ----- reserve ----------------------------------------------------------

  /** Only the ticket's occupancy row may be created, with nothing known about it. */
  predicate OnlyEnters(w: World, v: World, t: TicketId) {
    && v == w.(ledger := w.ledger.(occupancy := v.ledger.occupancy))
    && v.ledger.occupancy == if w.cfg.enforce then w.ledger.occupancy[t := FoundRow(w, t)] else w.ledger.occupancy
  }

  lemma EnterOnly(w: World, t: TicketId)
    ensures OnlyEnters(w, Enter(w, t), t)
  {
    if t in w.ledger.occupancy {
      assert w.ledger.occupancy == w.ledger.occupancy[t := w.ledger.occupancy[t]];
    }
  }

  /**
   A granted reservation writes one attempt on the row's ticket and cycle, claims the row for the
   claim's time, and takes the agent's capacity.
   */
  lemma GrantWrites(w: World, r: ReserveRequest)
    requires Linked(w) && ClassifyReserve(w, r) == Granted
    ensures var v := Next(w, ReserveAct(r));
            var row := w.queue[r.cycle];
            && v.attempts == w.attempts[r.id := Attempt(
                                          row.ticket, r.cycle, r.kind, row.id, r.agent, w.cfg.dir.ownerOf[r.agent],
                                          AttemptReserved, None, None, 0)]
            && v.queue == w.queue[r.cycle := row.(claimExpiresAt := Some(w.now + w.cfg.claimTtl), tries := row.tries + 1)]
            && v.cycles == w.cycles && v.assignments == w.assignments && v.now == w.now && v.cfg == w.cfg
            && CapacityTaken(w, v, r.id, row.ticket, r.agent)
  {
    hide TakeCapacity, CapacityTaken, LiveOn, CompletedOn, KeyUsed, RowReady, HasRoom;
    NewAttemptHasNoReservation(w, r.id);
    hide Linked;
    TakesCapacity(w, Next(w, ReserveAct(r)), r.id, w.queue[r.cycle].ticket, r.agent);
  }

  lemma NewAttemptHasNoReservation(w: World, id: AttemptId)
    requires Linked(w) && id !in w.attempts
    ensures ForAttempt(id) !in w.ledger.reservations
  {
  }

  /** Every other answer writes no attempt and takes no capacity: at most the row is failed as stale, or removed as done. */
  lemma OtherAnswersWrite(w: World, r: ReserveRequest)
    requires ClassifyReserve(w, r) != Granted
    ensures var v := Next(w, ReserveAct(r));
            match ClassifyReserve(w, r)
            case RowUnavailable => v == w
            case KeyTaken => v == w
            case StaleCycleRow =>
              && OnlyEnters(w, v.(queue := w.queue), w.queue[r.cycle].ticket)
              && v.queue == if r.kind == Automatic
                            then w.queue[r.cycle := w.queue[r.cycle].(status := Failed, failure := StaleCycle)]
                            else w.queue
            case CompletedSameCycle =>
              && OnlyEnters(w, v.(queue := w.queue), w.queue[r.cycle].ticket)
              && v.queue == w.queue - {r.cycle}
            case Granted => true
            case DeferredByBarrier => OnlyEnters(w, v, w.queue[r.cycle].ticket)
            case ExistingAttempt => OnlyEnters(w, v, w.queue[r.cycle].ticket)
            case CandidateRejected => OnlyEnters(w, v, w.queue[r.cycle].ticket)
  {
    hide LiveOn, CompletedOn, KeyUsed, RowReady, HasRoom, Grant, OnlyEnters;
    if r.cycle in w.queue {
      EnterOnly(w, w.queue[r.cycle].ticket);
      EntersAlike(w, w.queue[r.cycle].ticket, Next(w, ReserveAct(r)).queue);
    }
  }

  lemma EntersAlike(w: World, t: TicketId, queue: map<CycleId, QueueRow>)
    ensures Enter(w, t).(queue := queue).(queue := w.queue) == Enter(w, t)
    ensures Enter(w, t).queue == w.queue
  {
  }

  // ----- retry and transfer -----------------------------------------------

  /** A retry puts the same attempt back under way, not compensated, with its count of failures, and takes capacity again. */
  lemma RetryWrites(w: World, id: AttemptId, eligible: bool)
    requires Linked(w)
    ensures var v := Next(w, RetryAct(id, eligible));
            if CanRetry(w, id, eligible) then
              var at := w.attempts[id];
              && v.attempts == w.attempts[id := Attempt(
                                            at.ticket, at.cycle, at.kind, at.row, at.agent, at.owner,
                                            AttemptReserved, None, None, at.retries)]
              && v.queue == w.queue && v.cycles == w.cycles && v.assignments == w.assignments && v.now == w.now
              && (w.cfg.enforce || ForAttempt(id) !in w.ledger.reservations ==>
                    CapacityTaken(w, v, id, at.ticket, at.agent))
            else v == w
  {
    hide TakeCapacity, CapacityTaken, HasRoom;
    if CanRetry(w, id, eligible) {
      var at := w.attempts[id];
      if w.cfg.enforce || ForAttempt(id) !in w.ledger.reservations {
        TakesCapacity(w, Next(w, RetryAct(id, eligible)), id, at.ticket, at.agent);
      }
    }
  }

  /** A transfer takes its target's capacity and writes nothing else; the target's newest assignment stays what it was. */
  lemma TransferWrites(w: World, t: TicketId, transfer: TransferId, target: AgentId, revision: nat)
    ensures var v := Next(w, TransferAct(t, transfer, target, revision));
            if CanTransfer(w, t, transfer, target, revision) then
              && v == w.(ledger := v.ledger)
              && HoldTaken(w, v, ForTransfer(transfer), t, target)
              && (target in w.ledger.agents ==>
                    && v.ledger.agents[target].lastAssignedAt == w.ledger.agents[target].lastAssignedAt
                    && SameStanding(w.ledger.agents[target], v.ledger.agents[target]))
            else v == w
  {
    hide CountedTickets, CapacityCount, HasRoom, HoldersOf;
    if CanTransfer(w, t, transfer, target, revision) {
      UnionOfTables(HeldTables(w.ledger, ForTransfer(transfer), t, target),
                    Next(w, TransferAct(t, transfer, target, revision)).ledger, target);
    }
  }

  // ----- giving capacity back ---------------------------------------------

  /**
   A compensation that lets go re-projects its agent from the tickets that remain; without
   enforcement it takes one off the stored counter instead, the first time only.
   */
  lemma CompensationCounts(w: World, id: AttemptId, c: Compensation)
    requires Linked(w) && id in w.attempts && Runs(w.attempts[id], c) && !KeptForRepair(w, id, c)
    ensures var v := Next(w, CompensateAct(id, c));
            var a := w.attempts[id].agent;
            && a in w.ledger.agents && OnlyAgent(w.ledger, v.ledger, a)
            && SameStanding(w.ledger.agents[a], v.ledger.agents[a])
            && v.ledger.agents[a].lastAssignedAt == w.ledger.agents[a].lastAssignedAt
            && v.ledger.agents[a].revision == w.ledger.agents[a].revision
                                              + (if ForAttempt(id) in w.ledger.reservations then 1 else 0)
            && v.ledger.agents[a].chats
               == (if w.cfg.enforce then |CountedTickets(v.ledger, a)|
                   else if w.attempts[id].compensatedAt.None? then Max(w.ledger.agents[a].chats - 1, 0)
                   else w.ledger.agents[a].chats)
  {
    hide CountedTickets, CapacityCount, RetryDelay, Concluded;
    EnterIsIdle(w, id);
    hide Enter;
    var l := Conclude(w.ledger, ForAttempt(id), false);
    if w.cfg.enforce {
      UnionOfTables(l, Next(w, CompensateAct(id, c)).ledger, w.attempts[id].agent);
    }
  }

  // ----- confirming an owner ----------------------------------------------

  /** Marking changes the state of an attempt under way, of no other row, and of no attempt given up or waiting. */
  lemma MarkWrites(w: World, id: AttemptId)
    requires Linked(w)
    ensures var v := Next(w, MarkAct(id));
            if id in w.attempts && w.attempts[id].state in {AttemptReserved, ExternalApplied, AttemptState.RepairRequired}
            then v == w.(attempts := w.attempts[id := w.attempts[id].(state := ExternalApplied)])
            else v == w
  {
    if id in w.attempts {
      EnterIsIdle(w, id);
    }
    hide Enter, Linked;
  }

  /** The provider has the attempt's owner on the ticket, as far as the occupancy row knows. */
  predicate OwnerSeen(w: World, at: Attempt) {
    && at.ticket in w.ledger.occupancy
    && w.ledger.occupancy[at.ticket].state == Active && w.ledger.occupancy[at.ticket].owner == Some(at.owner)
  }

  /**
   Finalization goes through exactly for a marked attempt of a queued cycle whose owner, under
   enforcement, has been seen on the ticket; it then completes the attempt, assigns the cycle to
   its agent, removes its own queue row and counts one assignment for its agent.
   */
  lemma FinalizationWrites(w: World, id: AttemptId)
    requires Linked(w)
    ensures var v := Next(w, FinalizeAct(id));
            if id in w.attempts && w.attempts[id].state == ExternalApplied
               && w.cycles[w.attempts[id].cycle].state == CycleQueued
               && (w.cfg.enforce ==> OwnerSeen(w, w.attempts[id]))
            then
              var at := w.attempts[id];
              && v.attempts == w.attempts[id := at.(state := Completed, nextRetryAt := None)]
              && v.assignments == w.assignments[at.cycle := AssignedRow(at.ticket, Some(at.agent), at.owner)]
              && v.cycles == w.cycles[at.cycle := w.cycles[at.cycle].(state := CycleAssigned)]
              && v.queue == (if OnRow(w, at) then w.queue - {at.cycle} else w.queue)
              && v.now == w.now
              && v.ledger == w.ledger.(agents := w.ledger.agents[at.agent :=
                                         w.ledger.agents[at.agent].(total := w.ledger.agents[at.agent].total + 1)])
            else v == w
  {
    if id in w.attempts {
      EnterIsIdle(w, id);
    }
    hide Enter, Directory.Injective;
  }

  // ----- the rest ---------------------------------------------------------

  /** A close ends its own cycle and drops its rows; only outside enforcement does it take one off a counter. */
  lemma CloseWrites(w: World, c: CycleId)
    ensures var v := Next(w, CloseAct(c));
            if c in w.cycles && w.cycles[c].state != CycleClosed then
              && v.cycles == w.cycles[c := w.cycles[c].(state := CycleClosed)]
              && v.assignments == w.assignments - {c} && v.queue == w.queue - {c}
              && v.attempts == w.attempts && v.now == w.now
              && v.ledger.occupancy == w.ledger.occupancy && v.ledger.reservations == w.ledger.reservations
              && v.ledger.agents.Keys == w.ledger.agents.Keys
              && forall a | a in w.ledger.agents ::
                   v.ledger.agents[a] == if !w.cfg.enforce && c in w.assignments && w.assignments[c].agent == Some(a)
                                         then w.ledger.agents[a].(chats := Max(w.ledger.agents[a].chats - 1, 0))
                                         else w.ledger.agents[a]
            else v == w
  {
  }

  /** A cycle opens queued, once, and a row is enqueued for a cycle without one, pending and unclaimed. */
  lemma OpeningWrites(w: World, c: CycleId, t: TicketId, rowId: nat, eligible: bool)
    ensures Next(w, OpenCycle(c, t)) == if c in w.cycles then w else w.(cycles := w.cycles[c := Cycle(t, CycleQueued)])
    ensures c in w.cycles && c !in w.queue ==>
              Next(w, Enqueue(c, rowId, eligible)) == w.(queue := w.queue[c := QueueRow(
                                                           rowId, w.cycles[c].ticket, eligible, Pending, NoFailure, None, None, 0)])
    ensures c !in w.cycles || c in w.queue ==> Next(w, Enqueue(c, rowId, eligible)) == w
  {
  }
}
