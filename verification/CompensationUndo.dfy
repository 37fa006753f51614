/** What a compensation takes back, and how long a retry waits. */
module CompensationUndo {
  import opened Base
  import opened CapacityLedger
  import opened AssignmentProtocol
  import opened AssignmentInvariants
  import opened AttemptLifecycle
  import opened AssignmentSafety

  /** A hold that is released leaves every agent's ticket union as it was. */
  lemma HoldThenRelease(l: Ledger, op: Operation, t: TicketId, a: AgentId, b: AgentId)
    requires t in l.occupancy && op !in l.reservations
    ensures CapacitySet(Conclude(Hold(l, op, t, a, true), op, false), b) == CapacitySet(l, b)
  {
    hide CapacityCount;
    var m := Conclude(Hold(l, op, t, a, true), op, false);
    assert Occupied(m, b) == Occupied(l, b);
    SameUnion(l, m, b);
  }

  lemma StampKeepsUnion(l: Ledger, a: AgentId, now: nat, b: AgentId)
    ensures CapacitySet(StampAgent(l, a, now), b) == CapacitySet(l, b)
  {
    UnionIgnoresAgents(StampAgent(l, a, now), l, b);
  }

  lemma EnterKeepsUnion(w: World, t: TicketId, b: AgentId)
    ensures CapacitySet(Enter(w, t).ledger, b) == CapacitySet(w.ledger, b)
  {
    assert Occupied(Enter(w, t).ledger, b) == Occupied(w.ledger, b);
    SameUnion(Enter(w, t).ledger, w.ledger, b);
  }

  /** What a granted reservation leaves for its release. */
  lemma GrantedReservation(w: World, r: ReserveRequest)
    requires Linked(w) && w.cfg.enforce && ClassifyReserve(w, r) == Granted
    ensures r.cycle in w.queue
    ensures var t := w.queue[r.cycle].ticket;
            var e := Enter(w, t);
            var v := Next(w, ReserveAct(r));
            && ForAttempt(r.id) !in e.ledger.reservations && t in e.ledger.occupancy
            && v.cfg == w.cfg
            && v.ledger == Hold(StampAgent(e.ledger, r.agent, w.now), ForAttempt(r.id), t, r.agent, true)
            && r.id in v.attempts && v.attempts[r.id].agent == r.agent
            && v.attempts[r.id].state == AttemptReserved && v.attempts[r.id].compensatedAt.None?
  {
    hide Hold, LiveOn, CompletedOn, KeyUsed, RowReady, HasRoom, Directory.Injective, StampAgent;
  }

  /** A compensation that is not a repair, on a reserved attempt. */
  lemma ReleasedReservation(v: World, id: AttemptId, c: Compensation)
    requires Linked(v) && v.cfg.enforce && id in v.attempts && !c.repair
    requires v.attempts[id].state == AttemptReserved && v.attempts[id].compensatedAt.None?
    ensures var z := Next(v, CompensateAct(id, c));
            && z.ledger == Materialize(Conclude(v.ledger, ForAttempt(id), false), {v.attempts[id].agent}, true)
            && id in z.attempts && z.attempts[id].state == if c.retryable then Retryable else Compensated
  {
    EnterIsIdle(v, id);
    CompensateEffect(v, id, c);
    hide Linked, Compensate, Enter, Materialize, Conclude, RetryDelay;
  }

  /** Compensating a fresh reservation gives every agent back exactly the tickets it counted before. */
  lemma CompensationUndoesReserve(w: World, r: ReserveRequest, c: Compensation, b: AgentId)
    requires Linked(w) && w.cfg.enforce && ClassifyReserve(w, r) == Granted && !c.repair
    ensures CapacitySet(Next(Next(w, ReserveAct(r)), CompensateAct(r.id, c)).ledger, b) == CapacitySet(w.ledger, b)
  {
    hide Next, Linked, ClassifyReserve, Hold, Conclude, CapacitySet, StampAgent, Enter;
    StepKeepsLinks(w, ReserveAct(r));
    GrantedReservation(w, r);
    ReleasedReservation(Next(w, ReserveAct(r)), r.id, c);
    var e := Enter(w, w.queue[r.cycle].ticket);
    var stamped := StampAgent(e.ledger, r.agent, w.now);
    EnterKeepsUnion(w, w.queue[r.cycle].ticket, b);
    StampKeepsUnion(e.ledger, r.agent, w.now, b);
    StampTables(e.ledger, r.agent, w.now);
    HoldThenRelease(stamped, ForAttempt(r.id), w.queue[r.cycle].ticket, r.agent, b);
    var concluded := Conclude(Next(w, ReserveAct(r)).ledger, ForAttempt(r.id), false);
    UnionIgnoresAgents(Materialize(concluded, {r.agent}, true), concluded, b);
  }

  lemma StampTables(l: Ledger, a: AgentId, now: nat)
    ensures StampAgent(l, a, now).occupancy == l.occupancy && StampAgent(l, a, now).reservations == l.reservations
  {
  }

  /** From agreeing counters, the round trip also restores every stored counter. */
  lemma CompensationRestoresCounters(w: World, r: ReserveRequest, c: Compensation, b: AgentId)
    requires Linked(w) && w.cfg.enforce && CountersAgree(w.ledger)
    requires ClassifyReserve(w, r) == Granted && !c.repair && b in w.ledger.agents
    ensures var z := Next(Next(w, ReserveAct(r)), CompensateAct(r.id, c));
            b in z.ledger.agents && z.ledger.agents[b].chats == w.ledger.agents[b].chats
  {
    hide Next, Linked, ClassifyReserve, CapacitySet;
    var v := Next(w, ReserveAct(r));
    StepKeepsLinks(w, ReserveAct(r));
    StepKeepsConfig(w, ReserveAct(r));
    StepKeepsCounters(w, ReserveAct(r));
    StepKeepsLinks(v, CompensateAct(r.id, c));
    StepKeepsConfig(v, CompensateAct(r.id, c));
    StepKeepsCounters(v, CompensateAct(r.id, c));
    CompensationUndoesReserve(w, r, c, b);
    LinksKnowAgents(w);
    LinksKnowAgents(Next(v, CompensateAct(r.id, c)));
  }

  /** Each further retry doubles the wait, from a minute up to half an hour. */
  lemma RetryDelayDoubles(retries: nat)
    ensures 60 <= RetryDelay(retries) <= 1800
    ensures retries >= 1 ==> RetryDelay(retries + 1) == Min(2 * RetryDelay(retries), 1800)
    ensures RetryDelay(1) == 60
  {
    if 1 <= retries <= 6 {
      assert retries in {1, 2, 3, 4, 5, 6};
    }
  }

  // ----- who may reserve the row next --------------------------------------

  /** The compensation that ends its attempt: neither a retry nor a repair is left. */
  predicate Final(c: Compensation) {
    !c.retryable && !c.repair
  }

  /** What a compensation leaves on the cycle it worked on. */
  lemma CompensatedCycle(w: World, id: AttemptId, c: Compensation)
    requires Linked(w) && id in w.attempts && !CompensationIgnored(w.attempts[id], c)
    ensures var z := Next(w, CompensateAct(id, c));
      && z.cfg == w.cfg && z.cycles == w.cycles && z.now == w.now
      && z.attempts.Keys == w.attempts.Keys
      && (forall i :: i in w.attempts && i != id ==> z.attempts[i] == w.attempts[i])
      && SamePurpose(w.attempts[id], z.attempts[id])
      && (Final(c) ==> z.attempts[id].state == Compensated)
      && (!Final(c) ==> IsLive(z.attempts[id].state))
  {
    EnterIsIdle(w, id);
    CompensateEffect(w, id, c);
    hide Linked, Compensate, Enter, RetryDelay, ReleaseCapacity, Degrade;
  }

  lemma CompensatedRow(w: World, id: AttemptId, c: Compensation)
    requires Linked(w) && id in w.attempts && !CompensationIgnored(w.attempts[id], c)
    requires Final(c) && RowLinked(w, w.attempts[id])
    ensures var z := Next(w, CompensateAct(id, c));
      var cycle := w.attempts[id].cycle;
      && cycle in z.queue && z.queue[cycle].eligible == w.queue[cycle].eligible
      && (RowReady(z.queue[cycle], z.now) <==> w.queue[cycle].eligible && !c.quarantine)
  {
    EnterIsIdle(w, id);
    hide Linked, Enter, RetryDelay, ReleaseCapacity, Degrade;
  }

  lemma NobodyLeftLive(w: World, id: AttemptId, z: World)
    requires OneEach(w) && id in w.attempts && IsLive(w.attempts[id].state)
    requires z.attempts.Keys == w.attempts.Keys && forall i :: i in w.attempts && i != id ==> z.attempts[i] == w.attempts[i]
    requires !IsLive(z.attempts[id].state) && z.attempts[id].cycle == w.attempts[id].cycle
    ensures LiveOn(z, w.attempts[id].cycle) == {}
  {
  }

  lemma OtherKeysStay(w: World, id: AttemptId, z: World, kind: AttemptKind)
    requires id in w.attempts && z.attempts.Keys == w.attempts.Keys
    requires forall i :: i in w.attempts && i != id ==> z.attempts[i] == w.attempts[i]
    requires SamePurpose(w.attempts[id], z.attempts[id])
    ensures KeyUsed(z, w.attempts[id].cycle, kind) <==> KeyUsed(w, w.attempts[id].cycle, kind)
  {
    if i :| i in w.attempts && w.attempts[i].cycle == w.attempts[id].cycle && w.attempts[i].kind == kind {
      assert z.attempts[i].cycle == w.attempts[id].cycle && z.attempts[i].kind == kind;
    }
    if i :| i in z.attempts && z.attempts[i].cycle == w.attempts[id].cycle && z.attempts[i].kind == kind {
      assert w.attempts[i].cycle == w.attempts[id].cycle && w.attempts[i].kind == kind;
    }
  }

  lemma CompletedStay(w: World, id: AttemptId, z: World)
    requires id in w.attempts && z.attempts.Keys == w.attempts.Keys
    requires forall i :: i in w.attempts && i != id ==> z.attempts[i] == w.attempts[i]
    requires w.attempts[id].state != Completed && z.attempts[id].state != Completed
    ensures CompletedOn(z, w.attempts[id].cycle) == CompletedOn(w, w.attempts[id].cycle)
  {
  }

  /**
   Who may reserve the row after a compensation, and when. While a retry or a repair
   is left nobody may; after a final one the same kind never may again; the other
   kind may at once, under its own guards, unless an automatic one finds the row
   quarantined or not eligible.
   */
  lemma NextAfterCompensation(w: World, id: AttemptId, c: Compensation, r: ReserveRequest)
    requires Linked(w) && OneEach(w) && id in w.attempts && !CompensationIgnored(w.attempts[id], c)
    requires RowLinked(w, w.attempts[id]) && r.cycle == w.attempts[id].cycle
    ensures var z := Next(w, CompensateAct(id, c));
      ClassifyReserve(z, r) == Granted <==>
        && Final(c)
        && r.kind != w.attempts[id].kind
        && w.cycles[r.cycle].state == CycleQueued
        && !KeyUsed(w, r.cycle, r.kind) && r.id !in w.attempts
        && r.eligible && r.agent in w.cfg.dir.ownerOf && HasRoom(z, r.agent)
        && (r.kind == Automatic ==>
              w.queue[r.cycle].eligible && !c.quarantine && !r.deferred && CompletedOn(w, r.cycle) == {})
  {
    hide Next, Linked, OneEach, LiveOn, CompletedOn, KeyUsed, RowReady, HasRoom, CompensationIgnored;
    var z := Next(w, CompensateAct(id, c));
    LinkedCycle(w, id);
    UnfinishedIsLive(w.attempts[id], c);
    CompensatedCycle(w, id, c);
    OtherKeysStay(w, id, z, r.kind);
    if Final(c) {
      CompensatedRow(w, id, c);
      NobodyLeftLive(w, id, z);
      CompletedStay(w, id, z);
      OwnKeyUsed(w, id);
    } else {
      StillLive(z, id);
    }
  }

  lemma UnfinishedIsLive(at: Attempt, c: Compensation)
    requires !CompensationIgnored(at, c)
    ensures IsLive(at.state)
  {
    match at.state
    case AttemptReserved =>
    case ExternalApplied =>
    case Completed =>
    case Compensating =>
    case Compensated =>
    case Retryable =>
    case RepairRequired =>
  }

  lemma OwnKeyUsed(w: World, id: AttemptId)
    requires id in w.attempts
    ensures KeyUsed(w, w.attempts[id].cycle, w.attempts[id].kind)
  {
  }

  lemma StillLive(z: World, id: AttemptId)
    requires id in z.attempts && IsLive(z.attempts[id].state)
    ensures LiveOn(z, z.attempts[id].cycle) != {}
  {
    assert id in LiveOn(z, z.attempts[id].cycle);
  }
}
