/** What every transaction of the assignment protocol keeps, and safety over whole runs. */
module AssignmentInvariants {
  import opened Base
  import opened CapacityLedger
  import opened AssignmentProtocol
  import opened LedgerFrames

  // ----- structural invariant ---------------------------------------------

  /** Attempts name known agents and cycles; enforcing attempts own their reservation row. */
  ghost predicate Linked(w: World) {
    && w.cfg.dir.Injective()
    && w.ledger.agents.Keys == w.cfg.dir.ownerOf.Keys
    && (forall id | id in w.attempts ::
          && w.attempts[id].agent in w.cfg.dir.ownerOf
          && w.attempts[id].owner == w.cfg.dir.ownerOf[w.attempts[id].agent]
          && w.attempts[id].cycle in w.cycles)
    && (w.cfg.enforce ==> forall id | id in w.attempts ::
            && ForAttempt(id) in w.ledger.reservations
            && w.ledger.reservations[ForAttempt(id)].agent == w.attempts[id].agent
            && w.ledger.reservations[ForAttempt(id)].ticket == w.attempts[id].ticket
            && w.attempts[id].ticket in w.ledger.occupancy)
    && (forall id | ForAttempt(id) in w.ledger.reservations :: id in w.attempts)
  }

  /** A step that leaves the attempts and the tables' identities alone keeps the links. */
  lemma SameKeysKeepLinks(w: World, v: World, gained: set<Operation>)
    requires Linked(w)
    requires v.cfg == w.cfg && v.attempts == w.attempts && w.cycles.Keys <= v.cycles.Keys
    requires Extends(w.ledger, v.ledger, gained) && forall op | op in gained :: op.ForTransfer?
    ensures Linked(v)
  {
  }

  /** Rewriting one attempt without moving it keeps the links. */
  lemma TouchKeepsLinks(w: World, v: World, id: AttemptId)
    requires Linked(w) && id in w.attempts && id in v.attempts
    requires v.cfg == w.cfg && v.attempts == w.attempts[id := v.attempts[id]] && w.cycles.Keys <= v.cycles.Keys
    requires v.attempts[id].agent == w.attempts[id].agent && v.attempts[id].owner == w.attempts[id].owner
    requires v.attempts[id].ticket == w.attempts[id].ticket && v.attempts[id].cycle == w.attempts[id].cycle
    requires Extends(w.ledger, v.ledger, {ForAttempt(id)})
    requires !w.cfg.enforce ==> v.ledger.reservations.Keys <= w.ledger.reservations.Keys
    ensures Linked(v)
  {
  }

  /** An enforcing attempt's ticket transaction finds its occupancy row in place. */
  lemma EnterIsIdle(w: World, id: AttemptId)
    requires Linked(w) && id in w.attempts
    ensures Enter(w, w.attempts[id].ticket) == w
  {
  }

  lemma EnterKeepsLinks(w: World, t: TicketId)
    requires Linked(w)
    ensures Linked(Enter(w, t))
    ensures w.cfg.enforce ==> t in Enter(w, t).ledger.occupancy
  {
    EnsureRowExtends(w.ledger, t);
    SameKeysKeepLinks(w, Enter(w, t), {});
  }

  lemma StampExtends(l: Ledger, a: AgentId, now: nat)
    ensures Extends(l, StampAgent(l, a, now), {})
  {
  }

  lemma AddChatsExtends(l: Ledger, a: AgentId, delta: int)
    ensures Extends(l, AddChats(l, a, delta), {})
  {
  }

  lemma TakeExtends(w: World, id: AttemptId, t: TicketId, a: AgentId)
    requires w.cfg.enforce ==> t in w.ledger.occupancy
    ensures Extends(w.ledger, TakeCapacity(w, id, t, a), {ForAttempt(id)})
    ensures w.cfg.enforce ==> ForAttempt(id) in TakeCapacity(w, id, t, a).reservations
    ensures w.cfg.enforce && ForAttempt(id) !in w.ledger.reservations ==>
              TakeCapacity(w, id, t, a).reservations[ForAttempt(id)] == Reservation(t, a, Held)
    ensures !w.cfg.enforce ==> TakeCapacity(w, id, t, a).reservations == w.ledger.reservations
  {
    StampExtends(w.ledger, a, w.now);
    if w.cfg.enforce {
      HoldExtends(StampAgent(w.ledger, a, w.now), ForAttempt(id), t, a, true);
    }
  }

  /** A new attempt that arrives with its own reservation keeps the links. */
  lemma AddKeepsLinks(w: World, v: World, id: AttemptId, at: Attempt)
    requires Linked(w) && id !in w.attempts
    requires v.cfg == w.cfg && v.attempts == w.attempts[id := at] && w.cycles.Keys <= v.cycles.Keys
    requires at.agent in w.cfg.dir.ownerOf && at.owner == w.cfg.dir.ownerOf[at.agent] && at.cycle in v.cycles
    requires Extends(w.ledger, v.ledger, {ForAttempt(id)})
    requires w.cfg.enforce ==>
               && at.ticket in w.ledger.occupancy
               && ForAttempt(id) in v.ledger.reservations
               && v.ledger.reservations[ForAttempt(id)] == Reservation(at.ticket, at.agent, Held)
    ensures Linked(v)
  {
    hide Directory.Injective;
  }

  lemma GrantKeepsLinks(w: World, r: ReserveRequest)
    requires Linked(w) && r.id !in w.attempts
    requires r.cycle in w.queue && r.cycle in w.cycles && r.agent in w.cfg.dir.ownerOf
    requires w.cfg.enforce ==> w.queue[r.cycle].ticket in w.ledger.occupancy
    ensures Linked(Grant(w, r))
  {
    assert ForAttempt(r.id) !in w.ledger.reservations;
    TakeExtends(w, r.id, w.queue[r.cycle].ticket, r.agent);
    hide TakeCapacity, Linked, Extends;
    AddKeepsLinks(w, Grant(w, r), r.id, Grant(w, r).attempts[r.id]);
  }

  lemma LinksKnowAgents(w: World)
    requires Linked(w)
    ensures w.ledger.agents.Keys == w.cfg.dir.ownerOf.Keys
  {
  }

  lemma NothingExtends(l: Ledger)
    ensures Extends(l, l, {})
  {
  }

  lemma ReserveKeepsLinks(w: World, r: ReserveRequest)
    requires Linked(w)
    ensures Linked(Reserve(w, r))
  {
    hide LiveOn, CompletedOn, KeyUsed, RowReady, HasRoom, Grant, Linked, Extends, EnsureRow, Directory.Injective;
    LinksKnowAgents(w);
    if ClassifyReserve(w, r) != RowUnavailable {
      var e := Enter(w, w.queue[r.cycle].ticket);
      EnterKeepsLinks(w, w.queue[r.cycle].ticket);
      if ClassifyReserve(w, r) == Granted {
        GrantKeepsLinks(e, r);
      } else {
        NothingExtends(e.ledger);
        if ClassifyReserve(w, r) != KeyTaken {
          SameKeysKeepLinks(e, Reserve(w, r), {});
        }
      }
    }
  }

  lemma RetryKeepsLinks(w: World, id: AttemptId, eligible: bool)
    requires Linked(w) && CanRetry(w, id, eligible)
    ensures Linked(Retry(w, id, eligible))
  {
    EnterIsIdle(w, id);
    TakeExtends(w, id, w.attempts[id].ticket, w.attempts[id].agent);
    TouchKeepsLinks(w, Retry(w, id, eligible), id);
  }

  lemma ReleaseExtends(w: World, id: AttemptId, at: Attempt)
    ensures Extends(w.ledger, ReleaseCapacity(w, id, at), {})
  {
    var c := Conclude(w.ledger, ForAttempt(id), false);
    ConcludeExtends(w.ledger, ForAttempt(id), false);
    MaterializeExtends(c, {at.agent}, w.cfg.enforce);
  }

  /** What a compensation that is not ignored does, for an attempt whose row exists. */
  lemma CompensateEffect(w: World, id: AttemptId, c: Compensation)
    requires id in w.attempts && Enter(w, w.attempts[id].ticket) == w
    requires !CompensationIgnored(w.attempts[id], c)
    ensures var v := Compensate(w, id, c);
            var at := w.attempts[id];
            && v.cfg == w.cfg && v.cycles == w.cycles && v.assignments == w.assignments && v.now == w.now
            && (RepairKeepsHold(w, id, c) ==>
                  && v.attempts == w.attempts[id := at.(state := RepairRequired)]
                  && v.ledger == Degrade(w.ledger, {at.agent})
                  && v.queue == w.queue)
            && (!RepairKeepsHold(w, id, c) ==>
                  && v.attempts == w.attempts[id := CompensatedAttempt(at, c, w.now)]
                  && v.ledger == ReleaseCapacity(w, id, at))
  {
    hide Enter, Degrade, ReleaseCapacity, CompensatedAttempt;
  }

  lemma CompensateKeepsLinks(w: World, id: AttemptId, c: Compensation)
    requires Linked(w)
    ensures Linked(Compensate(w, id, c))
  {
    if id in w.attempts {
      EnterIsIdle(w, id);
      hide Linked, Enter;
      if !CompensationIgnored(w.attempts[id], c) {
        var at := w.attempts[id];
        CompensateEffect(w, id, c);
        ReleaseExtends(w, id, at);
        DegradeExtends(w.ledger, {at.agent});
        hide Compensate, Degrade, ReleaseCapacity, RetryDelay;
        TouchKeepsLinks(w, Compensate(w, id, c), id);
      }
    }
  }

  lemma ProjectionKeys(w: World, o: Observation)
    ensures var p := ProjectClose(if o.project then ProjectOwner(w, o) else w, o);
            p.cfg == w.cfg && p.attempts == w.attempts && p.ledger == w.ledger && p.cycles.Keys == w.cycles.Keys
  {
    var p := if o.project then ProjectOwner(w, o) else w;
    assert p.cycles.Keys == w.cycles.Keys;
  }

  lemma AppliedKeepsLinks(w: World, o: Observation)
    requires Linked(w) && o.ticket in w.ledger.occupancy
    ensures Linked(AppliedWorld(w, o))
  {
    hide ApplyObservation, ProjectOwner, ProjectClose, AssignedAgents, StampAgent, Directory.Injective;
    ProjectionKeys(w, o);
    var extra := o.captured + AssignedAgents(w, o);
    ObservationExtends(w.ledger, o.ticket, o.snap, w.cfg.dir, extra, true);
    var l := ApplyObservation(w.ledger, o.ticket, o.snap, w.cfg.dir, extra, true);
    if w.cfg.dir.Lookup(o.snap.owner).Some? {
      StampExtends(l, w.cfg.dir.Lookup(o.snap.owner).value, w.now);
    }
    SameKeysKeepLinks(w, AppliedWorld(w, o), {});
  }

  lemma ObserveKeepsLinks(w: World, o: Observation)
    requires Linked(w)
    ensures Linked(Observe(w, o))
  {
    EnterKeepsLinks(w, o.ticket);
    if w.cfg.enforce && Picks(w, o) {
      if ClassifyObservation(w, o) == Applied {
        AppliedKeepsLinks(Enter(w, o.ticket), o);
      } else if ClassifyObservation(w, o) == Rejected {
        DegradeExtends(w.ledger, RejectedAgents(w, o));
        SameKeysKeepLinks(w, Observe(w, o), {});
      }
    }
  }

  lemma TransferKeepsLinks(w: World, t: TicketId, transfer: TransferId, target: AgentId, revision: nat)
    requires Linked(w)
    ensures Linked(TransferHold(w, t, transfer, target, revision))
  {
    if CanTransfer(w, t, transfer, target, revision) {
      HoldExtends(w.ledger, ForTransfer(transfer), t, target, true);
      SameKeysKeepLinks(w, TransferHold(w, t, transfer, target, revision), {ForTransfer(transfer)});
    }
  }

  lemma AttemptActTouches(w: World, act: Act)
    requires act.MarkAct? || act.FinalizeAct? || act.RepairCrashAct?
    requires act.id in w.attempts && Enter(w, w.attempts[act.id].ticket) == w
    ensures var v := Next(w, act);
            && v.cfg == w.cfg
            && act.id in v.attempts
            && v.attempts == w.attempts[act.id := v.attempts[act.id]]
            && v.attempts[act.id].(state := w.attempts[act.id].state, nextRetryAt := w.attempts[act.id].nextRetryAt)
               == w.attempts[act.id]
            && v.cycles.Keys == w.cycles.Keys
            && Extends(w.ledger, v.ledger, {})
  {
  }

  /** Acts that rewrite at most the state of one attempt. */
  lemma AttemptActKeepsLinks(w: World, act: Act)
    requires Linked(w) && (act.MarkAct? || act.FinalizeAct? || act.RepairCrashAct?)
    ensures Linked(Next(w, act))
  {
    var id := act.id;
    if id in w.attempts {
      EnterIsIdle(w, id);
      AttemptActTouches(w, act);
      hide Next;
      TouchKeepsLinks(w, Next(w, act), id);
    }
  }

  /** Acts that only add rows, close cycles, or rewrite agent rows in place. */
  lemma PlainActKeepsLinks(w: World, act: Act)
    requires Linked(w)
    requires act.Tick? || act.OpenCycle? || act.Enqueue? || act.CloseAct? || act.ReadyAct? || act.DegradeAct?
    ensures Linked(Next(w, act))
  {
    PlainActExtends(w, act);
    hide Next;
    SameKeysKeepLinks(w, Next(w, act), {});
  }

  lemma PlainActExtends(w: World, act: Act)
    requires act.Tick? || act.OpenCycle? || act.Enqueue? || act.CloseAct? || act.ReadyAct? || act.DegradeAct?
    ensures Extends(w.ledger, Next(w, act).ledger, {})
    ensures Next(w, act).cfg == w.cfg && Next(w, act).attempts == w.attempts
    ensures w.cycles.Keys <= Next(w, act).cycles.Keys
  {
    hide Degrade, AddChats;
    match act
    case DegradeAct(ids) => DegradeExtends(w.ledger, ids);
    case CloseAct(c) =>
      if c in w.assignments && w.assignments[c].agent.Some? {
        AddChatsExtends(w.ledger, w.assignments[c].agent.value, -1);
      }
    case _ =>
  }

  /** The structural invariant survives every transaction. */
  lemma StepKeepsLinks(w: World, act: Act)
    requires Linked(w)
    ensures Linked(Next(w, act))
  {
    hide Linked;
    match act
    case ReserveAct(r) => ReserveKeepsLinks(w, r);
    case CompensateAct(id, c) => CompensateKeepsLinks(w, id, c);
    case RetryAct(id, eligible) =>
      if CanRetry(w, id, eligible) {
        RetryKeepsLinks(w, id, eligible);
      }
    case TransferAct(t, transfer, target, revision) => TransferKeepsLinks(w, t, transfer, target, revision);
    case CaptureAct(t) => EnterKeepsLinks(w, t);
    case ObserveAct(o) => ObserveKeepsLinks(w, o);
    case MarkAct(_) => AttemptActKeepsLinks(w, act);
    case FinalizeAct(_) => AttemptActKeepsLinks(w, act);
    case RepairCrashAct(_) => AttemptActKeepsLinks(w, act);
    case _ => PlainActKeepsLinks(w, act);
  }
}
