/** Each enforcing protocol transaction, seen as one change of the capacity ledger. */
module AssignmentSteps {
  import opened Base
  import opened CapacityLedger
  import opened LedgerFrames
  import opened LedgerChanges
  import opened AssignmentProtocol
  import opened AssignmentInvariants

  function ReserveChange(w: World, r: ReserveRequest): Change {
    var outcome := ClassifyReserve(w, r);
    if outcome == RowUnavailable || outcome == KeyTaken then Untouched
    else if outcome == Granted then Holds(ForAttempt(r.id), w.queue[r.cycle].ticket, r.agent)
    else RowCreated(w.queue[r.cycle].ticket)
  }

  function CompensateChange(w: World, id: AttemptId, c: Compensation): Change {
    if id !in w.attempts || CompensationIgnored(w.attempts[id], c) then Untouched
    else if c.repair then Degrades({w.attempts[id].agent})
    else Releases(ForAttempt(id), w.attempts[id].agent)
  }

  function ObserveChange(w: World, o: Observation): Change {
    if !Picks(w, o) then Untouched
    else
      match ClassifyObservation(w, o)
      case Applied => Observes(o.ticket, o.snap, o.captured + AssignedAgents(w, o))
      case Rejected => Degrades(RejectedAgents(w, o))
      case _ => RowCreated(o.ticket)
  }

  /** The ledger change of an enforcing transaction. */
  function ChangeOf(w: World, act: Act): Change {
    match act
    case ReserveAct(r) => ReserveChange(w, r)
    case CompensateAct(id, c) => CompensateChange(w, id, c)
    case RetryAct(id, eligible) =>
      if CanRetry(w, id, eligible) then Holds(ForAttempt(id), w.attempts[id].ticket, w.attempts[id].agent)
      else Untouched
    case TransferAct(t, transfer, target, revision) =>
      if CanTransfer(w, t, transfer, target, revision) then Holds(ForTransfer(transfer), t, target) else Untouched
    case CaptureAct(t) => RowCreated(t)
    case ObserveAct(o) => ObserveChange(w, o)
    case DegradeAct(ids) => Degrades(ids)
    case ReadyAct(a) => Readies(a, w.now)
    case _ => Untouched
  }

  lemma StampSameCore(l: Ledger, a: AgentId, now: nat)
    ensures SameCore(l, StampAgent(l, a, now))
  {
  }

  lemma HoldSameCore(l: Ledger, m: Ledger, op: Operation, t: TicketId, a: AgentId)
    requires SameCore(l, m) && t in l.occupancy
    ensures SameCore(Hold(l, op, t, a, true), Hold(m, op, t, a, true))
  {
    if a in l.agents {
      UnionIgnoresAgents(HeldTables(l, op, t, a), HeldTables(m, op, t, a), a);
    }
  }

  lemma TakeSameCore(w: World, id: AttemptId, t: TicketId, a: AgentId)
    requires w.cfg.enforce && t in w.ledger.occupancy
    ensures SameCore(Hold(w.ledger, ForAttempt(id), t, a, true), TakeCapacity(w, id, t, a))
  {
    StampSameCore(w.ledger, a, w.now);
    HoldSameCore(w.ledger, StampAgent(w.ledger, a, w.now), ForAttempt(id), t, a);
  }

  lemma GrantIsChange(w: World, r: ReserveRequest)
    requires w.cfg.enforce && r.cycle in w.queue && r.agent in w.cfg.dir.ownerOf
    requires w.queue[r.cycle].ticket in w.ledger.occupancy
    ensures SameCore(Hold(w.ledger, ForAttempt(r.id), w.queue[r.cycle].ticket, r.agent, true), Grant(w, r).ledger)
  {
    TakeSameCore(w, r.id, w.queue[r.cycle].ticket, r.agent);
    hide Hold, TakeCapacity, SameCore;
  }

  lemma ReserveIsChange(w: World, r: ReserveRequest)
    requires Linked(w) && w.cfg.enforce
    ensures SameCore(ApplyChange(w.ledger, ReserveChange(w, r), w.cfg.dir), Reserve(w, r).ledger)
    ensures Lawful(w.ledger, ReserveChange(w, r))
  {
    hide LiveOn, CompletedOn, KeyUsed, RowReady, HasRoom, Hold, Grant, Directory.Injective, EnsureRow;
    if ClassifyReserve(w, r) == Granted {
      assert ForAttempt(r.id) !in w.ledger.reservations;
      hide Linked;
      EnsureRowExtends(w.ledger, w.queue[r.cycle].ticket);
      GrantIsChange(Enter(w, w.queue[r.cycle].ticket), r);
    } else {
      hide Linked;
    }
  }

  lemma CompensateIsChange(w: World, id: AttemptId, c: Compensation)
    requires Linked(w) && w.cfg.enforce
    ensures SameCore(ApplyChange(w.ledger, CompensateChange(w, id, c), w.cfg.dir), Compensate(w, id, c).ledger)
    ensures Lawful(w.ledger, CompensateChange(w, id, c))
  {
    if id in w.attempts {
      EnterIsIdle(w, id);
      hide Enter, Materialize, Degrade;
    }
  }

  lemma RetryIsChange(w: World, id: AttemptId, eligible: bool)
    requires Linked(w) && w.cfg.enforce && CanRetry(w, id, eligible)
    ensures SameCore(ApplyChange(w.ledger, ChangeOf(w, RetryAct(id, eligible)), w.cfg.dir), Retry(w, id, eligible).ledger)
    ensures Lawful(w.ledger, ChangeOf(w, RetryAct(id, eligible)))
  {
    EnterIsIdle(w, id);
    TakeSameCore(w, id, w.attempts[id].ticket, w.attempts[id].agent);
    hide Hold, TakeCapacity;
  }

  lemma AppliedIsChange(w: World, o: Observation)
    requires o.ticket in w.ledger.occupancy
    ensures SameCore(
              ApplyObservation(w.ledger, o.ticket, o.snap, w.cfg.dir, o.captured + AssignedAgents(w, o), true),
              AppliedWorld(w, o).ledger)
  {
    hide ApplyObservation, StampAgent, ProjectClose, ProjectOwner, AssignedAgents;
    var l := ApplyObservation(w.ledger, o.ticket, o.snap, w.cfg.dir, o.captured + AssignedAgents(w, o), true);
    if w.cfg.dir.Lookup(o.snap.owner).Some? {
      StampSameCore(l, w.cfg.dir.Lookup(o.snap.owner).value, w.now);
    }
  }

  lemma ObserveIsChange(w: World, o: Observation)
    requires w.cfg.enforce
    ensures SameCore(ApplyChange(w.ledger, ObserveChange(w, o), w.cfg.dir), Observe(w, o).ledger)
    ensures Lawful(w.ledger, ObserveChange(w, o))
  {
    hide AppliedWorld, ApplyObservation, Degrade, RejectedAgents, Picks, ClassifyObservation, EnsureRow, AssignedAgents;
    if Picks(w, o) && ClassifyObservation(w, o) == Applied {
      var e := Enter(w, o.ticket);
      EnsureRowExtends(w.ledger, o.ticket);
      EnterKeepsAssigned(w, o);
      AppliedIsChange(e, o);
    }
  }

  lemma EnterKeepsAssigned(w: World, o: Observation)
    ensures AssignedAgents(Enter(w, o.ticket), o) == AssignedAgents(w, o)
  {
  }

  /** Marking and finalizing never touch what capacity reads. */
  lemma EffectIsUntouched(w: World, act: Act)
    requires act.MarkAct? || act.FinalizeAct?
    requires act.id in w.attempts ==> Enter(w, w.attempts[act.id].ticket) == w
    ensures SameCore(w.ledger, Next(w, act).ledger)
  {
  }

  lemma QuietIsChange(w: World, act: Act)
    requires w.cfg.enforce
    requires act.Tick? || act.OpenCycle? || act.Enqueue? || act.CloseAct? || act.RepairCrashAct?
             || act.CaptureAct? || act.DegradeAct? || act.ReadyAct?
    ensures SameCore(ApplyChange(w.ledger, ChangeOf(w, act), w.cfg.dir), Next(w, act).ledger)
    ensures Lawful(w.ledger, ChangeOf(w, act))
  {
    hide EnsureRow, Degrade;
  }

  /** Every enforcing transaction changes the ledger in one of the seven lawful ways. */
  lemma StepIsAChange(w: World, act: Act)
    requires Linked(w) && w.cfg.enforce
    ensures SameCore(ApplyChange(w.ledger, ChangeOf(w, act), w.cfg.dir), Next(w, act).ledger)
    ensures Lawful(w.ledger, ChangeOf(w, act))
  {
    hide Linked, SameCore, ApplyChange;
    match act
    case ReserveAct(r) => ReserveIsChange(w, r);
    case CompensateAct(id, c) => CompensateIsChange(w, id, c);
    case RetryAct(id, eligible) =>
      if CanRetry(w, id, eligible) {
        RetryIsChange(w, id, eligible);
      } else {
        UntouchedIsChange(w, act);
      }
    case ObserveAct(o) => ObserveIsChange(w, o);
    case TransferAct(t, transfer, target, revision) => TransferIsChange(w, t, transfer, target, revision);
    case MarkAct(id) => EffectIsChange(w, act);
    case FinalizeAct(id) => EffectIsChange(w, act);
    case _ => QuietIsChange(w, act);
  }

  lemma EffectIsChange(w: World, act: Act)
    requires Linked(w) && (act.MarkAct? || act.FinalizeAct?)
    ensures SameCore(ApplyChange(w.ledger, ChangeOf(w, act), w.cfg.dir), Next(w, act).ledger)
    ensures Lawful(w.ledger, ChangeOf(w, act))
  {
    if act.id in w.attempts {
      EnterIsIdle(w, act.id);
    }
    hide Linked;
    EffectIsUntouched(w, act);
    hide Next, SameCore;
  }

  lemma UntouchedIsChange(w: World, act: Act)
    requires Next(w, act).ledger == w.ledger && ChangeOf(w, act) == Untouched
    ensures SameCore(ApplyChange(w.ledger, ChangeOf(w, act), w.cfg.dir), Next(w, act).ledger)
  {
  }

  lemma TransferIsChange(w: World, t: TicketId, transfer: TransferId, target: AgentId, revision: nat)
    ensures var act := TransferAct(t, transfer, target, revision);
            && SameCore(ApplyChange(w.ledger, ChangeOf(w, act), w.cfg.dir), Next(w, act).ledger)
            && Lawful(w.ledger, ChangeOf(w, act))
  {
    hide Hold;
  }
}
