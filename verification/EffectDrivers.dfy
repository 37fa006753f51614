/**
 The drivers around one provider effect: read before writing, patch, read back, and
 converge (apps/support/durable_assignment_service.py), with and without enforcement.
 */
module EffectDrivers {
  import opened Base
  import opened CapacityLedger
  import opened LedgerChanges
  import opened AssignmentProtocol
  import opened AssignmentInvariants
  import opened AssignmentSteps
  import opened AttemptLifecycle
  import opened AssignmentSafety
  import opened NonEnforcingCounter
  import opened ObservationFreshness
  import opened SupportStore

  // ----- a confirmed effect can always be finalized -----------------------

  /** A read that confirms the attempt's own target owner. */
  ghost predicate Confirms(w: World, o: Observation, id: AttemptId)
    requires id in w.attempts
  {
    && Lands(w, o)
    && o.ticket == w.attempts[id].ticket
    && ObservedState(o.snap) == Active
    && o.snap.owner == Some(w.attempts[id].owner)
  }

  /** The projection never takes a queued cycle away from the attempt it confirms. */
  lemma ConfirmationSparesCycle(w: World, o: Observation, id: AttemptId)
    requires Linked(w) && id in w.attempts && w.attempts[id].state in {AttemptReserved, ExternalApplied, RepairRequired}
    requires o.ticket == w.attempts[id].ticket && ObservedState(o.snap) == Active
    requires o.snap.owner == Some(w.attempts[id].owner)
    requires HeldFor(w, id)
    ensures w.cfg.enforce ==>
              ProjectClose(if o.project then ProjectOwner(w, o) else w, o).cycles == w.cycles
  {
    if w.cfg.enforce {
      assert w.cfg.dir.Lookup(o.snap.owner) == Some(w.attempts[id].agent);
      assert ProtectedBy(w, o, id);
      hide Linked;
    }
  }

  /** What a confirming observation leaves behind. */
  lemma ConfirmedWorld(w: World, o: Observation, id: AttemptId)
    requires Linked(w) && id in w.attempts && Confirms(w, o, id) && HeldFor(w, id)
    requires w.attempts[id].state == AttemptReserved
    ensures var v := Next(w, ObserveAct(o));
            && Linked(v) && v.cfg == w.cfg && v.attempts == w.attempts && v.cycles == w.cycles
            && o.ticket in v.ledger.occupancy
            && v.ledger.occupancy[o.ticket].state == Active
            && v.ledger.occupancy[o.ticket].owner == o.snap.owner
            && CapacitySet(v.ledger, w.attempts[id].agent) == CapacitySet(w.ledger, w.attempts[id].agent)
  {
    var v := Next(w, ObserveAct(o));
    StepKeepsLinks(w, ObserveAct(o));
    StepKeepsConfig(w, ObserveAct(o));
    StepWrites(w, ObserveAct(o));
    EnterIsIdle(w, id);
    ConfirmationSparesCycle(w, o, id);
    ConfirmedLedger(w, o, id);
    hide Linked, Picks, ClassifyObservation, ProjectOwner, ProjectClose, ApplyObservation, AssignedAgents, CapacitySet;
  }

  lemma ConfirmedLedger(w: World, o: Observation, id: AttemptId)
    requires Linked(w) && id in w.attempts && Confirms(w, o, id) && HeldFor(w, id)
    ensures var m := Next(w, ObserveAct(o)).ledger;
            && o.ticket in m.occupancy
            && m.occupancy[o.ticket].state == Active
            && m.occupancy[o.ticket].owner == o.snap.owner
            && CapacitySet(m, w.attempts[id].agent) == CapacitySet(w.ledger, w.attempts[id].agent)
  {
    var a := w.attempts[id].agent;
    StepIsAChange(w, ObserveAct(o));
    ObserveMoves(w, o);
    assert w.cfg.dir.Injective() && o.ticket in w.ledger.occupancy;
    assert w.cfg.dir.Owns(a, o.snap.owner);
    assert w.ledger.reservations[ForAttempt(id)] == Reservation(o.ticket, a, Held);
    hide Linked, Next, ChangeOf, Lands, AssignedAgents, Directory.Injective;
    var extra := o.captured + AssignedAgents(w, o);
    assert o.ticket in Reserved(w.ledger, a);
    ConfirmationKeepsUnion(w.ledger, o.ticket, o.snap, w.cfg.dir, extra, true, a);
    SameCoreSameUnion(ApplyObservation(w.ledger, o.ticket, o.snap, w.cfg.dir, extra, true), Next(w, ObserveAct(o)).ledger, a);
  }

  /** What others committed leaves the attempt, its cycle and its ticket's owner as they were. */
  predicate SparesEffect(a: World, b: World, id: AttemptId) {
    && id in a.attempts && id in b.attempts
    && b.cfg == a.cfg
    && b.attempts[id] == a.attempts[id]
    && (a.attempts[id].cycle in a.cycles ==>
          a.attempts[id].cycle in b.cycles && b.cycles[a.attempts[id].cycle].state == a.cycles[a.attempts[id].cycle].state)
    && (a.attempts[id].ticket in a.ledger.occupancy ==>
          && a.attempts[id].ticket in b.ledger.occupancy
          && b.ledger.occupancy[a.attempts[id].ticket].state == a.ledger.occupancy[a.attempts[id].ticket].state
          && b.ledger.occupancy[a.attempts[id].ticket].owner == a.ledger.occupancy[a.attempts[id].ticket].owner)
  }

  /**
   A confirming read, marking and finalization complete the attempt and assign its
   cycle, whatever others commit in between, as long as they spare the attempt, its
   cycle and its ticket's owner; neither the read nor the finalization moves the
   agent's tickets.
   */
  lemma ConfirmedEffectCompletes(w: World, o: Observation, id: AttemptId, amid: seq<Act>, last: seq<Act>)
    requires Linked(w) && id in w.attempts && Confirms(w, o, id) && HeldFor(w, id)
    requires w.attempts[id].state == AttemptReserved && w.cycles[w.attempts[id].cycle].state == CycleQueued
    requires SparesEffect(Next(w, ObserveAct(o)), Run(Next(w, ObserveAct(o)), amid), id)
    requires var x := Next(Run(Next(w, ObserveAct(o)), amid), MarkAct(id)); SparesEffect(x, Run(x, last), id)
    ensures var v := Next(w, ObserveAct(o));
            var u := Run(Next(Run(v, amid), MarkAct(id)), last);
            var z := Next(u, FinalizeAct(id));
            && CapacitySet(v.ledger, w.attempts[id].agent) == CapacitySet(w.ledger, w.attempts[id].agent)
            && id in z.attempts && z.attempts[id].state == Completed
            && w.attempts[id].cycle in z.cycles && z.cycles[w.attempts[id].cycle].state == CycleAssigned
            && forall a :: CapacityCount(z.ledger, a) == CapacityCount(u.ledger, a)
  {
    hide Linked, Next, Run, Confirms, HeldFor, CapacitySet;
    var v := Next(w, ObserveAct(o));
    ConfirmedWorld(w, o, id);
    LinkedCycle(w, id);
    ConfirmsTicket(w, o, id);
    var y := Run(v, amid);
    MarkConfirmed(y, id);
    FinishConfirmed(Run(Next(y, MarkAct(id)), last), id);
  }

  lemma ConfirmsTicket(w: World, o: Observation, id: AttemptId)
    requires id in w.attempts && Confirms(w, o, id)
    ensures o.ticket == w.attempts[id].ticket && o.snap.owner == Some(w.attempts[id].owner) && w.cfg.enforce
  {
  }

  lemma MarkConfirmed(y: World, id: AttemptId)
    requires id in y.attempts && y.attempts[id].state == AttemptReserved
    requires y.attempts[id].ticket in y.ledger.occupancy
    ensures var x := Next(y, MarkAct(id));
            && id in x.attempts && x.attempts[id] == y.attempts[id].(state := ExternalApplied)
            && x.cfg == y.cfg && x.cycles == y.cycles && x.ledger == y.ledger
  {
  }

  lemma FinishConfirmed(u: World, id: AttemptId)
    requires id in u.attempts && u.attempts[id].state == ExternalApplied
    requires u.attempts[id].cycle in u.cycles && u.cycles[u.attempts[id].cycle].state == CycleQueued
    requires u.attempts[id].ticket in u.ledger.occupancy
    requires u.ledger.occupancy[u.attempts[id].ticket].state == Active
    requires u.ledger.occupancy[u.attempts[id].ticket].owner == Some(u.attempts[id].owner)
    ensures var z := Next(u, FinalizeAct(id));
            && id in z.attempts && z.attempts[id].state == Completed
            && u.attempts[id].cycle in z.cycles && z.cycles[u.attempts[id].cycle].state == CycleAssigned
            && forall a :: CapacityCount(z.ledger, a) == CapacityCount(u.ledger, a)
  {
    var z := Next(u, FinalizeAct(id));
    forall a
      ensures CapacityCount(z.ledger, a) == CapacityCount(u.ledger, a)
    {
      UnionIgnoresAgents(z.ledger, u.ledger, a);
    }
  }

  // ----- drivers ----------------------------------------------------------

  datatype Outcome =
    | Assigned
    | SkippedStaleCycle
    | StaleTicket
    | RetryableExternalError
    | ConvergedExternalOwner
    | RejectedExternalError
    | RepairOutcome
    | NotActionable
    | Raised

  /**
   The provider's answer to a read: an error, a missing ticket, or a snapshot to apply.
   An enforcing read that fails also degrades the ticket's agents; that is one of the
   transactions committed before.
   */
  datatype Reply = Unreadable | NotFound | Answer(observation: Observation, novo: bool)

  /** `Rejection` is a non-retryable 400, 401, 403, 404 or 422; `Permanent` any other non-retryable error. */
  datatype PatchError = NoError | Transient | Rejection | Permanent

  /** What the PATCH returned. */
  datatype PatchResult = Patched | PatchNotFound | PatchFailed(error: PatchError)

  const RELEASE := Compensation(false, false, false, OtherFailure)
  const QUARANTINE := Compensation(false, false, true, OtherFailure)
  const YIELD_TO_OWNER := Compensation(false, false, true, ManualOwnerObserved)
  const RETRY_LATER := Compensation(true, false, false, OtherFailure)
  const REPAIR := Compensation(false, true, false, OtherFailure)

  /** A repair compensation keeps the hold and ends in repair, unless it is ignored. */
  lemma RepairKeeps(w: World, id: AttemptId)
    requires Linked(w) && w.cfg.enforce && id in w.attempts
    ensures var v := Next(w, CompensateAct(id, REPAIR));
            && id in v.attempts
            && (HeldFor(w, id) ==> HeldFor(v, id))
            && (w.attempts[id].state == AttemptReserved && w.attempts[id].compensatedAt.None? ==>
                  v.attempts[id].state == RepairRequired)
  {
    StepWrites(w, CompensateAct(id, REPAIR));
    if HeldFor(w, id) {
      HoldEndsIff(w, CompensateAct(id, REPAIR), id);
    }
    hide Next, Linked;
  }

  /** What a readback decides. */
  datatype Decision = Complete | Release(reason: Outcome) | Repair | Again

  /** Under enforcement the observed row decides. */
  function Decide(row: Occupancy, desired: OwnerId, error: PatchError): Decision {
    if row.state in {OccupancyState.Closed, OutOfScope} then Release(StaleTicket)
    else if row.owner == Some(desired) then Complete
    else if error == Rejection && row.owner.None? then Release(RejectedExternalError)
    else Repair
  }

  /** Without enforcement the owner just read decides alone, and an unowned ticket is tried again. */
  function DecidePlain(owner: Option<OwnerId>, desired: OwnerId, error: PatchError): Decision {
    if owner == Some(desired) then Complete
    else if owner.None? && error in {NoError, Transient} then Again
    else Repair
  }

  /**
   What other workers commit while a driver runs: before its first transaction,
   between the provider read and what follows from it, and between marking an
   attempt and finalizing it.
   */
  datatype Others = Others(before: seq<Act>, amid: seq<Act>, last: seq<Act>)

  /** The transactions a decision leads to, and the outcome the driver reports. */
  function Settle(v: World, id: AttemptId, d: Decision, last: seq<Act>): (World, Outcome) {
    match d
    case Release(reason) => (Next(v, CompensateAct(id, RELEASE)), reason)
    case Repair => (Next(v, CompensateAct(id, REPAIR)), RepairOutcome)
    case Again => (Next(v, CompensateAct(id, RETRY_LATER)), RetryableExternalError)
    case Complete =>
      var x := Next(v, MarkAct(id));
      if id !in x.attempts || x.attempts[id].state !in {Completed, ExternalApplied} then (x, Raised)
      else
        var z := Next(Run(x, last), FinalizeAct(id));
        (z, if id in z.attempts && z.attempts[id].state == Completed then Assigned else Raised)
  }

  /** What the read `o` decides for the attempt, from the row it leaves or, without enforcement, from its owner. */
  function Judge(w1: World, at: Attempt, o: Observation, error: PatchError): Decision {
    var v := Next(w1, ObserveAct(o));
    if !w1.cfg.enforce then DecidePlain(o.snap.owner, at.owner, error)
    else if ClassifyObservation(w1, o) == Rejected || at.ticket !in v.ledger.occupancy then Repair
    else Decide(v.ledger.occupancy[at.ticket], at.owner, error)
  }

  predicate CycleDead(w: World, at: Attempt) {
    at.cycle !in w.cycles || w.cycles[at.cycle].state == CycleClosed
  }

  /** The whole readback: cycle check, observation, decision, with others at work in between. */
  function Readback(w: World, id: AttemptId, reply: Reply, error: PatchError, others: Others): (World, Outcome)
    requires id in w.attempts
  {
    var at := w.attempts[id];
    var w1 := Run(w, others.before);
    if CycleDead(w, at) then (Next(w1, CompensateAct(id, RELEASE)), SkippedStaleCycle)
    else if !reply.Answer? then Settle(w1, id, Repair, others.last)
    else
      var v := Next(w1, ObserveAct(reply.observation));
      Settle(Run(v, others.amid), id, Judge(w1, at, reply.observation, error), others.last)
  }

  /** Read a ticket: under enforcement the observation is applied or rejected. */
  method ObserveTicket(store: Store, o: Observation) returns (rejected: bool)
    modifies store
    ensures store.State() == Next(old(store.State()), ObserveAct(o))
    ensures rejected <==> store.cfg.enforce && ClassifyObservation(old(store.State()), o) == Rejected
  {
    if !store.cfg.enforce {
      return false;
    }
    hide Observe, ClassifyObservation;
    var result := store.ReconcileTicket(o);
    return result == Rejected;
  }

  /** Read the provider owner back and converge without assuming that the mutation failed. */
  method ReconcileAmbiguousAttempt(store: Store, id: AttemptId, reply: Reply, error: PatchError, others: Others)
    returns (outcome: Outcome)
    requires id in store.attempts
    modifies store
    ensures (store.State(), outcome) == Readback(old(store.State()), id, reply, error, others)
  {
    hide Compensate, Judge, Observe, Run;
    var at := store.attempts[id];
    var dead := at.cycle !in store.cycles || store.cycles[at.cycle].state == CycleClosed;
    store.CommitOthers(others.before);
    if dead {
      store.CompensateAttempt(id, RELEASE);
      return SkippedStaleCycle;
    }
    if !reply.Answer? {
      store.CompensateAttempt(id, REPAIR);
      return RepairOutcome;
    }
    outcome := ConvergeOn(store, id, at, reply.observation, error, others);
  }

  /** Apply the read and settle the attempt by what it leaves. */
  method ConvergeOn(store: Store, id: AttemptId, at: Attempt, o: Observation, error: PatchError, others: Others)
    returns (outcome: Outcome)
    modifies store
    ensures (store.State(), outcome)
            == Settle(Run(Next(old(store.State()), ObserveAct(o)), others.amid), id,
                      Judge(old(store.State()), at, o, error), others.last)
  {
    hide Compensate, ClassifyObservation, Observe, Decide, DecidePlain, Run;
    var rejected := ObserveTicket(store, o);
    if !store.cfg.enforce {
      store.CommitOthers(others.amid);
      outcome := SettlePlain(store, id, o.snap.owner, at.owner, error, others.last);
      return;
    }
    if rejected || at.ticket !in store.occupancy {
      store.CommitOthers(others.amid);
      store.CompensateAttempt(id, REPAIR);
      return RepairOutcome;
    }
    var row := store.occupancy[at.ticket];
    store.CommitOthers(others.amid);
    outcome := SettleReadback(store, id, row, at.owner, error, others.last);
  }

  /** Act on the row a readback left: release, complete, or ask for repair. */
  method SettleReadback(
    store: Store, id: AttemptId, row: Occupancy, desired: OwnerId, error: PatchError, last: seq<Act>)
    returns (outcome: Outcome)
    modifies store
    ensures (store.State(), outcome) == Settle(old(store.State()), id, Decide(row, desired, error), last)
  {
    hide Compensate, MarkExternal, Finalize, Run;
    if row.state in {OccupancyState.Closed, OutOfScope} {
      store.CompensateAttempt(id, RELEASE);
      return StaleTicket;
    }
    if row.owner == Some(desired) {
      outcome := CompleteAttempt(store, id, last);
      return;
    }
    if error == Rejection && row.owner.None? {
      store.CompensateAttempt(id, RELEASE);
      return RejectedExternalError;
    }
    store.CompensateAttempt(id, REPAIR);
    return RepairOutcome;
  }

  /** Act on the owner a readback without enforcement saw: complete, retry later, or ask for repair. */
  method SettlePlain(
    store: Store, id: AttemptId, owner: Option<OwnerId>, desired: OwnerId, error: PatchError, last: seq<Act>)
    returns (outcome: Outcome)
    modifies store
    ensures (store.State(), outcome) == Settle(old(store.State()), id, DecidePlain(owner, desired, error), last)
  {
    hide Compensate, MarkExternal, Finalize, Run;
    if owner == Some(desired) {
      outcome := CompleteAttempt(store, id, last);
      return;
    }
    if owner.None? && (error == NoError || error == Transient) {
      store.CompensateAttempt(id, RETRY_LATER);
      return RetryableExternalError;
    }
    store.CompensateAttempt(id, REPAIR);
    return RepairOutcome;
  }

  /** Mark the confirmed owner, then finalize; each commits on its own. */
  method CompleteAttempt(store: Store, id: AttemptId, last: seq<Act>) returns (outcome: Outcome)
    modifies store
    ensures (store.State(), outcome) == Settle(old(store.State()), id, Complete, last)
  {
    hide MarkExternal, Finalize, Run;
    var marked := store.MarkExternalApplied(id);
    if !marked {
      return Raised;
    }
    store.CommitOthers(last);
    var done := store.FinalizeAttempt(id);
    return if done then Assigned else Raised;
  }

  /** Others ended the attempt's hold. */
  ghost predicate OthersRelease(w: World, acts: seq<Act>, id: AttemptId) {
    HeldFor(w, id) && !HeldFor(Run(w, acts), id)
  }

  /** Settling keeps the hold unless it releases, and only completion reports an assignment. */
  lemma SettleFacts(v: World, id: AttemptId, d: Decision, last: seq<Act>)
    requires Linked(v) && v.cfg.enforce && id in v.attempts
    requires !d.Again? && (d.Release? ==> d.reason != Assigned && d.reason != RepairOutcome)
    ensures var (z, outcome) := Settle(v, id, d, last);
            && (HeldFor(v, id) && !HeldFor(z, id) ==> d.Release? || OthersRelease(Next(v, MarkAct(id)), last, id))
            && (outcome == Assigned ==> d.Complete? && id in z.attempts && z.attempts[id].state == Completed)
            && (outcome == RepairOutcome ==> d == Repair)
            && (d.Repair? && v.attempts[id].state == AttemptReserved && v.attempts[id].compensatedAt.None? ==>
                  id in z.attempts && z.attempts[id].state == RepairRequired)
  {
    hide Next, Linked, HeldFor, Run;
    match d
    case Release(_) =>
    case Repair => RepairKeeps(v, id);
    case Complete =>
      var x := Next(v, MarkAct(id));
      EffectKeepsHold(v, MarkAct(id), id);
      RunKeepsLinks(x, last);
      RunKeepsConfig(x, last);
      var u := Run(x, last);
      if id in u.attempts {
        EffectKeepsHold(u, FinalizeAct(id), id);
      } else {
        NothingToFinalize(u, id);
      }
  }

  lemma NothingToFinalize(u: World, id: AttemptId)
    requires id !in u.attempts
    ensures Next(u, FinalizeAct(id)) == u
  {
  }

  predicate TerminalRow(w: World, t: TicketId) {
    t in w.ledger.occupancy && w.ledger.occupancy[t].state in {OccupancyState.Closed, OutOfScope}
  }

  predicate UnownedRow(w: World, t: TicketId) {
    t in w.ledger.occupancy && w.ledger.occupancy[t].owner.None?
  }

  /**
   Conclusive evidence: whatever others commit in between, a readback itself takes
   an attempt's held capacity away only if its cycle is closed, the applied
   observation confirmed the owner or ended the ticket's scope, the observed row is
   terminal, or the PATCH was definitively rejected and no owner was observed. An
   unreadable, rejected or unconfirmed readback keeps it.
   */
  lemma ReadbackReleasesOnlyConclusively(
    w: World, id: AttemptId, reply: Reply, error: PatchError, others: Others)
    requires Linked(w) && w.cfg.enforce && id in w.attempts && HeldFor(Run(w, others.before), id)
    ensures var (z, outcome) := Readback(w, id, reply, error, others);
            var w1 := Run(w, others.before);
            !HeldFor(z, id) ==>
              || (outcome == SkippedStaleCycle && CycleDead(w, w.attempts[id]))
              || (reply.Answer?
                  && var v := Next(w1, ObserveAct(reply.observation));
                     || (id in w1.attempts && ConclusiveFor(w1, reply.observation, id))
                     || OthersRelease(v, others.amid, id)
                     || OthersRelease(Next(Run(v, others.amid), MarkAct(id)), others.last, id)
                     || (outcome == StaleTicket && TerminalRow(v, w.attempts[id].ticket))
                     || (outcome == RejectedExternalError && error == Rejection && UnownedRow(v, w.attempts[id].ticket)))
  {
    hide Next, Linked, ConclusiveFor, Settle, ClassifyObservation, HeldFor, Run, Decide;
    var at := w.attempts[id];
    var w1 := Run(w, others.before);
    RunKeepsLinks(w, others.before);
    RunKeepsConfig(w, others.before);
    RunKeepsPurpose(w, others.before, id);
    if !CycleDead(w, at) {
      if reply.Answer? {
        var v := Next(w1, ObserveAct(reply.observation));
        var y := Run(v, others.amid);
        ObservedStays(w1, reply.observation, id);
        RunKeepsLinks(v, others.amid);
        RunKeepsConfig(v, others.amid);
        RunKeepsPurpose(v, others.amid, id);
        SettleFacts(y, id, Repair, others.last);
        if at.ticket in v.ledger.occupancy {
          DecideFacts(v.ledger.occupancy[at.ticket], at.owner, error);
          var d := Decide(v.ledger.occupancy[at.ticket], at.owner, error);
          SettleFacts(y, id, d, others.last);
          ReleaseReason(y, id, d, others.last);
        }
      } else {
        SettleFacts(w1, id, Repair, others.last);
        RepairKeeps(w1, id);
        RepairSettles(w1, id, others.last);
      }
    }
  }

  lemma RepairSettles(w: World, id: AttemptId, last: seq<Act>)
    ensures Settle(w, id, Repair, last) == (Next(w, CompensateAct(id, REPAIR)), RepairOutcome)
  {
    hide Next, Run;
  }

  lemma DecideFacts(row: Occupancy, desired: OwnerId, error: PatchError)
    ensures var d := Decide(row, desired, error);
            && !d.Again? && (d.Release? ==> d.reason in {StaleTicket, RejectedExternalError})
            && (d == Release(StaleTicket) <==> row.state in {OccupancyState.Closed, OutOfScope})
            && (d == Release(RejectedExternalError) ==> error == Rejection && row.owner.None?)
  {
  }

  lemma ReleaseReason(v: World, id: AttemptId, d: Decision, last: seq<Act>)
    ensures d.Release? ==> Settle(v, id, d, last).1 == d.reason
  {
  }

  /**
   An assignment is reported only for a completed attempt: either others had
   completed it, or the ledger then shows its owner on an active ticket.
   */
  lemma ReadbackAssignsTruthfully(w: World, id: AttemptId, reply: Reply, error: PatchError, others: Others)
    requires Linked(w) && w.cfg.enforce && id in w.attempts
    ensures var (z, outcome) := Readback(w, id, reply, error, others);
            outcome == Assigned ==>
              && reply.Answer?
              && id in z.attempts && z.attempts[id].state == Completed
              && var y := Run(Next(Run(w, others.before), ObserveAct(reply.observation)), others.amid);
                 || CompletedIn(Run(Next(y, MarkAct(id)), others.last), id)
                 || OwnedBy(z, w.attempts[id].ticket, w.attempts[id].owner)
  {
    hide Next, Linked, Settle, ClassifyObservation, Run, Decide;
    var at := w.attempts[id];
    var w1 := Run(w, others.before);
    RunKeepsLinks(w, others.before);
    RunKeepsConfig(w, others.before);
    RunKeepsPurpose(w, others.before, id);
    if !CycleDead(w, at) {
      if reply.Answer? {
        var v := Next(w1, ObserveAct(reply.observation));
        var y := Run(v, others.amid);
        ObservedStays(w1, reply.observation, id);
        RunKeepsLinks(v, others.amid);
        RunKeepsConfig(v, others.amid);
        RunKeepsPurpose(v, others.amid, id);
        SettleFacts(y, id, Repair, others.last);
        if at.ticket in v.ledger.occupancy {
          DecideFacts(v.ledger.occupancy[at.ticket], at.owner, error);
          var d := Decide(v.ledger.occupancy[at.ticket], at.owner, error);
          SettleFacts(y, id, d, others.last);
          CompletionShowsOwner(y, id, others.last);
        }
      } else {
        SettleFacts(w1, id, Repair, others.last);
      }
    }
  }

  predicate CompletedIn(w: World, id: AttemptId) {
    id in w.attempts && w.attempts[id].state == Completed
  }

  predicate OwnedBy(w: World, t: TicketId, owner: OwnerId) {
    && t in w.ledger.occupancy
    && w.ledger.occupancy[t].state == Active
    && w.ledger.occupancy[t].owner == Some(owner)
  }

  lemma CompletionShowsOwner(y: World, id: AttemptId, last: seq<Act>)
    requires Linked(y) && y.cfg.enforce && id in y.attempts
    ensures var (z, outcome) := Settle(y, id, Complete, last);
            outcome == Assigned ==>
              CompletedIn(Run(Next(y, MarkAct(id)), last), id) || OwnedBy(z, y.attempts[id].ticket, y.attempts[id].owner)
  {
    hide Next, Linked, Run;
    var x := Next(y, MarkAct(id));
    var u := Run(x, last);
    StepKeepsLinks(y, MarkAct(id));
    StepKeepsConfig(y, MarkAct(id));
    StepKeepsPurpose(y, MarkAct(id), id);
    RunKeepsPurpose(x, last, id);
    RunKeepsConfig(x, last);
    if !CompletedIn(u, id) {
      FinalizeShowsOwner(u, id);
    }
  }

  lemma FinalizeShowsOwner(u: World, id: AttemptId)
    requires u.cfg.enforce && id in u.attempts && !CompletedIn(u, id)
    ensures CompletedIn(Next(u, FinalizeAct(id)), id) ==>
              OwnedBy(Next(u, FinalizeAct(id)), u.attempts[id].ticket, u.attempts[id].owner)
  {
  }

  // ----- execution --------------------------------------------------------

  /**
   What the provider does during one execution, and what others commit: `own` during
   the execution itself, `during` while a readback it ends in runs.
   */
  datatype Effects = Effects(
    allowed: bool,
    precheck: Reply,
    patch: PatchResult,
    readback: Reply,
    second: Observation,
    own: Others,
    during: Others)

  datatype Execution = Execution(world: World, outcome: Outcome, patched: bool)

  function Stop(w: World, id: AttemptId, c: Compensation, outcome: Outcome): Execution {
    Execution(Next(w, CompensateAct(id, c)), outcome, false)
  }

  /** Read back and report; an attempt that is gone raises. */
  function Reading(v: World, id: AttemptId, env: Effects, error: PatchError, patched: bool): Execution {
    if id !in v.attempts then Execution(v, Raised, patched)
    else
      var (z, outcome) := Readback(v, id, env.readback, error, env.during);
      Execution(z, outcome, patched)
  }

  function AfterPatch(v: World, id: AttemptId, env: Effects): Execution {
    match env.patch
    case PatchNotFound => Stop(v, id, QUARANTINE, StaleTicket).(patched := true)
    case Patched => Reading(v, id, env, NoError, true)
    case PatchFailed(error) => Reading(v, id, env, error, true)
  }

  /** What follows from the ticket as read before the write, for an attempt that wants `desired`. */
  function AfterRead(v: World, id: AttemptId, desired: OwnerId, env: Effects): Execution
    requires env.precheck.Answer?
  {
    var snap := env.precheck.observation.snap;
    if !snap.inSupport || !env.precheck.novo || snap.closed then Stop(v, id, QUARANTINE, StaleTicket)
    else if snap.owner == Some(desired) then
      var (z, outcome) := Settle(v, id, Complete, env.own.last);
      Execution(z, outcome, false)
    else if snap.owner.Some? then
      var z := Next(v, CompensateAct(id, YIELD_TO_OWNER));
      Execution(Next(Run(z, env.own.last), ObserveAct(env.second)), ConvergedExternalOwner, false)
    else AfterPatch(v, id, env)
  }

  /** Apply the provider mutation and converge the durable attempt. */
  function Execute(w: World, id: AttemptId, env: Effects): Execution
    requires id in w.attempts
  {
    var at := w.attempts[id];
    var w1 := Run(w, env.own.before);
    if at.state == Completed then Execution(w1, Assigned, false)
    else if at.cycle !in w.cycles || w.cycles[at.cycle].state != CycleQueued then Stop(w1, id, RELEASE, SkippedStaleCycle)
    else if at.state == ExternalApplied then Reading(w1, id, env, NoError, false)
    else if at.state != AttemptReserved then Execution(w1, NotActionable, false)
    else if !env.allowed then Stop(w1, id, RETRY_LATER, RetryableExternalError)
    else if env.precheck.NotFound? then Stop(w1, id, QUARANTINE, StaleTicket)
    else if env.precheck.Unreadable? then Stop(w1, id, RETRY_LATER, RetryableExternalError)
    else
      var v := Next(w1, ObserveAct(env.precheck.observation));
      var y := Run(v, env.own.amid);
      if w.cfg.enforce && ClassifyObservation(w1, env.precheck.observation) == Rejected
      then Stop(y, id, RETRY_LATER, RetryableExternalError)
      else AfterRead(y, id, at.owner, env)
  }

  /** One execution on the store, under the attempt's effect lock. */
  method ExecuteAssignmentAttempt(store: Store, id: AttemptId, env: Effects) returns (outcome: Outcome, patched: bool)
    requires id in store.attempts
    modifies store
    ensures Execution(store.State(), outcome, patched) == Execute(old(store.State()), id, env)
  {
    hide Compensate, MarkExternal, Finalize, ClassifyObservation, Observe, Readback, Run, AfterRead;
    var at := store.attempts[id];
    var queued := at.cycle in store.cycles && store.cycles[at.cycle].state == CycleQueued;
    store.CommitOthers(env.own.before);
    if at.state == Completed {
      return Assigned, false;
    }
    if !queued {
      store.CompensateAttempt(id, RELEASE);
      return SkippedStaleCycle, false;
    }
    if at.state == ExternalApplied {
      outcome := ReadBack(store, id, env, NoError);
      return outcome, false;
    }
    if at.state != AttemptReserved {
      return NotActionable, false;
    }
    if !env.allowed || env.precheck.Unreadable? {
      store.CompensateAttempt(id, RETRY_LATER);
      return RetryableExternalError, false;
    }
    if env.precheck.NotFound? {
      store.CompensateAttempt(id, QUARANTINE);
      return StaleTicket, false;
    }
    var rejected := ObserveTicket(store, env.precheck.observation);
    store.CommitOthers(env.own.amid);
    if rejected {
      store.CompensateAttempt(id, RETRY_LATER);
      return RetryableExternalError, false;
    }
    outcome, patched := WriteUnowned(store, id, at.owner, env);
  }

  method ReadBack(store: Store, id: AttemptId, env: Effects, error: PatchError) returns (outcome: Outcome)
    modifies store
    ensures forall patched :: Execution(store.State(), outcome, patched) == Reading(old(store.State()), id, env, error, patched)
  {
    hide Readback;
    if id !in store.attempts {
      return Raised;
    }
    outcome := ReconcileAmbiguousAttempt(store, id, env.readback, error, env.during);
  }

  /** After the precondition read: stop, converge, or patch and read back. */
  method WriteUnowned(store: Store, id: AttemptId, desired: OwnerId, env: Effects)
    returns (outcome: Outcome, patched: bool)
    requires env.precheck.Answer?
    modifies store
    ensures Execution(store.State(), outcome, patched) == AfterRead(old(store.State()), id, desired, env)
  {
    hide Compensate, MarkExternal, Finalize, ClassifyObservation, Observe, Readback, Run, Settle, Reading;
    var snap := env.precheck.observation.snap;
    if !snap.inSupport || !env.precheck.novo || snap.closed {
      store.CompensateAttempt(id, QUARANTINE);
      return StaleTicket, false;
    }
    if snap.owner.Some? {
      if snap.owner.value == desired {
        outcome := CompleteAttempt(store, id, env.own.last);
        return outcome, false;
      }
      store.CompensateAttempt(id, YIELD_TO_OWNER);
      store.CommitOthers(env.own.last);
      var _ := ObserveTicket(store, env.second);
      return ConvergedExternalOwner, false;
    }
    patched := true;
    match env.patch
    case PatchNotFound =>
      store.CompensateAttempt(id, QUARANTINE);
      outcome := StaleTicket;
    case Patched =>
      outcome := ReadBack(store, id, env, NoError);
    case PatchFailed(error) =>
      outcome := ReadBack(store, id, env, error);
  }

  /**
   The provider is asked to change an owner only for an attempt seen reserved on a
   queued cycle, whose ticket was just read in the support NOVO stage without any
   owner. Nothing looks at the attempt's reservation: the read neither takes nor
   restores its hold, so the write is covered exactly when the hold was there before
   the read, unless others end or renew it in between.
   */
  lemma PatchCoveredIff(w: World, id: AttemptId, env: Effects)
    requires Linked(w) && w.cfg.enforce && id in w.attempts
    requires Execute(w, id, env).patched
    ensures w.attempts[id].state == AttemptReserved
    ensures w.attempts[id].cycle in w.cycles && w.cycles[w.attempts[id].cycle].state == CycleQueued
    ensures env.allowed && env.precheck.Answer? && env.precheck.novo
    ensures env.precheck.observation.snap.owner.None? && env.precheck.observation.snap.inSupport
    ensures var w1 := Run(w, env.own.before);
            HeldFor(Next(w1, ObserveAct(env.precheck.observation)), id) <==> HeldFor(w1, id)
    ensures env.own.before == [] && env.own.amid == [] ==> (HeldFor(AtWrite(w, env), id) <==> HeldFor(w, id))
  {
    hide Next, Linked, Readback, Settle, HeldFor, Run;
    RunOfNothing(w);
    RunOfNothing(Next(w, ObserveAct(env.precheck.observation)));
    var w1 := Run(w, env.own.before);
    RunKeepsLinks(w, env.own.before);
    RunKeepsConfig(w, env.own.before);
    RunKeepsPurpose(w, env.own.before, id);
    if env.precheck.Answer? {
      UnownedReadKeepsHold(w1, env.precheck.observation, id);
    }
  }

  /** The world in which the provider is asked to write. */
  function AtWrite(w: World, env: Effects): World
    requires env.precheck.Answer?
  {
    Run(Next(Run(w, env.own.before), ObserveAct(env.precheck.observation)), env.own.amid)
  }

  lemma RunOfNothing(w: World)
    ensures Run(w, []) == w
  {
  }

  /** An observation of a support ticket without owner ends no hold and creates none. */
  lemma UnownedReadKeepsHold(w: World, o: Observation, id: AttemptId)
    requires Linked(w) && w.cfg.enforce && id in w.attempts
    requires o.snap.owner.None? && o.snap.inSupport && !o.snap.closed
    ensures HeldFor(Next(w, ObserveAct(o)), id) <==> HeldFor(w, id)
  {
    hide Linked, ChangeOf, ApplyChange, Picks, ClassifyObservation;
    ObservedStays(w, o, id);
    if HeldFor(Next(w, ObserveAct(o)), id) {
      StepIsAChange(w, ObserveAct(o));
      ObservationHoldsNothing(w, o);
      HeldOnlyByHolds(w.ledger, ChangeOf(w, ObserveAct(o)), w.cfg.dir, ForAttempt(id));
    }
    hide Next;
  }

  lemma ObservationHoldsNothing(w: World, o: Observation)
    ensures !ChangeOf(w, ObserveAct(o)).Holds?
  {
    hide Picks, ClassifyObservation, AssignedAgents, RejectedAgents;
  }

  /** An observation never writes an attempt, and ends its hold only conclusively. */
  lemma ObservedStays(w: World, o: Observation, id: AttemptId)
    requires Linked(w) && w.cfg.enforce && id in w.attempts
    ensures var v := Next(w, ObserveAct(o));
            && Linked(v) && v.cfg == w.cfg && v.attempts == w.attempts
            && (HeldFor(w, id) && !HeldFor(v, id) ==> ConclusiveFor(w, o, id))
  {
    StepWrites(w, ObserveAct(o));
    StepKeepsLinks(w, ObserveAct(o));
    StepKeepsConfig(w, ObserveAct(o));
    if HeldFor(w, id) {
      HoldEndsIff(w, ObserveAct(o), id);
    }
    hide Next, Linked, ConclusiveFor;
  }

  /** Marking and finalizing leave the reservation table alone. */
  lemma EffectKeepsHold(w: World, act: Act, id: AttemptId)
    requires Linked(w) && w.cfg.enforce && id in w.attempts && (act == MarkAct(id) || act == FinalizeAct(id))
    ensures var v := Next(w, act);
            Linked(v) && v.cfg == w.cfg && id in v.attempts && (HeldFor(w, id) ==> HeldFor(v, id))
  {
    StepWrites(w, act);
    StepKeepsLinks(w, act);
    StepKeepsConfig(w, act);
    if HeldFor(w, id) {
      HoldEndsIff(w, act, id);
    }
    hide Next, Linked, WriteOf;
  }

  // ----- without enforcement ----------------------------------------------

  lemma PlainSettle(w: World, id: AttemptId, d: Decision)
    requires Balanced(w) && id in w.attempts
    requires w.attempts[id].state == AttemptReserved && w.attempts[id].compensatedAt.None?
    requires d.Release? ==> d.reason !in {Assigned, Raised}
    ensures var (z, outcome) := Settle(w, id, d, []);
            Chats(z, w.attempts[id].agent)
            == Chats(w, w.attempts[id].agent) - if outcome in {Assigned, Raised} then 0 else 1
  {
    hide Next, Balanced, CompensationIgnored, Chats;
    match d
    case Complete => PlainCompletion(w, id);
    case Release(_) => ReleasesOpen(w, id, RELEASE);
    case Repair => ReleasesOpen(w, id, REPAIR);
    case Again => ReleasesOpen(w, id, RETRY_LATER);
  }

  lemma ReleasesOpen(w: World, id: AttemptId, c: Compensation)
    requires Balanced(w) && id in w.attempts
    requires w.attempts[id].state == AttemptReserved && w.attempts[id].compensatedAt.None?
    ensures Chats(Next(w, CompensateAct(id, c)), w.attempts[id].agent) == Chats(w, w.attempts[id].agent) - 1
  {
    hide Next, Balanced, Chats;
    ClampNeverActs(w, CompensateAct(id, c));
  }

  /** Marking and finalizing give nothing back and take nothing. */
  lemma PlainEffect(w: World, act: Act, a: AgentId)
    requires Balanced(w) && (act.MarkAct? || act.FinalizeAct?) && a in w.ledger.agents
    ensures Balanced(Next(w, act)) && a in Next(w, act).ledger.agents
    ensures Chats(Next(w, act), a) == Chats(w, a)
  {
    hide Next, Balanced, Chats;
    BalancedIsPlain(w);
    StepDelta(w, act, a);
    StepKeepsBalance(w, act);
  }

  lemma PlainCompletion(w: World, id: AttemptId)
    requires Balanced(w) && id in w.attempts && w.attempts[id].compensatedAt.None?
    ensures var (z, _) := Settle(w, id, Complete, []);
            Chats(z, w.attempts[id].agent) == Chats(w, w.attempts[id].agent)
  {
    hide Next, Balanced, Chats, Run;
    var x := Next(w, MarkAct(id));
    OpenIsCounted(w, id);
    PlainEffect(w, MarkAct(id), w.attempts[id].agent);
    PlainEffect(x, FinalizeAct(id), w.attempts[id].agent);
    RunOfNothing(x);
  }

  lemma BalancedIsPlain(w: World)
    requires Balanced(w)
    ensures Linked(w) && !w.cfg.enforce && w.ledger.reservations == map[]
    ensures forall a | a in w.ledger.agents :: Chats(w, a) >= 0
  {
    hide Linked;
  }

  /**
   Without enforcement an undisturbed readback keeps the agent's slot only if it saw
   the owner confirmed; every other answer, an ambiguous one included, gives it back.
   */
  lemma PlainReadbackGivesBack(w: World, id: AttemptId, reply: Reply, error: PatchError)
    requires Balanced(w) && id in w.attempts
    requires w.attempts[id].state == AttemptReserved && w.attempts[id].compensatedAt.None?
    ensures var (z, outcome) := Readback(w, id, reply, error, Others([], [], []));
            && (outcome in {Assigned, Raised} ==>
                  reply.Answer? && reply.observation.snap.owner == Some(w.attempts[id].owner))
            && Chats(z, w.attempts[id].agent)
               == Chats(w, w.attempts[id].agent) - if outcome in {Assigned, Raised} then 0 else 1
  {
    hide Next, Balanced, Settle, Chats;
    RunOfNothing(w);
    BalancedIsPlain(w);
    ReleasesOpen(w, id, RELEASE);
    PlainSettle(w, id, Repair);
    SettleOutcomes(w, id, Repair);
    if !CycleDead(w, w.attempts[id]) && reply.Answer? {
      PlainRead(w, reply.observation);
      var d := DecidePlain(reply.observation.snap.owner, w.attempts[id].owner, error);
      PlainSettle(w, id, d);
      SettleOutcomes(w, id, d);
    }
  }

  lemma SettleOutcomes(w: World, id: AttemptId, d: Decision)
    ensures Settle(w, id, d, []).1 in {Assigned, Raised} ==>
              d.Complete? || (d.Release? && d.reason in {Assigned, Raised})
  {
    hide Next;
  }

  lemma PlainRead(w: World, o: Observation)
    requires !w.cfg.enforce
    ensures Next(w, ObserveAct(o)) == w
  {
  }
}
