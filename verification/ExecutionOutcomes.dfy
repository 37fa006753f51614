/**
 How one undisturbed execution ends, and one undisturbed readback: for each answer of
 the provider the outcome reported and what is left of the attempt, its hold and its row.
 */
module ExecutionOutcomes {
  import opened Base
  import opened CapacityLedger
  import opened AssignmentProtocol
  import opened AssignmentInvariants
  import opened AttemptLifecycle
  import opened AssignmentSafety
  import opened ObservationFreshness
  import opened OwnerProjection
  import opened RetryCount
  import opened EffectDrivers

  const ALONE: Others := Others([], [], [])

  // ----- ways to end ------------------------------------------------------

  /** The attempt is over, holds nothing, and its row is free at once or failed for good. */
  ghost predicate GivenUp(v: World, z: World, id: AttemptId, quarantined: bool, code: Failure)
    requires id in v.attempts
  {
    var at := v.attempts[id];
    && id in z.attempts && z.attempts[id].state == Compensated && z.attempts[id].nextRetryAt.None?
    && !HeldFor(z, id)
    && (OnRow(v, at) ==>
          && at.cycle in z.queue
          && z.queue[at.cycle].status == (if quarantined then Failed else Queued)
          && z.queue[at.cycle].failure == code
          && z.queue[at.cycle].nextAttemptAt.None? && z.queue[at.cycle].claimExpiresAt.None?)
  }

  /** The attempt waits for a retry, holds nothing, and its row waits as long. */
  ghost predicate PutOff(v: World, z: World, id: AttemptId)
    requires id in v.attempts
  {
    var at := v.attempts[id];
    && id in z.attempts && z.attempts[id].state == Retryable
    && z.attempts[id].retries == at.retries + 1
    && z.attempts[id].nextRetryAt == Some(v.now + Min(60 * Power(at.retries), 1800))
    && !HeldFor(z, id)
    && (OnRow(v, at) ==>
          && at.cycle in z.queue
          && z.queue[at.cycle].status == Queued
          && z.queue[at.cycle].nextAttemptAt == z.attempts[id].nextRetryAt
          && z.queue[at.cycle].claimExpiresAt.None?)
  }

  /** The attempt waits for repair; under enforcement its hold and row stay and its agent is degraded. */
  ghost predicate LeftForRepair(v: World, z: World, id: AttemptId)
    requires id in v.attempts
  {
    var a := v.attempts[id].agent;
    && id in z.attempts && z.attempts[id].state == RepairRequired
    && (v.cfg.enforce ==>
          && z.queue == v.queue && (HeldFor(z, id) <==> HeldFor(v, id))
          && (a in v.ledger.agents ==> a in z.ledger.agents && z.ledger.agents[a].readiness == Degraded))
    && (!v.cfg.enforce && ForAttempt(id) !in v.ledger.reservations ==>
          z.attempts[id].nextRetryAt.None? && z.attempts[id].compensatedAt.Some?)
  }

  /** The attempt is completed: its cycle is assigned to its agent and owner, and its row is gone. */
  predicate Finished(v: World, z: World, id: AttemptId)
    requires id in v.attempts
  {
    var at := v.attempts[id];
    && id in z.attempts && z.attempts[id].state == Completed
    && at.cycle in z.cycles && z.cycles[at.cycle].state == CycleAssigned
    && at.cycle in z.assignments && z.assignments[at.cycle] == AssignedRow(at.ticket, Some(at.agent), at.owner)
    && !OnRow(z, at)
  }

  lemma HoldReleased(v: World, z: World, id: AttemptId)
    requires z.ledger.reservations.Keys == v.ledger.reservations.Keys
    requires forall op | op in v.ledger.reservations ::
               z.ledger.reservations[op] == if op == ForAttempt(id) && v.ledger.reservations[op].state == Held
                                            then v.ledger.reservations[op].(state := Released) else v.ledger.reservations[op]
    ensures !HeldFor(z, id)
  {
  }

  lemma GivesUp(v: World, id: AttemptId, c: Compensation)
    requires Linked(v) && id in v.attempts && Runs(v.attempts[id], c) && !c.repair && !c.retryable
    ensures GivenUp(v, Next(v, CompensateAct(id, c)), id, c.quarantine, c.code)
  {
    hide Next, Linked, HeldFor;
    CompensationWrites(v, id, c);
    CompensationFreesRow(v, id, c);
    CompensationReleases(v, id, c);
    HoldReleased(v, Next(v, CompensateAct(id, c)), id);
  }

  lemma PutsOff(v: World, id: AttemptId)
    requires Linked(v) && id in v.attempts && Runs(v.attempts[id], RETRY_LATER) && v.attempts[id].compensatedAt.None?
    ensures PutOff(v, Next(v, CompensateAct(id, RETRY_LATER)), id)
  {
    hide Next, Linked, HeldFor, RetryDelay, Power;
    CompensationWrites(v, id, RETRY_LATER);
    CompensationFreesRow(v, id, RETRY_LATER);
    CompensationReleases(v, id, RETRY_LATER);
    RetryableWaits(v, id, RETRY_LATER);
    DelayIsPower(v.attempts[id].retries + 1);
    HoldReleased(v, Next(v, CompensateAct(id, RETRY_LATER)), id);
  }

  lemma LeavesForRepair(v: World, id: AttemptId)
    requires Linked(v) && id in v.attempts && Runs(v.attempts[id], REPAIR)
    ensures LeftForRepair(v, Next(v, CompensateAct(id, REPAIR)), id)
  {
    hide Next, Linked;
    if KeptForRepair(v, id, REPAIR) {
      RepairKeepsRows(v, id, REPAIR);
    } else {
      CompensationWrites(v, id, REPAIR);
    }
  }

  /** Marking and finalizing succeed exactly for a queued cycle whose ticket, under enforcement, shows the owner. */
  predicate CanComplete(v: World, id: AttemptId)
    requires id in v.attempts
  {
    var at := v.attempts[id];
    && at.cycle in v.cycles && v.cycles[at.cycle].state == CycleQueued
    && (v.cfg.enforce ==>
          && at.ticket in v.ledger.occupancy
          && v.ledger.occupancy[at.ticket].state == Active
          && v.ledger.occupancy[at.ticket].owner == Some(at.owner))
  }

  predicate InEffect(at: Attempt) {
    at.state == AttemptReserved || at.state == ExternalApplied || at.state == RepairRequired
  }

  lemma Marked(v: World, id: AttemptId)
    requires Linked(v) && id in v.attempts && InEffect(v.attempts[id])
    ensures Next(v, MarkAct(id)) == v.(attempts := v.attempts[id := v.attempts[id].(state := ExternalApplied)])
  {
    EnterIsIdle(v, id);
    hide Enter;
  }

  lemma FinalizeAnswers(x: World, id: AttemptId)
    requires id in x.attempts && x.attempts[id].state == ExternalApplied
    ensures CanComplete(x, id) ==> Finished(x, Next(x, FinalizeAct(id)), id)
    ensures !CanComplete(x, id) ==> Next(x, FinalizeAct(id)) == x
  {
  }

  lemma Completes(v: World, id: AttemptId)
    requires Linked(v) && id in v.attempts && InEffect(v.attempts[id])
    ensures var (z, outcome) := Settle(v, id, Complete, []);
            if CanComplete(v, id) then outcome == Assigned && Finished(v, z, id)
            else outcome == Raised && id in z.attempts && z.attempts[id].state == ExternalApplied
  {
    hide Next, Linked;
    Marked(v, id);
    var x := Next(v, MarkAct(id));
    RunOfNothing(x);
    FinalizeAnswers(x, id);
  }

  // ----- the readback -----------------------------------------------------

  /** The attempt's cycle waits for an owner no more, and has none either. */
  predicate CycleOver(w: World, at: Attempt) {
    !(at.cycle in w.cycles && (w.cycles[at.cycle].state == CycleQueued || w.cycles[at.cycle].state == CycleAssigned))
  }

  /** Nothing usable came back: no answer, or one that was rejected or left no row. */
  predicate Unusable(w: World, at: Attempt, reply: Reply) {
    || !reply.Answer?
    || (w.cfg.enforce
        && (|| ClassifyObservation(w, reply.observation) == Rejected
            || at.ticket !in Next(w, ObserveAct(reply.observation)).ledger.occupancy))
  }

  lemma ReadKeepsAttempts(w: World, o: Observation)
    requires Linked(w)
    ensures var v := Next(w, ObserveAct(o));
            Linked(v) && v.cfg == w.cfg && v.attempts == w.attempts && (!w.cfg.enforce ==> v == w)
  {
    StepWrites(w, ObserveAct(o));
    StepKeepsLinks(w, ObserveAct(o));
    StepKeepsConfig(w, ObserveAct(o));
    ObserveWritesNothing(w, ObserveAct(o));
    if !w.cfg.enforce {
      PlainRead(w, o);
    }
    hide Next, Linked;
  }

  /** Without anything usable the attempt is left for repair; on an ended cycle it is given up. */
  lemma ReadbackWithoutAnswer(w: World, id: AttemptId, reply: Reply, error: PatchError)
    requires Linked(w) && id in w.attempts && InEffect(w.attempts[id]) && w.attempts[id].compensatedAt.None?
    ensures var (z, outcome) := Readback(w, id, reply, error, ALONE);
            && (CycleOver(w, w.attempts[id]) ==> outcome == SkippedStaleCycle && GivenUp(w, z, id, false, OtherFailure))
            && (!CycleOver(w, w.attempts[id]) && Unusable(w, w.attempts[id], reply) ==>
                  && outcome == RepairOutcome
                  && LeftForRepair(if reply.Answer? then Next(w, ObserveAct(reply.observation)) else w, z, id))
  {
    hide Next, Linked, GivenUp, LeftForRepair, ClassifyObservation, DecidePlain, Decide;
    RunOfNothing(w);
    GivesUp(w, id, RELEASE);
    LeavesForRepair(w, id);
    if reply.Answer? {
      var v := Next(w, ObserveAct(reply.observation));
      ReadKeepsAttempts(w, reply.observation);
      RunOfNothing(v);
      LeavesForRepair(v, id);
    }
  }

  /** Under enforcement the observed row decides, in this order. */
  lemma ReadbackDecides(w: World, id: AttemptId, reply: Reply, error: PatchError)
    requires Linked(w) && w.cfg.enforce && id in w.attempts
    requires InEffect(w.attempts[id]) && w.attempts[id].compensatedAt.None?
    requires !CycleOver(w, w.attempts[id]) && !Unusable(w, w.attempts[id], reply)
    ensures id in Next(w, ObserveAct(reply.observation)).attempts
    ensures var v := Next(w, ObserveAct(reply.observation));
            var row := v.ledger.occupancy[w.attempts[id].ticket];
            var (z, outcome) := Readback(w, id, reply, error, ALONE);
            if row.state == OccupancyState.Closed || row.state == OutOfScope then
              outcome == StaleTicket && GivenUp(v, z, id, false, OtherFailure)
            else if row.owner == Some(w.attempts[id].owner) then
              if CanComplete(v, id) then outcome == Assigned && Finished(v, z, id) else outcome == Raised
            else if error == Rejection && row.owner.None? then
              outcome == RejectedExternalError && GivenUp(v, z, id, false, OtherFailure)
            else outcome == RepairOutcome && LeftForRepair(v, z, id)
  {
    hide Next, Linked, GivenUp, LeftForRepair, Finished, CanComplete, ClassifyObservation;
    var v := Next(w, ObserveAct(reply.observation));
    RunOfNothing(w);
    RunOfNothing(v);
    ReadKeepsAttempts(w, reply.observation);
    GivesUp(v, id, RELEASE);
    LeavesForRepair(v, id);
    Completes(v, id);
  }

  /** Without enforcement the owner decides: complete, try again when nobody owns it, otherwise repair. */
  lemma PlainReadbackDecides(w: World, id: AttemptId, reply: Reply, error: PatchError)
    requires Linked(w) && !w.cfg.enforce && id in w.attempts
    requires InEffect(w.attempts[id]) && w.attempts[id].compensatedAt.None?
    requires !CycleOver(w, w.attempts[id]) && reply.Answer?
    ensures var owner := reply.observation.snap.owner;
            var (z, outcome) := Readback(w, id, reply, error, ALONE);
            if owner == Some(w.attempts[id].owner) then
              if CanComplete(w, id) then outcome == Assigned && Finished(w, z, id) else outcome == Raised
            else if owner.None? && (error == NoError || error == Transient) then
              outcome == RetryableExternalError && PutOff(w, z, id)
            else outcome == RepairOutcome && LeftForRepair(w, z, id)
  {
    hide Next, Linked, PutOff, LeftForRepair, Finished, CanComplete, ClassifyObservation;
    RunOfNothing(w);
    ReadKeepsAttempts(w, reply.observation);
    PutsOff(w, id);
    LeavesForRepair(w, id);
    Completes(w, id);
  }

  // ----- the execution ----------------------------------------------------

  predicate Waits(w: World, at: Attempt) {
    at.cycle in w.cycles && w.cycles[at.cycle].state == CycleQueued
  }

  /** Nobody else commits anything during the execution. */
  predicate Undisturbed(env: Effects) {
    env.own == ALONE && env.during == ALONE
  }

  /** Before any read: a completed attempt, a cycle that waits no more, an attempt not reserved, a provider not allowed, no ticket, no answer. */
  lemma ExecutionStopsEarly(w: World, id: AttemptId, env: Effects)
    requires Linked(w) && id in w.attempts && Undisturbed(env)
    requires w.attempts[id].state == AttemptReserved ==> w.attempts[id].compensatedAt.None?
    ensures var at := w.attempts[id];
            var x := Execute(w, id, env);
            && (at.state == Completed ==> x == Execution(w, Assigned, false))
            && (at.state != Completed && !Waits(w, at) ==>
                  && x.outcome == SkippedStaleCycle && !x.patched
                  && (if at.state == Compensated then x.world == w else GivenUp(w, x.world, id, false, OtherFailure)))
            && (at.state !in {Completed, ExternalApplied, AttemptReserved} && Waits(w, at) ==> x == Execution(w, NotActionable, false))
            && (at.state == AttemptReserved && Waits(w, at) ==>
                  && (!env.allowed || env.precheck.Unreadable? ==>
                        x.outcome == RetryableExternalError && !x.patched && PutOff(w, x.world, id))
                  && (env.allowed && env.precheck.NotFound? ==>
                        x.outcome == StaleTicket && !x.patched && GivenUp(w, x.world, id, true, OtherFailure)))
  {
    hide Next, Linked, GivenUp, PutOff, Readback, AfterRead, ClassifyObservation;
    RunOfNothing(w);
    var at := w.attempts[id];
    if at.state == Compensated {
      CompensationIdles(w, id, RELEASE);
    } else if at.state != Completed {
      GivesUp(w, id, RELEASE);
      GivesUp(w, id, QUARANTINE);
      if at.state == AttemptReserved {
        PutsOff(w, id);
      }
    }
  }

  /** The precondition read was answered, for an attempt that is reserved on a queued cycle. */
  predicate Asked(w: World, id: AttemptId, env: Effects) {
    && id in w.attempts && w.attempts[id].state == AttemptReserved && w.attempts[id].compensatedAt.None?
    && Waits(w, w.attempts[id])
    && env.allowed && env.precheck.Answer? && Undisturbed(env)
  }

  predicate Refused(w: World, env: Effects)
    requires env.precheck.Answer?
  {
    w.cfg.enforce && ClassifyObservation(w, env.precheck.observation) == Rejected
  }

  /** In the support pipeline's first stage, open. */
  predicate InNovo(env: Effects)
    requires env.precheck.Answer?
  {
    env.precheck.novo && env.precheck.observation.snap.inSupport && !env.precheck.observation.snap.closed
  }

  lemma ExecutionReads(w: World, id: AttemptId, env: Effects)
    requires Linked(w) && Asked(w, id, env)
    ensures var v := Next(w, ObserveAct(env.precheck.observation));
            && Linked(v) && v.cfg == w.cfg && v.attempts == w.attempts
            && Execute(w, id, env) == if Refused(w, env) then Stop(v, id, RETRY_LATER, RetryableExternalError)
                                      else AfterRead(v, id, w.attempts[id].owner, env)
  {
    hide Next, Linked, AfterRead, ClassifyObservation;
    RunOfNothing(w);
    RunOfNothing(Next(w, ObserveAct(env.precheck.observation)));
    ReadKeepsAttempts(w, env.precheck.observation);
  }

  /**
   What a precondition read leads to: a rejected read is put off, a ticket outside the
   first stage is quarantined, and the desired owner completes the attempt without a write.
   */
  lemma ReadStopsExecution(w: World, id: AttemptId, env: Effects)
    requires Linked(w) && Asked(w, id, env)
    ensures id in Next(w, ObserveAct(env.precheck.observation)).attempts
    ensures var v := Next(w, ObserveAct(env.precheck.observation));
            var x := Execute(w, id, env);
            && (Refused(w, env) ==> x.outcome == RetryableExternalError && !x.patched && PutOff(v, x.world, id))
            && (!Refused(w, env) && !InNovo(env) ==>
                  x.outcome == StaleTicket && !x.patched && GivenUp(v, x.world, id, true, OtherFailure))
            && (!Refused(w, env) && InNovo(env) && env.precheck.observation.snap.owner == Some(w.attempts[id].owner) ==>
                  && !x.patched
                  && if CanComplete(v, id) then x.outcome == Assigned && Finished(v, x.world, id) else x.outcome == Raised)
  {
    hide Next, Linked, Execute, GivenUp, PutOff, Finished, CanComplete, ClassifyObservation, Settle, AfterPatch;
    var v := Next(w, ObserveAct(env.precheck.observation));
    ExecutionReads(w, id, env);
    PutsOff(v, id);
    GivesUp(v, id, QUARANTINE);
    Completes(v, id);
  }

  /**
   Another owner, typically set by hand: nothing is written to the provider, the attempt
   is given up, and its row is quarantined as observed elsewhere; a second observation
   then follows, which leaves the attempt alone and the row too, unless it projects the
   owner on the row's cycle or closes it.
   */
  lemma OtherOwnerConverges(w: World, id: AttemptId, env: Effects)
    requires Linked(w) && Asked(w, id, env) && !Refused(w, env) && InNovo(env)
    requires env.precheck.observation.snap.owner.Some? && env.precheck.observation.snap.owner.value != w.attempts[id].owner
    ensures id in Next(w, ObserveAct(env.precheck.observation)).attempts
    ensures var v := Next(w, ObserveAct(env.precheck.observation));
            var x := Execute(w, id, env);
            var z := Next(v, CompensateAct(id, YIELD_TO_OWNER));
            && x.outcome == ConvergedExternalOwner && !x.patched
            && GivenUp(v, z, id, true, ManualOwnerObserved)
            && x.world == Next(z, ObserveAct(env.second))
            && id in x.world.attempts && x.world.attempts[id].state == Compensated && !HeldFor(x.world, id)
            && (OnRow(v, w.attempts[id])
                && !(Lands(z, env.second) && (Takes(z, env.second, w.attempts[id].cycle) || Ends(z, env.second, w.attempts[id].cycle))) ==>
                  && w.attempts[id].cycle in x.world.queue
                  && x.world.queue[w.attempts[id].cycle].status == Failed
                  && x.world.queue[w.attempts[id].cycle].failure == ManualOwnerObserved)
  {
    hide Next, Linked, Execute, ClassifyObservation, Settle, AfterPatch, HeldFor, Lands, Takes, Ends;
    var v := Next(w, ObserveAct(env.precheck.observation));
    var z := Next(v, CompensateAct(id, YIELD_TO_OWNER));
    ExecutionReads(w, id, env);
    GivesUp(v, id, YIELD_TO_OWNER);
    RunOfNothing(z);
    StepKeepsLinks(v, CompensateAct(id, YIELD_TO_OWNER));
    ReadKeepsAttempts(z, env.second);
    ReadHoldsNothing(z, env.second, id);
    var c := w.attempts[id].cycle;
    if !(Lands(z, env.second) && (Takes(z, env.second, c) || Ends(z, env.second, c))) {
      RowAfterRead(z, env.second, c);
    }
  }

  lemma ReadHoldsNothing(z: World, o: Observation, id: AttemptId)
    requires Linked(z) && id in z.attempts && !HeldFor(z, id)
    ensures !HeldFor(Next(z, ObserveAct(o)), id)
  {
    hide Next, Linked, Lands;
    if Lands(z, o) {
      ObservationSettles(z, o);
    } else {
      OtherReadsKeepHolds(z, o);
    }
  }

  lemma OtherReadsKeepHolds(z: World, o: Observation)
    requires !Lands(z, o)
    ensures Next(z, ObserveAct(o)).ledger.reservations == z.ledger.reservations
    ensures Next(z, ObserveAct(o)).queue == z.queue
  {
    hide Picks, ClassifyObservation, AppliedWorld, RejectedAgents;
  }

  lemma RowAfterRead(z: World, o: Observation, c: CycleId)
    requires !(Lands(z, o) && (Takes(z, o, c) || Ends(z, o, c)))
    ensures c in z.queue ==> c in Next(z, ObserveAct(o)).queue && Next(z, ObserveAct(o)).queue[c] == z.queue[c]
  {
    hide Next, Lands, Takes, Ends;
    if Lands(z, o) {
      ObservationMovesCycle(z, o, c);
    } else {
      OtherReadsKeepHolds(z, o);
    }
  }

  /**
   An unowned ticket is written to the provider: a ticket that has gone is quarantined,
   and any other answer is settled by a readback in the world the read left.
   */
  lemma UnownedIsWritten(w: World, id: AttemptId, env: Effects)
    requires Linked(w) && Asked(w, id, env) && !Refused(w, env) && InNovo(env)
    requires env.precheck.observation.snap.owner.None?
    ensures id in Next(w, ObserveAct(env.precheck.observation)).attempts
    ensures var v := Next(w, ObserveAct(env.precheck.observation));
            var x := Execute(w, id, env);
            && x.patched
            && (env.patch.PatchNotFound? ==> x.outcome == StaleTicket && GivenUp(v, x.world, id, true, OtherFailure))
            && (!env.patch.PatchNotFound? ==>
                  (x.world, x.outcome)
                  == Readback(v, id, env.readback, if env.patch.PatchFailed? then env.patch.error else NoError, ALONE))
  {
    hide Next, Linked, Execute, GivenUp, ClassifyObservation, Settle, Readback;
    var v := Next(w, ObserveAct(env.precheck.observation));
    ExecutionReads(w, id, env);
    GivesUp(v, id, QUARANTINE);
  }

  /** An effect already confirmed once is only read back. */
  lemma AppliedIsReadBack(w: World, id: AttemptId, env: Effects)
    requires Linked(w) && id in w.attempts && Undisturbed(env)
    requires w.attempts[id].state == ExternalApplied && Waits(w, w.attempts[id])
    ensures var x := Execute(w, id, env);
            !x.patched && (x.world, x.outcome) == Readback(w, id, env.readback, NoError, ALONE)
  {
    hide Next, Linked, Readback, ClassifyObservation;
    RunOfNothing(w);
  }
}
