/**
 The retry of a durable attempt (apps/support/durable_assignment_service.py): early
 checks without locks, a capacity scan, the re-reservation, and one more execution.
 */
module RetryDriver {
  import opened Base
  import opened CapacityLedger
  import opened AssignmentProtocol
  import opened AssignmentInvariants
  import opened AttemptLifecycle
  import opened AssignmentSafety
  import opened CapacityGate
  import opened CompensationUndo
  import opened HoldCoverage
  import opened SupportStore
  import opened EffectDrivers

  /** Why a retry ended before it took anything. */
  datatype RetryStop = NotDue | NotReleased | StaleRetry | AgentNotReady | NotEligible | Overtaken

  datatype RetryResult = Stopped(world: World, why: RetryStop) | Ran(execution: Execution)

  /**
   What a retry meets: everything committed before it takes the ticket's lock, the
   portfolio scan of an enforcing retry included; the scan's verdict; both eligibility
   verdicts; and the execution's effects.
   */
  datatype RetryEnv = RetryEnv(
    scan: seq<Act>,
    ready: bool,
    eligible: bool,
    stillEligible: bool,
    effects: Effects)

  predicate ReleasedFor(w: World, id: AttemptId) {
    && ForAttempt(id) in w.ledger.reservations
    && w.ledger.reservations[ForAttempt(id)].state == Released
  }

  function RetryDue(w: World, id: AttemptId, env: RetryEnv): RetryResult
    requires id in w.attempts
  {
    var at := w.attempts[id];
    if at.state != Retryable then Stopped(w, NotDue)
    else if w.cfg.enforce && !ReleasedFor(w, id) then Stopped(w, NotReleased)
    else if at.cycle !in w.cycles || w.cycles[at.cycle].state != CycleQueued then Stopped(w, StaleRetry)
    else
      var w1 := Run(w, env.scan);
      if w.cfg.enforce && !env.ready then Stopped(w1, AgentNotReady)
      else if !env.eligible then Stopped(w1, NotEligible)
      else if !CanRetry(w1, id, env.stillEligible) then Stopped(w1, Overtaken)
      else Ran(Execute(Next(w1, RetryAct(id, env.stillEligible)), id, env.effects))
  }

  /** Re-reserve a due retry and execute it, on the store. */
  method RetryAssignmentAttempt(store: Store, id: AttemptId, env: RetryEnv)
    returns (stop: Option<RetryStop>, outcome: Outcome, patched: bool)
    requires id in store.attempts
    modifies store
    ensures RetryDue(old(store.State()), id, env)
            == if stop.Some? then Stopped(store.State(), stop.value)
               else Ran(Execution(store.State(), outcome, patched))
  {
    hide Execute, Run, CanRetry, Retry;
    outcome, patched := NotActionable, false;
    var at := store.attempts[id];
    if at.state != Retryable {
      return Some(NotDue), outcome, patched;
    }
    var op := ForAttempt(id);
    if store.cfg.enforce && (op !in store.reservations || store.reservations[op].state != Released) {
      return Some(NotReleased), outcome, patched;
    }
    if at.cycle !in store.cycles || store.cycles[at.cycle].state != CycleQueued {
      return Some(StaleRetry), outcome, patched;
    }
    store.CommitOthers(env.scan);
    if store.cfg.enforce && !env.ready {
      return Some(AgentNotReady), outcome, patched;
    }
    if !env.eligible {
      return Some(NotEligible), outcome, patched;
    }
    ghost var w1 := store.State();
    var taken := store.RetryAttempt(id, env.stillEligible);
    if !taken {
      UntakenRetry(w1, id, env.stillEligible);
      return Some(Overtaken), outcome, patched;
    }
    RetriedAttempt(w1, id, env.stillEligible);
    outcome, patched := ExecuteAssignmentAttempt(store, id, env.effects);
    stop := None;
  }

  lemma UntakenRetry(w: World, id: AttemptId, eligible: bool)
    requires !CanRetry(w, id, eligible)
    ensures Retry(w, id, eligible) == w
  {
    hide CanRetry;
  }

  /** What a granted retry leaves for the execution. */
  lemma RetriedAttempt(w: World, id: AttemptId, eligible: bool)
    requires CanRetry(w, id, eligible)
    ensures var v := Next(w, RetryAct(id, eligible));
            && v == Retry(w, id, eligible)
            && w.attempts[id].state == Retryable
            && id in v.attempts && v.attempts[id].state == AttemptReserved && v.attempts[id].compensatedAt.None?
            && v.attempts[id].cycle == w.attempts[id].cycle && v.cycles == w.cycles && v.cfg == w.cfg
  {
    hide HasRoom, TakeCapacity;
  }

  /** Still retryable and eligible under the lock, its reservation released, and its agent open, as enforcement asks. */
  predicate MayRetake(w: World, id: AttemptId, eligible: bool) {
    && id in w.attempts && w.attempts[id].state == Retryable && eligible
    && (w.cfg.enforce ==>
          && ForAttempt(id) in w.ledger.reservations && w.ledger.reservations[ForAttempt(id)].state == Released
          && OpenFor(w, w.attempts[id].agent))
  }

  /** An early look finds the attempt retryable, its reservation released, and its cycle still queued. */
  predicate LooksDue(w: World, id: AttemptId)
    requires id in w.attempts
  {
    && w.attempts[id].state == Retryable
    && (w.cfg.enforce ==>
          ForAttempt(id) in w.ledger.reservations && w.ledger.reservations[ForAttempt(id)].state == Released)
    && w.attempts[id].cycle in w.cycles && w.cycles[w.attempts[id].cycle].state == CycleQueued
  }

  /**
   Why a retry stops, and that it then writes nothing of its own: early, in the order of
   its looks, or after the scan, for want of a ready agent, eligibility, or capacity.
   */
  lemma RetryStopsIff(w: World, id: AttemptId, env: RetryEnv)
    requires id in w.attempts
    ensures var at, x := w.attempts[id], RetryDue(w, id, env);
            var w1 := Run(w, env.scan);
            var released := ForAttempt(id) in w.ledger.reservations && w.ledger.reservations[ForAttempt(id)].state == Released;
            && (x.Stopped? && x.why == NotDue <==> at.state != Retryable)
            && (x.Stopped? && x.why == NotReleased <==> at.state == Retryable && w.cfg.enforce && !released)
            && (x.Stopped? && x.why == StaleRetry <==>
                  && at.state == Retryable && (w.cfg.enforce ==> released)
                  && !(at.cycle in w.cycles && w.cycles[at.cycle].state == CycleQueued))
            && (x.Stopped? && x.why == AgentNotReady <==> LooksDue(w, id) && w.cfg.enforce && !env.ready)
            && (x.Stopped? && x.why == NotEligible <==> LooksDue(w, id) && (w.cfg.enforce ==> env.ready) && !env.eligible)
            && (x.Ran? <==>
                  && LooksDue(w, id) && (w.cfg.enforce ==> env.ready) && env.eligible
                  && MayRetake(w1, id, env.stillEligible))
            && (x.Stopped? ==> x.world == if x.why in {NotDue, NotReleased, StaleRetry} then w else w1)
            && (x.Ran? ==>
                  && id in Next(w1, RetryAct(id, env.stillEligible)).attempts
                  && x.execution == Execute(Next(w1, RetryAct(id, env.stillEligible)), id, env.effects))
  {
    hide Run, Execute, CanRetry, Retry, OpenFor;
    RetryAnswers(Run(w, env.scan), id, env.stillEligible);
    if CanRetry(Run(w, env.scan), id, env.stillEligible) {
      RetriedAttempt(Run(w, env.scan), id, env.stillEligible);
    }
  }

  /** The world a retry's execution starts in. */
  function Retaken(w: World, id: AttemptId, env: RetryEnv): World {
    Next(Run(w, env.scan), RetryAct(id, env.stillEligible))
  }

  /**
   A retry that gets as far as executing has taken its capacity back, and if nobody
   interferes with the execution the provider is written to under that hold, for a
   cycle that is still queued.
   */
  lemma RetryWritesCovered(w: World, id: AttemptId, env: RetryEnv)
    requires Linked(w) && w.cfg.enforce && id in w.attempts
    requires RetryDue(w, id, env).Ran?
    ensures var v := Retaken(w, id, env);
            && HeldFor(v, id)
            && id in v.attempts && v.attempts[id].state == AttemptReserved
            && (RetryDue(w, id, env).execution.patched && env.effects.own.before == [] && env.effects.own.amid == [] ==>
                  && v.attempts[id].cycle in v.cycles && v.cycles[v.attempts[id].cycle].state == CycleQueued
                  && env.effects.precheck.Answer?
                  && HeldFor(AtWrite(v, env.effects), id))
  {
    hide Next, Linked, Execute, Run, CanRetry, HeldFor;
    var w1 := Run(w, env.scan);
    RunKeepsLinks(w, env.scan);
    RunKeepsConfig(w, env.scan);
    RetriedAttempt(w1, id, env.stillEligible);
    RetryHolds(w1, id, env.stillEligible);
    StepKeepsLinks(w1, RetryAct(id, env.stillEligible));
    if RetryDue(w, id, env).execution.patched {
      PatchCoveredIff(Retaken(w, id, env), id, env.effects);
    }
  }

  /** Releasing a hold taken on a released reservation leaves every agent's union as it was. */
  lemma RetakeThenRelease(l: Ledger, op: Operation, t: TicketId, a: AgentId, b: AgentId)
    requires t in l.occupancy && op in l.reservations && l.reservations[op] == Reservation(t, a, Released)
    ensures CapacitySet(Conclude(Hold(l, op, t, a, true), op, false), b) == CapacitySet(l, b)
  {
    hide CapacityCount;
    var m := Conclude(Hold(l, op, t, a, true), op, false);
    assert Occupied(m, b) == Occupied(l, b);
    assert m.reservations == l.reservations;
    SameUnion(l, m, b);
  }

  /** What a granted retry takes. */
  lemma RetakenReservation(w: World, id: AttemptId, eligible: bool)
    requires Linked(w) && w.cfg.enforce && CanRetry(w, id, eligible)
    ensures var at := w.attempts[id];
            && at.ticket in w.ledger.occupancy
            && ForAttempt(id) in w.ledger.reservations
            && w.ledger.reservations[ForAttempt(id)] == Reservation(at.ticket, at.agent, Released)
            && Next(w, RetryAct(id, eligible)).attempts[id].agent == at.agent
            && Next(w, RetryAct(id, eligible)).ledger
               == Hold(StampAgent(w.ledger, at.agent, w.now), ForAttempt(id), at.ticket, at.agent, true)
  {
    EnterIsIdle(w, id);
    hide Hold, StampAgent, HasRoom, Enter, Directory.Injective;
  }

  /**
   The early cycle check is not repeated under the lock: a retry whose cycle was
   assigned or closed during the scan still takes capacity, and its execution gives
   it back before any provider write, leaving every agent the tickets it had.
   */
  lemma StaleRetryGivesBack(w: World, id: AttemptId, env: RetryEnv, b: AgentId)
    requires Linked(w) && w.cfg.enforce && id in w.attempts
    requires RetryDue(w, id, env).Ran? && env.effects.own.before == []
    requires var w1 := Run(w, env.scan);
             && id in w1.attempts && w1.attempts[id].cycle in w1.cycles
             && w1.cycles[w1.attempts[id].cycle].state != CycleQueued
    ensures var x := RetryDue(w, id, env).execution;
            && x.outcome == SkippedStaleCycle && !x.patched
            && id in x.world.attempts && x.world.attempts[id].state == Compensated
            && CapacitySet(x.world.ledger, b) == CapacitySet(Run(w, env.scan).ledger, b)
  {
    hide Next, Linked, Run, CanRetry, Hold, Conclude, CapacitySet, StampAgent, Readback, Settle, AfterRead;
    var w1 := Run(w, env.scan);
    var v := Next(w1, RetryAct(id, env.stillEligible));
    var at := w1.attempts[id];
    RunKeepsLinks(w, env.scan);
    RunKeepsConfig(w, env.scan);
    RunOfNothing(v);
    RetriedAttempt(w1, id, env.stillEligible);
    RetakenReservation(w1, id, env.stillEligible);
    StepKeepsLinks(w1, RetryAct(id, env.stillEligible));
    ReleasedReservation(v, id, RELEASE);
    var stamped := StampAgent(w1.ledger, at.agent, w1.now);
    StampKeepsUnion(w1.ledger, at.agent, w1.now, b);
    StampTables(w1.ledger, at.agent, w1.now);
    RetakeThenRelease(stamped, ForAttempt(id), at.ticket, at.agent, b);
    var concluded := Conclude(v.ledger, ForAttempt(id), false);
    UnionIgnoresAgents(Materialize(concluded, {at.agent}, true), concluded, b);
  }
}
