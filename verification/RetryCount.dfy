/** What a compensation writes, row by row, and how failures add up to the wait of the next retry. */
module RetryCount {
  import opened Base
  import opened CapacityLedger
  import opened AssignmentProtocol
  import opened AssignmentInvariants
  import opened AttemptLifecycle
  import opened AssignmentSafety

  // ----- what one compensation writes -------------------------------------

  /** An ended attempt is left alone, and so is one already compensated that is to be retried or repaired again. */
  predicate Runs(at: Attempt, c: Compensation) {
    && at.state != Completed && at.state != Compensated
    && (at.compensatedAt.Some? ==> !c.retryable && !c.repair)
  }

  /** A repair that must not let go of its reservation. */
  predicate KeptForRepair(w: World, id: AttemptId, c: Compensation) {
    c.repair && (w.cfg.enforce || ForAttempt(id) in w.ledger.reservations)
  }

  predicate OnRow(w: World, at: Attempt) {
    at.cycle in w.queue && w.queue[at.cycle].id == at.row
  }

  lemma CompensationIdles(w: World, id: AttemptId, c: Compensation)
    requires Linked(w) && id in w.attempts && !Runs(w.attempts[id], c)
    ensures Next(w, CompensateAct(id, c)) == w
  {
    EnterIsIdle(w, id);
    hide Enter;
  }

  /** An ambiguous result only marks the attempt and degrades its agent; its hold and its row stay. */
  lemma RepairKeepsRows(w: World, id: AttemptId, c: Compensation)
    requires Linked(w) && id in w.attempts && Runs(w.attempts[id], c) && KeptForRepair(w, id, c)
    ensures var v := Next(w, CompensateAct(id, c));
            && v.attempts == w.attempts[id := w.attempts[id].(state := RepairRequired)]
            && v.queue == w.queue && v.cycles == w.cycles && v.assignments == w.assignments
            && v.ledger.reservations == w.ledger.reservations && v.ledger.occupancy == w.ledger.occupancy
            && forall a | a in w.ledger.agents ::
                 a in v.ledger.agents
                 && v.ledger.agents[a] == if a == w.attempts[id].agent
                                          then w.ledger.agents[a].(readiness := Degraded, revision := w.ledger.agents[a].revision + 1)
                                          else w.ledger.agents[a]
  {
    EnterIsIdle(w, id);
    hide Enter;
  }

  /** The attempt row that a compensation which lets go leaves behind. */
  lemma CompensationWrites(w: World, id: AttemptId, c: Compensation)
    requires Linked(w) && id in w.attempts && Runs(w.attempts[id], c) && !KeptForRepair(w, id, c)
    ensures var v := Next(w, CompensateAct(id, c));
            var at := w.attempts[id];
            && id in v.attempts && v.attempts == w.attempts[id := v.attempts[id]]
            && v.attempts[id].state == (if c.repair then RepairRequired else if c.retryable then Retryable else Compensated)
            && v.attempts[id].retries == at.retries + (if at.compensatedAt.None? then 1 else 0)
            && v.attempts[id].compensatedAt == (if at.compensatedAt.None? then Some(w.now) else at.compensatedAt)
            && SamePurpose(at, v.attempts[id])
            && (!(c.retryable && !c.repair) ==> v.attempts[id].nextRetryAt.None?)
  {
    EnterIsIdle(w, id);
    CompensateEffect(w, id, c);
    hide Linked, Compensate, Enter, RetryDelay, ReleaseCapacity, Degrade;
  }

  /** The attempt's own queue row waits as long as the attempt does; its claim is gone, and it says what failed. */
  lemma CompensationFreesRow(w: World, id: AttemptId, c: Compensation)
    requires Linked(w) && id in w.attempts && Runs(w.attempts[id], c) && !KeptForRepair(w, id, c)
    ensures var v := Next(w, CompensateAct(id, c));
            var at := w.attempts[id];
            && id in v.attempts
            && v.queue.Keys == w.queue.Keys
            && (forall d | d in w.queue && !(d == at.cycle && OnRow(w, at)) :: v.queue[d] == w.queue[d])
            && (OnRow(w, at) ==>
                  && v.queue[at.cycle].status == (if c.quarantine then Failed else Queued)
                  && v.queue[at.cycle].failure == c.code
                  && v.queue[at.cycle].nextAttemptAt == v.attempts[id].nextRetryAt
                  && v.queue[at.cycle].claimExpiresAt.None?
                  && v.queue[at.cycle].id == w.queue[at.cycle].id
                  && v.queue[at.cycle].ticket == w.queue[at.cycle].ticket
                  && v.queue[at.cycle].eligible == w.queue[at.cycle].eligible
                  && v.queue[at.cycle].tries == w.queue[at.cycle].tries)
            && v.cycles == w.cycles && v.assignments == w.assignments && v.now == w.now
  {
    EnterIsIdle(w, id);
    hide Linked, Enter, RetryDelay, ReleaseCapacity, Degrade;
  }

  /** The attempt's hold is over, and no other reservation changes. */
  lemma CompensationReleases(w: World, id: AttemptId, c: Compensation)
    requires Linked(w) && id in w.attempts && Runs(w.attempts[id], c) && !KeptForRepair(w, id, c)
    ensures var m := Next(w, CompensateAct(id, c)).ledger;
            && m.occupancy == w.ledger.occupancy
            && m.reservations.Keys == w.ledger.reservations.Keys
            && forall op | op in w.ledger.reservations ::
                 m.reservations[op] == if op == ForAttempt(id) && w.ledger.reservations[op].state == Held
                                       then w.ledger.reservations[op].(state := Released) else w.ledger.reservations[op]
  {
    EnterIsIdle(w, id);
    CompensateEffect(w, id, c);
    hide Linked, Compensate, Enter, RetryDelay, Degrade, CompensatedAttempt;
  }

  // ----- counting failures ------------------------------------------------

  /** The compensation finds the attempt not compensated yet, and does not keep it held for repair. */
  predicate Fails(w: World, act: Act, id: AttemptId) {
    && act.CompensateAct? && act.id == id && id in w.attempts
    && w.attempts[id].state != Completed && w.attempts[id].state != Compensated
    && w.attempts[id].compensatedAt.None?
    && !KeptForRepair(w, id, act.compensation)
  }

  /** How many transactions of the run are failures of the attempt. */
  function Failures(w: World, acts: seq<Act>, id: AttemptId): nat
    decreases |acts|
  {
    if acts == [] then 0
    else
      var front := acts[..|acts| - 1];
      Failures(w, front, id) + if Fails(Run(w, front), acts[|acts| - 1], id) then 1 else 0
  }

  lemma OthersKeepRetries(w: World, act: Act, id: AttemptId)
    requires Linked(w) && !(act.CompensateAct? && act.id == id)
    ensures id in w.attempts ==> id in Next(w, act).attempts && Next(w, act).attempts[id].retries == w.attempts[id].retries
    ensures id !in w.attempts && id in Next(w, act).attempts ==> Next(w, act).attempts[id].retries == 0
  {
    StepWrites(w, act);
    if WriteOf(w, act).WriteAttempt? {
      WrittenRetries(w, act);
    }
    hide Next, Linked, WriteOf;
  }

  lemma WrittenRetries(w: World, act: Act)
    requires WriteOf(w, act).WriteAttempt?
    ensures var id := WriteOf(w, act).id;
            && (!act.CompensateAct? ==> WriteOf(w, act).row.retries == if id in w.attempts then w.attempts[id].retries else 0)
            && (act.CompensateAct? ==> act.id == id && id in w.attempts)
  {
    hide LiveOn, CompletedOn, KeyUsed, RowReady, HasRoom, RetryDelay, CompensatedAttempt, LiveAlone;
  }

  lemma StepCounts(w: World, act: Act, id: AttemptId)
    requires Linked(w)
    ensures id in w.attempts ==>
              id in Next(w, act).attempts
              && Next(w, act).attempts[id].retries == w.attempts[id].retries + if Fails(w, act, id) then 1 else 0
    ensures id !in w.attempts && id in Next(w, act).attempts ==> Next(w, act).attempts[id].retries == 0
  {
    hide Next, Linked;
    if act.CompensateAct? && act.id == id && id in w.attempts {
      if !Runs(w.attempts[id], act.compensation) {
        CompensationIdles(w, id, act.compensation);
      } else if KeptForRepair(w, id, act.compensation) {
        RepairKeepsRows(w, id, act.compensation);
      } else {
        CompensationWrites(w, id, act.compensation);
      }
    } else if act.CompensateAct? && act.id == id {
      NothingToCompensate(w, id, act.compensation);
    } else {
      OthersKeepRetries(w, act, id);
    }
  }

  lemma NothingToCompensate(w: World, id: AttemptId, c: Compensation)
    requires id !in w.attempts
    ensures Next(w, CompensateAct(id, c)) == w
  {
  }

  /** In every run from the start an attempt's retry count is the number of its failures. */
  lemma {:induction false} RunCountsFailures(cfg: Config, acts: seq<Act>, id: AttemptId)
    requires cfg.dir.Injective()
    ensures Linked(Run(Start(cfg), acts))
    ensures id in Run(Start(cfg), acts).attempts ==>
              Run(Start(cfg), acts).attempts[id].retries == Failures(Start(cfg), acts, id)
    ensures id !in Run(Start(cfg), acts).attempts ==> Failures(Start(cfg), acts, id) == 0
    decreases |acts|
  {
    if acts == [] {
      StartIsLinked(cfg);
    } else {
      hide Next, Linked, Start;
      var v := Run(Start(cfg), acts[..|acts| - 1]);
      RunCountsFailures(cfg, acts[..|acts| - 1], id);
      StepKeepsLinks(v, acts[|acts| - 1]);
      StepCounts(v, acts[|acts| - 1], id);
    }
  }

  lemma StartIsLinked(cfg: Config)
    requires cfg.dir.Injective()
    ensures Linked(Start(cfg)) && Start(cfg).attempts == map[]
  {
  }

  // ----- the wait ---------------------------------------------------------

  function Power(n: nat): nat {
    if n == 0 then 1 else 2 * Power(n - 1)
  }

  lemma {:induction false} PowerIsLarge(n: nat)
    requires n >= 5
    ensures Power(n) >= 32
  {
    if n > 5 {
      PowerIsLarge(n - 1);
    } else {
      assert Power(1) == 2 && Power(2) == 4 && Power(3) == 8;
    }
  }

  lemma DelayIsPower(n: nat)
    requires n >= 1
    ensures RetryDelay(n) == Min(60 * Power(n - 1), 1800)
  {
    if n >= 6 {
      PowerIsLarge(n - 1);
    } else {
      assert Power(1) == 2 && Power(2) == 4 && Power(3) == 8;
    }
  }

  lemma RetryableWaits(w: World, id: AttemptId, c: Compensation)
    requires Linked(w) && id in w.attempts && Runs(w.attempts[id], c) && !KeptForRepair(w, id, c)
    requires c.retryable && !c.repair
    ensures var v := Next(w, CompensateAct(id, c));
            id in v.attempts && v.attempts[id].nextRetryAt == Some(w.now + RetryDelay(v.attempts[id].retries))
  {
    EnterIsIdle(w, id);
    CompensateEffect(w, id, c);
    hide Linked, Compensate, Enter, RetryDelay, ReleaseCapacity, Degrade;
  }

  /**
   In every run from the start, the n-th failure of an attempt that may be retried
   waits a minute doubled n - 1 times, half an hour at most, and the attempt's queue
   row waits until the same moment.
   */
  lemma NthRetryWaits(cfg: Config, acts: seq<Act>, id: AttemptId, c: Compensation)
    requires cfg.dir.Injective() && c.retryable && !c.repair
    requires Fails(Run(Start(cfg), acts), CompensateAct(id, c), id)
    ensures var w := Run(Start(cfg), acts);
            var v := Next(w, CompensateAct(id, c));
            var n := Failures(Start(cfg), acts, id) + 1;
            && id in v.attempts && v.attempts[id].state == Retryable && v.attempts[id].retries == n
            && v.attempts[id].nextRetryAt == Some(w.now + Min(60 * Power(n - 1), 1800))
            && (OnRow(w, w.attempts[id]) ==>
                  && w.attempts[id].cycle in v.queue
                  && v.queue[w.attempts[id].cycle].nextAttemptAt == v.attempts[id].nextRetryAt)
  {
    hide Next, Linked, Run, Start, Power, RetryDelay;
    var w := Run(Start(cfg), acts);
    RunCountsFailures(cfg, acts, id);
    CompensationWrites(w, id, c);
    CompensationFreesRow(w, id, c);
    RetryableWaits(w, id, c);
    DelayIsPower(Failures(Start(cfg), acts, id) + 1);
  }
}
