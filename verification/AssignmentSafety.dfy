/** Safety of the enforcing protocol over every interleaving of its transactions. */
module AssignmentSafety {
  import opened Base
  import opened CapacityLedger
  import opened LedgerFrames
  import opened LedgerChanges
  import opened AssignmentProtocol
  import opened AssignmentInvariants
  import opened AssignmentSteps
  import opened AttemptLifecycle

  // ----- counters ---------------------------------------------------------

  lemma StepKeepsCounters(w: World, act: Act)
    requires Linked(w) && w.cfg.enforce && CountersAgree(w.ledger)
    ensures CountersAgree(Next(w, act).ledger)
  {
    StepIsAChange(w, act);
    hide Next, ChangeOf, ApplyChange, CountersAgree, SameCore, Linked;
    ChangeKeepsCounters(w.ledger, ChangeOf(w, act), w.cfg.dir);
    SameCoreCounters(ApplyChange(w.ledger, ChangeOf(w, act), w.cfg.dir), Next(w, act).ledger);
  }

  lemma StepKeepsConfig(w: World, act: Act)
    ensures Next(w, act).cfg == w.cfg
  {
    if act.ObserveAct? {
      ProjectionKeys(Enter(w, act.observation.ticket), act.observation);
    }
    hide Picks, ClassifyObservation, ProjectOwner, ProjectClose, ApplyObservation, ClassifyReserve, TakeCapacity, CanTransfer, Hold, HasRoom;
  }

  lemma {:induction false} RunKeepsConfig(w: World, acts: seq<Act>)
    ensures Run(w, acts).cfg == w.cfg
    decreases |acts|
  {
    if acts != [] {
      hide Next;
      RunKeepsConfig(w, acts[..|acts| - 1]);
      StepKeepsConfig(Run(w, acts[..|acts| - 1]), acts[|acts| - 1]);
    }
  }

  /**
   In every state of every interleaving each stored chat counter is the size of
   the union of the tickets the agent occupies and the tickets held for it.
   */
  lemma {:induction false} RunKeepsCounters(w: World, acts: seq<Act>)
    requires Linked(w) && w.cfg.enforce && CountersAgree(w.ledger)
    ensures Linked(Run(w, acts)) && Run(w, acts).cfg == w.cfg && CountersAgree(Run(w, acts).ledger)
    decreases |acts|
  {
    if acts != [] {
      hide Next, Linked;
      var last := |acts| - 1;
      var v := Run(w, acts[..last]);
      RunKeepsCounters(w, acts[..last]);
      StepKeepsLinks(v, acts[last]);
      StepKeepsConfig(v, acts[last]);
      StepKeepsCounters(v, acts[last]);
    }
  }

  // ----- the maximum ------------------------------------------------------

  /** An applied active observation names an agent that already counts the ticket. */
  ghost predicate Expected(w: World, act: Act) {
    act.ObserveAct? ==> Unsurprising(w.ledger, ChangeOf(w, act), w.cfg.dir)
  }

  ghost predicate ExpectedRun(w: World, acts: seq<Act>) {
    forall i | 0 <= i < |acts| :: Expected(Run(w, acts[..i]), acts[i])
  }

  /** Every hold the protocol makes is guarded by room for one more. */
  lemma HoldsAreGuarded(w: World, act: Act)
    requires w.cfg.enforce && ChangeOf(w, act).Holds?
    ensures Unsurprising(w.ledger, ChangeOf(w, act), w.cfg.dir)
  {
    hide CapacityCount, LiveOn, CompletedOn, KeyUsed, RowReady, Picks, ClassifyObservation;
  }

  lemma OnlyObservationsSurprise(w: World, act: Act)
    requires !act.ObserveAct? && !ChangeOf(w, act).Holds?
    ensures Unsurprising(w.ledger, ChangeOf(w, act), w.cfg.dir)
  {
    hide LiveOn, CompletedOn, KeyUsed, RowReady, HasRoom, CanTransfer, CanRetry, CapacitySet;
  }

  lemma StepKeepsMaximum(w: World, act: Act)
    requires Linked(w) && w.cfg.enforce && WithinMaximum(w.ledger, w.cfg.dir) && Expected(w, act)
    ensures WithinMaximum(Next(w, act).ledger, w.cfg.dir)
  {
    var ch := ChangeOf(w, act);
    var m := ApplyChange(w.ledger, ch, w.cfg.dir);
    hide Next, ChangeOf, ApplyChange, CapacitySet, Linked, Unsurprising;
    StepIsAChange(w, act);
    if ch.Holds? {
      HoldsAreGuarded(w, act);
    } else if !act.ObserveAct? {
      OnlyObservationsSurprise(w, act);
    }
    ChangeKeepsMaximum(w.ledger, ch, w.cfg.dir);
    ChangeKeepsAgents(w.ledger, ch, w.cfg.dir);
    forall a | a in Next(w, act).ledger.agents && a in w.cfg.dir.maxChats
      ensures CapacityCount(Next(w, act).ledger, a) <= w.cfg.dir.maxChats[a]
    {
      SameCoreSameUnion(m, Next(w, act).ledger, a);
    }
  }

  lemma ExpectedPrefix(w: World, acts: seq<Act>)
    requires acts != [] && ExpectedRun(w, acts)
    ensures ExpectedRun(w, acts[..|acts| - 1])
    ensures Expected(Run(w, acts[..|acts| - 1]), acts[|acts| - 1])
  {
    var front := acts[..|acts| - 1];
    forall i | 0 <= i < |front|
      ensures Expected(Run(w, front[..i]), front[i])
    {
      assert front[..i] == acts[..i];
    }
  }

  /** If no owner ever surprises the ledger, no agent ever exceeds its maximum. */
  lemma {:induction false} RunKeepsMaximum(w: World, acts: seq<Act>)
    requires Linked(w) && w.cfg.enforce && WithinMaximum(w.ledger, w.cfg.dir) && ExpectedRun(w, acts)
    ensures Linked(Run(w, acts)) && Run(w, acts).cfg == w.cfg
    ensures WithinMaximum(Run(w, acts).ledger, w.cfg.dir)
    decreases |acts|
  {
    if acts != [] {
      hide Next, Linked;
      var last := |acts| - 1;
      var v := Run(w, acts[..last]);
      ExpectedPrefix(w, acts);
      RunKeepsMaximum(w, acts[..last]);
      StepKeepsLinks(v, acts[last]);
      StepKeepsConfig(v, acts[last]);
      StepKeepsMaximum(v, acts[last]);
    }
  }

  // ----- how a held reservation ends --------------------------------------

  ghost predicate HeldFor(w: World, id: AttemptId) {
    && ForAttempt(id) in w.ledger.reservations
    && w.ledger.reservations[ForAttempt(id)].state == Held
  }

  /** An applied observation that confirms the attempt's owner or ends the ticket's scope. */
  predicate ConclusiveFor(w: World, o: Observation, id: AttemptId)
    requires id in w.attempts
  {
    && Picks(w, o)
    && ClassifyObservation(w, o) == Applied
    && o.ticket == w.attempts[id].ticket
    && ((ObservedState(o.snap) == Active && o.snap.owner == Some(w.attempts[id].owner))
        || ObservedState(o.snap) in {Closed, OutOfScope})
  }

  /** A compensation that really runs and is not a repair. */
  predicate Releasing(w: World, act: Act, id: AttemptId)
    requires id in w.attempts
  {
    act.CompensateAct? && act.id == id && !act.compensation.repair && !CompensationIgnored(w.attempts[id], act.compensation)
  }

  /**
   A held attempt reservation stops being held exactly when the provider owner
   is confirmed, the ticket leaves scope, or a non-repair compensation runs.
   */
  lemma HoldEndsIff(w: World, act: Act, id: AttemptId)
    requires Linked(w) && w.cfg.enforce && id in w.attempts && HeldFor(w, id)
    ensures !HeldFor(Next(w, act), id) <==>
            (act.ObserveAct? && ConclusiveFor(w, act.observation, id)) || Releasing(w, act, id)
  {
    var ch := ChangeOf(w, act);
    StepIsAChange(w, act);
    HeldUntilConcluded(w.ledger, ch, w.cfg.dir, ForAttempt(id));
    assert !HeldFor(Next(w, act), id) <==> Concludes(w.ledger, ch, w.cfg.dir, ForAttempt(id)) by {
      hide ChangeOf, Next, ApplyChange, Linked, Concludes;
    }
    ConcludesMeans(w, act, id);
    hide Next, ApplyChange, Linked, ChangeOf, Concludes;
  }

  lemma ConcludesMeans(w: World, act: Act, id: AttemptId)
    requires Linked(w) && w.cfg.enforce && id in w.attempts && HeldFor(w, id)
    ensures Concludes(w.ledger, ChangeOf(w, act), w.cfg.dir, ForAttempt(id)) <==>
            (act.ObserveAct? && ConclusiveFor(w, act.observation, id)) || Releasing(w, act, id)
  {
    hide CapacityCount, ClassifyReserve, Picks, ClassifyObservation, CanTransfer, CanRetry, AssignedAgents, RejectedAgents,
      Directory.Injective, CompensationIgnored, RetryDelay, RowReady, HasRoom, Directory.Lookup;
  }

  // ----- concluded attempts hold nothing ----------------------------------

  /** A compensated or retryable attempt never has a held reservation. */
  ghost predicate ConcludedHoldNothing(w: World) {
    forall id | id in w.attempts && w.attempts[id].state in {Compensated, Retryable} :: !HeldFor(w, id)
  }

  lemma HeldOnlyByHolds(l: Ledger, ch: Change, d: Directory, op: Operation)
    requires op in ApplyChange(l, ch, d).reservations && ApplyChange(l, ch, d).reservations[op].state == Held
    ensures (op in l.reservations && l.reservations[op].state == Held) || (ch.Holds? && ch.op == op)
    ensures !(ch.Releases? && ch.op == op)
  {
    hide CapacityCount;
  }

  /** The states an attempt can reach in one enforcing transaction without its hold ending. */
  lemma ConcludedByRelease(w: World, act: Act, id: AttemptId)
    requires Linked(w) && w.cfg.enforce && id in Next(w, act).attempts
    requires Next(w, act).attempts[id].state in {Compensated, Retryable}
    ensures ChangeOf(w, act) != Untouched && ChangeOf(w, act).Holds? ==> ChangeOf(w, act).op != ForAttempt(id)
    ensures (id in w.attempts && w.attempts[id].state in {Compensated, Retryable})
            || (ChangeOf(w, act).Releases? && ChangeOf(w, act).op == ForAttempt(id))
  {
    StepWrites(w, act);
    hide Next, Linked, ChangeOf, WriteOf, CompensationIgnored, Edge, ClassifyReserve, CanFinalize;
    if WriteOf(w, act).WriteAttempt? {
      WriteFacts(w, act);
    }
    if ChangeOf(w, act).Holds? && ChangeOf(w, act).op == ForAttempt(id) {
      HoldReserves(w, act, id);
    }
    if act.CompensateAct? {
      ReleaseChange(w, act);
    }
  }

  /** An attempt's own hold leaves it reserved. */
  lemma HoldReserves(w: World, act: Act, id: AttemptId)
    requires ChangeOf(w, act).Holds? && ChangeOf(w, act).op == ForAttempt(id)
    ensures WriteOf(w, act).WriteAttempt? && WriteOf(w, act).id == id && WriteOf(w, act).row.state == AttemptReserved
  {
    hide LiveOn, CompletedOn, KeyUsed, RowReady, HasRoom, Picks, ClassifyObservation, AssignedAgents, RejectedAgents, CanTransfer;
  }

  lemma ReleaseChange(w: World, act: Act)
    requires act.CompensateAct?
    ensures act.id in w.attempts && !CompensationIgnored(w.attempts[act.id], act.compensation) && !act.compensation.repair ==>
              ChangeOf(w, act).Releases? && ChangeOf(w, act).op == ForAttempt(act.id)
  {
  }

  lemma StepKeepsConcluded(w: World, act: Act)
    requires Linked(w) && w.cfg.enforce && ConcludedHoldNothing(w)
    ensures ConcludedHoldNothing(Next(w, act))
  {
    var v := Next(w, act);
    StepIsAChange(w, act);
    hide Next, ChangeOf, ApplyChange;
    forall id | id in v.attempts && v.attempts[id].state in {Compensated, Retryable}
      ensures !HeldFor(v, id)
    {
      ConcludedByRelease(w, act, id);
      hide Linked;
      if HeldFor(v, id) {
        HeldOnlyByHolds(w.ledger, ChangeOf(w, act), w.cfg.dir, ForAttempt(id));
      }
    }
  }

  /** Over every enforcing run, even one the exception handler disturbs. */
  lemma {:induction false} RunKeepsConcluded(w: World, acts: seq<Act>)
    requires Linked(w) && w.cfg.enforce && ConcludedHoldNothing(w)
    ensures Linked(Run(w, acts)) && Run(w, acts).cfg == w.cfg && ConcludedHoldNothing(Run(w, acts))
    decreases |acts|
  {
    if acts != [] {
      hide Next, Linked;
      var last := |acts| - 1;
      var v := Run(w, acts[..last]);
      RunKeepsConcluded(w, acts[..last]);
      StepKeepsLinks(v, acts[last]);
      StepKeepsConfig(v, acts[last]);
      StepKeepsConcluded(v, acts[last]);
    }
  }
}
