/**
 * Whether a reserved attempt still holds its capacity: execution never looks, so
 * this says which transactions can take the hold from under a reserved attempt.
 */
module HoldCoverage {
  import opened Base
  import opened CapacityLedger
  import opened LedgerChanges
  import opened AssignmentProtocol
  import opened AssignmentInvariants
  import opened AssignmentSteps
  import opened AttemptLifecycle
  import opened AssignmentSafety

  /** A reserved attempt has its reservation held. */
  ghost predicate Covered(w: World, id: AttemptId) {
    id in w.attempts && w.attempts[id].state == AttemptReserved ==> HeldFor(w, id)
  }

  /** An applied observation that confirms the owner or ends the ticket's scope while the attempt is still reserved. */
  predicate Uncovers(w: World, act: Act, id: AttemptId) {
    && act.ObserveAct?
    && id in w.attempts
    && w.attempts[id].state == AttemptReserved
    && ConclusiveFor(w, act.observation, id)
  }

  /** Only a reservation or a retry makes an attempt reserved. */
  lemma BecomesReserved(w: World, act: Act)
    requires WriteOf(w, act).WriteAttempt? && WriteOf(w, act).row.state == AttemptReserved
    ensures var id := WriteOf(w, act).id;
      || (act.ReserveAct? && act.request.id == id && ClassifyReserve(w, act.request) == Granted)
      || (act.RetryAct? && act.id == id && CanRetry(w, id, act.eligible))
  {
    hide LiveOn, CompletedOn, KeyUsed, RowReady, HasRoom, RetryDelay, ClassifyReserve, CanRetry;
  }

  lemma GrantHolds(w: World, r: ReserveRequest)
    requires Linked(w) && w.cfg.enforce && ClassifyReserve(w, r) == Granted
    ensures HeldFor(Next(w, ReserveAct(r)), r.id)
  {
    assert ForAttempt(r.id) !in w.ledger.reservations;
    hide Linked, CapacityCount, LiveOn, CompletedOn, KeyUsed, RowReady, HasRoom;
  }

  lemma RetryHolds(w: World, id: AttemptId, eligible: bool)
    requires Linked(w) && w.cfg.enforce && CanRetry(w, id, eligible)
    ensures HeldFor(Next(w, RetryAct(id, eligible)), id)
  {
    EnterIsIdle(w, id);
    hide Linked, CapacityCount, HasRoom, Enter;
  }

  /** The compensation that takes a hold also takes the attempt out of the reserved state. */
  lemma ReleaseLeavesReserved(w: World, act: Act, id: AttemptId)
    requires Linked(w) && id in w.attempts && Releasing(w, act, id)
    ensures id in Next(w, act).attempts && Next(w, act).attempts[id].state != AttemptReserved
  {
    hide Linked, RetryDelay, RepairKeepsHold;
    StepWrites(w, act);
    hide Next;
  }

  /** A covered attempt stays covered through every transaction but such an observation. */
  lemma StepCoversIff(w: World, act: Act, id: AttemptId)
    requires Linked(w) && w.cfg.enforce && Covered(w, id)
    ensures Covered(Next(w, act), id) <==> !Uncovers(w, act, id)
  {
    hide Next, Linked, WriteOf, ClassifyReserve, CanRetry, ConclusiveFor, CompensationIgnored, HeldFor;
    var v := Next(w, act);
    StepWrites(w, act);
    if id in w.attempts && w.attempts[id].state == AttemptReserved {
      HoldEndsIff(w, act, id);
      if Releasing(w, act, id) {
        ReleaseLeavesReserved(w, act, id);
      }
      if act.ObserveAct? {
        ObserveWritesNothing(w, act);
      }
    } else if id in v.attempts && v.attempts[id].state == AttemptReserved {
      BecomesReserved(w, act);
      if act.ReserveAct? {
        GrantHolds(w, act.request);
      } else {
        RetryHolds(w, id, act.eligible);
      }
    }
  }

  ghost predicate AlwaysCovered(w: World, acts: seq<Act>, id: AttemptId) {
    forall k | 0 <= k <= |acts| :: Covered(Run(w, acts[..k]), id)
  }

  ghost predicate NeverUncovered(w: World, acts: seq<Act>, id: AttemptId) {
    forall k | 0 <= k < |acts| :: !Uncovers(Run(w, acts[..k]), acts[k], id)
  }

  lemma CoverageFront(w: World, acts: seq<Act>, id: AttemptId)
    requires acts != []
    ensures var last := |acts| - 1;
      && (AlwaysCovered(w, acts, id) <==> AlwaysCovered(w, acts[..last], id) && Covered(Run(w, acts), id))
      && (NeverUncovered(w, acts, id) <==>
            NeverUncovered(w, acts[..last], id) && !Uncovers(Run(w, acts[..last]), acts[last], id))
      && (AlwaysCovered(w, acts[..last], id) ==> Covered(Run(w, acts[..last]), id))
  {
    hide Covered, Uncovers, Run;
    var front := acts[..|acts| - 1];
    assert acts[..|acts|] == acts && front[..|front|] == front;
    assert forall k | 0 <= k <= |front| :: front[..k] == acts[..k];
    assert forall k | 0 <= k < |front| :: front[k] == acts[k];
  }

  lemma CoveredAtStart(w: World, id: AttemptId)
    requires Covered(w, id)
    ensures AlwaysCovered(w, [], id) && NeverUncovered(w, [], id)
  {
    hide Covered;
    assert forall k | 0 <= k <= 0 :: Run(w, [][..k]) == w;
  }

  /**
   * Over any enforcing run a reserved attempt has its capacity held in every
   * state exactly when no observation confirmed its owner or ended its ticket's
   * scope while it was reserved.
   */
  lemma {:induction false} RunCoversIff(w: World, acts: seq<Act>, id: AttemptId)
    requires Linked(w) && w.cfg.enforce && Covered(w, id)
    ensures Linked(Run(w, acts)) && Run(w, acts).cfg == w.cfg
    ensures AlwaysCovered(w, acts, id) <==> NeverUncovered(w, acts, id)
    decreases |acts|
  {
    hide Next, Linked, Covered, Uncovers, AlwaysCovered, NeverUncovered;
    if acts == [] {
      CoveredAtStart(w, id);
    } else {
      var last := |acts| - 1;
      var v := Run(w, acts[..last]);
      RunCoversIff(w, acts[..last], id);
      CoverageFront(w, acts, id);
      StepKeepsLinks(v, acts[last]);
      StepKeepsConfig(v, acts[last]);
      if AlwaysCovered(w, acts[..last], id) {
        StepCoversIff(v, acts[last], id);
      }
    }
  }
}
