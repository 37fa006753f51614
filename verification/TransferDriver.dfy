/**
 The administrative transfer of apps/support/admin_api.py: observe, hold the target's
 capacity, ask the provider, and read back; and how long that hold lasts.
 */
module TransferDriver {
  import opened Base
  import opened CapacityLedger
  import opened LedgerChanges
  import opened AssignmentProtocol
  import opened AssignmentInvariants
  import opened AssignmentSteps
  import opened AssignmentSafety
  import opened AttemptLifecycle
  import opened ObservationFreshness
  import opened SupportStore
  import opened EffectDrivers

  // ----- how a transfer's hold ends ---------------------------------------

  ghost predicate HeldTransfer(w: World, transfer: TransferId) {
    && ForTransfer(transfer) in w.ledger.reservations
    && w.ledger.reservations[ForTransfer(transfer)].state == Held
  }

  /** An applied observation of the transfer's ticket under its target, or out of scope. */
  predicate SettlesTransfer(w: World, act: Act, transfer: TransferId) {
    && act.ObserveAct?
    && ForTransfer(transfer) in w.ledger.reservations
    && var r := w.ledger.reservations[ForTransfer(transfer)];
       var o := act.observation;
       && Picks(w, o)
       && ClassifyObservation(w, o) == Applied
       && o.ticket == r.ticket
       && ((ObservedState(o.snap) == Active && w.cfg.dir.Owns(r.agent, o.snap.owner))
           || ObservedState(o.snap) in {Closed, OutOfScope})
  }

  lemma SettlingConcludes(w: World, act: Act, transfer: TransferId)
    requires w.cfg.enforce && HeldTransfer(w, transfer)
    ensures Concludes(w.ledger, ChangeOf(w, act), w.cfg.dir, ForTransfer(transfer)) <==> SettlesTransfer(w, act, transfer)
  {
    hide CapacityCount, ClassifyReserve, Picks, ClassifyObservation, CanTransfer, CanRetry, AssignedAgents, RejectedAgents,
      CompensationIgnored, RetryDelay, RowReady, HasRoom, Directory.Lookup;
  }

  /** No compensation, retry or other ticket's read ends a transfer's hold. */
  lemma TransferHoldEndsIff(w: World, act: Act, transfer: TransferId)
    requires Linked(w) && w.cfg.enforce && HeldTransfer(w, transfer)
    ensures !HeldTransfer(Next(w, act), transfer) <==> SettlesTransfer(w, act, transfer)
  {
    StepIsAChange(w, act);
    SettlingConcludes(w, act, transfer);
    hide Next, ApplyChange, Linked, ChangeOf, Concludes, SettlesTransfer;
    HeldUntilConcluded(w.ledger, ChangeOf(w, act), w.cfg.dir, ForTransfer(transfer));
  }

  /** Only its own hold, on an unused key, makes a transfer's reservation held. */
  lemma OnlyTransfersHold(w: World, act: Act, transfer: TransferId)
    requires w.cfg.enforce && ForTransfer(transfer) in w.ledger.reservations
    ensures !(ChangeOf(w, act).Holds? && ChangeOf(w, act).op == ForTransfer(transfer))
  {
    hide LiveOn, CompletedOn, KeyUsed, RowReady, HasRoom, Picks, ClassifyObservation, AssignedAgents, RejectedAgents;
  }

  /** A reservation keeps its ticket and its agent. */
  predicate SameHolder(l: Ledger, m: Ledger, op: Operation)
    requires op in l.reservations && op in m.reservations
  {
    m.reservations[op].ticket == l.reservations[op].ticket && m.reservations[op].agent == l.reservations[op].agent
  }

  lemma SettledStaysSettled(w: World, act: Act, transfer: TransferId)
    requires Linked(w) && w.cfg.enforce && ForTransfer(transfer) in w.ledger.reservations
    ensures ForTransfer(transfer) in Next(w, act).ledger.reservations
    ensures !HeldTransfer(w, transfer) ==> !HeldTransfer(Next(w, act), transfer)
    ensures SameHolder(w.ledger, Next(w, act).ledger, ForTransfer(transfer))
  {
    StepIsAChange(w, act);
    OnlyTransfersHold(w, act, transfer);
    hide Next, Linked, ChangeOf;
    ReservationsStay(w.ledger, ChangeOf(w, act), w.cfg.dir, ForTransfer(transfer));
  }

  lemma ReservationsStay(l: Ledger, ch: Change, d: Directory, op: Operation)
    requires op in l.reservations && !(ch.Holds? && ch.op == op)
    ensures op in ApplyChange(l, ch, d).reservations
    ensures l.reservations[op].state != Held ==> ApplyChange(l, ch, d).reservations[op].state != Held
    ensures SameHolder(l, ApplyChange(l, ch, d), op)
  {
    hide CapacityCount;
  }

  ghost predicate NeverSettled(w: World, acts: seq<Act>, transfer: TransferId) {
    forall k | 0 <= k < |acts| :: !SettlesTransfer(Run(w, acts[..k]), acts[k], transfer)
  }

  lemma SettledFront(w: World, acts: seq<Act>, transfer: TransferId)
    requires acts != []
    ensures var last := |acts| - 1;
            NeverSettled(w, acts, transfer) <==>
            NeverSettled(w, acts[..last], transfer) && !SettlesTransfer(Run(w, acts[..last]), acts[last], transfer)
  {
    hide SettlesTransfer, Run;
    var front := acts[..|acts| - 1];
    assert forall k | 0 <= k < |front| :: front[k] == acts[k] && front[..k] == acts[..k];
  }

  /**
   A transfer's hold lasts over any run exactly until the provider is read with the
   target as owner or the ticket out of scope; nothing else, however long, ends it.
   */
  lemma {:induction false} RunHoldsTransferIff(w: World, acts: seq<Act>, transfer: TransferId)
    requires Linked(w) && w.cfg.enforce && HeldTransfer(w, transfer)
    ensures ForTransfer(transfer) in Run(w, acts).ledger.reservations
    ensures SameHolder(w.ledger, Run(w, acts).ledger, ForTransfer(transfer))
    ensures HeldTransfer(Run(w, acts), transfer) <==> NeverSettled(w, acts, transfer)
    decreases |acts|
  {
    hide Next, Linked, SettlesTransfer, HeldTransfer, NeverSettled;
    if acts == [] {
      NothingSettled(w, transfer);
    } else {
      var last := |acts| - 1;
      var v := Run(w, acts[..last]);
      RunHoldsTransferIff(w, acts[..last], transfer);
      RunKeepsLinks(w, acts[..last]);
      RunKeepsConfig(w, acts[..last]);
      SettledFront(w, acts, transfer);
      SettledStaysSettled(v, acts[last], transfer);
      if HeldTransfer(v, transfer) {
        TransferHoldEndsIff(v, acts[last], transfer);
      }
    }
  }

  lemma NothingSettled(w: World, transfer: TransferId)
    requires HeldTransfer(w, transfer)
    ensures NeverSettled(w, [], transfer) && ForTransfer(transfer) in w.ledger.reservations
  {
  }

  // ----- the driver -------------------------------------------------------

  /** How a transfer ends; `NotTaken` covers every refusal and a target that already owns the ticket. */
  datatype TransferResult = Ineligible | Unobserved | NotTaken | ReadbackFailed | Unconfirmed | Confirmed

  /** What the provider answers during one transfer, and what others commit between its steps. */
  datatype TransferEnv = TransferEnv(
    eligible: bool,
    stillEligible: bool,
    first: Observation,
    prepared: seq<Act>,
    patchFails: bool,
    patching: seq<Act>,
    reading: seq<Act>,
    second: Observation,
    last: seq<Act>)

  /** The world the hold is decided in. */
  function Prepared(w: World, t: TicketId, env: TransferEnv): World {
    Run(Next(w, ObserveAct(env.first.(ticket := t))), env.prepared)
  }

  /** The provider call: a failure degrades the target, and proves nothing about the owner. */
  function Patch(h: World, target: AgentId, env: TransferEnv): World {
    var patched := Run(h, env.patching);
    Run(if env.patchFails then Next(patched, DegradeAct({target})) else patched, env.reading)
  }

  /** The world the readback is applied in. */
  function AtReadback(
    y: World, t: TicketId, transfer: TransferId, target: AgentId, revision: nat, env: TransferEnv): World
  {
    Patch(Next(y, TransferAct(t, transfer, target, revision)), target, env)
  }

  function ReadBackTransfer(u: World, t: TicketId, target: AgentId, env: TransferEnv): (World, TransferResult) {
    var o := env.second.(ticket := t);
    var z := Next(u, ObserveAct(o));
    if ClassifyObservation(u, o) == Rejected || t !in z.ledger.occupancy then (z, ReadbackFailed)
    else if target in u.cfg.dir.ownerOf && OwnedBy(z, t, u.cfg.dir.ownerOf[target]) then (z, Confirmed)
    else (Next(Run(z, env.last), DegradeAct({target})), Unconfirmed)
  }

  /** The revision the precondition read left. */
  function FirstRevision(w: World, t: TicketId, env: TransferEnv): Option<nat> {
    var o := env.first.(ticket := t);
    var v := Next(w, ObserveAct(o));
    if ClassifyObservation(w, o) == Rejected || t !in v.ledger.occupancy then None
    else Some(v.ledger.occupancy[t].revision)
  }

  function Transfer(w: World, t: TicketId, transfer: TransferId, target: AgentId, env: TransferEnv)
    : (World, TransferResult)
  {
    var v := Next(w, ObserveAct(env.first.(ticket := t)));
    if !env.eligible then (w, Ineligible)
    else if FirstRevision(w, t, env).None? then (v, Unobserved)
    else
      var revision := FirstRevision(w, t, env).value;
      var y := Prepared(w, t, env);
      if !env.stillEligible || !CanTransfer(y, t, transfer, target, revision) then (y, NotTaken)
      else ReadBackTransfer(AtReadback(y, t, transfer, target, revision, env), t, target, env)
  }

  method CallProvider(store: Store, target: AgentId, env: TransferEnv)
    modifies store
    ensures store.State() == Patch(old(store.State()), target, env)
  {
    hide Run, Degrade;
    store.CommitOthers(env.patching);
    if env.patchFails {
      store.DegradeAgents({target});
    }
    store.CommitOthers(env.reading);
  }

  /** Reserve a transfer before the provider call and reconcile its readback. */
  method CapacityForceReassign(store: Store, t: TicketId, transfer: TransferId, target: AgentId, env: TransferEnv)
    returns (result: TransferResult)
    requires store.cfg.enforce
    modifies store
    ensures (store.State(), result) == Transfer(old(store.State()), t, transfer, target, env)
  {
    hide Run, Observe, ClassifyObservation, CanTransfer, TransferHold, Patch, ReadBackTransfer;
    if !env.eligible {
      return Ineligible;
    }
    var observed := store.ReconcileTicket(env.first.(ticket := t));
    if observed == Rejected || t !in store.occupancy {
      return Unobserved;
    }
    var revision := store.occupancy[t].revision;
    store.CommitOthers(env.prepared);
    ghost var y := store.State();
    if !env.stillEligible {
      return NotTaken;
    }
    var taken := store.ReserveTransfer(t, transfer, target, revision);
    if !taken {
      UntakenTransfer(y, t, transfer, target, revision);
      return NotTaken;
    }
    TransferNeeds(y, t, transfer, target, revision);
    CallProvider(store, target, env);
    result := ConfirmTransfer(store, t, target, env);
  }

  lemma UntakenTransfer(y: World, t: TicketId, transfer: TransferId, target: AgentId, revision: nat)
    requires !CanTransfer(y, t, transfer, target, revision)
    ensures TransferHold(y, t, transfer, target, revision) == y
  {
    hide CanTransfer;
  }

  lemma TransferNeeds(y: World, t: TicketId, transfer: TransferId, target: AgentId, revision: nat)
    requires CanTransfer(y, t, transfer, target, revision)
    ensures target in y.cfg.dir.ownerOf
  {
  }

  /** Read the ticket back; an unconfirmed transfer degrades its target and keeps its reservation. */
  method ConfirmTransfer(store: Store, t: TicketId, target: AgentId, env: TransferEnv) returns (result: TransferResult)
    requires store.cfg.enforce && target in store.cfg.dir.ownerOf
    modifies store
    ensures (store.State(), result) == ReadBackTransfer(old(store.State()), t, target, env)
  {
    hide Run, Observe, ClassifyObservation, Degrade;
    var read := store.ReconcileTicket(env.second.(ticket := t));
    if read == Rejected || t !in store.occupancy {
      return ReadbackFailed;
    }
    var row := store.occupancy[t];
    if row.state == Active && row.owner == Some(store.cfg.dir.ownerOf[target]) {
      return Confirmed;
    }
    store.CommitOthers(env.last);
    store.DegradeAgents({target});
    return Unconfirmed;
  }

  // ----- what a transfer promises -----------------------------------------

  lemma {:induction false} RunAppends(w: World, acts: seq<Act>, more: seq<Act>)
    ensures Run(w, acts + more) == Run(Run(w, acts), more)
    decreases |more|
  {
    hide Next;
    if more == [] {
      assert acts + more == acts;
    } else {
      var n := |more| - 1;
      assert (acts + more)[..|acts| + n] == acts + more[..n];
      RunAppends(w, acts, more[..n]);
    }
  }

  /** Everything that commits between the hold and the readback. */
  function Interim(target: AgentId, env: TransferEnv): seq<Act> {
    env.patching + (if env.patchFails then [DegradeAct({target})] else []) + env.reading
  }

  lemma PatchIsARun(h: World, target: AgentId, env: TransferEnv)
    ensures Patch(h, target, env) == Run(h, Interim(target, env))
  {
    hide Next;
    var degraded := if env.patchFails then [DegradeAct({target})] else [];
    RunAppends(h, env.patching, degraded);
    RunAppends(h, env.patching + degraded, env.reading);
    if env.patchFails {
      assert degraded[..0] == [];
    }
  }

  lemma TakenTransfer(y: World, t: TicketId, transfer: TransferId, target: AgentId, revision: nat)
    requires CanTransfer(y, t, transfer, target, revision)
    ensures var h := Next(y, TransferAct(t, transfer, target, revision));
            && ForTransfer(transfer) in h.ledger.reservations
            && h.ledger.reservations[ForTransfer(transfer)] == Reservation(t, target, Held)
  {
    hide HasRoom, CapacityCount;
  }

  lemma HeldCounts(l: Ledger, op: Operation)
    requires op in l.reservations && l.reservations[op].state == Held
    ensures l.reservations[op].ticket in CapacitySet(l, l.reservations[op].agent)
  {
  }

  /** A read that takes the hold under its target leaves the ticket occupied by it. */
  lemma SettledOwnerCounts(u: World, o: Observation, transfer: TransferId)
    requires Linked(u) && u.cfg.enforce && HeldTransfer(u, transfer)
    requires SettlesTransfer(u, ObserveAct(o), transfer) && ObservedState(o.snap) == Active
    ensures var r := u.ledger.reservations[ForTransfer(transfer)];
            r.ticket in CapacitySet(Next(u, ObserveAct(o)).ledger, r.agent)
  {
    var r := u.ledger.reservations[ForTransfer(transfer)];
    var extra := o.captured + AssignedAgents(u, o);
    StepIsAChange(u, ObserveAct(o));
    ObserveMoves(u, o);
    HeldCounts(u.ledger, ForTransfer(transfer));
    EnsureRowKeepsUnion(u.ledger, r.ticket, r.agent);
    assert u.cfg.dir.Injective();
    hide Linked, Next, ChangeOf, AssignedAgents, Directory.Injective, CapacitySet, ApplyObservation, EnsureRow, Picks, ClassifyObservation;
    RowEnsured(u.ledger, r.ticket);
    ConfirmationKeepsUnion(EnsureRow(u.ledger, r.ticket), r.ticket, o.snap, u.cfg.dir, extra, true, r.agent);
    SameCoreSameUnion(
      ApplyObservation(EnsureRow(u.ledger, r.ticket), r.ticket, o.snap, u.cfg.dir, extra, true),
      Next(u, ObserveAct(o)).ledger, r.agent);
  }

  lemma RowEnsured(l: Ledger, t: TicketId)
    ensures t in EnsureRow(l, t).occupancy
  {
  }

  /** A terminal read: the row it leaves is out of scope or closed. */
  lemma SettledRow(u: World, o: Observation, transfer: TransferId)
    requires Linked(u) && u.cfg.enforce && HeldTransfer(u, transfer)
    requires SettlesTransfer(u, ObserveAct(o), transfer)
    ensures var r := u.ledger.reservations[ForTransfer(transfer)];
            var z := Next(u, ObserveAct(o));
            && r.ticket in z.ledger.occupancy
            && z.ledger.occupancy[r.ticket].state == ObservedState(o.snap)
            && z.ledger.occupancy[r.ticket].owner == o.snap.owner
  {
    StepIsAChange(u, ObserveAct(o));
    ObserveMoves(u, o);
    hide Linked, Next, ChangeOf, AssignedAgents, Picks, ClassifyObservation, CapacityCount;
    RowEnsured(u.ledger, o.ticket);
  }

  /**
   One readback of a held transfer: a confirmed one leaves the ticket counted for the
   target, a failed one leaves the reservation held, and an unconfirmed one releases it
   only when the ticket was read closed or out of scope.
   */
  lemma ReadbackOutcome(u: World, t: TicketId, transfer: TransferId, target: AgentId, env: TransferEnv)
    requires Linked(u) && u.cfg.enforce && HeldTransfer(u, transfer) && target in u.cfg.dir.ownerOf
    requires u.ledger.reservations[ForTransfer(transfer)] == Reservation(t, target, Held)
    ensures var v := Next(u, ObserveAct(env.second.(ticket := t)));
            match ReadBackTransfer(u, t, target, env).1
            case Confirmed => v == ReadBackTransfer(u, t, target, env).0 && t in CapacitySet(v.ledger, target)
            case ReadbackFailed => v == ReadBackTransfer(u, t, target, env).0 && HeldTransfer(v, transfer)
            case _ => HeldTransfer(v, transfer) || TerminalRow(v, t)
  {
    var o := env.second.(ticket := t);
    var v := Next(u, ObserveAct(o));
    TransferHoldEndsIff(u, ObserveAct(o), transfer);
    SettledStaysSettled(u, ObserveAct(o), transfer);
    if SettlesTransfer(u, ObserveAct(o), transfer) {
      SettledRow(u, o, transfer);
      if ObservedState(o.snap) == Active {
        SettledOwnerCounts(u, o, transfer);
      }
    } else {
      HeldCounts(v.ledger, ForTransfer(transfer));
    }
    hide Next, Linked, CapacitySet, Picks, ClassifyObservation, Run;
  }

  /** A transfer that reached its readback had taken the hold, with a ticket seen active and unchanged. */
  lemma TransferTakesHold(w: World, t: TicketId, transfer: TransferId, target: AgentId, env: TransferEnv)
    requires Transfer(w, t, transfer, target, env).1 in {Confirmed, Unconfirmed, ReadbackFailed}
    ensures FirstRevision(w, t, env).Some?
    ensures CanTransfer(Prepared(w, t, env), t, transfer, target, FirstRevision(w, t, env).value)
    ensures Transfer(w, t, transfer, target, env)
            == ReadBackTransfer(
                 AtReadback(Prepared(w, t, env), t, transfer, target, FirstRevision(w, t, env).value, env), t, target, env)
  {
    hide Next, Run, CanTransfer, FirstRevision, Prepared, AtReadback, ReadBackTransfer;
  }

  /** A read left nothing to go by: it was rejected, or there is no row for the ticket. */
  predicate Blind(w: World, o: Observation) {
    ClassifyObservation(w, o) == Rejected || o.ticket !in Next(w, ObserveAct(o)).ledger.occupancy
  }

  /** The hold may be taken: the target is eligible again, and the ticket is as it was first read. */
  predicate MayHold(w: World, t: TicketId, transfer: TransferId, target: AgentId, env: TransferEnv) {
    var v := Next(w, ObserveAct(env.first.(ticket := t)));
    && env.stillEligible && t in v.ledger.occupancy
    && CanTransfer(Run(v, env.prepared), t, transfer, target, v.ledger.occupancy[t].revision)
  }

  /** How a transfer ends before its provider call, and what it has written by then. */
  lemma TransferStopsIff(w: World, t: TicketId, transfer: TransferId, target: AgentId, env: TransferEnv)
    ensures var o := env.first.(ticket := t);
            var (z, result) := Transfer(w, t, transfer, target, env);
            && (result == Ineligible <==> !env.eligible)
            && (result == Unobserved <==> env.eligible && Blind(w, o))
            && (result == NotTaken <==> env.eligible && !Blind(w, o) && !MayHold(w, t, transfer, target, env))
            && (result == Ineligible ==> z == w)
            && (result == Unobserved ==> z == Next(w, ObserveAct(o)))
            && (result == NotTaken ==> z == Run(Next(w, ObserveAct(o)), env.prepared))
  {
    hide Next, Run, CanTransfer, ClassifyObservation, Patch;
  }

  /** The readback: nothing to go by, the target shown as the ticket's active owner, or a degraded target. */
  lemma ReadbackEnds(u: World, t: TicketId, target: AgentId, env: TransferEnv)
    requires target in u.cfg.dir.ownerOf
    ensures var o := env.second.(ticket := t);
            var v := Next(u, ObserveAct(o));
            var (z, result) := ReadBackTransfer(u, t, target, env);
            var shown := t in v.ledger.occupancy && v.ledger.occupancy[t].state == Active
                         && v.ledger.occupancy[t].owner == Some(u.cfg.dir.ownerOf[target]);
            && (result == ReadbackFailed <==> Blind(u, o))
            && (result == Confirmed <==> !Blind(u, o) && shown)
            && (result == Unconfirmed <==> !Blind(u, o) && !shown)
            && (result != Unconfirmed ==> z == v)
            && (result == Unconfirmed ==>
                  && z.ledger.agents.Keys == Run(v, env.last).ledger.agents.Keys
                  && (target in z.ledger.agents ==> z.ledger.agents[target].readiness == Degraded)
                  && z == Run(v, env.last).(ledger := z.ledger)
                  && z.ledger.reservations == Run(v, env.last).ledger.reservations
                  && z.ledger.occupancy == Run(v, env.last).ledger.occupancy)
  {
    hide Observe, Run, ClassifyObservation;
  }

  /** A failed provider call degrades the target, and no call touches the hold. */
  lemma PatchDegrades(h: World, target: AgentId, env: TransferEnv)
    requires env.patching == [] && env.reading == []
    ensures var u := Patch(h, target, env);
            && u == h.(ledger := u.ledger)
            && u.ledger.reservations == h.ledger.reservations && u.ledger.occupancy == h.ledger.occupancy
            && (!env.patchFails ==> u == h)
            && (env.patchFails && target in h.ledger.agents ==>
                  target in u.ledger.agents && u.ledger.agents[target].readiness == Degraded)
  {
    RunOfNothing(h);
    RunOfNothing(Next(h, DegradeAct({target})));
  }

  lemma PreparedIsLinked(w: World, t: TicketId, env: TransferEnv)
    requires Linked(w) && w.cfg.enforce
    ensures Linked(Prepared(w, t, env)) && Prepared(w, t, env).cfg == w.cfg
  {
    hide Next, Linked, Run;
    var o := env.first.(ticket := t);
    StepKeepsLinks(w, ObserveAct(o));
    StepKeepsConfig(w, ObserveAct(o));
    RunKeepsLinks(Next(w, ObserveAct(o)), env.prepared);
    RunKeepsConfig(Next(w, ObserveAct(o)), env.prepared);
  }

  /**
   Once a transfer holds its target's capacity, the target counts the ticket; the hold
   reaches the readback exactly if no read settled it before. From there a confirmed
   transfer leaves the ticket counted for the target, a failed readback leaves the
   reservation held, and an unconfirmed one keeps it, unless the ticket was read closed
   or out of scope, until a later read settles it.
   */
  lemma TransferKeepsTicketCounted(
    y: World, t: TicketId, transfer: TransferId, target: AgentId, revision: nat, env: TransferEnv)
    requires Linked(y) && y.cfg.enforce && CanTransfer(y, t, transfer, target, revision)
    ensures var h := Next(y, TransferAct(t, transfer, target, revision));
            HeldTransfer(h, transfer) && t in CapacitySet(h.ledger, target)
    ensures var h := Next(y, TransferAct(t, transfer, target, revision));
            var u := AtReadback(y, t, transfer, target, revision, env);
            HeldTransfer(u, transfer) <==> NeverSettled(h, Interim(target, env), transfer)
    ensures var u := AtReadback(y, t, transfer, target, revision, env);
            HeldTransfer(u, transfer) ==> EndsCounted(u, t, transfer, target, env)
  {
    hide Next, Linked, Run, CanTransfer, HeldTransfer, NeverSettled, CapacitySet, Patch, Interim, EndsCounted;
    var act := TransferAct(t, transfer, target, revision);
    var h := Next(y, act);
    TransferNeeds(y, t, transfer, target, revision);
    TakenTransfer(y, t, transfer, target, revision);
    StepKeepsLinks(y, act);
    StepKeepsConfig(y, act);
    HoldOfTransfer(h, t, transfer, target);
    PatchIsARun(h, target, env);
    RunHoldsTransferIff(h, Interim(target, env), transfer);
    RunKeepsLinks(h, Interim(target, env));
    RunKeepsConfig(h, Interim(target, env));
    var u := AtReadback(y, t, transfer, target, revision, env);
    if HeldTransfer(u, transfer) {
      HeldReservationOf(u, t, transfer, target);
      HeldReadback(u, t, transfer, target, env);
    }
  }

  lemma HoldOfTransfer(h: World, t: TicketId, transfer: TransferId, target: AgentId)
    requires ForTransfer(transfer) in h.ledger.reservations
    requires h.ledger.reservations[ForTransfer(transfer)] == Reservation(t, target, Held)
    ensures HeldTransfer(h, transfer) && t in CapacitySet(h.ledger, target)
  {
    HeldCounts(h.ledger, ForTransfer(transfer));
  }

  lemma HeldReservationOf(u: World, t: TicketId, transfer: TransferId, target: AgentId)
    requires HeldTransfer(u, transfer)
    requires u.ledger.reservations[ForTransfer(transfer)].ticket == t
    requires u.ledger.reservations[ForTransfer(transfer)].agent == target
    ensures u.ledger.reservations[ForTransfer(transfer)] == Reservation(t, target, Held)
  {
  }

  /** However a held transfer's readback ends, capacity for the ticket is not lost by it. */
  ghost predicate EndsCounted(u: World, t: TicketId, transfer: TransferId, target: AgentId, env: TransferEnv) {
    var v := Next(u, ObserveAct(env.second.(ticket := t)));
    var (z, result) := ReadBackTransfer(u, t, target, env);
    match result
    case Confirmed => t in CapacitySet(z.ledger, target)
    case ReadbackFailed => HeldTransfer(z, transfer)
    case _ =>
      if HeldTransfer(v, transfer) then HeldTransfer(z, transfer) <==> NeverSettled(v, env.last, transfer)
      else TerminalRow(v, t)
  }

  lemma HeldReadback(u: World, t: TicketId, transfer: TransferId, target: AgentId, env: TransferEnv)
    requires Linked(u) && u.cfg.enforce && HeldTransfer(u, transfer) && target in u.cfg.dir.ownerOf
    requires u.ledger.reservations[ForTransfer(transfer)] == Reservation(t, target, Held)
    ensures EndsCounted(u, t, transfer, target, env)
  {
    var o := env.second.(ticket := t);
    var v := Next(u, ObserveAct(o));
    hide Next, Linked, Run, HeldTransfer, NeverSettled, CapacitySet, OwnedBy, TerminalRow, ClassifyObservation, SettlesTransfer;
    ReadbackOutcome(u, t, transfer, target, env);
    StepKeepsLinks(u, ObserveAct(o));
    StepKeepsConfig(u, ObserveAct(o));
    if HeldTransfer(v, transfer) {
      RunHoldsTransferIff(v, env.last, transfer);
      RunKeepsLinks(v, env.last);
      RunKeepsConfig(v, env.last);
      var z := Run(v, env.last);
      DegradeKeepsTransfer(z, {target}, transfer);
    }
  }

  lemma DegradeKeepsTransfer(w: World, ids: set<AgentId>, transfer: TransferId)
    ensures HeldTransfer(Next(w, DegradeAct(ids)), transfer) <==> HeldTransfer(w, transfer)
  {
  }

  /** The hold a transfer of this run takes, when it gets that far. */
  function TakenHold(w: World, t: TicketId, transfer: TransferId, target: AgentId, env: TransferEnv): World {
    match FirstRevision(w, t, env)
    case None => w
    case Some(revision) => Next(Prepared(w, t, env), TransferAct(t, transfer, target, revision))
  }

  /**
   From the driver's start: whenever a transfer gets to its provider call it has made
   its target count the ticket, and if no read settles the hold before the readback,
   the whole transfer ends as its readback does, without losing the ticket's capacity.
   */
  lemma TransferEndsCounted(w: World, t: TicketId, transfer: TransferId, target: AgentId, env: TransferEnv)
    requires Linked(w) && w.cfg.enforce
    requires Transfer(w, t, transfer, target, env).1 in {Confirmed, Unconfirmed, ReadbackFailed}
    ensures var h := TakenHold(w, t, transfer, target, env);
            && HeldTransfer(h, transfer) && t in CapacitySet(h.ledger, target)
            && var u := Patch(h, target, env);
               && Transfer(w, t, transfer, target, env) == ReadBackTransfer(u, t, target, env)
               && (NeverSettled(h, Interim(target, env), transfer) ==> EndsCounted(u, t, transfer, target, env))
  {
    hide Next, Linked, Run, CanTransfer, HeldTransfer, NeverSettled, CapacitySet, Patch, Interim, EndsCounted, Transfer,
      FirstRevision, Prepared, ReadBackTransfer;
    TransferTakesHold(w, t, transfer, target, env);
    PreparedIsLinked(w, t, env);
    TransferKeepsTicketCounted(Prepared(w, t, env), t, transfer, target, FirstRevision(w, t, env).value, env);
  }
}
