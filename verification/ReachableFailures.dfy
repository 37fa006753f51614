/**
 * Runs from a database that knows only its agents to the states in which the
 * protocol does less than its names suggest. Each is an ordinary interleaving
 * of its transactions, available whenever some agent has room for a ticket.
 */
module ReachableFailures {
  import opened Base
  import opened CapacityLedger
  import opened AssignmentProtocol
  import opened AssignmentInvariants
  import opened AttemptLifecycle
  import opened AssignmentSafety
  import opened CompensationUndo
  import opened HoldCoverage
  import opened NonEnforcingCounter
  import opened ReachableStates
  import opened SpentKey
  import Drivers = EffectDrivers

  const GIVE_UP := Compensation(false, false, false, OtherFailure)

  const FIRST_ROW := QueueRow(0, 0, true, Pending, NoFailure, None, None, 0)

  predicate Usable(cfg: Config, a: AgentId) {
    a in cfg.dir.ownerOf && a in cfg.dir.maxChats && cfg.dir.maxChats[a] >= 1
  }

  /** Ticket 0 enters, its row is enqueued, and the agent's capacity is reconciled. */
  function Opening(a: AgentId): seq<Act> {
    [OpenCycle(0, 0), Enqueue(0, 0, true), ReadyAct(a)]
  }

  function Ask(id: AttemptId, kind: AttemptKind, a: AgentId): Act {
    ReserveAct(ReserveRequest(id, kind, 0, a, true, false))
  }

  lemma RunSnoc(w: World, acts: seq<Act>, act: Act)
    ensures Run(w, acts + [act]) == Next(Run(w, acts), act)
  {
    hide Next;
    var all := acts + [act];
    assert all[..|all| - 1] == acts;
  }

  lemma OpeningRun(w: World, a: AgentId)
    ensures Run(w, Opening(a)) == MarkReady(EnqueueRow(OpenNew(w, 0, 0), 0, 0, true), a)
  {
    hide OpenNew, EnqueueRow, MarkReady;
    RunSnoc(w, [], OpenCycle(0, 0));
    RunSnoc(w, [OpenCycle(0, 0)], Enqueue(0, 0, true));
    RunSnoc(w, [OpenCycle(0, 0), Enqueue(0, 0, true)], ReadyAct(a));
    assert [] + [OpenCycle(0, 0)] == [OpenCycle(0, 0)];
    assert [OpenCycle(0, 0)] + [Enqueue(0, 0, true)] == [OpenCycle(0, 0), Enqueue(0, 0, true)];
    assert [OpenCycle(0, 0), Enqueue(0, 0, true)] + [ReadyAct(a)] == Opening(a);
    hide Run;
  }

  /** The world the opening leads to, field by field. */
  lemma Opened(cfg: Config, a: AgentId)
    requires cfg.dir.Injective() && Usable(cfg, a)
    ensures var w := Run(Start(cfg), Opening(a));
      && Linked(w) && OneEach(w) && w.cfg == cfg && w.now == 0
      && w.attempts == map[] && w.assignments == map[]
      && w.cycles == map[0 := Cycle(0, CycleQueued)] && w.queue == map[0 := FIRST_ROW]
      && w.ledger.occupancy == map[] && w.ledger.reservations == map[]
      && a in w.ledger.agents && w.ledger.agents[a].chats == 0
      && Fresh(w.ledger.agents[a], 0, cfg.freshness)
  {
    hide Run, Linked, Next;
    StartIsSound(cfg);
    OpeningRun(Start(cfg), a);
    RunKeepsLinks(Start(cfg), Opening(a));
  }

  /** An agent nobody has given anything has room. */
  lemma IdleHasRoom(w: World, a: AgentId)
    requires Usable(w.cfg, a) && a in w.ledger.agents && w.ledger.agents[a].chats == 0
    requires CapacitySet(w.ledger, a) == {}
    requires Fresh(w.ledger.agents[a], w.now, w.cfg.freshness)
    ensures HasRoom(w, a)
  {
  }

  /** The first automatic reservation is granted. */
  lemma FirstGrant(cfg: Config, a: AgentId)
    requires cfg.dir.Injective() && Usable(cfg, a)
    ensures var w := Run(Start(cfg), Opening(a));
      && ClassifyReserve(w, Ask(0, Automatic, a).request) == Granted
      && CapacitySet(w.ledger, a) == {}
  {
    hide Run, Linked, OneEach, HasRoom;
    Opened(cfg, a);
    var w := Run(Start(cfg), Opening(a));
    assert CapacitySet(w.ledger, a) == {};
    IdleHasRoom(w, a);
    assert LiveOn(w, 0) == {} && CompletedOn(w, 0) == {};
  }

  predicate SameStanding(w: World, v: World, a: AgentId) {
    && a in w.ledger.agents && a in v.ledger.agents
    && v.ledger.agents[a].readiness == w.ledger.agents[a].readiness
    && v.ledger.agents[a].reconciledAt == w.ledger.agents[a].reconciledAt
    && v.now == w.now && v.cfg == w.cfg && v.cycles == w.cycles
  }

  /** A granted reservation leaves the agent as fresh as it was. */
  lemma GrantStanding(w: World, r: ReserveRequest)
    requires ClassifyReserve(w, r) == Granted && r.agent in w.ledger.agents && w.ledger.agents[r.agent].chats >= 0
    ensures var v := Next(w, ReserveAct(r));
      && SameStanding(w, v, r.agent)
      && r.id !in w.attempts && r.cycle in w.queue
      && v.attempts == w.attempts[r.id := Attempt(w.queue[r.cycle].ticket, r.cycle, r.kind, w.queue[r.cycle].id, r.agent,
                                                  w.cfg.dir.ownerOf[r.agent], AttemptReserved, None, None, 0)]
      && v.queue.Keys == w.queue.Keys
      && (!w.cfg.enforce ==> v.ledger.agents[r.agent].chats == w.ledger.agents[r.agent].chats + 1)
  {
    hide CapacityCount, LiveOn, CompletedOn, KeyUsed, RowReady, HasRoom, HeldReservation;
  }

  lemma ReleaseStanding(v: World, id: AttemptId)
    requires Linked(v) && id in v.attempts && v.attempts[id].agent in v.ledger.agents
    requires v.attempts[id].state == AttemptReserved && v.attempts[id].compensatedAt.None?
    ensures var z := Next(v, CompensateAct(id, GIVE_UP));
      && SameStanding(v, z, v.attempts[id].agent)
      && z.attempts.Keys == v.attempts.Keys
      && z.attempts[id].state == Compensated
      && z.attempts[id].cycle == v.attempts[id].cycle && z.attempts[id].kind == v.attempts[id].kind
      && z.queue.Keys == v.queue.Keys
      && (!v.cfg.enforce && v.ledger.agents[v.attempts[id].agent].chats == 1 && v.ledger.reservations == map[] ==>
            z.ledger.agents[v.attempts[id].agent].chats == 0)
  {
    EnterIsIdle(v, id);
    hide Linked, CapacityCount, RetryDelay, Enter;
  }

  function CrashRun(a: AgentId): seq<Act> {
    Opening(a) + [Ask(0, Automatic, a)] + [CompensateAct(0, GIVE_UP)] + [Ask(1, Manual, a)]
  }

  /** After one reservation is given up the agent is idle again, and a manual one is granted on the same cycle. */
  lemma SecondGrant(cfg: Config, a: AgentId)
    requires cfg.dir.Injective() && Usable(cfg, a)
    ensures var v := Run(Start(cfg), Opening(a) + [Ask(0, Automatic, a)] + [CompensateAct(0, GIVE_UP)]);
      && ClassifyReserve(v, Ask(1, Manual, a).request) == Granted
      && a in v.ledger.agents && v.ledger.agents[a].chats == 0
      && v.attempts.Keys == {0} && v.attempts[0].state == Compensated && v.attempts[0].cycle == 0
  {
    hide Run, Linked, OneEach, HasRoom, Next, ClassifyReserve, CapacitySet, CountersAgree, Start, Opening;
    var w := Run(Start(cfg), Opening(a));
    Opened(cfg, a);
    FirstGrant(cfg, a);
    var r := Ask(0, Automatic, a).request;
    RunSnoc(Start(cfg), Opening(a), Ask(0, Automatic, a));
    RunSnoc(Start(cfg), Opening(a) + [Ask(0, Automatic, a)], CompensateAct(0, GIVE_UP));
    var v := Next(w, ReserveAct(r));
    var z := Next(v, CompensateAct(0, GIVE_UP));
    GrantStanding(w, r);
    StepKeepsLinks(w, ReserveAct(r));
    ReleaseStanding(v, 0);
    if cfg.enforce {
      StartIsSound(cfg);
      StartConfig(cfg);
      RunKeepsCounters(Start(cfg), Opening(a));
    }
    IdleAgain(w, a);
    IdleHasRoom(z, a);
    ManualGranted(z, a);
  }

  /**
   The row of an attempt that was given up for good waits ready in the queue, and the
   next automatic reservation, its checks all passed, breaks the unique key and
   changes nothing.
   */
  lemma SpentKeyBlocksRow(cfg: Config, a: AgentId)
    requires cfg.dir.Injective() && Usable(cfg, a)
    ensures var v := Run(Start(cfg), Opening(a) + [Ask(0, Automatic, a)] + [CompensateAct(0, GIVE_UP)]);
            && 0 in v.queue && RowReady(v.queue[0], v.now)
            && ClassifyReserve(v, Ask(1, Automatic, a).request) == KeyTaken
            && Next(v, Ask(1, Automatic, a)) == v
  {
    hide Run, Linked, OneEach, HasRoom, Next, ClassifyReserve, CapacitySet, Start, Opening, RowReady, CompletedOn;
    var held := Opening(a) + [Ask(0, Automatic, a)];
    var w := Run(Start(cfg), held);
    var v := Run(Start(cfg), held + [CompensateAct(0, GIVE_UP)]);
    FirstAttempt(cfg, a);
    SecondGrant(cfg, a);
    RunSnoc(Start(cfg), held, CompensateAct(0, GIVE_UP));
    FinalCompensationKeepsRow(w, 0, GIVE_UP, Ask(1, Automatic, a).request);
    GrantedHasRoom(v, Ask(1, Manual, a).request);
    StepKeepsConfig(w, CompensateAct(0, GIVE_UP));
    InsertMeetsKeys(v, Ask(1, Automatic, a).request);
  }

  /** The first attempt, reserved on its row. */
  lemma FirstAttempt(cfg: Config, a: AgentId)
    requires cfg.dir.Injective() && Usable(cfg, a)
    ensures var w := Run(Start(cfg), Opening(a) + [Ask(0, Automatic, a)]);
            && Linked(w) && OneEach(w) && 0 in w.attempts && w.attempts.Keys == {0}
            && w.attempts[0].kind == Automatic && w.attempts[0].cycle == 0 && w.attempts[0].compensatedAt.None?
            && w.attempts[0].state == AttemptReserved
            && RowLinked(w, w.attempts[0]) && w.queue[0].eligible
            && 0 in w.cycles && w.cycles[0].state == CycleQueued && CompletedOn(w, 0) == {}
  {
    hide Run, Linked, OneEach, HasRoom, Next, ClassifyReserve, CapacitySet, Start, Opening;
    var w := Run(Start(cfg), Opening(a));
    var r := Ask(0, Automatic, a).request;
    Opened(cfg, a);
    FirstGrant(cfg, a);
    RunSnoc(Start(cfg), Opening(a), Ask(0, Automatic, a));
    GrantStanding(w, r);
    StepKeepsLinks(w, ReserveAct(r));
    StepKeepsOneEach(w, ReserveAct(r));
    GrantKeepsRow(w, r);
  }

  lemma GrantKeepsRow(w: World, r: ReserveRequest)
    requires ClassifyReserve(w, r) == Granted
    ensures var v := Next(w, ReserveAct(r));
            && r.cycle in w.queue && r.cycle in v.queue
            && v.queue[r.cycle].id == w.queue[r.cycle].id && v.queue[r.cycle].eligible == w.queue[r.cycle].eligible
  {
    hide LiveOn, CompletedOn, KeyUsed, RowReady, HasRoom, TakeCapacity, EnsureRow;
  }

  lemma GrantedHasRoom(v: World, r: ReserveRequest)
    requires ClassifyReserve(v, r) == Granted
    ensures r.agent in v.cfg.dir.ownerOf && HasRoom(v, r.agent)
  {
    hide LiveOn, CompletedOn, KeyUsed, RowReady, HasRoom;
  }

  /** Giving the first reservation up leaves the agent without tickets and without count. */
  lemma IdleAgain(w: World, a: AgentId)
    requires Linked(w) && w.ledger.reservations == map[] && w.ledger.occupancy == map[]
    requires w.cfg.enforce ==> CountersAgree(w.ledger)
    requires ClassifyReserve(w, Ask(0, Automatic, a).request) == Granted
    requires a in w.ledger.agents && w.ledger.agents[a].chats == 0 && CapacitySet(w.ledger, a) == {}
    ensures var z := Next(Next(w, Ask(0, Automatic, a)), CompensateAct(0, GIVE_UP));
      a in z.ledger.agents && z.ledger.agents[a].chats == 0 && CapacitySet(z.ledger, a) == {}
  {
    hide Linked, Next, ClassifyReserve, CapacityCount, CapacitySet, CountersAgree;
    var r := Ask(0, Automatic, a).request;
    var v := Next(w, ReserveAct(r));
    var z := Next(v, CompensateAct(0, GIVE_UP));
    StepKeepsLinks(w, ReserveAct(r));
    if w.cfg.enforce {
      CompensationUndoesReserve(w, r, GIVE_UP, a);
      CompensationRestoresCounters(w, r, GIVE_UP, a);
    } else {
      GrantStanding(w, r);
      TablesUntouched(w, r);
      ReleaseStanding(v, 0);
      UnionIgnoresAgents(z.ledger, w.ledger, a);
    }
  }

  /** Without enforcement and reservations, neither transaction writes an occupancy or a reservation. */
  lemma TablesUntouched(w: World, r: ReserveRequest)
    requires !w.cfg.enforce && w.ledger.reservations == map[] && ClassifyReserve(w, r) == Granted
    ensures var v := Next(w, ReserveAct(r));
      var z := Next(v, CompensateAct(r.id, GIVE_UP));
      && v.ledger.reservations == map[]
      && z.ledger.occupancy == w.ledger.occupancy && z.ledger.reservations == w.ledger.reservations
  {
    hide CapacityCount, LiveOn, CompletedOn, KeyUsed, RowReady, HasRoom, RetryDelay;
  }

  lemma ManualGranted(z: World, a: AgentId)
    requires HasRoom(z, a) && a in z.cfg.dir.ownerOf
    requires 0 in z.queue && 0 in z.cycles && z.cycles[0].state == CycleQueued
    requires z.attempts.Keys == {0} && z.attempts[0].state == Compensated && z.attempts[0].kind == Automatic
    ensures ClassifyReserve(z, Ask(1, Manual, a).request) == Granted
  {
    hide HasRoom;
    assert LiveOn(z, 0) == {};
  }

  /**
   The exception handler's overwrite can be met by a live attempt: an automatic
   attempt is compensated while the repair loop holds it in hand, a manual one is
   reserved on the same cycle, and the unique constraint then refuses the overwrite,
   which raises out of the loop and leaves both attempts as they were.
   */
  lemma OverwriteIsRefused(cfg: Config, a: AgentId)
    requires cfg.dir.Injective() && Usable(cfg, a)
    ensures var w := Run(Start(cfg), CrashRun(a));
            && OverwriteRefused(w, 0) && !OneEach(Overwritten(w, 0))
            && w.attempts[0].state == Compensated && 1 in w.attempts && w.attempts[1].state == AttemptReserved
            && Run(Start(cfg), CrashRun(a) + [RepairCrashAct(0)]) == w
  {
    hide Run, Linked, OneEach, Next, ClassifyReserve, Start, Opening, LiveAlone;
    var acts := Opening(a) + [Ask(0, Automatic, a)] + [CompensateAct(0, GIVE_UP)];
    var v := Run(Start(cfg), acts);
    var w := Run(Start(cfg), CrashRun(a));
    SecondGrant(cfg, a);
    RunSnoc(Start(cfg), acts, Ask(1, Manual, a));
    RunSnoc(Start(cfg), CrashRun(a), RepairCrashAct(0));
    GrantStanding(v, Ask(1, Manual, a).request);
    StartIsSound(cfg);
    RunKeepsOneEach(Start(cfg), CrashRun(a));
    SecondIsLive(w);
    OverwriteRefusedIff(w, 0);
  }

  lemma SecondIsLive(w: World)
    requires 0 in w.attempts && 1 in w.attempts && w.attempts[0].cycle == w.attempts[1].cycle
    requires w.attempts[1].state == AttemptReserved
    ensures !LiveAlone(w, 0)
  {
    assert IsLive(w.attempts[1].state);
  }

  // ----- a hold lost under a reserved attempt ------------------------------

  /** A read of ticket 0 while its first hold is in place, and one after it has been applied. */
  function Seen(revision: nat, owner: Option<OwnerId>, inSupport: bool): Observation {
    Observation(0, {}, revision, Snapshot(true, owner, inSupport, false, false, None),
                true, false, false, false, Some(0), None)
  }

  function HoldRun(a: AgentId): seq<Act> {
    Opening(a) + [Ask(0, Automatic, a)]
  }

  /** The first reservation, granted under enforcement. */
  lemma FirstHeld(cfg: Config, a: AgentId)
    requires cfg.dir.Injective() && Usable(cfg, a) && cfg.enforce
    ensures var w := Run(Start(cfg), HoldRun(a));
      && Linked(w) && w.cfg == cfg
      && w.attempts == map[0 := Attempt(0, 0, Automatic, 0, a, cfg.dir.ownerOf[a], AttemptReserved, None, None, 0)]
      && w.cycles == map[0 := Cycle(0, CycleQueued)] && w.assignments == map[]
      && 0 in w.ledger.occupancy && w.ledger.occupancy[0].revision == 1
      && w.ledger.occupancy[0].providerUpdatedAt.None?
      && HeldFor(w, 0)
  {
    hide Run, Linked, OneEach, HasRoom, Next, ClassifyReserve, CapacitySet, Start, Opening, HeldFor;
    var w := Run(Start(cfg), Opening(a));
    var r := Ask(0, Automatic, a).request;
    Opened(cfg, a);
    FirstGrant(cfg, a);
    RunSnoc(Start(cfg), Opening(a), Ask(0, Automatic, a));
    StepKeepsLinks(w, ReserveAct(r));
    GrantStanding(w, r);
    GrantHolds(w, r);
    GrantBumps(w, r);
    GrantAssignsNothing(w, r);
  }

  lemma GrantBumps(w: World, r: ReserveRequest)
    requires w.cfg.enforce && ClassifyReserve(w, r) == Granted && w.ledger.occupancy == map[]
    ensures r.cycle in w.queue
    ensures var t := w.queue[r.cycle].ticket;
      var m := Next(w, ReserveAct(r)).ledger.occupancy;
      t in m && m[t].revision == 1 && m[t].providerUpdatedAt.None?
  {
    hide CapacityCount, LiveOn, CompletedOn, KeyUsed, RowReady, HasRoom, HeldReservation;
  }

  lemma GrantAssignsNothing(w: World, r: ReserveRequest)
    requires ClassifyReserve(w, r) == Granted
    ensures Next(w, ReserveAct(r)).assignments == w.assignments
  {
    hide CapacityCount, LiveOn, CompletedOn, KeyUsed, RowReady, HasRoom, TakeCapacity, EnsureRow;
  }

  /** Reading the ticket outside the support pipeline gives the hold back and leaves the attempt reserved. */
  lemma LeavesScope(w: World)
    requires Linked(w) && w.cfg.enforce && w.assignments == map[]
    requires w.cycles == map[0 := Cycle(0, CycleQueued)]
    requires 0 in w.attempts && w.attempts[0].ticket == 0
    requires 0 in w.ledger.occupancy && w.ledger.occupancy[0].revision == 1
    requires w.ledger.occupancy[0].providerUpdatedAt.None?
    requires HeldFor(w, 0)
    ensures var v := Next(w, ObserveAct(Seen(1, None, false)));
      && !HeldFor(v, 0)
      && v.attempts == w.attempts && v.cycles == w.cycles && v.assignments == w.assignments
      && 0 in v.ledger.occupancy && v.ledger.occupancy[0].revision == 2
      && v.ledger.occupancy[0].providerUpdatedAt.None?
  {
    var o := Seen(1, None, false);
    assert Picks(w, o) && ClassifyObservation(w, o) == Applied by {
      hide Linked, HeldFor, Next;
    }
    assert ConclusiveFor(w, o, 0);
    HoldEndsIff(w, ObserveAct(o), 0);
    hide Linked, HeldFor, CapacityCount, ConclusiveFor;
  }

  const UNOWNED_READ: Drivers.Effects :=
    Drivers.Effects(
      true, Drivers.Answer(Seen(2, None, true), true), Drivers.PatchNotFound, Drivers.Unreadable, Seen(2, None, true),
      Drivers.Others([], [], []), Drivers.Others([], [], []))

  /** The driver sees a reserved attempt, an unowned ticket in support, and writes. */
  lemma WritesAnyway(w: World)
    requires w.cfg.enforce && 0 in w.attempts && w.attempts[0].state == AttemptReserved && w.attempts[0].cycle == 0
    requires w.cycles == map[0 := Cycle(0, CycleQueued)]
    requires 0 in w.ledger.occupancy && w.ledger.occupancy[0].revision == 2
    requires w.ledger.occupancy[0].providerUpdatedAt.None?
    ensures Drivers.Execute(w, 0, UNOWNED_READ).patched
  {
    hide Next, Picks;
    assert ClassifyObservation(w, Seen(2, None, true)) != Rejected;
    assert Run(w, []) == w;
  }

  /**
   A reserved attempt can be written to the provider without its capacity: the ticket
   leaves the support pipeline and the hold is given back, the ticket returns without
   an owner, and execution, which looks only at the attempt and the cycle, patches it.
   */
  lemma PatchWithoutHold(cfg: Config, a: AgentId)
    requires cfg.dir.Injective() && Usable(cfg, a) && cfg.enforce
    ensures var w := Run(Start(cfg), HoldRun(a) + [ObserveAct(Seen(1, None, false))]);
      && 0 in w.attempts && w.attempts[0].state == AttemptReserved
      && !HeldFor(w, 0) && !Covered(w, 0)
      && Drivers.Execute(w, 0, UNOWNED_READ).patched
  {
    hide Run, Linked, Next, Start, HeldFor, HoldRun, Drivers.Execute;
    var held := Run(Start(cfg), HoldRun(a));
    FirstHeld(cfg, a);
    RunSnoc(Start(cfg), HoldRun(a), ObserveAct(Seen(1, None, false)));
    LeavesScope(held);
    StepKeepsConfig(held, ObserveAct(Seen(1, None, false)));
    WritesAnyway(Next(held, ObserveAct(Seen(1, None, false))));
  }

  /** In every enforcing run from the start, a reserved attempt holds its capacity unless such an observation landed. */
  lemma ReachableCoverage(cfg: Config, acts: seq<Act>, id: AttemptId)
    requires cfg.dir.Injective() && cfg.enforce
    ensures AlwaysCovered(Start(cfg), acts, id) <==> NeverUncovered(Start(cfg), acts, id)
  {
    hide Linked, AlwaysCovered, NeverUncovered, HeldFor;
    StartIsSound(cfg);
    RunCoversIff(Start(cfg), acts, id);
  }

  // ----- a completion that is no longer counted as one ---------------------

  function CompletionRun(cfg: Config, a: AgentId): seq<Act>
    requires a in cfg.dir.ownerOf
  {
    HoldRun(a) + [ObserveAct(Seen(1, Some(cfg.dir.ownerOf[a]), true))] + [MarkAct(0)] + [FinalizeAct(0)]
  }

  /** The first attempt can be confirmed and completed. */
  lemma FirstCompletes(cfg: Config, a: AgentId)
    requires cfg.dir.Injective() && Usable(cfg, a) && cfg.enforce
    ensures var w := Run(Start(cfg), CompletionRun(cfg, a));
      w.attempts.Keys == {0} && w.attempts[0].state == Completed && w.attempts[0].agent == a
  {
    hide Run, Linked, Next, Start, HeldFor, HoldRun;
    var held := Run(Start(cfg), HoldRun(a));
    var o := Seen(1, Some(cfg.dir.ownerOf[a]), true);
    FirstHeld(cfg, a);
    ConfirmsFirst(held, o, a);
    var v := Next(held, ObserveAct(o));
    var x := Next(v, MarkAct(0));
    Drivers.ConfirmedWorld(held, o, 0);
    Drivers.MarkConfirmed(v, 0);
    Drivers.RunOfNothing(v);
    Drivers.RunOfNothing(x);
    Drivers.ConfirmedEffectCompletes(held, o, 0, [], []);
    RunSnoc(Start(cfg), HoldRun(a), ObserveAct(o));
    RunSnoc(Start(cfg), HoldRun(a) + [ObserveAct(o)], MarkAct(0));
    RunSnoc(Start(cfg), HoldRun(a) + [ObserveAct(o)] + [MarkAct(0)], FinalizeAct(0));
    StepKeepsLinks(v, MarkAct(0));
    MarkKeepsKeys(v, 0);
    FinalizeKeepsAgent(x, 0);
  }

  lemma FinalizeKeepsAgent(x: World, id: AttemptId)
    requires id in x.attempts
    ensures Next(x, FinalizeAct(id)).attempts.Keys == x.attempts.Keys
    ensures Next(x, FinalizeAct(id)).attempts[id].agent == x.attempts[id].agent
  {
  }

  lemma MarkKeepsKeys(v: World, id: AttemptId)
    requires id in v.attempts
    ensures Next(v, MarkAct(id)).attempts.Keys == v.attempts.Keys
  {
  }

  lemma ConfirmsFirst(w: World, o: Observation, a: AgentId)
    requires w.cfg.enforce && w.assignments == map[] && w.cycles == map[0 := Cycle(0, CycleQueued)]
    requires 0 in w.attempts && w.attempts[0].ticket == 0
    requires o == Seen(1, Some(w.attempts[0].owner), true)
    requires 0 in w.ledger.occupancy && w.ledger.occupancy[0].revision == 1
    requires w.ledger.occupancy[0].providerUpdatedAt.None?
    ensures Drivers.Confirms(w, o, 0)
  {
  }

  /** Overwriting a completed attempt leaves its agent's total one ahead of its completed attempts. */
  lemma OverwriteLeavesTotalAhead(cfg: Config, a: AgentId)
    requires cfg.dir.Injective() && Usable(cfg, a) && cfg.enforce
    ensures var w := Run(Start(cfg), CompletionRun(cfg, a) + [RepairCrashAct(0)]);
      a in w.ledger.agents && w.ledger.agents[a].total == |CompletedBy(w, a)| + 1
  {
    hide Run, Start, CompletedBy, OneEach, HoldRun;
    var acts := CompletionRun(cfg, a);
    var all := acts + [RepairCrashAct(0)];
    FirstCompletes(cfg, a);
    CompletionIsGuarded(cfg, a);
    GuardedUncompletesNothing(Start(cfg), acts, a);
    ReachableAttempts(cfg, all, a);
    assert all[..|all| - 1] == acts;
    assert LiveAlone(Run(Start(cfg), acts), 0);
  }

  lemma CompletionIsGuarded(cfg: Config, a: AgentId)
    requires a in cfg.dir.ownerOf
    ensures Guarded(CompletionRun(cfg, a))
  {
  }

  // ----- a counter below the open attempts ---------------------------------

  function CloseRun(a: AgentId): seq<Act> {
    HoldRun(a) + [MarkAct(0)] + [FinalizeAct(0)] + [CloseAct(0)]
  }

  /** Without enforcement a reserved attempt of the only cycle is finalized, and the close uncounts it. */
  lemma FinalizedThenClosed(v: World, a: AgentId)
    requires Linked(v) && !v.cfg.enforce && a in v.ledger.agents && v.ledger.agents[a].chats == 1
    requires v.attempts.Keys == {0} && v.attempts[0].agent == a && v.attempts[0].cycle == 0
    requires v.attempts[0].state == AttemptReserved && v.attempts[0].compensatedAt.None?
    requires v.cycles == map[0 := Cycle(0, CycleQueued)]
    ensures var z := Next(Next(Next(v, MarkAct(0)), FinalizeAct(0)), CloseAct(0));
      a in z.ledger.agents && z.ledger.agents[a].chats == 0 && OpenBy(z, a) == {0}
  {
    hide Linked;
    var x := Next(v, MarkAct(0));
    assert CanFinalize(x, 0);
    var y := Next(x, FinalizeAct(0));
    assert y.assignments[0].agent == Some(a) && y.cycles[0].state == CycleAssigned;
    assert y.ledger.agents[a].chats == 1;
  }

  /** Closing an assigned conversation leaves its agent's counter below its open attempts. */
  lemma CloseLeavesCounterBehind(cfg: Config, a: AgentId)
    requires cfg.dir.Injective() && Usable(cfg, a) && !cfg.enforce
    ensures var w := Run(Start(cfg), CloseRun(a));
      && a in w.ledger.agents && w.ledger.agents[a].chats == 0 && |OpenBy(w, a)| == 1
      && !ProtocolRun(Start(cfg), CloseRun(a))
  {
    hide Run, Next, Linked, ClassifyReserve, CapacitySet, ProtocolRun, AlwaysExact;
    var w := Run(Start(cfg), Opening(a));
    Opened(cfg, a);
    FirstGrant(cfg, a);
    var v := Next(w, Ask(0, Automatic, a));
    GrantStanding(w, Ask(0, Automatic, a).request);
    StepKeepsLinks(w, Ask(0, Automatic, a));
    RunSnoc(Start(cfg), Opening(a), Ask(0, Automatic, a));
    RunSnoc(Start(cfg), HoldRun(a), MarkAct(0));
    RunSnoc(Start(cfg), HoldRun(a) + [MarkAct(0)], FinalizeAct(0));
    RunSnoc(Start(cfg), HoldRun(a) + [MarkAct(0)] + [FinalizeAct(0)], CloseAct(0));
    FinalizedThenClosed(v, a);
    ReachableBalance(cfg, CloseRun(a));
    if AlwaysExact(Start(cfg), CloseRun(a)) {
      LastIsExact(Start(cfg), CloseRun(a), a);
    }
  }

  lemma LastIsExact(w: World, acts: seq<Act>, a: AgentId)
    requires AlwaysExact(w, acts) && a in Run(w, acts).ledger.agents
    ensures Run(w, acts).ledger.agents[a].chats == |OpenBy(Run(w, acts), a)|
  {
    hide Run;
    assert acts[..|acts|] == acts;
  }
}
