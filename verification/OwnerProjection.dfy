/**
 What one provider observation answers and writes, row by row, and the law between an
 assignment and its ticket's occupancy.
 */
module OwnerProjection {
  import opened Base
  import opened CapacityLedger
  import opened AssignmentProtocol
  import opened AssignmentInvariants
  import opened AssignmentSafety
  import opened AttemptLifecycle
  import opened ObservationFreshness

  // ----- which answer -----------------------------------------------------

  /** The row as the write transaction finds it: stored, or created without any knowledge. */
  function FoundRow(w: World, t: TicketId): Occupancy {
    if t in w.ledger.occupancy then w.ledger.occupancy[t] else Occupancy(None, None, Unknown, 0, None)
  }

  /** Captured at the present revision, no older than the last read, and not contradicting one as old. */
  predicate UpToDate(w: World, o: Observation) {
    var row := FoundRow(w, o.ticket);
    && o.revision == row.revision
    && (row.providerUpdatedAt.Some? ==>
          && o.snap.updatedAt.Some?
          && row.providerUpdatedAt.value <= o.snap.updatedAt.value
          && (row.providerUpdatedAt.value < o.snap.updatedAt.value || o.snap.owner == row.owner))
  }

  predicate LooksClosed(o: Observation) {
    !o.viaClose && o.snap.inSupport && o.snap.closed
  }

  /** A current enough and complete read is applied, unless it shows a close that has no time yet or cannot be written. */
  lemma ObservationAnswers(w: World, o: Observation)
    ensures ClassifyObservation(w, o) == NotCurrent <==> o.snap.complete && o.viaClose && !o.current
    ensures ClassifyObservation(w, o) == PendingClose <==>
            o.snap.complete && UpToDate(w, o) && LooksClosed(o) && !o.snap.closedAtKnown
    ensures ClassifyObservation(w, o) == Applied <==>
            && o.snap.complete && !(o.viaClose && !o.current) && UpToDate(w, o)
            && (LooksClosed(o) ==> o.snap.closedAtKnown && !(o.cycle.Some? && o.closeFails))
  {
  }

  predicate UnfinishedOf(w: World, t: TicketId, c: CycleId) {
    c in w.cycles && w.cycles[c].ticket == t && w.cycles[c].state in {CycleQueued, CycleAssigned}
  }

  predicate AssignedOf(w: World, t: TicketId, c: CycleId) {
    c in w.assignments && w.assignments[c].ticket == t
  }

  /** The rows it works on are the ticket's own: an unfinished cycle and an assignment, unless there is none. */
  ghost predicate OwnRows(w: World, o: Observation) {
    && (if o.cycle.Some? then UnfinishedOf(w, o.ticket, o.cycle.value) else forall c :: !UnfinishedOf(w, o.ticket, c))
    && (if o.assignedCycle.Some? then AssignedOf(w, o.ticket, o.assignedCycle.value)
        else forall c :: !AssignedOf(w, o.ticket, c))
  }

  /** A read lands exactly when it is applied under enforcement on its ticket's own rows; one that waits creates at most the occupancy row. */
  lemma ReadsLandIff(w: World, o: Observation)
    ensures Lands(w, o) <==> w.cfg.enforce && OwnRows(w, o) && ClassifyObservation(w, o) == Applied
    ensures !(w.cfg.enforce && OwnRows(w, o)) ==> Next(w, ObserveAct(o)) == w
    ensures w.cfg.enforce && OwnRows(w, o) && ClassifyObservation(w, o) in {NotCurrent, PendingClose} ==>
              Next(w, ObserveAct(o))
              == w.(ledger := w.ledger.(occupancy := w.ledger.occupancy[o.ticket := FoundRow(w, o.ticket)]))
  {
    hide ClassifyObservation, AppliedWorld, RejectedAgents;
    assert Picks(w, o) <==> OwnRows(w, o) by {
      assert forall c | c in w.cycles && w.cycles[c].ticket == o.ticket ::
          w.cycles[c].state == CycleClosed <==> !UnfinishedOf(w, o.ticket, c);
      assert forall c | c in w.assignments :: w.assignments[c].ticket == o.ticket <==> AssignedOf(w, o.ticket, c);
    }
    hide Picks, OwnRows;
    if o.ticket in w.ledger.occupancy {
      assert w.ledger.occupancy == w.ledger.occupancy[o.ticket := w.ledger.occupancy[o.ticket]];
    }
  }

  // ----- the ledger rows --------------------------------------------------

  /** How a reservation leaves an applied observation of its ticket. */
  function SettledState(r: Reservation, s: Snapshot, d: Directory): ReservationState {
    if r.state != Held then r.state
    else if !s.inSupport || s.closed then Released
    else if s.owner.Some? && r.agent in d.ownerOf && d.ownerOf[r.agent] == s.owner.value then Converted
    else Held
  }

  /** The occupancy becomes what was read, under the next revision; only its ticket's holds are settled. */
  lemma ObservationRows(w: World, o: Observation)
    requires Lands(w, o)
    ensures var m := Next(w, ObserveAct(o)).ledger;
            && m.occupancy.Keys == w.ledger.occupancy.Keys + {o.ticket}
            && m.occupancy[o.ticket].owner == o.snap.owner
            && m.occupancy[o.ticket].agent
               == (if o.snap.owner.Some? && o.snap.owner.value in w.cfg.dir.agentOf
                   then Some(w.cfg.dir.agentOf[o.snap.owner.value]) else None)
            && m.occupancy[o.ticket].state
               == (if !o.snap.inSupport then OutOfScope else if o.snap.closed then Closed
                   else if o.snap.owner.Some? then Active else Unassigned)
            && m.occupancy[o.ticket].revision == FoundRow(w, o.ticket).revision + 1
            && m.occupancy[o.ticket].providerUpdatedAt == o.snap.updatedAt
            && forall t | t in w.ledger.occupancy && t != o.ticket :: m.occupancy[t] == w.ledger.occupancy[t]
  {
    hide Picks, ClassifyObservation, ProjectOwner, ProjectClose, AssignedAgents, CapacityCount, SettleTicket, Affected;
  }

  lemma ObservationSettles(w: World, o: Observation)
    requires Lands(w, o)
    ensures var m := Next(w, ObserveAct(o)).ledger;
            && m.reservations.Keys == w.ledger.reservations.Keys
            && forall op | op in w.ledger.reservations ::
                 m.reservations[op] == if w.ledger.reservations[op].ticket != o.ticket then w.ledger.reservations[op]
                                       else w.ledger.reservations[op].(
                                       state := SettledState(w.ledger.reservations[op], o.snap, w.cfg.dir))
  {
    hide Picks, ClassifyObservation, ProjectOwner, ProjectClose, AssignedAgents, CapacityCount, Affected;
  }

  // ----- the projected rows -----------------------------------------------

  predicate ShowsOwner(o: Observation) {
    o.snap.inSupport && !o.snap.closed && o.snap.owner.Some?
  }

  /** The agent the directory knows for an owner. */
  function AgentFor(w: World, owner: OwnerId): Option<AgentId> {
    if owner in w.cfg.dir.agentOf then Some(w.cfg.dir.agentOf[owner]) else None
  }

  /** An attempt under way holds, or has converted, the ticket for the observed owner's own agent. */
  predicate UnderWay(w: World, o: Observation) {
    exists id | id in w.attempts ::
      && (w.attempts[id].state == AttemptReserved || w.attempts[id].state == ExternalApplied
          || w.attempts[id].state == RepairRequired)
      && ForAttempt(id) in w.ledger.reservations
      && w.ledger.reservations[ForAttempt(id)].ticket == o.ticket
      && w.ledger.reservations[ForAttempt(id)].state != Released
      && o.snap.owner.Some? && AgentFor(w, o.snap.owner.value) == Some(w.ledger.reservations[ForAttempt(id)].agent)
  }

  /** The queued cycle `c` of the ticket, its row still waiting, is there for the observed owner to take. */
  predicate Takes(w: World, o: Observation, c: CycleId) {
    && o.project && ShowsOwner(o)
    && o.assignedCycle.None? && o.cycle == Some(c)
    && c in w.cycles && w.cycles[c].state == CycleQueued
    && c in w.queue && (w.queue[c].status != Failed || w.queue[c].failure == ManualOwnerObserved)
    && !UnderWay(w, o)
  }

  /** The assignment of `c`, its ticket's own, shows another owner than was read. */
  predicate Moves(w: World, o: Observation, c: CycleId) {
    && o.project && ShowsOwner(o)
    && o.assignedCycle == Some(c) && o.cycle == Some(c)
    && c in w.assignments && w.assignments[c].owner != o.snap.owner.value
  }

  predicate Drops(o: Observation, c: CycleId) {
    o.project && o.snap.inSupport && !o.snap.closed && o.snap.owner.None? && o.assignedCycle == Some(c)
  }

  predicate Ends(w: World, o: Observation, c: CycleId) {
    LooksClosed(o) && o.cycle == Some(c) && c in w.cycles && w.cycles[c].state != CycleClosed
  }

  lemma TakesIsProjection(w: World, o: Observation)
    requires o.project && ShowsOwner(o) && o.assignedCycle.None?
    ensures ProjectsNewOwner(w, o) <==> o.cycle.Some? && Takes(w, o, o.cycle.value)
  {
    assert (exists id | id in w.attempts :: ProtectedBy(w, o, id)) <==> UnderWay(w, o);
  }

  lemma EnterKeepsProjection(w: World, o: Observation)
    ensures var e := Enter(w, o.ticket);
            ProjectsNewOwner(e, o) <==> ProjectsNewOwner(w, o)
  {
    var e := Enter(w, o.ticket);
    assert forall id :: ProtectedBy(e, o, id) <==> ProtectedBy(w, o, id);
  }

  function Projected(w: World, o: Observation): World {
    ProjectClose(if o.project then ProjectOwner(w, o) else w, o)
  }

  predicate SameRows(w: World, v: World) {
    v.assignments == w.assignments && v.queue == w.queue && v.cycles == w.cycles
  }

  lemma LandsAs(w: World, o: Observation)
    requires Lands(w, o)
    ensures o.ticket in Enter(w, o.ticket).ledger.occupancy
    ensures Next(w, ObserveAct(o)) == AppliedWorld(Enter(w, o.ticket), o)
  {
    hide AppliedWorld, Picks, ClassifyObservation;
  }

  lemma AppliedRows(e: World, o: Observation)
    requires o.ticket in e.ledger.occupancy
    ensures SameRows(Projected(e, o), AppliedWorld(e, o))
  {
    hide ProjectOwner, ProjectClose, ApplyObservation, AssignedAgents, StampAgent;
  }

  lemma OwnersProject(w: World, v: World, o: Observation)
    requires SameRows(w, v) && v.cfg == w.cfg && (ProjectsNewOwner(v, o) <==> ProjectsNewOwner(w, o))
    ensures SameRows(ProjectOwner(w, o), ProjectOwner(v, o))
  {
    if ProjectsNewOwner(w, o) {
      assert o.cycle.value in w.cycles;
    }
    hide ProjectsNewOwner;
  }

  lemma ClosesProject(w: World, v: World, o: Observation)
    requires SameRows(w, v)
    ensures SameRows(ProjectClose(w, o), ProjectClose(v, o))
  {
  }

  lemma EnterKeepsRows(w: World, t: TicketId)
    ensures SameRows(w, Enter(w, t)) && Enter(w, t).cfg == w.cfg
  {
    hide EnsureRow;
  }

  /** The rows an observation projects do not depend on the occupancy row it may create. */
  lemma EnterProjects(w: World, o: Observation)
    ensures SameRows(Projected(w, o), Projected(Enter(w, o.ticket), o))
  {
    hide ProjectOwner, ProjectClose, Enter, ProjectsNewOwner, SameRows;
    var e := Enter(w, o.ticket);
    EnterKeepsProjection(w, o);
    EnterKeepsRows(w, o.ticket);
    OwnersProject(w, e, o);
    ClosesProject(if o.project then ProjectOwner(w, o) else w, if o.project then ProjectOwner(e, o) else e, o);
  }

  lemma LandedTables(w: World, o: Observation)
    requires Lands(w, o)
    ensures SameRows(Projected(w, o), Next(w, ObserveAct(o)))
  {
    hide Next, Lands, Projected, Enter, AppliedWorld;
    LandsAs(w, o);
    AppliedRows(Enter(w, o.ticket), o);
    EnterProjects(w, o);
  }

  lemma ProjectedCycle(w: World, o: Observation)
    ensures o.project && ShowsOwner(o) && o.assignedCycle.None? ==>
              (ProjectsNewOwner(w, o) <==> o.cycle.Some? && Takes(w, o, o.cycle.value))
  {
    if o.project && ShowsOwner(o) && o.assignedCycle.None? {
      TakesIsProjection(w, o);
    }
  }

  /** Which assignment rows an observation writes or removes, and what it writes. */
  lemma ObservationProjects(w: World, o: Observation, c: CycleId)
    requires Lands(w, o)
    ensures var v := Next(w, ObserveAct(o));
            && (Takes(w, o, c) || Moves(w, o, c) ==>
                  c in v.assignments && v.assignments[c] == AssignedRow(o.ticket, AgentFor(w, o.snap.owner.value), o.snap.owner.value))
            && (Drops(o, c) || Ends(w, o, c) ==> c !in v.assignments)
            && (!Takes(w, o, c) && !Moves(w, o, c) && !Drops(o, c) && !Ends(w, o, c) ==>
                  && (c in v.assignments <==> c in w.assignments)
                  && (c in w.assignments ==> v.assignments[c] == w.assignments[c]))
  {
    hide Next, Lands, ProjectsNewOwner, UnderWay;
    LandedTables(w, o);
    ProjectedCycle(w, o);
  }

  /** A new owner takes the queue row and assigns the cycle; a close ends both; nothing else touches them. */
  lemma ObservationMovesCycle(w: World, o: Observation, c: CycleId)
    requires Lands(w, o)
    ensures var v := Next(w, ObserveAct(o));
            if Takes(w, o, c) || Ends(w, o, c) then c !in v.queue
            else (c in v.queue <==> c in w.queue) && (c in w.queue ==> v.queue[c] == w.queue[c])
    ensures var v := Next(w, ObserveAct(o));
            && (c in v.cycles <==> c in w.cycles)
            && (c in w.cycles ==>
                  v.cycles[c] == w.cycles[c].(state := if Takes(w, o, c) then CycleAssigned
                                                       else if Ends(w, o, c) then CycleClosed else w.cycles[c].state))
  {
    hide Next, Lands, ProjectsNewOwner, UnderWay;
    LandedTables(w, o);
    ProjectedCycle(w, o);
  }

  // ----- a rejected read --------------------------------------------------

  /** The agents of the ticket's assignments that the write transaction has looked at. */
  predicate LooksAtAssigned(w: World, o: Observation, a: AgentId) {
    exists c | c in w.assignments ::
      && w.assignments[c].agent == Some(a)
      && if o.project then o.assignedCycle == Some(c) else w.assignments[c].ticket == o.ticket
  }

  /** Whoever an incomplete or out-of-date read, or a close that cannot be written, may concern. */
  predicate Concerns(w: World, o: Observation, a: AgentId) {
    || a in o.captured
    || (&& o.snap.complete
        && (|| FoundRow(w, o.ticket).agent == Some(a)
            || (o.snap.owner.Some? && AgentFor(w, o.snap.owner.value) == Some(a))
            || (UpToDate(w, o) && LooksAtAssigned(w, o, a))))
  }

  lemma ConcernsIsRejected(w: World, o: Observation, a: AgentId)
    ensures a in RejectedAgents(w, o) <==> Concerns(w, o, a)
  {
    if LooksAtAssigned(w, o, a) {
      var c :| c in w.assignments && w.assignments[c].agent == Some(a)
               && if o.project then o.assignedCycle == Some(c) else w.assignments[c].ticket == o.ticket;
      assert a in AssignedAgents(w, o);
    }
  }

  /** A rejected read degrades exactly the agents it concerns, and writes nothing else. */
  lemma RejectionDegrades(w: World, o: Observation, a: AgentId)
    requires w.cfg.enforce && Picks(w, o) && ClassifyObservation(w, o) == Rejected && a in w.ledger.agents
    ensures var v := Next(w, ObserveAct(o));
            && v == w.(ledger := w.ledger.(agents := v.ledger.agents)) && v.ledger.agents.Keys == w.ledger.agents.Keys
            && v.ledger.agents[a] == if Concerns(w, o, a)
                                     then w.ledger.agents[a].(readiness := Degraded, revision := w.ledger.agents[a].revision + 1)
                                     else w.ledger.agents[a]
  {
    ConcernsIsRejected(w, o, a);
    hide Picks, ClassifyObservation, RejectedAgents, Concerns;
  }

  /** An owner that is new to the ticket is its agent's newest assignment; nobody else is stamped. */
  lemma ObservationStamps(w: World, o: Observation, a: AgentId)
    requires Lands(w, o) && a in w.ledger.agents
    ensures var m := Next(w, ObserveAct(o)).ledger;
            && a in m.agents
            && m.agents[a].lastAssignedAt
               == if ShowsOwner(o) && AgentFor(w, o.snap.owner.value) == Some(a) && FoundRow(w, o.ticket).owner != o.snap.owner
                  then Some(w.now) else w.ledger.agents[a].lastAssignedAt
  {
    hide Picks, ClassifyObservation, ProjectOwner, ProjectClose, AssignedAgents, CapacityCount, SettleTicket, Affected;
  }

  /** Somebody the ticket was, is or will be counted for, or who is assigned it. */
  predicate Touches(w: World, o: Observation, a: AgentId) {
    || a in o.captured
    || FoundRow(w, o.ticket).agent == Some(a)
    || (o.snap.owner.Some? && AgentFor(w, o.snap.owner.value) == Some(a))
    || LooksAtAssigned(w, o, a)
    || exists op | op in w.ledger.reservations :: w.ledger.reservations[op] == Reservation(o.ticket, a, Held)
  }

  lemma TouchedIsAffected(w: World, o: Observation, a: AgentId)
    requires Picks(w, o)
    ensures var l := EnsureRow(w.ledger, o.ticket);
            a in Affected(l, o.ticket, o.snap, w.cfg.dir, o.captured + AssignedAgents(w, o)) <==> Touches(w, o, a)
  {
    hide Picks;
    var l := EnsureRow(w.ledger, o.ticket);
    assert (exists op | op in w.ledger.reservations :: w.ledger.reservations[op] == Reservation(o.ticket, a, Held))
        <==> a in HoldersOf(l, o.ticket);
    assert LooksAtAssigned(w, o, a) <==> a in AssignedAgents(w, o) by {
      if LooksAtAssigned(w, o, a) {
        var c :| c in w.assignments && w.assignments[c].agent == Some(a)
                 && if o.project then o.assignedCycle == Some(c) else w.assignments[c].ticket == o.ticket;
        assert a in AssignedAgents(w, o);
      }
    }
  }

  /** An applied read moves the generation of exactly the agents it touches, and nobody's standing. */
  lemma ReadReprojects(w: World, o: Observation, a: AgentId)
    requires Lands(w, o) && a in w.ledger.agents
    ensures var m := Next(w, ObserveAct(o)).ledger;
            && a in m.agents
            && m.agents[a].revision == w.ledger.agents[a].revision + (if Touches(w, o, a) then 1 else 0)
            && m.agents[a].readiness == w.ledger.agents[a].readiness
            && m.agents[a].reconciledAt == w.ledger.agents[a].reconciledAt && m.agents[a].total == w.ledger.agents[a].total
  {
    hide Affected, AssignedAgents, Picks, ClassifyObservation, ProjectOwner, ProjectClose, CapacityCount, Touches, ObservedRow,
      SettleTicket;
    TouchedIsAffected(w, o, a);
    EnterKeepsAssigned(w, o);
  }

  lemma EnterKeepsAssigned(w: World, o: Observation)
    ensures AssignedAgents(Enter(w, o.ticket), o) == AssignedAgents(w, o)
    ensures w.cfg.enforce ==> Enter(w, o.ticket).ledger == EnsureRow(w.ledger, o.ticket)
  {
  }

  // ----- the law ----------------------------------------------------------

  /** Every assignment names the agent its owner belongs to. */
  ghost predicate Named(w: World) {
    forall c | c in w.assignments :: w.assignments[c].agent == AgentFor(w, w.assignments[c].owner)
  }

  lemma FinalizeNames(w: World, id: AttemptId)
    requires Linked(w) && Named(w)
    ensures Named(Next(w, FinalizeAct(id)))
  {
    if id in w.attempts {
      EnterIsIdle(w, id);
    }
  }

  lemma OthersKeepAssignments(w: World, act: Act)
    requires !act.FinalizeAct? && !act.ObserveAct? && !act.CloseAct?
    ensures Next(w, act).assignments == w.assignments
  {
    hide ClassifyReserve, TakeCapacity, CanTransfer, CanRetry, Hold, HasRoom, EnsureRow, Degrade, ReleaseCapacity, RetryDelay, LiveAlone;
  }

  lemma StepKeepsNamed(w: World, act: Act)
    requires Linked(w) && Named(w)
    ensures Named(Next(w, act))
  {
    hide Next, Linked, Lands, AgentFor;
    var v := Next(w, act);
    StepKeepsConfig(w, act);
    SameNames(w, v);
    match act
    case FinalizeAct(id) => FinalizeNames(w, id);
    case CloseAct(c) => CloseOnlyDrops(w, c);
    case ObserveAct(o) =>
      if Lands(w, o) {
        forall c | c in v.assignments
          ensures v.assignments[c].agent == AgentFor(w, v.assignments[c].owner)
        {
          ObservationProjects(w, o, c);
        }
      } else {
        RejectedKeepsAssignments(w, o);
      }
    case _ => OthersKeepAssignments(w, act);
  }

  lemma SameNames(w: World, v: World)
    requires v.cfg == w.cfg
    ensures forall owner :: AgentFor(v, owner) == AgentFor(w, owner)
  {
  }

  lemma CloseOnlyDrops(w: World, c: CycleId)
    ensures var v := Next(w, CloseAct(c));
            forall d | d in v.assignments :: d in w.assignments && v.assignments[d] == w.assignments[d]
  {
    hide AddChats;
  }

  lemma RejectedKeepsAssignments(w: World, o: Observation)
    requires !Lands(w, o)
    ensures Next(w, ObserveAct(o)).assignments == w.assignments
  {
    hide Picks, ClassifyObservation, AppliedWorld, EnsureRow, Degrade, RejectedAgents;
  }

  /** In every run from the start each assignment names its owner's agent. */
  lemma {:induction false} RunKeepsNamed(w: World, acts: seq<Act>)
    requires Linked(w) && Named(w)
    ensures Linked(Run(w, acts)) && Named(Run(w, acts))
    decreases |acts|
  {
    if acts != [] {
      hide Next, Linked, Named;
      RunKeepsNamed(w, acts[..|acts| - 1]);
      StepKeepsLinks(Run(w, acts[..|acts| - 1]), acts[|acts| - 1]);
      StepKeepsNamed(Run(w, acts[..|acts| - 1]), acts[|acts| - 1]);
    }
  }

  /**
   In every reachable state an applied read of an owner leaves the assignment it
   concerns, new or already there, with the owner and the agent of its ticket's
   occupancy.
   */
  lemma AssignmentFollowsOccupancy(cfg: Config, acts: seq<Act>, o: Observation, c: CycleId)
    requires cfg.dir.Injective() && Lands(Run(Start(cfg), acts), o) && o.project && ShowsOwner(o)
    requires Takes(Run(Start(cfg), acts), o, c)
             || (o.assignedCycle == Some(c) && o.cycle == Some(c) && c in Run(Start(cfg), acts).assignments)
    ensures var v := Run(Start(cfg), acts + [ObserveAct(o)]);
            && c in v.assignments && o.ticket in v.ledger.occupancy
            && v.ledger.occupancy[o.ticket].owner == Some(v.assignments[c].owner)
            && v.ledger.occupancy[o.ticket].agent == v.assignments[c].agent
  {
    hide Next, Linked, Run, Start, Lands, Named, Takes, Moves;
    var w := Run(Start(cfg), acts);
    var v := Next(w, ObserveAct(o));
    assert (acts + [ObserveAct(o)])[..|acts|] == acts;
    RunOfOneMore(Start(cfg), acts, ObserveAct(o));
    StartIsNamed(cfg);
    RunKeepsNamed(Start(cfg), acts);
    StepKeepsNamed(w, ObserveAct(o));
    StepKeepsConfig(w, ObserveAct(o));
    ObservationRows(w, o);
    ObservationProjects(w, o, c);
    KeptOwner(w, o, c);
    NamedAgent(v, c);
    SameNames(w, v);
  }

  lemma StartIsNamed(cfg: Config)
    requires cfg.dir.Injective()
    ensures Linked(Start(cfg)) && Named(Start(cfg))
  {
  }

  lemma RunOfOneMore(w: World, acts: seq<Act>, act: Act)
    ensures Run(w, acts + [act]) == Next(Run(w, acts), act)
  {
    hide Next;
    assert (acts + [act])[..|acts + [act]| - 1] == acts;
  }

  /** Where nothing is written, the owner was the one read. */
  lemma KeptOwner(w: World, o: Observation, c: CycleId)
    requires o.project && ShowsOwner(o)
    requires !Takes(w, o, c) && !Moves(w, o, c) ==> o.assignedCycle == Some(c) && o.cycle == Some(c) && c in w.assignments
    ensures !Takes(w, o, c) && !Moves(w, o, c) ==>
              w.assignments[c].owner == o.snap.owner.value && !Drops(o, c) && !Ends(w, o, c)
  {
    hide Takes;
  }

  lemma NamedAgent(v: World, c: CycleId)
    requires Named(v)
    ensures c in v.assignments ==> v.assignments[c].agent == AgentFor(v, v.assignments[c].owner)
  {
  }
}
