/**
 Who may be given capacity: the checks of a reservation read off the rows themselves,
 and what they mean over a run.
 */
module CapacityGate {
  import opened Base
  import opened CapacityLedger
  import opened LedgerChanges
  import opened AssignmentProtocol
  import opened AssignmentInvariants
  import opened AssignmentSteps
  import opened AssignmentSafety

  /** The tickets that count against an agent: active ones it occupies, and ones held for it. */
  function CountedTickets(l: Ledger, a: AgentId): set<TicketId> {
    (set t | t in l.occupancy && l.occupancy[t].state == Active && l.occupancy[t].agent == Some(a))
    + (set op | op in l.reservations && l.reservations[op].state == Held && l.reservations[op].agent == a
       :: l.reservations[op].ticket)
  }

  /** Marked ready, reconciled no longer ago than the freshness allows, and below its maximum. */
  predicate OpenFor(w: World, a: AgentId) {
    && a in w.ledger.agents && a in w.cfg.dir.maxChats
    && w.ledger.agents[a].readiness == Ready
    && w.ledger.agents[a].reconciledAt.Some?
    && w.now - w.ledger.agents[a].reconciledAt.value <= w.cfg.freshness
    && |CountedTickets(w.ledger, a)| < w.cfg.dir.maxChats[a]
  }

  /** Without enforcement the stored counter decides; a maximum of zero stands for five. */
  predicate BelowLimit(w: World, a: AgentId) {
    && a in w.ledger.agents && a in w.cfg.dir.maxChats
    && (w.ledger.agents[a].chats < w.cfg.dir.maxChats[a]
        || (w.cfg.dir.maxChats[a] == 0 && w.ledger.agents[a].chats < 5))
  }

  lemma RoomIsOpen(w: World, a: AgentId)
    ensures HasRoom(w, a) <==> if w.cfg.enforce then OpenFor(w, a) else BelowLimit(w, a)
  {
    assert CapacitySet(w.ledger, a) == CountedTickets(w.ledger, a);
  }

  // ----- every branch of a reservation ------------------------------------

  predicate Waiting(row: QueueRow, now: nat) {
    && row.eligible && row.status != Failed
    && (row.nextAttemptAt.Some? ==> row.nextAttemptAt.value <= now)
    && (row.claimExpiresAt.Some? ==> row.claimExpiresAt.value <= now)
  }

  predicate Reachable(w: World, r: ReserveRequest) {
    && r.cycle in w.queue && r.cycle in w.cycles
    && (r.kind == Automatic ==> Waiting(w.queue[r.cycle], w.now))
  }

  /** The row is reached, no barrier defers it, and its cycle still waits for an owner. */
  predicate Reservable(w: World, r: ReserveRequest) {
    Reachable(w, r) && !(r.kind == Automatic && r.deferred) && w.cycles[r.cycle].state == CycleQueued
  }

  predicate AttemptIn(w: World, c: CycleId, states: set<AttemptState>) {
    exists id | id in w.attempts :: w.attempts[id].cycle == c && w.attempts[id].state in states
  }

  const UNFINISHED: set<AttemptState> := {AttemptReserved, ExternalApplied, Compensating, Retryable, RepairRequired}

  /** Neither finished nor under way: the cycle is free for a new attempt of this kind of request. */
  predicate CycleFree(w: World, r: ReserveRequest) {
    && !(r.kind == Automatic && AttemptIn(w, r.cycle, {Completed}))
    && !AttemptIn(w, r.cycle, UNFINISHED)
  }

  predicate AgentPasses(w: World, r: ReserveRequest) {
    && r.eligible && r.agent in w.cfg.dir.ownerOf
    && if w.cfg.enforce then OpenFor(w, r.agent) else BelowLimit(w, r.agent)
  }

  predicate KeyFree(w: World, r: ReserveRequest) {
    && r.id !in w.attempts
    && forall id | id in w.attempts :: !(w.attempts[id].cycle == r.cycle && w.attempts[id].kind == r.kind)
  }

  lemma AttemptsOf(w: World, c: CycleId)
    ensures CompletedOn(w, c) != {} <==> AttemptIn(w, c, {Completed})
    ensures LiveOn(w, c) != {} <==> AttemptIn(w, c, UNFINISHED)
  {
    if AttemptIn(w, c, {Completed}) {
      var id :| id in w.attempts && w.attempts[id].cycle == c && w.attempts[id].state in {Completed};
      assert id in CompletedOn(w, c);
    }
    if AttemptIn(w, c, UNFINISHED) {
      var id :| id in w.attempts && w.attempts[id].cycle == c && w.attempts[id].state in UNFINISHED;
      assert id in LiveOn(w, c);
    }
  }

  /**
   Which answer a reservation gets, in the order of its checks: a ready and freshly
   reconciled agent with room is the whole of what capacity asks for.
   */
  lemma ReservationAnswers(w: World, r: ReserveRequest)
    ensures ClassifyReserve(w, r) == RowUnavailable <==> !Reachable(w, r)
    ensures ClassifyReserve(w, r) == DeferredByBarrier <==> Reachable(w, r) && r.kind == Automatic && r.deferred
    ensures ClassifyReserve(w, r) == StaleCycleRow <==>
            Reachable(w, r) && !(r.kind == Automatic && r.deferred) && w.cycles[r.cycle].state != CycleQueued
    ensures ClassifyReserve(w, r) == CompletedSameCycle <==>
            Reservable(w, r) && r.kind == Automatic && AttemptIn(w, r.cycle, {Completed})
    ensures ClassifyReserve(w, r) == ExistingAttempt <==>
            Reservable(w, r) && AttemptIn(w, r.cycle, UNFINISHED) && !(r.kind == Automatic && AttemptIn(w, r.cycle, {Completed}))
    ensures ClassifyReserve(w, r) == CandidateRejected <==> Reservable(w, r) && CycleFree(w, r) && !AgentPasses(w, r)
    ensures ClassifyReserve(w, r) == KeyTaken <==> Reservable(w, r) && CycleFree(w, r) && AgentPasses(w, r) && !KeyFree(w, r)
    ensures ClassifyReserve(w, r) == Granted <==> Reservable(w, r) && CycleFree(w, r) && AgentPasses(w, r) && KeyFree(w, r)
  {
    AttemptsOf(w, r.cycle);
    RoomIsOpen(w, r.agent);
    hide AttemptIn, LiveOn, CompletedOn, HasRoom, OpenFor, BelowLimit;
  }

  /** A retry goes ahead exactly for a released retryable attempt of an open agent. */
  lemma RetryAnswers(w: World, id: AttemptId, eligible: bool)
    ensures CanRetry(w, id, eligible) <==>
            && id in w.attempts && w.attempts[id].state == Retryable && eligible
            && (w.cfg.enforce ==>
                  && ForAttempt(id) in w.ledger.reservations
                  && w.ledger.reservations[ForAttempt(id)].state == Released
                  && OpenFor(w, w.attempts[id].agent))
  {
    if id in w.attempts {
      RoomIsOpen(w, w.attempts[id].agent);
    }
    hide HasRoom, OpenFor, BelowLimit;
  }

  /** A transfer goes ahead exactly for an active, assigned, otherwise idle ticket and an open agent that does not own it. */
  lemma TransferAnswers(w: World, t: TicketId, transfer: TransferId, target: AgentId, revision: nat)
    ensures CanTransfer(w, t, transfer, target, revision) <==>
            && w.cfg.enforce
            && t in w.ledger.occupancy
            && w.ledger.occupancy[t].revision == revision && w.ledger.occupancy[t].state == Active
            && (exists c | c in w.assignments :: w.assignments[c].ticket == t)
            && target in w.cfg.dir.ownerOf && w.ledger.occupancy[t].owner != Some(w.cfg.dir.ownerOf[target])
            && (forall op | op in w.ledger.reservations && w.ledger.reservations[op].state == Held ::
                  w.ledger.reservations[op].ticket != t)
            && ForTransfer(transfer) !in w.ledger.reservations
            && OpenFor(w, target)
  {
    RoomIsOpen(w, target);
    NoHolders(w.ledger, t);
    hide HasRoom, OpenFor, BelowLimit, HoldersOf;
  }

  lemma NoHolders(l: Ledger, t: TicketId)
    ensures HoldersOf(l, t) == {} <==>
            forall op | op in l.reservations && l.reservations[op].state == Held :: l.reservations[op].ticket != t
  {
    if op :| op in l.reservations && l.reservations[op].state == Held && l.reservations[op].ticket == t {
      assert l.reservations[op].agent in HoldersOf(l, t);
    }
  }

  // ----- no hold without an open agent ------------------------------------

  /** The transaction leaves an operation held that was not held before it. */
  predicate NewlyHeld(w: World, act: Act, op: Operation) {
    && op in Next(w, act).ledger.reservations
    && Next(w, act).ledger.reservations[op].state == Held
    && !(op in w.ledger.reservations && w.ledger.reservations[op].state == Held)
  }

  lemma HoldsAreAnswered(w: World, act: Act)
    requires w.cfg.enforce && ChangeOf(w, act).Holds?
    ensures OpenFor(w, ChangeOf(w, act).agent)
  {
    hide OpenFor, BelowLimit, HasRoom, LiveOn, CompletedOn, KeyUsed, RowReady, Picks, ClassifyObservation, HoldersOf;
    match act
    case ReserveAct(r) => RoomIsOpen(w, r.agent);
    case RetryAct(id, _) => RoomIsOpen(w, w.attempts[id].agent);
    case TransferAct(_, _, target, _) => RoomIsOpen(w, target);
    case _ =>
  }

  lemma HeldAgent(l: Ledger, ch: Change, d: Directory)
    requires ch.Holds? && Lawful(l, ch)
    requires ch.op in ApplyChange(l, ch, d).reservations
    ensures ApplyChange(l, ch, d).reservations[ch.op].agent == ch.agent
  {
    hide CapacityCount;
  }

  /** Whatever transaction takes a hold, its agent is ready, freshly reconciled and below its maximum. */
  lemma NewHoldsNeedOpenAgents(w: World, act: Act, op: Operation)
    requires Linked(w) && w.cfg.enforce && NewlyHeld(w, act, op)
    ensures OpenFor(w, Next(w, act).ledger.reservations[op].agent)
  {
    var ch := ChangeOf(w, act);
    StepIsAChange(w, act);
    hide Next, Linked, ChangeOf, OpenFor, ApplyChange, Lawful;
    HeldOnlyByHolds(w.ledger, ch, w.cfg.dir, op);
    HeldAgent(w.ledger, ch, w.cfg.dir);
    HoldsAreAnswered(w, act);
  }

  // ----- what ready means over a run --------------------------------------

  predicate ReadyIn(w: World, a: AgentId) {
    a in w.ledger.agents && w.ledger.agents[a].readiness == Ready
  }

  /** Only marking makes an agent ready, at that moment; every other transaction keeps the mark or degrades. */
  lemma ReadyMoves(w: World, act: Act, a: AgentId)
    requires Linked(w) && w.cfg.enforce && a in w.ledger.agents
    ensures a in Next(w, act).ledger.agents
    ensures act == ReadyAct(a) ==> ReadyIn(Next(w, act), a) && Next(w, act).ledger.agents[a].reconciledAt == Some(w.now)
    ensures act != ReadyAct(a) && ReadyIn(Next(w, act), a) ==>
              ReadyIn(w, a) && Next(w, act).ledger.agents[a].reconciledAt == w.ledger.agents[a].reconciledAt
  {
    var ch := ChangeOf(w, act);
    StepIsAChange(w, act);
    ReadyChange(w, act, a);
    hide Next, Linked, ChangeOf, ApplyChange;
    ChangeKeepsAgents(w.ledger, ch, w.cfg.dir);
    StandingAfter(w.ledger, ch, w.cfg.dir, a);
  }

  lemma ReadyChange(w: World, act: Act, a: AgentId)
    ensures act == ReadyAct(a) ==> ChangeOf(w, act) == Readies(a, w.now)
    ensures act != ReadyAct(a) ==> !(ChangeOf(w, act).Readies? && ChangeOf(w, act).agent == a)
  {
    hide ClassifyReserve, CanRetry, CanTransfer, Picks, ClassifyObservation, AssignedAgents, RejectedAgents, CompensationIgnored;
  }

  lemma StandingAfter(l: Ledger, ch: Change, d: Directory, a: AgentId)
    requires a in l.agents
    ensures a in ApplyChange(l, ch, d).agents
    ensures var row := ApplyChange(l, ch, d).agents[a];
            && (ch.Readies? && ch.agent == a ==> row.readiness == Ready && row.reconciledAt == Some(ch.now))
            && (!(ch.Readies? && ch.agent == a) && row.readiness == Ready ==>
                  l.agents[a].readiness == Ready && row.reconciledAt == l.agents[a].reconciledAt)
  {
    hide CapacityCount;
  }

  /** Transaction `k` of the run marked the agent ready, and no later one marked or degraded it. */
  ghost predicate MarkedAt(cfg: Config, acts: seq<Act>, a: AgentId, k: nat) {
    && k < |acts| && acts[k] == ReadyAct(a)
    && KeptReady(cfg, acts, a, k)
    && NotMarkedAfter(acts, a, k)
    && a in Run(Start(cfg), acts).ledger.agents
    && Run(Start(cfg), acts).ledger.agents[a].reconciledAt == Some(Run(Start(cfg), acts[..k]).now)
  }

  ghost predicate KeptReady(cfg: Config, acts: seq<Act>, a: AgentId, k: nat) {
    forall j | k < j <= |acts| :: ReadyIn(Run(Start(cfg), acts[..j]), a)
  }

  lemma KeptReadyExtends(cfg: Config, acts: seq<Act>, a: AgentId, k: nat)
    requires acts != [] && KeptReady(cfg, acts[..|acts| - 1], a, k) && ReadyIn(Run(Start(cfg), acts), a)
    ensures KeptReady(cfg, acts, a, k)
  {
    hide Run, Start, ReadyIn;
    var front := acts[..|acts| - 1];
    forall j | k < j <= |acts|
      ensures ReadyIn(Run(Start(cfg), acts[..j]), a)
    {
      if j == |acts| {
        assert acts[..j] == acts;
      } else {
        assert front[..j] == acts[..j];
      }
    }
  }

  predicate NotMarkedAfter(acts: seq<Act>, a: AgentId, k: nat) {
    forall j | k < j < |acts| :: acts[j] != ReadyAct(a)
  }

  lemma NotMarkedExtends(acts: seq<Act>, a: AgentId, k: nat)
    requires acts != [] && NotMarkedAfter(acts[..|acts| - 1], a, k) && acts[|acts| - 1] != ReadyAct(a)
    ensures NotMarkedAfter(acts, a, k)
  {
    var front := acts[..|acts| - 1];
    forall j | k < j < |acts|
      ensures acts[j] != ReadyAct(a)
    {
      assert j < |front| ==> front[j] == acts[j];
    }
  }

  lemma MarkExtends(cfg: Config, acts: seq<Act>, a: AgentId, k: nat)
    requires acts != [] && MarkedAt(cfg, acts[..|acts| - 1], a, k) && acts[|acts| - 1] != ReadyAct(a)
    requires ReadyIn(Run(Start(cfg), acts), a)
    requires a in Run(Start(cfg), acts[..|acts| - 1]).ledger.agents
    requires Run(Start(cfg), acts).ledger.agents[a].reconciledAt
             == Run(Start(cfg), acts[..|acts| - 1]).ledger.agents[a].reconciledAt
    ensures MarkedAt(cfg, acts, a, k)
  {
    hide Run, Start, KeptReady, NotMarkedAfter;
    KeptReadyExtends(cfg, acts, a, k);
    NotMarkedExtends(acts, a, k);
    assert acts[..|acts| - 1][..k] == acts[..k];
  }

  lemma MarkNow(cfg: Config, acts: seq<Act>, a: AgentId)
    requires acts != [] && acts[|acts| - 1] == ReadyAct(a)
    requires ReadyIn(Run(Start(cfg), acts), a)
    requires Run(Start(cfg), acts).ledger.agents[a].reconciledAt == Some(Run(Start(cfg), acts[..|acts| - 1]).now)
    ensures MarkedAt(cfg, acts, a, |acts| - 1)
  {
    hide Run;
    assert acts[..|acts|] == acts;
  }

  lemma StartReady(cfg: Config, a: AgentId)
    ensures !ReadyIn(Start(cfg), a)
  {
  }

  /** A ready agent was marked ready by some transaction since which nothing degraded it. */
  lemma {:induction false} ReadySince(cfg: Config, acts: seq<Act>, a: AgentId)
    requires cfg.enforce && Linked(Start(cfg)) && a in Start(cfg).ledger.agents
    ensures Linked(Run(Start(cfg), acts)) && Run(Start(cfg), acts).cfg == Start(cfg).cfg
    ensures a in Run(Start(cfg), acts).ledger.agents
    ensures ReadyIn(Run(Start(cfg), acts), a) ==> exists k: nat :: MarkedAt(cfg, acts, a, k)
    decreases |acts|
  {
    hide Next, Linked, Start, MarkedAt, ReadyIn;
    if acts == [] {
      StartReady(cfg, a);
    } else {
      var front := acts[..|acts| - 1];
      var v := Run(Start(cfg), front);
      var act := acts[|acts| - 1];
      ReadySince(cfg, front, a);
      StepKeepsLinks(v, act);
      StepKeepsConfig(v, act);
      StartEnforces(cfg);
      ReadyMoves(v, act, a);
      if ReadyIn(Run(Start(cfg), acts), a) {
        if act == ReadyAct(a) {
          MarkNow(cfg, acts, a);
        } else {
          var k: nat :| MarkedAt(cfg, front, a, k);
          MarkExtends(cfg, acts, a, k);
        }
      }
    }
  }

  lemma StartEnforces(cfg: Config)
    ensures Start(cfg).cfg == cfg
  {
  }

  lemma StartIsLinked(cfg: Config)
    requires cfg.dir.Injective()
    ensures Linked(Start(cfg)) && Start(cfg).ledger.agents.Keys == cfg.dir.ownerOf.Keys
  {
  }

  /**
   In every enforcing run from the start, whoever is newly held a ticket was marked
   ready by a scan no longer ago than the freshness allows, and no transaction has
   degraded it since.
   */
  lemma HoldersAreFresh(cfg: Config, acts: seq<Act>, act: Act, op: Operation)
    requires cfg.dir.Injective() && cfg.enforce
    requires NewlyHeld(Run(Start(cfg), acts), act, op)
    ensures var w := Run(Start(cfg), acts);
            var a := Next(w, act).ledger.reservations[op].agent;
            exists k: nat :: MarkedAt(cfg, acts, a, k) && w.now - Run(Start(cfg), acts[..k]).now <= cfg.freshness
  {
    hide Next, Linked, Run, Start, NewlyHeld, MarkedAt;
    var w := Run(Start(cfg), acts);
    StartIsLinked(cfg);
    StartEnforces(cfg);
    RunLinks(cfg, acts);
    NewHoldsNeedOpenAgents(w, act, op);
    HeldIsKnown(w, act, op);
    var a := Next(w, act).ledger.reservations[op].agent;
    ReadySince(cfg, acts, a);
    var k: nat :| MarkedAt(cfg, acts, a, k);
    MarkTime(cfg, acts, a, k);
  }

  lemma MarkTime(cfg: Config, acts: seq<Act>, a: AgentId, k: nat)
    requires MarkedAt(cfg, acts, a, k)
    ensures k < |acts| && a in Run(Start(cfg), acts).ledger.agents
    ensures Run(Start(cfg), acts).ledger.agents[a].reconciledAt == Some(Run(Start(cfg), acts[..k]).now)
  {
  }

  lemma HeldIsKnown(w: World, act: Act, op: Operation)
    requires NewlyHeld(w, act, op)
    ensures op in Next(w, act).ledger.reservations
  {
  }

  lemma {:induction false} RunLinks(cfg: Config, acts: seq<Act>)
    requires Linked(Start(cfg))
    ensures Linked(Run(Start(cfg), acts)) && Run(Start(cfg), acts).cfg == Start(cfg).cfg
    ensures Run(Start(cfg), acts).ledger.agents.Keys == Start(cfg).ledger.agents.Keys
    decreases |acts|
  {
    hide Next, Linked, Start;
    LinksKnowAgents(Start(cfg));
    if acts != [] {
      RunLinks(cfg, acts[..|acts| - 1]);
      StepKeepsLinks(Run(Start(cfg), acts[..|acts| - 1]), acts[|acts| - 1]);
      StepKeepsConfig(Run(Start(cfg), acts[..|acts| - 1]), acts[|acts| - 1]);
      LinksKnowAgents(Run(Start(cfg), acts));
    }
  }
}
