/**
 Two-phase provider observations: capture a ticket revision under its lock, read
 the provider outside every lock, apply only if the revision still holds. Captures,
 reads, provider changes and every other transaction interleave freely.
 */
module ObservationFreshness {
  import opened Base
  import opened CapacityLedger
  import opened LedgerChanges
  import opened AssignmentProtocol
  import opened AssignmentInvariants
  import opened AssignmentSteps
  import opened AssignmentSafety

  type ReadId = nat

  datatype Phase = Waiting | Answered(position: nat, readAt: nat)

  /** One observation in flight. */
  datatype InFlight = InFlight(ticket: TicketId, captured: set<AgentId>, revision: nat, capturedAt: nat, phase: Phase)

  /**
   The world, each ticket's provider history, the observations in flight, and
   two records of the past: when each ticket last committed a hold or an
   observation, and which provider position it last applied.
   */
  datatype System = System(
    w: World,
    history: map<TicketId, seq<Snapshot>>,
    pending: map<ReadId, InFlight>,
    step: nat,
    commits: map<TicketId, nat>,
    positions: map<TicketId, nat>)

  datatype Event =
    | Transact(act: Act)
    | ProviderMoves(ticket: TicketId, snap: Snapshot)
    | Capture(read: ReadId, ticket: TicketId)
    | Answer(read: ReadId)
    | Apply(read: ReadId, hints: Observation)

  function RevisionOf(w: World, t: TicketId): nat {
    if t in w.ledger.occupancy then w.ledger.occupancy[t].revision else 0
  }

  function PositionOf(s: System, t: TicketId): Option<nat> {
    if t in s.positions then Some(s.positions[t]) else None
  }

  /** Tickets whose revision moved in this step now bear the step's number. */
  function Committed(s: System, v: World): map<TicketId, nat> {
    map t | t in s.commits.Keys + v.ledger.occupancy.Keys && (t in s.commits || RevisionOf(v, t) != RevisionOf(s.w, t)) ::
      if RevisionOf(v, t) != RevisionOf(s.w, t) then s.step else s.commits[t]
  }

  /** The observation a pending read brings to its write transaction. */
  function Built(s: System, r: ReadId, hints: Observation): Observation
    requires r in s.pending && s.pending[r].phase.Answered?
    requires s.pending[r].ticket in s.history && s.pending[r].phase.position < |s.history[s.pending[r].ticket]|
  {
    var p := s.pending[r];
    hints.(
    ticket := p.ticket,
    captured := p.captured,
    revision := p.revision,
    snap := s.history[p.ticket][p.phase.position])
  }

  predicate Answerable(s: System, r: ReadId) {
    && r in s.pending
    && s.pending[r].phase.Waiting?
    && s.pending[r].ticket in s.history
    && s.history[s.pending[r].ticket] != []
  }

  predicate Applicable(s: System, r: ReadId) {
    && r in s.pending
    && s.pending[r].phase.Answered?
    && s.pending[r].ticket in s.history
    && s.pending[r].phase.position < |s.history[s.pending[r].ticket]|
  }

  /** The observation passes every check made under the ticket lock. */
  predicate Lands(w: World, o: Observation) {
    w.cfg.enforce && Picks(w, o) && ClassifyObservation(w, o) == Applied
  }

  function NextEvent(s: System, e: Event): System {
    match e
    case Transact(act) =>
      if act.ObserveAct? then s
      else s.(w := Next(s.w, act), commits := Committed(s, Next(s.w, act)), step := s.step + 1)
    case ProviderMoves(t, snap) =>
      s.(history := s.history[t := (if t in s.history then s.history[t] else []) + [snap]], step := s.step + 1)
    case Capture(r, t) =>
      if r in s.pending then s
      else
        var v := Enter(s.w, t);
        var row := if t in v.ledger.occupancy then OptionSet(v.ledger.occupancy[t].agent) else {};
        s.(
        w := v,
        pending := s.pending[r := InFlight(t, row + HoldersOf(v.ledger, t), RevisionOf(v, t), s.step, Waiting)],
        commits := Committed(s, v),
        step := s.step + 1)
    case Answer(r) =>
      if !Answerable(s, r) then s
      else
        var p := s.pending[r];
        s.(
        pending := s.pending[r := p.(phase := Answered(|s.history[p.ticket]| - 1, s.step))],
        step := s.step + 1)
    case Apply(r, hints) =>
      if !Applicable(s, r) then s
      else
        var o := Built(s, r, hints);
        var v := Observe(s.w, o);
        s.(
        w := v,
        pending := s.pending - {r},
        commits := Committed(s, v),
        positions := if Lands(s.w, o) then s.positions[o.ticket := s.pending[r].phase.position] else s.positions,
        step := s.step + 1)
  }

  function RunEvents(s: System, events: seq<Event>): System
    decreases |events|
  {
    if events == [] then s else NextEvent(RunEvents(s, events[..|events| - 1]), events[|events| - 1])
  }

  // ----- invariant --------------------------------------------------------

  /** A pending read whose revision is still current began after the ticket's last commit. */
  ghost predicate ReadCurrent(s: System, p: InFlight) {
    && p.revision <= RevisionOf(s.w, p.ticket)
    && p.capturedAt < s.step
    && (p.phase.Answered? ==>
          && p.capturedAt < p.phase.readAt
          && p.ticket in s.history
          && p.phase.position < |s.history[p.ticket]|)
    && (p.revision == RevisionOf(s.w, p.ticket) ==>
          && (p.ticket in s.commits ==> s.commits[p.ticket] < p.capturedAt)
          && (p.ticket in s.positions && p.phase.Answered? ==> s.positions[p.ticket] <= p.phase.position))
  }

  ghost predicate Coherent(s: System) {
    && Linked(s.w)
    && s.w.cfg.enforce
    && (forall t | t in s.commits :: s.commits[t] < s.step)
    && (forall t | t in s.positions :: t in s.history && s.positions[t] < |s.history[t]|)
    && (forall r | r in s.pending :: ReadCurrent(s, s.pending[r]))
  }

  // ----- ticket revisions -------------------------------------------------

  predicate Moves(ch: Change, t: TicketId) {
    (ch.Holds? || ch.Observes?) && ch.ticket == t
  }

  /** One transaction's effect on a ticket's row. */
  lemma StepMovesRevision(w: World, act: Act, t: TicketId)
    requires Linked(w) && w.cfg.enforce
    ensures RevisionOf(Next(w, act), t) == RevisionOf(w, t) + if Moves(ChangeOf(w, act), t) then 1 else 0
    ensures t in w.ledger.occupancy ==> t in Next(w, act).ledger.occupancy
    ensures t in w.ledger.occupancy && !(ChangeOf(w, act).Observes? && ChangeOf(w, act).ticket == t) ==>
              Next(w, act).ledger.occupancy[t].(revision := w.ledger.occupancy[t].revision) == w.ledger.occupancy[t]
  {
    StepIsAChange(w, act);
    hide Next, ChangeOf, Linked;
    if t in w.ledger.occupancy {
      TicketRevision(w.ledger, ChangeOf(w, act), w.cfg.dir, t);
      hide ApplyChange;
    } else {
      NewTicketRevision(w.ledger, ChangeOf(w, act), w.cfg.dir, t);
      hide ApplyChange;
    }
  }

  lemma NewTicketRevision(l: Ledger, ch: Change, d: Directory, t: TicketId)
    requires t !in l.occupancy
    ensures var m := ApplyChange(l, ch, d);
            (if t in m.occupancy then m.occupancy[t].revision else 0) == if Moves(ch, t) then 1 else 0
  {
    hide CapacityCount;
  }

  // ----- preservation -----------------------------------------------------

  /**
   A read in flight stays coherent when revisions only grow, commits are stamped,
   and a newly applied position comes with a newer revision.
   */
  lemma WorldStepKeepsRead(s: System, u: System, p: InFlight)
    requires ReadCurrent(s, p)
    requires u.history == s.history && u.step == s.step + 1 && u.commits == Committed(s, u.w)
    requires RevisionOf(u.w, p.ticket) >= RevisionOf(s.w, p.ticket)
    requires RevisionOf(u.w, p.ticket) == RevisionOf(s.w, p.ticket) ==> PositionOf(u, p.ticket) == PositionOf(s, p.ticket)
    ensures ReadCurrent(u, p)
  {
  }

  lemma TransactKeeps(s: System, act: Act)
    requires Coherent(s) && !act.ObserveAct?
    ensures Coherent(NextEvent(s, Transact(act)))
  {
    var u := NextEvent(s, Transact(act));
    hide Next, Linked, ReadCurrent;
    StepKeepsLinks(s.w, act);
    StepKeepsConfig(s.w, act);
    forall r | r in u.pending
      ensures ReadCurrent(u, u.pending[r])
    {
      StepMovesRevision(s.w, act, s.pending[r].ticket);
      WorldStepKeepsRead(s, u, s.pending[r]);
    }
  }

  lemma ProviderKeeps(s: System, t: TicketId, snap: Snapshot)
    requires Coherent(s)
    ensures Coherent(NextEvent(s, ProviderMoves(t, snap)))
  {
    hide Linked;
  }

  lemma CaptureShape(s: System, r: ReadId, t: TicketId)
    ensures var u := NextEvent(s, Capture(r, t));
            if r in s.pending then u == s
            else
              && u.w == Next(s.w, CaptureAct(t)) == Enter(s.w, t)
              && u.history == s.history && u.step == s.step + 1 && u.commits == Committed(s, u.w)
              && u.positions == s.positions
              && u.pending.Keys == s.pending.Keys + {r}
              && u.pending - {r} == s.pending
              && u.pending[r].ticket == t && u.pending[r].revision == RevisionOf(u.w, t)
              && u.pending[r].capturedAt == s.step && u.pending[r].phase.Waiting?
  {
    hide HoldersOf, EnsureRow, RevisionOf, Committed;
    if r !in s.pending {
      assert NextEvent(s, Capture(r, t)).pending - {r} == s.pending;
    }
  }

  lemma CaptureKeeps(s: System, r: ReadId, t: TicketId)
    requires Coherent(s)
    ensures Coherent(NextEvent(s, Capture(r, t)))
  {
    hide NextEvent, Linked, ReadCurrent, Next, Committed, RevisionOf, Enter;
    CaptureShape(s, r, t);
    if r !in s.pending {
      var u := NextEvent(s, Capture(r, t));
      StepKeepsLinks(s.w, CaptureAct(t));
      StepKeepsConfig(s.w, CaptureAct(t));
      EnterKeepsRevisions(s.w, t);
      forall q | q in u.pending && q != r
        ensures ReadCurrent(u, u.pending[q])
      {
        assert u.pending[q] == (u.pending - {r})[q];
        WorldStepKeepsRead(s, u, s.pending[q]);
      }
      CommitsStamped(s, u.w);
      FreshRead(s, u, u.pending[r]);
    }
  }

  lemma EnterKeepsRevisions(w: World, t: TicketId)
    ensures forall x :: RevisionOf(Enter(w, t), x) == RevisionOf(w, x)
  {
  }

  lemma FreshRead(s: System, u: System, p: InFlight)
    requires Coherent(s) && u.step == s.step + 1 && u.commits == Committed(s, u.w)
    requires RevisionOf(u.w, p.ticket) == RevisionOf(s.w, p.ticket) == p.revision
    requires p.phase.Waiting? && p.capturedAt == s.step
    ensures ReadCurrent(u, p)
  {
    hide Linked;
  }

  lemma AnswerKeeps(s: System, r: ReadId)
    requires Coherent(s)
    ensures Coherent(NextEvent(s, Answer(r)))
  {
    hide Linked;
  }

  /** A landing observation commits its ticket; a rejected one commits nothing. */
  lemma ObserveMoves(w: World, o: Observation)
    requires w.cfg.enforce
    ensures Moves(ChangeOf(w, ObserveAct(o)), o.ticket) <==> Lands(w, o)
    ensures forall t | t != o.ticket :: !Moves(ChangeOf(w, ObserveAct(o)), t)
    ensures Lands(w, o) ==>
              ChangeOf(w, ObserveAct(o)) == Observes(o.ticket, o.snap, o.captured + AssignedAgents(w, o))
  {
    hide Picks, ClassifyObservation, AssignedAgents, RejectedAgents;
  }

  lemma ApplyShape(s: System, r: ReadId, hints: Observation)
    requires Applicable(s, r)
    ensures var u := NextEvent(s, Apply(r, hints));
            var o := Built(s, r, hints);
            && u.w == Next(s.w, ObserveAct(o))
            && u.history == s.history && u.step == s.step + 1 && u.commits == Committed(s, u.w)
            && u.pending == s.pending - {r}
            && u.positions == (if Lands(s.w, o) then s.positions[s.pending[r].ticket := s.pending[r].phase.position]
                               else s.positions)
            && o.ticket == s.pending[r].ticket
  {
    hide Observe, Lands;
  }

  lemma ApplyKeepsRead(s: System, r: ReadId, hints: Observation, q: ReadId)
    requires Coherent(s) && Applicable(s, r) && q in s.pending
    ensures ReadCurrent(NextEvent(s, Apply(r, hints)), s.pending[q])
  {
    var u := NextEvent(s, Apply(r, hints));
    var o := Built(s, r, hints);
    ApplyShape(s, r, hints);
    StepMovesRevision(s.w, ObserveAct(o), s.pending[q].ticket);
    ObserveMoves(s.w, o);
    assert ReadCurrent(s, s.pending[q]);
    hide NextEvent, Linked, Coherent, Lands, ChangeOf, Moves, Built, Next, ReadCurrent, Committed, RevisionOf, Applicable;
    WorldStepKeepsRead(s, u, s.pending[q]);
  }

  lemma ApplicableFacts(s: System, r: ReadId)
    requires Applicable(s, r)
    ensures r in s.pending && s.pending[r].phase.Answered?
    ensures s.pending[r].ticket in s.history && s.pending[r].phase.position < |s.history[s.pending[r].ticket]|
  {
  }

  lemma ApplyKeeps(s: System, r: ReadId, hints: Observation)
    requires Coherent(s) && Applicable(s, r)
    ensures Coherent(NextEvent(s, Apply(r, hints)))
  {
    var u := NextEvent(s, Apply(r, hints));
    var o := Built(s, r, hints);
    hide NextEvent, Linked, Lands, Built, Next, ReadCurrent, Committed, Applicable, RevisionOf, PositionOf, Coherent;
    ApplicableFacts(s, r);
    ApplyShape(s, r, hints);
    CoherentFacts(s);
    StepKeepsLinks(s.w, ObserveAct(o));
    StepKeepsConfig(s.w, ObserveAct(o));
    forall q | q in u.pending
      ensures ReadCurrent(u, u.pending[q])
    {
      ApplyKeepsRead(s, r, hints, q);
    }
    CommitsStamped(s, u.w);
    CoherentFrom(u);
  }

  lemma CoherentFacts(s: System)
    requires Coherent(s)
    ensures Linked(s.w) && s.w.cfg.enforce
    ensures forall t | t in s.commits :: s.commits[t] < s.step
    ensures forall t | t in s.positions :: t in s.history && s.positions[t] < |s.history[t]|
  {
    hide Linked, ReadCurrent;
  }

  lemma CoherentFrom(s: System)
    requires Linked(s.w) && s.w.cfg.enforce
    requires forall t | t in s.commits :: s.commits[t] < s.step
    requires forall t | t in s.positions :: t in s.history && s.positions[t] < |s.history[t]|
    requires forall r | r in s.pending :: ReadCurrent(s, s.pending[r])
    ensures Coherent(s)
  {
    hide Linked, ReadCurrent;
  }

  lemma CommitsStamped(s: System, v: World)
    requires forall t | t in s.commits :: s.commits[t] < s.step
    ensures forall t | t in Committed(s, v) :: Committed(s, v)[t] < s.step + 1
  {
  }

  lemma BuiltTicket(s: System, r: ReadId, hints: Observation)
    requires Applicable(s, r)
    ensures Built(s, r, hints).ticket == s.pending[r].ticket
    ensures Built(s, r, hints).revision == s.pending[r].revision
    ensures Built(s, r, hints).snap == s.history[s.pending[r].ticket][s.pending[r].phase.position]
  {
  }

  lemma EventKeepsCoherent(s: System, e: Event)
    requires Coherent(s)
    ensures Coherent(NextEvent(s, e))
  {
    hide Coherent;
    match e
    case Transact(act) =>
      if !act.ObserveAct? {
        TransactKeeps(s, act);
      }
    case ProviderMoves(t, snap) => ProviderKeeps(s, t, snap);
    case Capture(r, t) => CaptureKeeps(s, r, t);
    case Answer(r) => AnswerKeeps(s, r);
    case Apply(r, hints) =>
      if Applicable(s, r) {
        ApplyKeeps(s, r, hints);
      }
  }

  // ----- theorems ---------------------------------------------------------

  /** A landing observation carries the revision the ticket still has. */
  lemma LandingIsCurrent(w: World, o: Observation)
    requires Lands(w, o)
    ensures o.revision == RevisionOf(w, o.ticket)
    ensures o.ticket in w.ledger.occupancy && w.ledger.occupancy[o.ticket].providerUpdatedAt.Some? ==>
              && o.snap.updatedAt.Some?
              && o.snap.updatedAt.value >= w.ledger.occupancy[o.ticket].providerUpdatedAt.value
  {
  }

  /**
   Every applied observation was read from the provider after the ticket's last
   committed hold or observation, and at a position no earlier than the last applied.
   */
  lemma AppliedReadIsFresh(s: System, r: ReadId, hints: Observation)
    requires Coherent(s) && Applicable(s, r) && Lands(s.w, Built(s, r, hints))
    ensures var p := s.pending[r];
            && (p.ticket in s.commits ==> s.commits[p.ticket] < p.phase.readAt)
            && (p.ticket in s.positions ==> s.positions[p.ticket] <= p.phase.position)
  {
    LandingIsCurrent(s.w, Built(s, r, hints));
    BuiltTicket(s, r, hints);
    assert ReadCurrent(s, s.pending[r]);
  }

  /** An observation that does not land leaves every occupied row and reservation alone. */
  lemma RejectedLeavesTables(w: World, o: Observation)
    requires w.cfg.enforce && !Lands(w, o)
    ensures Observe(w, o).ledger.reservations == w.ledger.reservations
    ensures forall t | t in w.ledger.occupancy ::
              t in Observe(w, o).ledger.occupancy && Observe(w, o).ledger.occupancy[t] == w.ledger.occupancy[t]
    ensures forall a :: CapacitySet(Observe(w, o).ledger, a) == CapacitySet(w.ledger, a)
  {
    var v := Observe(w, o);
    RejectedShape(w, o);
    hide Observe, Lands, CapacitySet, EnsureRow;
    forall a
      ensures CapacitySet(v.ledger, a) == CapacitySet(w.ledger, a)
    {
      EnsureRowKeepsUnion(w.ledger, o.ticket, a);
      if v.ledger.occupancy == w.ledger.occupancy && v.ledger.reservations == w.ledger.reservations {
        UnionIgnoresAgents(v.ledger, w.ledger, a);
      }
    }
    EnsureRowKeepsRows(w.ledger, o.ticket);
  }

  lemma EnsureRowKeepsRows(l: Ledger, t: TicketId)
    ensures EnsureRow(l, t).reservations == l.reservations
    ensures forall x | x in l.occupancy :: x in EnsureRow(l, t).occupancy && EnsureRow(l, t).occupancy[x] == l.occupancy[x]
  {
  }

  lemma RejectedShape(w: World, o: Observation)
    requires w.cfg.enforce && !Lands(w, o)
    ensures var l := Observe(w, o).ledger;
            || l == EnsureRow(w.ledger, o.ticket)
            || (l.occupancy == w.ledger.occupancy && l.reservations == w.ledger.reservations)
  {
    hide Picks, ClassifyObservation, AssignedAgents, RejectedAgents, AppliedWorld, EnsureRow;
  }

  predicate NotBefore(a: Option<nat>, b: Option<nat>) {
    a.Some? ==> b.Some? && a.value <= b.value
  }

  function StampOf(w: World, t: TicketId): Option<nat> {
    if t in w.ledger.occupancy then w.ledger.occupancy[t].providerUpdatedAt else None
  }

  lemma EventAdvances(s: System, e: Event, t: TicketId)
    requires Coherent(s)
    ensures NotBefore(StampOf(s.w, t), StampOf(NextEvent(s, e).w, t))
    ensures NotBefore(PositionOf(s, t), PositionOf(NextEvent(s, e), t))
  {
    hide Next, Linked, ChangeOf, ReadCurrent, Committed, Applicable, ApplyChange;
    match e
    case Transact(act) =>
      if !act.ObserveAct? {
        StepMovesRevision(s.w, act, t);
        NoObservation(s.w, act);
      }
    case Capture(r, x) =>
      CaptureShape(s, r, x);
      EnterKeepsStamps(s.w, x, t);
    case Apply(r, hints) =>
      if Applicable(s, r) {
        ApplyAdvances(s, r, hints, t);
      }
    case _ =>
  }

  lemma EnterKeepsStamps(w: World, x: TicketId, t: TicketId)
    ensures NotBefore(StampOf(w, t), StampOf(Enter(w, x), t))
  {
  }

  lemma NoObservation(w: World, act: Act)
    requires !act.ObserveAct?
    ensures !ChangeOf(w, act).Observes?
  {
    hide HasRoom, LiveOn, CompletedOn, KeyUsed, RowReady, CanTransfer;
  }

  lemma ApplyAdvances(s: System, r: ReadId, hints: Observation, t: TicketId)
    requires Coherent(s) && Applicable(s, r)
    ensures NotBefore(StampOf(s.w, t), StampOf(NextEvent(s, Apply(r, hints)).w, t))
    ensures NotBefore(PositionOf(s, t), PositionOf(NextEvent(s, Apply(r, hints)), t))
  {
    var o := Built(s, r, hints);
    ApplyShape(s, r, hints);
    BuiltTicket(s, r, hints);
    hide NextEvent, Next, Linked, ChangeOf, ReadCurrent, Lands, Built;
    ObserveMoves(s.w, o);
    StepMovesRevision(s.w, ObserveAct(o), t);
    if Lands(s.w, o) {
      AppliedReadIsFresh(s, r, hints);
      LandingIsCurrent(s.w, o);
      StampWritten(s.w, o);
    }
  }

  lemma StampWritten(w: World, o: Observation)
    requires Linked(w) && Lands(w, o)
    ensures StampOf(Next(w, ObserveAct(o)), o.ticket) == o.snap.updatedAt
  {
    StepIsAChange(w, ObserveAct(o));
    ObserveMoves(w, o);
    hide Linked, Next, ChangeOf, Lands, CapacityCount;
  }

  /** Over any interleaving, applied positions and provider timestamps never go back. */
  lemma {:induction false} RunNeverGoesBack(s: System, events: seq<Event>, t: TicketId)
    requires Coherent(s)
    ensures Coherent(RunEvents(s, events))
    ensures NotBefore(StampOf(s.w, t), StampOf(RunEvents(s, events).w, t))
    ensures NotBefore(PositionOf(s, t), PositionOf(RunEvents(s, events), t))
    decreases |events|
  {
    if events != [] {
      hide NextEvent, Coherent, StampOf, PositionOf;
      var last := |events| - 1;
      RunNeverGoesBack(s, events[..last], t);
      EventKeepsCoherent(RunEvents(s, events[..last]), events[last]);
      EventAdvances(RunEvents(s, events[..last]), events[last], t);
    }
  }
}
