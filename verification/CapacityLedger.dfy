/**
 The ticket-identified capacity ledger of apps/support/capacity_service.py and
 the effect of one provider observation on it
 (apps/support/owner_reconciliation_service.py): tables as maps, every
 transaction as a function from ledger to ledger.
 */
module CapacityLedger {
  import opened Base

  datatype OccupancyState = Unknown | Active | Unassigned | Closed | OutOfScope

  datatype Occupancy = Occupancy(
    owner: Option<OwnerId>,
    agent: Option<AgentId>,
    state: OccupancyState,
    revision: nat,
    providerUpdatedAt: Option<nat>)

  datatype ReservationState = Held | Converted | Released

  /** The unique operation key of a reservation. */
  datatype Operation = ForAttempt(attempt: AttemptId) | ForTransfer(transfer: TransferId)

  datatype Reservation = Reservation(ticket: TicketId, agent: AgentId, state: ReservationState)

  datatype Readiness = Uninitialized | Ready | Degraded

  datatype AgentRow = AgentRow(
    chats: int,
    revision: nat,
    readiness: Readiness,
    reconciledAt: Option<nat>,
    lastAssignedAt: Option<nat>,
    total: nat)

  /** Agent attributes that no modelled transaction writes. */
  datatype Directory = Directory(
    ownerOf: map<AgentId, OwnerId>,
    agentOf: map<OwnerId, AgentId>,
    maxChats: map<AgentId, nat>)
  {
    /** The owner-to-agent assumption: one agent for each provider owner. */
    ghost predicate Injective() {
      && maxChats.Keys == ownerOf.Keys
      && (forall a | a in ownerOf :: ownerOf[a] in agentOf && agentOf[ownerOf[a]] == a)
      && (forall o | o in agentOf :: agentOf[o] in ownerOf && ownerOf[agentOf[o]] == o)
    }

    function Lookup(owner: Option<OwnerId>): Option<AgentId> {
      if owner.Some? && owner.value in agentOf then Some(agentOf[owner.value]) else None
    }

    predicate Owns(a: AgentId, owner: Option<OwnerId>) {
      a in ownerOf && owner == Some(ownerOf[a])
    }
  }

  datatype Ledger = Ledger(
    occupancy: map<TicketId, Occupancy>,
    reservations: map<Operation, Reservation>,
    agents: map<AgentId, AgentRow>)

  // ----- counting ---------------------------------------------------------

  function Occupied(l: Ledger, a: AgentId): set<TicketId> {
    set t | t in l.occupancy && l.occupancy[t].state == Active && l.occupancy[t].agent == Some(a)
  }

  function Reserved(l: Ledger, a: AgentId): set<TicketId> {
    set op | op in l.reservations && l.reservations[op].state == Held && l.reservations[op].agent == a
      :: l.reservations[op].ticket
  }

  function CapacitySet(l: Ledger, a: AgentId): set<TicketId> {
    Occupied(l, a) + Reserved(l, a)
  }

  function CapacityCount(l: Ledger, a: AgentId): nat {
    |CapacitySet(l, a)|
  }

  /** Every stored chat counter equals the size of the agent's ticket union. */
  ghost predicate CountersAgree(l: Ledger) {
    forall a | a in l.agents :: l.agents[a].chats == CapacityCount(l, a)
  }

  ghost predicate WithinMaximum(l: Ledger, d: Directory) {
    forall a | a in l.agents && a in d.maxChats :: CapacityCount(l, a) <= d.maxChats[a]
  }

  // ----- transactions -----------------------------------------------------

  /** A row written by the materializer: one revision, counter re-projected. */
  function Materialized(l: Ledger, a: AgentId, enforce: bool): AgentRow
    requires a in l.agents
  {
    var row := l.agents[a].(revision := l.agents[a].revision + 1);
    if enforce then row.(chats := CapacityCount(l, a)) else row
  }

  function Materialize(l: Ledger, ids: set<AgentId>, enforce: bool): Ledger {
    l.(agents := map a | a in l.agents :: if a in ids then Materialized(l, a, enforce) else l.agents[a])
  }

  function DegradedRow(row: AgentRow): AgentRow {
    row.(readiness := Degraded, revision := row.revision + 1)
  }

  function Degrade(l: Ledger, ids: set<AgentId>): Ledger {
    l.(agents := map a | a in l.agents :: if a in ids then DegradedRow(l.agents[a]) else l.agents[a])
  }

  /** The occupancy row every ticket transaction gets or creates first. */
  function EnsureRow(l: Ledger, t: TicketId): Ledger {
    if t in l.occupancy then l
    else l.(occupancy := l.occupancy[t := Occupancy(None, None, Unknown, 0, None)])
  }

  function HeldReservation(reservations: map<Operation, Reservation>, op: Operation, t: TicketId, a: AgentId)
    : map<Operation, Reservation>
  {
    if op !in reservations then reservations[op := Reservation(t, a, Held)]
    else if reservations[op].state == Released then reservations[op := reservations[op].(state := Held)]
    else reservations
  }

  /** The tables a hold leaves before materialization. */
  function HeldTables(l: Ledger, op: Operation, t: TicketId, a: AgentId): Ledger
    requires t in l.occupancy
  {
    Ledger(
      l.occupancy[t := l.occupancy[t].(revision := l.occupancy[t].revision + 1)],
      HeldReservation(l.reservations, op, t, a),
      l.agents)
  }

  /** Hold once for an operation, bump the ticket revision, re-project the agent. */
  function Hold(l: Ledger, op: Operation, t: TicketId, a: AgentId, enforce: bool): Ledger
    requires t in l.occupancy
  {
    Materialize(HeldTables(l, op, t, a), {a}, enforce)
  }

  function Concluded(r: Reservation, converted: bool): Reservation {
    if r.state != Held then r
    else r.(state := if converted then Converted else Released)
  }

  /** Conclude an operation's reservation, if it has one. */
  function Conclude(l: Ledger, op: Operation, converted: bool): Ledger {
    if op !in l.reservations then l
    else l.(reservations := l.reservations[op := Concluded(l.reservations[op], converted)])
  }

  function Fresh(row: AgentRow, now: nat, freshness: nat): bool {
    && row.readiness == Ready
    && row.reconciledAt.Some?
    && row.reconciledAt.value + freshness >= now
  }

  predicate CapacityReady(l: Ledger, a: AgentId, d: Directory, now: nat, freshness: nat) {
    && a in l.agents
    && a in d.maxChats
    && Fresh(l.agents[a], now, freshness)
    && CapacityCount(l, a) < d.maxChats[a]
  }

  // ----- provider observations --------------------------------------------

  /** What one provider read says about a ticket. */
  datatype Snapshot = Snapshot(
    complete: bool,
    owner: Option<OwnerId>,
    inSupport: bool,
    closed: bool,
    closedAtKnown: bool,
    updatedAt: Option<nat>)

  function ObservedState(s: Snapshot): OccupancyState {
    if !s.inSupport then OutOfScope
    else if s.closed then Closed
    else if s.owner.Some? then Active
    else Unassigned
  }

  /** Only matching confirmation or terminal scope resolves a held effect. */
  function Settled(r: Reservation, s: Snapshot, d: Directory): Reservation {
    if ObservedState(s) == Active && d.Owns(r.agent, s.owner) then Concluded(r, true)
    else if ObservedState(s) in {Closed, OutOfScope} then Concluded(r, false)
    else r
  }

  function SettleTicket(reservations: map<Operation, Reservation>, t: TicketId, s: Snapshot, d: Directory)
    : map<Operation, Reservation>
  {
    map op | op in reservations ::
      if reservations[op].ticket == t then Settled(reservations[op], s, d) else reservations[op]
  }

  function ObservedRow(prior: Occupancy, s: Snapshot, d: Directory): Occupancy {
    Occupancy(s.owner, d.Lookup(s.owner), ObservedState(s), prior.revision + 1, s.updatedAt)
  }

  function OptionSet<T>(o: Option<T>): set<T> {
    if o.Some? then {o.value} else {}
  }

  function HoldersOf(l: Ledger, t: TicketId): set<AgentId> {
    set op | op in l.reservations && l.reservations[op].state == Held && l.reservations[op].ticket == t
      :: l.reservations[op].agent
  }

  /** Every agent the observation transaction re-projects. */
  function Affected(l: Ledger, t: TicketId, s: Snapshot, d: Directory, extra: set<AgentId>): set<AgentId>
    requires t in l.occupancy
  {
    extra + OptionSet(l.occupancy[t].agent) + OptionSet(d.Lookup(s.owner)) + HoldersOf(l, t)
  }

  /** The ledger part of an applied observation, before materialization. */
  function Rewritten(l: Ledger, t: TicketId, s: Snapshot, d: Directory): Ledger
    requires t in l.occupancy
  {
    Ledger(l.occupancy[t := ObservedRow(l.occupancy[t], s, d)], SettleTicket(l.reservations, t, s, d), l.agents)
  }

  /** An applied observation: rewrite the row, settle the holds, re-project `affected`. */
  function ApplyObservation(l: Ledger, t: TicketId, s: Snapshot, d: Directory, extra: set<AgentId>, enforce: bool)
    : Ledger
    requires t in l.occupancy
  {
    Materialize(Rewritten(l, t, s, d), Affected(l, t, s, d, extra), enforce)
  }

  /** The optimistic checks made under the ticket lock. */
  predicate Admissible(row: Occupancy, captured: nat, s: Snapshot) {
    && row.revision == captured
    && (row.providerUpdatedAt.Some? ==>
          && s.updatedAt.Some?
          && s.updatedAt.value >= row.providerUpdatedAt.value
          && (s.updatedAt == row.providerUpdatedAt ==> row.owner == s.owner))
  }

  // ----- lemmas -----------------------------------------------------------

  /** Holds that survive unchanged keep their tickets reserved. */
  lemma ReservedWithin(l: Ledger, m: Ledger, a: AgentId)
    requires forall op | op in l.reservations && l.reservations[op].state == Held && l.reservations[op].agent == a ::
               op in m.reservations && m.reservations[op] == l.reservations[op]
    ensures Reserved(l, a) <= Reserved(m, a)
  {
    forall t | t in Reserved(l, a)
      ensures t in Reserved(m, a)
    {
      var op :| op in l.reservations && l.reservations[op].state == Held && l.reservations[op].agent == a && l.reservations[op].ticket == t;
      assert op in m.reservations && m.reservations[op] == l.reservations[op];
    }
  }

  /** Ledgers that agree on an agent's rows agree on its union. */
  lemma SameUnion(l: Ledger, m: Ledger, a: AgentId)
    requires Occupied(l, a) == Occupied(m, a)
    requires forall op | op in l.reservations && l.reservations[op].state == Held && l.reservations[op].agent == a ::
               op in m.reservations && m.reservations[op] == l.reservations[op]
    requires forall op | op in m.reservations && m.reservations[op].state == Held && m.reservations[op].agent == a ::
               op in l.reservations && m.reservations[op] == l.reservations[op]
    ensures CapacitySet(l, a) == CapacitySet(m, a)
  {
    ReservedWithin(l, m, a);
    ReservedWithin(m, l, a);
  }

  /** The union depends on the occupancy and reservation tables alone. */
  lemma UnionIgnoresAgents(l: Ledger, m: Ledger, a: AgentId)
    requires l.occupancy == m.occupancy && l.reservations == m.reservations
    ensures CapacitySet(l, a) == CapacitySet(m, a)
  {
    assert Occupied(l, a) == Occupied(m, a);
    assert Reserved(l, a) == Reserved(m, a);
  }

  /** Re-projecting every agent whose set changed restores all counters. */
  lemma MaterializeRestoresCounters(before: Ledger, changed: Ledger, ids: set<AgentId>)
    requires CountersAgree(before)
    requires changed.agents == before.agents
    requires forall a | a in before.agents && a !in ids :: CapacityCount(changed, a) == CapacityCount(before, a)
    ensures CountersAgree(Materialize(changed, ids, true))
  {
    var after := Materialize(changed, ids, true);
    forall a | a in after.agents
      ensures after.agents[a].chats == CapacityCount(after, a)
    {
      UnionIgnoresAgents(after, changed, a);
    }
  }

  lemma HeldTablesOccupied(l: Ledger, op: Operation, t: TicketId, a: AgentId, b: AgentId)
    requires t in l.occupancy
    ensures Occupied(HeldTables(l, op, t, a), b) == Occupied(l, b)
  {
  }

  /** A hold changes the union of its own agent only, and only by its ticket. */
  lemma HoldFrame(l: Ledger, op: Operation, t: TicketId, a: AgentId, enforce: bool, b: AgentId)
    requires t in l.occupancy
    requires op in l.reservations ==> l.reservations[op].agent == a && l.reservations[op].ticket == t
    ensures b != a ==> CapacitySet(Hold(l, op, t, a, enforce), b) == CapacitySet(l, b)
    ensures CapacitySet(l, b) <= CapacitySet(Hold(l, op, t, a, enforce), b) <= CapacitySet(l, b) + {t}
  {
    var h := HeldTables(l, op, t, a);
    UnionIgnoresAgents(Hold(l, op, t, a, enforce), h, b);
    HeldTablesOccupied(l, op, t, a, b);
    ReservedWithin(l, h, b);
    assert Reserved(h, b) <= Reserved(l, b) + {t};
    if b != a {
      SameUnion(l, h, b);
    }
  }

  /**
   A fresh or re-held operation adds exactly its ticket to its agent's union, so the
   count grows by one unless the ticket was already counted.
   */
  lemma HoldCounts(l: Ledger, op: Operation, t: TicketId, a: AgentId, enforce: bool)
    requires t in l.occupancy
    requires op in l.reservations ==>
               l.reservations[op].agent == a && l.reservations[op].ticket == t && l.reservations[op].state != Converted
    ensures CapacitySet(Hold(l, op, t, a, enforce), a) == CapacitySet(l, a) + {t}
    ensures CapacityCount(Hold(l, op, t, a, enforce), a)
            == CapacityCount(l, a) + if t in CapacitySet(l, a) then 0 else 1
  {
    var m := Hold(l, op, t, a, enforce);
    assert op in m.reservations && m.reservations[op] == Reservation(t, a, Held);
    assert t in Reserved(m, a);
    HoldFrame(l, op, t, a, enforce, a);
    hide Hold;
    assert CapacitySet(m, a) == CapacitySet(l, a) + {t};
    if t in CapacitySet(l, a) {
      assert CapacitySet(l, a) + {t} == CapacitySet(l, a);
    }
  }

  /** A hold keeps every counter equal to its union. */
  lemma HoldKeepsCounters(l: Ledger, op: Operation, t: TicketId, a: AgentId)
    requires CountersAgree(l) && t in l.occupancy
    requires op in l.reservations ==> l.reservations[op].agent == a && l.reservations[op].ticket == t
    ensures CountersAgree(Hold(l, op, t, a, true))
  {
    var h := HeldTables(l, op, t, a);
    forall b | b in l.agents && b !in {a}
      ensures CapacityCount(h, b) == CapacityCount(l, b)
    {
      HoldFrame(l, op, t, a, true, b);
      UnionIgnoresAgents(Hold(l, op, t, a, true), h, b);
    }
    MaterializeRestoresCounters(l, h, {a});
  }

  /** The key step: an agent outside `affected` keeps exactly its union. */
  lemma AffectedCoversChanges(l: Ledger, t: TicketId, s: Snapshot, d: Directory, extra: set<AgentId>, a: AgentId)
    requires t in l.occupancy
    requires a !in Affected(l, t, s, d, extra)
    ensures CapacitySet(Rewritten(l, t, s, d), a) == CapacitySet(l, a)
  {
    var m := Rewritten(l, t, s, d);
    assert l.occupancy[t].agent != Some(a) && d.Lookup(s.owner) != Some(a);
    assert Occupied(m, a) == Occupied(l, a);
    assert a !in HoldersOf(l, t);
    SameUnion(l, m, a);
  }

  /** An applied observation keeps every counter equal to its union. */
  lemma ObservationKeepsCounters(l: Ledger, t: TicketId, s: Snapshot, d: Directory, extra: set<AgentId>)
    requires CountersAgree(l) && t in l.occupancy
    ensures CountersAgree(ApplyObservation(l, t, s, d, extra, true))
  {
    var ids := Affected(l, t, s, d, extra);
    var m := Rewritten(l, t, s, d);
    forall a | a in l.agents && a !in ids
      ensures CapacityCount(m, a) == CapacityCount(l, a)
    {
      AffectedCoversChanges(l, t, s, d, extra, a);
    }
    MaterializeRestoresCounters(l, m, ids);
  }

  /** Concluding an operation changes the union of its own agent only, downwards. */
  lemma ConcludeFrame(l: Ledger, op: Operation, converted: bool, b: AgentId)
    ensures CapacitySet(Conclude(l, op, converted), b) <= CapacitySet(l, b)
    ensures op !in l.reservations || l.reservations[op].agent != b || l.reservations[op].state != Held ==>
              CapacitySet(Conclude(l, op, converted), b) == CapacitySet(l, b)
  {
    var c := Conclude(l, op, converted);
    assert Occupied(c, b) == Occupied(l, b);
    ReservedWithin(c, l, b);
    if op !in l.reservations || l.reservations[op].agent != b || l.reservations[op].state != Held {
      SameUnion(l, c, b);
    }
  }

  /** Concluding an operation's hold, either way, and re-projecting its agent keeps the counters. */
  lemma ConcludeKeepsCounters(l: Ledger, op: Operation, converted: bool, a: AgentId)
    requires CountersAgree(l)
    requires op in l.reservations ==> l.reservations[op].agent == a
    ensures CountersAgree(Materialize(Conclude(l, op, converted), {a}, true))
  {
    var c := Conclude(l, op, converted);
    forall b | b in l.agents && b !in {a}
      ensures CapacityCount(c, b) == CapacityCount(l, b)
    {
      ConcludeFrame(l, op, converted, b);
    }
    MaterializeRestoresCounters(l, c, {a});
  }

  /**
   An observation moves only the observed ticket, and only into the union of
   the observed owner's agent.
   */
  lemma ObservationFrame(l: Ledger, t: TicketId, s: Snapshot, d: Directory, extra: set<AgentId>, enforce: bool, a: AgentId)
    requires t in l.occupancy
    ensures CapacitySet(l, a) - {t} <= CapacitySet(ApplyObservation(l, t, s, d, extra, enforce), a)
    ensures CapacitySet(ApplyObservation(l, t, s, d, extra, enforce), a) <= CapacitySet(l, a) + {t}
    ensures ObservedState(s) != Active || d.Lookup(s.owner) != Some(a) ==>
              CapacitySet(ApplyObservation(l, t, s, d, extra, enforce), a) <= CapacitySet(l, a)
  {
    var m := Rewritten(l, t, s, d);
    UnionIgnoresAgents(ApplyObservation(l, t, s, d, extra, enforce), m, a);
    ReservedWithin(m, l, a);
    forall x | x in Reserved(l, a) && x != t
      ensures x in Reserved(m, a)
    {
      var o :| o in l.reservations && l.reservations[o].state == Held && l.reservations[o].agent == a && l.reservations[o].ticket == x;
      assert o in m.reservations && m.reservations[o] == l.reservations[o];
    }
    assert Occupied(l, a) - {t} <= Occupied(m, a) <= Occupied(l, a) + {t};
  }

  /**
   Converting a held reservation on its matching owner leaves the agent's union,
   and so its count, exactly as it was, and leaves no hold of that agent on the ticket.
   */
  lemma ConfirmationKeepsUnion(l: Ledger, t: TicketId, s: Snapshot, d: Directory, extra: set<AgentId>, enforce: bool, a: AgentId)
    requires d.Injective() && t in l.occupancy
    requires ObservedState(s) == Active && d.Owns(a, s.owner)
    requires t in CapacitySet(l, a)
    ensures CapacitySet(ApplyObservation(l, t, s, d, extra, enforce), a) == CapacitySet(l, a)
    ensures forall op | op in l.reservations && l.reservations[op].ticket == t && l.reservations[op].agent == a ::
              ApplyObservation(l, t, s, d, extra, enforce).reservations[op].state != Held
  {
    var m := Rewritten(l, t, s, d);
    ObservationFrame(l, t, s, d, extra, enforce, a);
    UnionIgnoresAgents(ApplyObservation(l, t, s, d, extra, enforce), m, a);
    assert m.occupancy[t].state == Active && m.occupancy[t].agent == Some(a);
    assert t in Occupied(m, a);
  }
}
