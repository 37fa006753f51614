/** How each ledger transaction relates the tables before and after it. */
module LedgerFrames {
  import opened Base
  import opened CapacityLedger

  /** Rows keep their identity, no row disappears, and attempts gain no reservation but `gained`. */
  ghost predicate Extends(l: Ledger, m: Ledger, gained: set<Operation>) {
    && m.agents.Keys == l.agents.Keys
    && l.occupancy.Keys <= m.occupancy.Keys
    && (forall op | op in l.reservations ::
          && op in m.reservations
          && m.reservations[op].agent == l.reservations[op].agent
          && m.reservations[op].ticket == l.reservations[op].ticket)
    && m.reservations.Keys <= l.reservations.Keys + gained
  }

  lemma EnsureRowExtends(l: Ledger, t: TicketId)
    ensures Extends(l, EnsureRow(l, t), {})
    ensures t in EnsureRow(l, t).occupancy
  {
  }

  lemma MaterializeExtends(l: Ledger, ids: set<AgentId>, enforce: bool)
    ensures Extends(l, Materialize(l, ids, enforce), {})
  {
  }

  lemma DegradeExtends(l: Ledger, ids: set<AgentId>)
    ensures Extends(l, Degrade(l, ids), {})
  {
  }

  lemma HoldExtends(l: Ledger, op: Operation, t: TicketId, a: AgentId, enforce: bool)
    requires t in l.occupancy
    ensures Extends(l, Hold(l, op, t, a, enforce), {op})
    ensures op !in l.reservations ==> Hold(l, op, t, a, enforce).reservations[op] == Reservation(t, a, Held)
    ensures op in Hold(l, op, t, a, enforce).reservations
  {
  }

  lemma ConcludeExtends(l: Ledger, op: Operation, converted: bool)
    ensures Extends(l, Conclude(l, op, converted), {})
  {
  }

  lemma RewrittenExtends(l: Ledger, t: TicketId, s: Snapshot, d: Directory)
    requires t in l.occupancy
    ensures Extends(l, Rewritten(l, t, s, d), {})
  {
  }

  lemma ObservationExtends(l: Ledger, t: TicketId, s: Snapshot, d: Directory, extra: set<AgentId>, enforce: bool)
    requires t in l.occupancy
    ensures Extends(l, ApplyObservation(l, t, s, d, extra, enforce), {})
  {
    RewrittenExtends(l, t, s, d);
    MaterializeExtends(Rewritten(l, t, s, d), Affected(l, t, s, d, extra), enforce);
  }
}
