/**
 The ledger seen from the protocol: an enforcing transaction makes one of seven
 kinds of change. What each kind keeps is proved here, once, on the ledger alone.
 */
module LedgerChanges {
  import opened Base
  import opened CapacityLedger
  import opened LedgerFrames

  datatype Change =
    | Untouched
    | RowCreated(ticket: TicketId)
    | Holds(op: Operation, ticket: TicketId, agent: AgentId)
    | Releases(op: Operation, agent: AgentId)
    | Observes(ticket: TicketId, snap: Snapshot, extra: set<AgentId>)
    | Degrades(ids: set<AgentId>)
    | Readies(agent: AgentId, now: nat)

  function Readied(l: Ledger, a: AgentId, now: nat): Ledger {
    if a !in l.agents then l
    else l.(agents := l.agents[a := l.agents[a].(readiness := Ready, reconciledAt := Some(now))])
  }

  function ApplyChange(l: Ledger, ch: Change, d: Directory): Ledger {
    match ch
    case Untouched => l
    case RowCreated(t) => EnsureRow(l, t)
    case Holds(op, t, a) => Hold(EnsureRow(l, t), op, t, a, true)
    case Releases(op, a) => Materialize(Conclude(l, op, false), {a}, true)
    case Observes(t, s, extra) => ApplyObservation(EnsureRow(l, t), t, s, d, extra, true)
    case Degrades(ids) => Degrade(l, ids)
    case Readies(a, now) => Readied(l, a, now)
  }

  /** A change touches only reservations that belong to the agent it re-projects. */
  predicate Lawful(l: Ledger, ch: Change) {
    match ch
    case Holds(op, t, a) =>
      op in l.reservations ==> l.reservations[op].agent == a && l.reservations[op].ticket == t
    case Releases(op, a) => op in l.reservations ==> l.reservations[op].agent == a
    case _ => true
  }

  /** Equal up to the assignment stamp and total, which capacity never reads. */
  ghost predicate SameCore(l: Ledger, m: Ledger) {
    && l.occupancy == m.occupancy
    && l.reservations == m.reservations
    && l.agents.Keys == m.agents.Keys
    && forall a | a in l.agents ::
         && l.agents[a].chats == m.agents[a].chats
         && l.agents[a].revision == m.agents[a].revision
         && l.agents[a].readiness == m.agents[a].readiness
         && l.agents[a].reconciledAt == m.agents[a].reconciledAt
  }

  lemma ChangeKeepsAgents(l: Ledger, ch: Change, d: Directory)
    ensures ApplyChange(l, ch, d).agents.Keys == l.agents.Keys
  {
    hide CapacityCount;
  }

  lemma SameCoreSameUnion(l: Ledger, m: Ledger, a: AgentId)
    requires SameCore(l, m)
    ensures CapacitySet(l, a) == CapacitySet(m, a)
  {
    UnionIgnoresAgents(l, m, a);
  }

  lemma SameCoreCounters(l: Ledger, m: Ledger)
    requires SameCore(l, m) && CountersAgree(l)
    ensures CountersAgree(m)
  {
    forall a | a in m.agents
      ensures m.agents[a].chats == CapacityCount(m, a)
    {
      SameCoreSameUnion(l, m, a);
    }
  }

  /** A new occupancy row occupies nobody. */
  lemma EnsureRowKeepsUnion(l: Ledger, t: TicketId, a: AgentId)
    ensures CapacitySet(EnsureRow(l, t), a) == CapacitySet(l, a)
  {
    var m := EnsureRow(l, t);
    assert Occupied(m, a) == Occupied(l, a);
    assert Reserved(m, a) == Reserved(l, a);
  }

  /** Changes of agent rows alone leave every union alone. */
  lemma AgentRowsKeepUnion(l: Ledger, ch: Change, d: Directory, a: AgentId)
    requires ch.Untouched? || ch.RowCreated? || ch.Degrades? || ch.Readies?
    ensures CapacitySet(ApplyChange(l, ch, d), a) == CapacitySet(l, a)
  {
    match ch
    case RowCreated(t) => EnsureRowKeepsUnion(l, t, a);
    case _ => UnionIgnoresAgents(l, ApplyChange(l, ch, d), a);
  }

  lemma AgentRowsKeepCounters(l: Ledger, ch: Change, d: Directory)
    requires CountersAgree(l)
    requires ch.Untouched? || ch.RowCreated? || ch.Degrades? || ch.Readies?
    ensures CountersAgree(ApplyChange(l, ch, d))
  {
    var m := ApplyChange(l, ch, d);
    forall a | a in m.agents
      ensures m.agents[a].chats == CapacityCount(m, a)
    {
      AgentRowsKeepUnion(l, ch, d, a);
    }
  }

  /** Every kind of change keeps the stored counters equal to the unions. */
  lemma ChangeKeepsCounters(l: Ledger, ch: Change, d: Directory)
    requires CountersAgree(l) && Lawful(l, ch)
    ensures CountersAgree(ApplyChange(l, ch, d))
  {
    hide CountersAgree;
    match ch
    case Holds(op, t, a) =>
      AgentRowsKeepCounters(l, RowCreated(t), d);
      HoldKeepsCounters(EnsureRow(l, t), op, t, a);
    case Releases(op, a) => ConcludeKeepsCounters(l, op, false, a);
    case Observes(t, s, extra) =>
      AgentRowsKeepCounters(l, RowCreated(t), d);
      ObservationKeepsCounters(EnsureRow(l, t), t, s, d, extra);
    case _ => AgentRowsKeepCounters(l, ch, d);
  }

  /** The only changes that can put a ticket into an agent's union. */
  predicate AddsTo(ch: Change, d: Directory, a: AgentId) {
    match ch
    case Holds(_, _, b) => b == a
    case Observes(_, s, _) => ObservedState(s) == Active && d.Lookup(s.owner) == Some(a)
    case _ => false
  }

  /** A union gains at most the ticket held for, or observed with, its own agent. */
  lemma UnionGrowth(l: Ledger, ch: Change, d: Directory, a: AgentId)
    requires Lawful(l, ch)
    ensures !AddsTo(ch, d, a) ==> CapacitySet(ApplyChange(l, ch, d), a) <= CapacitySet(l, a)
    ensures AddsTo(ch, d, a) ==> CapacitySet(ApplyChange(l, ch, d), a) <= CapacitySet(l, a) + {ch.ticket}
  {
    match ch
    case Holds(op, t, b) =>
      EnsureRowKeepsUnion(l, t, a);
      HoldFrame(EnsureRow(l, t), op, t, b, true, a);
    case Releases(op, b) =>
      ConcludeFrame(l, op, false, a);
      UnionIgnoresAgents(Conclude(l, op, false), ApplyChange(l, ch, d), a);
    case Observes(t, s, extra) =>
      EnsureRowKeepsUnion(l, t, a);
      ObservationFrame(EnsureRow(l, t), t, s, d, extra, true, a);
    case _ => AgentRowsKeepUnion(l, ch, d, a);
  }

  /** A hold needs room; an observed owner must already count the ticket. */
  ghost predicate Unsurprising(l: Ledger, ch: Change, d: Directory) {
    match ch
    case Holds(_, _, a) => a in d.maxChats && CapacityCount(l, a) < d.maxChats[a]
    case Observes(t, s, _) =>
      ObservedState(s) == Active && d.Lookup(s.owner).Some? ==> t in CapacitySet(l, d.Lookup(s.owner).value)
    case _ => true
  }

  /** No agent is taken past its maximum by a guarded hold or an expected owner. */
  lemma ChangeKeepsMaximum(l: Ledger, ch: Change, d: Directory)
    requires WithinMaximum(l, d) && Lawful(l, ch) && Unsurprising(l, ch, d)
    ensures forall a | a in l.agents && a in d.maxChats ::
              CapacityCount(ApplyChange(l, ch, d), a) <= d.maxChats[a]
  {
    forall a | a in l.agents && a in d.maxChats
      ensures CapacityCount(ApplyChange(l, ch, d), a) <= d.maxChats[a]
    {
      var m := ApplyChange(l, ch, d);
      UnionGrowth(l, ch, d, a);
      hide ApplyChange, CapacitySet;
      if AddsTo(ch, d, a) && ch.Holds? {
        GrowsByOne(CapacitySet(m, a), CapacitySet(l, a), ch.ticket);
      } else {
        assert CapacitySet(m, a) <= CapacitySet(l, a);
        SubsetSize(CapacitySet(m, a), CapacitySet(l, a));
      }
    }
  }

  /** What the generation number of an agent promises across a change. */
  ghost predicate Generations(l: Ledger, m: Ledger, a: AgentId)
    requires a in l.agents && a in m.agents
  {
    && m.agents[a].revision >= l.agents[a].revision
    && (m.agents[a].revision == l.agents[a].revision ==>
          CapacitySet(m, a) == CapacitySet(l, a)
          && (m.agents[a].readiness == Degraded ==> l.agents[a].readiness == Degraded))
  }

  /** A change that keeps an agent's generation kept its union and did not degrade it. */
  lemma ChangeBumpsGeneration(l: Ledger, ch: Change, d: Directory, a: AgentId)
    requires Lawful(l, ch) && a in l.agents
    ensures a in ApplyChange(l, ch, d).agents
    ensures Generations(l, ApplyChange(l, ch, d), a)
    ensures ch.Degrades? && a in ch.ids ==> ApplyChange(l, ch, d).agents[a].revision == l.agents[a].revision + 1
    ensures ch.Holds? && ch.agent == a ==> ApplyChange(l, ch, d).agents[a].revision == l.agents[a].revision + 1
    ensures ch.Releases? && ch.agent == a ==> ApplyChange(l, ch, d).agents[a].revision == l.agents[a].revision + 1
    ensures ch.RowCreated? ==> ApplyChange(l, ch, d).agents[a].revision == l.agents[a].revision
    ensures ch.Observes? ==>
              ApplyChange(l, ch, d).agents[a].revision ==
              l.agents[a].revision
              + if a in Affected(EnsureRow(l, ch.ticket), ch.ticket, ch.snap, d, ch.extra) then 1 else 0
  {
    match ch
    case Holds(op, t, b) =>
      if a != b {
        EnsureRowKeepsUnion(l, t, a);
        HoldFrame(EnsureRow(l, t), op, t, b, true, a);
      }
    case Releases(op, b) =>
      if a != b {
        ConcludeFrame(l, op, false, a);
        UnionIgnoresAgents(Conclude(l, op, false), ApplyChange(l, ch, d), a);
      }
    case Observes(t, s, extra) => ObservationGeneration(EnsureRow(l, t), t, s, d, extra, a);
      EnsureRowKeepsUnion(l, t, a);
    case _ => AgentRowsKeepUnion(l, ch, d, a);
  }

  lemma ObservationGeneration(l: Ledger, t: TicketId, s: Snapshot, d: Directory, extra: set<AgentId>, a: AgentId)
    requires t in l.occupancy && a in l.agents
    ensures var m := ApplyObservation(l, t, s, d, extra, true);
            && a in m.agents
            && m.agents[a].revision == l.agents[a].revision + (if a in Affected(l, t, s, d, extra) then 1 else 0)
            && m.agents[a].readiness == l.agents[a].readiness
            && (a !in Affected(l, t, s, d, extra) ==> CapacitySet(m, a) == CapacitySet(l, a))
  {
    if a !in Affected(l, t, s, d, extra) {
      AffectedCoversChanges(l, t, s, d, extra, a);
      UnionIgnoresAgents(ApplyObservation(l, t, s, d, extra, true), Rewritten(l, t, s, d), a);
    }
  }

  /** A ticket's revision moves on a hold or an applied observation of it, and on nothing else. */
  lemma TicketRevision(l: Ledger, ch: Change, d: Directory, t: TicketId)
    requires t in l.occupancy
    ensures t in ApplyChange(l, ch, d).occupancy
    ensures ApplyChange(l, ch, d).occupancy[t].revision ==
            l.occupancy[t].revision + if (ch.Holds? || ch.Observes?) && ch.ticket == t then 1 else 0
    ensures !(ch.Observes? && ch.ticket == t) ==>
              ApplyChange(l, ch, d).occupancy[t].(revision := l.occupancy[t].revision) == l.occupancy[t]
  {
    hide CapacityCount;
  }

  /** The changes after which a held reservation is held no more. */
  predicate Concludes(l: Ledger, ch: Change, d: Directory, op: Operation)
    requires op in l.reservations
  {
    match ch
    case Releases(o, _) => o == op
    case Observes(t, s, _) =>
      && l.reservations[op].ticket == t
      && ((ObservedState(s) == Active && d.Owns(l.reservations[op].agent, s.owner))
          || ObservedState(s) in {Closed, OutOfScope})
    case _ => false
  }

  /** A held reservation stops being held exactly when one of those changes happens. */
  lemma HeldUntilConcluded(l: Ledger, ch: Change, d: Directory, op: Operation)
    requires op in l.reservations && l.reservations[op].state == Held
    ensures op in ApplyChange(l, ch, d).reservations
    ensures ApplyChange(l, ch, d).reservations[op].state != Held <==> Concludes(l, ch, d, op)
  {
    hide CapacityCount;
  }
}
