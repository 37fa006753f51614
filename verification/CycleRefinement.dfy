/**
 * The assignment protocol sees of a cycle only its ticket and whether it is
 * queued, assigned or out of reach. This ties that view to the full history:
 * each kind of history step is the protocol's own cycle step, seen through it.
 */
module CycleRefinement {
  import opened Base
  import P = AssignmentProtocol
  import opened ConversationCycles
  import opened TicketClose

  function View(s: State): P.CycleState {
    match s
    case Queued => P.CycleQueued
    case Assigned => P.CycleAssigned
    case _ => P.CycleClosed
  }

  function CyclesView(t: Tables): map<CycleId, P.Cycle> {
    map c | c in t.cycles :: P.Cycle(t.cycles[c].ticket, View(t.cycles[c].state))
  }

  /** An admitted entry is the protocol's opening of a cycle; any other entry is no step at all. */
  lemma EntryRefines(keyOf: KeyOf, t: Tables, e: Entry, pk: CycleId, w: P.World)
    requires w.cycles == CyclesView(t) && pk !in t.cycles
    ensures var u := OpenOrGet(keyOf, t, e, pk);
      && (u == t ==> CyclesView(u) == w.cycles)
      && (u != t ==> e.ticket.Some? && CyclesView(u) == P.OpenNew(w, pk, e.ticket.value).cycles)
  {
    hide Classify;
  }

  /** Confirming an owner on a queued cycle is what finalization does to it. */
  lemma AssignmentRefines(
    t: Tables, c: CycleId, agent: Option<AgentId>, owner: Option<OwnerId>, at: Option<Instant>,
    w: P.World, id: AttemptId)
    requires w.cycles == CyclesView(t)
    requires P.CanFinalize(w, id) && w.attempts[id].cycle == c
    ensures CyclesView(AssignCycle(t, c, agent, owner, at)) == P.Finalize(w, id).cycles
    ensures AssignCycle(t, c, agent, owner, at) != t
  {
    assert t.cycles[c].state == Queued;
    assert AssignCycle(t, c, agent, owner, at).cycles[c].state == Assigned;
  }

  /** A close that applies is the protocol's close of that cycle. */
  lemma CloseRefines(t: Tables, u: Tables, c: CycleId, o: Occurrence, w: P.World)
    requires w.cycles == CyclesView(t) && ClosesOnly(t, u, c, o)
    ensures CyclesView(u) == P.CloseCycle(w, c).cycles
  {
    hide Newest;
  }

  /** Every history step but an administrative move is a protocol step on cycles, or none. */
  lemma HistoryRefinesProtocol(keyOf: KeyOf, t: Tables, a: Act, w: P.World)
    requires Sound(keyOf, t) && w.cycles == CyclesView(t) && !a.Move?
    requires a.Enter? ==> a.pk !in t.cycles
    ensures var u := Step(keyOf, t, a);
      || CyclesView(u) == w.cycles
      || (a.Enter? && a.entry.ticket.Some? && CyclesView(u) == P.OpenNew(w, a.pk, a.entry.ticket.value).cycles)
      || (a.Assign? && a.cycle in w.cycles && w.cycles[a.cycle].state == P.CycleQueued
          && CyclesView(u) == w.cycles[a.cycle := w.cycles[a.cycle].(state := P.CycleAssigned)])
      || (a.CloseTicket? && exists c :: CyclesView(u) == P.CloseCycle(w, c).cycles)
  {
    hide OpenOrGet, ApplyClose, IsListing, ClosesOnly, Sound, P.CloseCycle;
    match a
    case Enter(e, pk) => EntryRefines(keyOf, t, e, pk, w);
    case CloseTicket(o, snapshot, dryRun, rows) =>
      if IsListing(t, o.ticket, rows) {
        CloseChangesActiveOrNothing(keyOf, t, rows, o, snapshot, dryRun);
        var (u, r) := ApplyClose(t, rows, o, snapshot, dryRun);
        if u != t {
          CloseRefines(t, u, r.cycle.value, o, w);
        }
      }
    case _ =>
  }
}
