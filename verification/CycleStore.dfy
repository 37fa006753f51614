/** The cycle, queue, assignment and closed-record tables, updated in place by the services. */
module CycleStore {
  import opened Base
  import opened ConversationCycles
  import opened TicketClose

  /** `Raised` is the insert that lost to a key of another ticket: nothing to re-read, everything rolled back. */
  datatype OpenResult = Opened(admission: Admission, cycle: Option<CycleId>) | Raised

  class Store {
    var cycles: map<CycleId, Cycle>
    var queue: map<CycleId, QueueRow>
    var assignments: map<CycleId, AssignedRow>
    var closed: map<CycleId, ClosedRecord>

    ghost function Rows(): Tables
      reads this
    {
      Tables(cycles, queue, assignments, closed)
    }

    constructor ()
      ensures Rows() == Tables(map[], map[], map[], map[])
    {
      cycles, queue, assignments, closed := map[], map[], map[], map[];
    }

    /** Finds the row that carries an identity's key among the ticket's cycles. */
    method FindByKey(id: Identity) returns (found: Option<CycleId>)
      ensures found.Some? ==>
        found.value in Known(Rows(), id.account, id.ticket) && cycles[found.value].key == id.key
      ensures found.None? ==>
        forall c :: c in Known(Rows(), id.account, id.ticket) ==> cycles[c].key != id.key
    {
      found := None;
      var left := cycles.Keys;
      while left != {}
        invariant left <= cycles.Keys
        invariant forall c :: c in Known(Rows(), id.account, id.ticket) && c !in left ==> cycles[c].key != id.key
      {
        var c :| c in left;
        if cycles[c].account == id.account && cycles[c].ticket == id.ticket && cycles[c].key == id.key {
          return Some(c);
        }
        left := left - {c};
      }
    }

    /**
     * Opens the cycle of a stage entry, or returns the one that is there. The
     * state follows the admission rules, and the result is the occurrence's
     * own cycle: the new row, or the row already stored under its key.
     */
    method OpenOrGetCycle(keyOf: KeyOf, e: Entry, pk: CycleId) returns (r: OpenResult)
      requires pk !in cycles
      modifies this`cycles
      ensures Rows() == OpenOrGet(keyOf, old(Rows()), e, pk)
      ensures r.Opened? ==> r.admission == Admit(keyOf, old(Rows()), e)
      ensures r.Opened? && r.cycle.Some? ==>
        && BuildIdentity(keyOf, e).Some?
        && var id := BuildIdentity(keyOf, e).value;
           r.cycle.value in Known(Rows(), id.account, id.ticket) && cycles[r.cycle.value].key == id.key
      ensures r.Opened? ==> (r.cycle.Some? <==> r.admission == Created || r.admission == Duplicate)
      ensures r.Opened? && r.admission == Created <==> pk in cycles
      ensures r.Opened? && r.admission == Created ==> r.cycle == Some(pk)
    {
      var identity := BuildIdentity(keyOf, e);
      if identity.None? {
        return Opened(Admission.IdentityUnavailable, None);
      }
      var id := identity.value;
      var admission := Classify(Tables(cycles, queue, assignments, closed), id);
      if admission != Created {
        var found := FindByKey(id);
        return Opened(admission, found);
      }
      if exists c :: c in cycles && cycles[c].key == id.key {
        return Raised;
      }
      cycles := cycles[pk := Cycle(id.key, id.account, id.ticket, id.enteredAt, Queued, None)];
      r := Opened(Created, Some(pk));
    }

    /** Moves the active rows into a closed record and closes the cycle. */
    method MaterializeClose(target: CycleId, o: Occurrence)
      requires target in cycles && o.effectiveAt.Some?
      modifies this
      ensures Rows() == Materialize(old(Rows()), target, o)
    {
      var record := ClosedRecord(o.ticket, o.effectiveAt.value, o.closingOwner, None, None, None, false);
      if target in assignments && assignments[target].ticket == o.ticket {
        var row := assignments[target];
        record := record.(agent := row.agent, owner := row.owner, assignedAt := row.assignedAt);
        if o.closingOwner.Some? && o.closingOwner != row.owner {
          record := record.(bySystem := true);
        }
        assignments := assignments - {target};
      }
      closed := closed[target := record];
      if target in queue && queue[target].ticket == o.ticket {
        queue := queue - {target};
      }
      cycles := cycles[target := cycles[target].(state := Closed, closedAt := o.effectiveAt)];
    }

    /** Applies a close to the rows it locked. */
    method ApplyCloseOccurrence(
      rows: seq<Listed>, o: Occurrence, snapshot: Option<ProviderSnapshot>, dryRun: bool)
      returns (r: CloseResult)
      requires IsListing(Rows(), o.ticket, rows)
      modifies this
      ensures (Rows(), r) == ApplyClose(old(Rows()), rows, o, snapshot, dryRun)
    {
      ghost var before := Rows();
      r := ClassifyClose(rows, o, snapshot);
      assert Applies(r.classification) ==> r.cycle.Some? && r.cycle.value in cycles && o.effectiveAt.Some? by {
        TargetIsListed(before, rows, o, snapshot);
      }
      hide ClassifyClose, Materialize, IsListing;
      if Applies(r.classification) {
        var target := r.cycle.value;
        if target in closed {
          r := CloseResult(Conflict, Some(target), false);
        } else if !dryRun {
          MaterializeClose(target, o);
        }
      }
    }
  }

  /** Whatever a listing resolves to is one of the listed cycles. */
  lemma TargetIsListed(t: Tables, rows: seq<Listed>, o: Occurrence, snapshot: Option<ProviderSnapshot>)
    requires IsListing(t, o.ticket, rows)
    ensures var r := ClassifyClose(rows, o, snapshot);
      Applies(r.classification) ==> o.effectiveAt.Some? && r.cycle.Some? && r.cycle.value in OfTicket(t, o.ticket)
  {
    hide SortByEntry, EnteredBy, OneAccount, ProviderDecision;
    if o.effectiveAt.Some? {
      PickIsLatest(t, o.ticket, rows, o.effectiveAt.value);
    }
  }
}
