/**
 * Whom a closed attendance is credited to: every closed record of every history
 * carries the last assignment its cycle had before the close.
 */
module ClosedCredit {
  import opened Base
  import opened ConversationCycles
  import opened TicketClose
  import opened CycleHistory

  datatype Credit = Credit(agent: Option<AgentId>, owner: Option<OwnerId>, assignedAt: Option<Instant>)

  /**
   * The last assignment of a cycle, told from the transactions: a confirmed owner on a queued
   * cycle starts one, another observed owner takes it over, and an observed absence ends it.
   */
  ghost function LastAssignment(keyOf: KeyOf, acts: seq<Act>, c: CycleId): Option<Credit>
    decreases |acts|
  {
    if acts == [] then None
    else
      var front, a := acts[..|acts| - 1], acts[|acts| - 1];
      var had := LastAssignment(keyOf, front, c);
      var t := Run(keyOf, EMPTY, front);
      if a.Assign? && a.cycle == c && c in t.cycles && t.cycles[c].state == Queued then
        Some(Credit(a.agent, a.owner, a.at))
      else if a.Reassign? && a.cycle == c && had.Some? && had.value.owner != a.owner then
        Some(Credit(a.agent, a.owner, had.value.assignedAt))
      else if a.Unassign? && a.cycle == c then None
      else had
  }

  /** The assignment table says the same as the transactions. */
  ghost predicate SameCredit(t: Tables, c: CycleId, credit: Option<Credit>) {
    && (c in t.assignments <==> credit.Some?)
    && (credit.Some? ==>
          credit.value == Credit(t.assignments[c].agent, t.assignments[c].owner, t.assignments[c].assignedAt))
  }

  lemma RunFront(keyOf: KeyOf, acts: seq<Act>)
    requires acts != []
    ensures Run(keyOf, EMPTY, acts) == Step(keyOf, Run(keyOf, EMPTY, acts[..|acts| - 1]), acts[|acts| - 1])
  {
    hide Run, Step;
    assert acts == acts[..|acts| - 1] + [acts[|acts| - 1]];
    RunSnoc(keyOf, EMPTY, acts[..|acts| - 1], acts[|acts| - 1]);
  }

  lemma OtherClosesKeepRow(keyOf: KeyOf, t: Tables, a: Act, c: CycleId)
    requires Sound(keyOf, t) && a.CloseTicket? && c !in Step(keyOf, t, a).closed
    ensures c in Step(keyOf, t, a).assignments <==> c in t.assignments
    ensures c in t.assignments ==> Step(keyOf, t, a).assignments[c] == t.assignments[c]
  {
    hide ApplyClose, IsListing, Ordered, Keyed, Recorded, RowsLinked, Newest, LatestBy, SingleAccount, ProviderDecision;
    if IsListing(t, a.o.ticket, a.rows) {
      CloseChangesActiveOrNothing(keyOf, t, a.rows, a.o, a.snapshot, a.dryRun);
      var (u, r) := ApplyClose(t, a.rows, a.o, a.snapshot, a.dryRun);
      ApplyWritesIfApplied(t, a.rows, a.o, a.snapshot, a.dryRun);
    }
  }

  lemma ApplyWritesIfApplied(t: Tables, rows: seq<Listed>, o: Occurrence, snapshot: Option<ProviderSnapshot>, dryRun: bool)
    ensures var (u, r) := ApplyClose(t, rows, o, snapshot, dryRun); u != t ==> Applies(r.classification) && !dryRun
  {
    hide ClassifyClose, Materialize;
  }

  /** Until its cycle is closed, the assignment row is the last assignment. */
  lemma {:induction false} OpenRowIsLastAssignment(keyOf: KeyOf, acts: seq<Act>, c: CycleId)
    ensures var t := Run(keyOf, EMPTY, acts); c !in t.closed ==> SameCredit(t, c, LastAssignment(keyOf, acts, c))
    decreases |acts|
  {
    hide Run, Step, Sound, Preserves, RecordsByCloseOnly, AddsOnlyLatest;
    if acts == [] {
      assert Run(keyOf, EMPTY, acts) == EMPTY by { RunOfNothing(keyOf, EMPTY); }
    } else {
      var front, a := acts[..|acts| - 1], acts[|acts| - 1];
      var t := Run(keyOf, EMPTY, front);
      RunFront(keyOf, acts);
      EmptyIsSound(keyOf);
      RunKeepsSound(keyOf, EMPTY, front);
      StepPreserves(keyOf, t, a);
      OpenRowIsLastAssignment(keyOf, front, c);
      if c !in Step(keyOf, t, a).closed {
        assert c !in t.closed by { PreservedRecord(t, Step(keyOf, t, a), c); }
        StepKeepsCredit(keyOf, acts, c);
      }
    }
  }

  lemma PreservedRecord(t: Tables, u: Tables, c: CycleId)
    requires Preserves(t, u)
    ensures c in t.closed ==> c in u.closed && u.closed[c] == t.closed[c]
  {
  }

  lemma StepKeepsCredit(keyOf: KeyOf, acts: seq<Act>, c: CycleId)
    requires acts != []
    requires var t := Run(keyOf, EMPTY, acts[..|acts| - 1]);
             && Sound(keyOf, t) && SameCredit(t, c, LastAssignment(keyOf, acts[..|acts| - 1], c))
             && c !in Step(keyOf, t, acts[|acts| - 1]).closed
    ensures var t := Run(keyOf, EMPTY, acts[..|acts| - 1]);
            SameCredit(Step(keyOf, t, acts[|acts| - 1]), c, LastAssignment(keyOf, acts, c))
  {
    hide Run, Sound, ApplyClose, IsListing, Classify;
    var t, a := Run(keyOf, EMPTY, acts[..|acts| - 1]), acts[|acts| - 1];
    if a.CloseTicket? {
      OtherClosesKeepRow(keyOf, t, a, c);
      hide Step;
    }
  }

  /** The record tells the close, and credits the given assignment, if there was one. */
  predicate Credits(r: ClosedRecord, o: Occurrence, credit: Option<Credit>) {
    && r.ticket == o.ticket && Some(r.closedAt) == o.effectiveAt && r.closedBy == o.closingOwner
    && (credit.Some? ==> Credit(r.agent, r.owner, r.assignedAt) == credit.value)
    && (credit.None? ==> Credit(r.agent, r.owner, r.assignedAt) == Credit(None, None, None))
    && (r.bySystem <==> credit.Some? && r.closedBy.Some? && r.closedBy != credit.value.owner)
  }

  /** The `k`-th transaction is the close that wrote the record. */
  ghost predicate WrittenAt(keyOf: KeyOf, acts: seq<Act>, k: nat, c: CycleId, r: ClosedRecord) {
    && k < |acts| && acts[k].CloseTicket? && !acts[k].dryRun
    && c !in Run(keyOf, EMPTY, acts[..k]).closed
    && Credits(r, acts[k].o, LastAssignment(keyOf, acts[..k], c))
  }

  /** Every closed record was written by one close, and credits the last assignment its cycle had before it. */
  lemma {:induction false} RecordsCreditLastAssignment(keyOf: KeyOf, acts: seq<Act>, c: CycleId)
    requires c in Run(keyOf, EMPTY, acts).closed
    ensures exists k: nat :: WrittenAt(keyOf, acts, k, c, Run(keyOf, EMPTY, acts).closed[c])
    decreases |acts|
  {
    hide Run, Step, Sound, Preserves, AddsOnlyLatest, LastAssignment, RecordsByCloseOnly, Credits;
    RunOfNothing(keyOf, EMPTY);
    var front, a := acts[..|acts| - 1], acts[|acts| - 1];
    var t := Run(keyOf, EMPTY, front);
    RunFront(keyOf, acts);
    EmptyIsSound(keyOf);
    RunKeepsSound(keyOf, EMPTY, front);
    StepPreserves(keyOf, t, a);
    PreservedRecord(t, Step(keyOf, t, a), c);
    if c in t.closed {
      RecordsCreditLastAssignment(keyOf, front, c);
      var k: nat :| WrittenAt(keyOf, front, k, c, t.closed[c]);
      assert acts[..k] == front[..k];
      assert WrittenAt(keyOf, acts, k, c, t.closed[c]);
    } else {
      OpenRowIsLastAssignment(keyOf, front, c);
      NewRecordCredits(keyOf, t, a, c, LastAssignment(keyOf, front, c));
      assert WrittenAt(keyOf, acts, |acts| - 1, c, Step(keyOf, t, a).closed[c]);
    }
  }

  lemma NewRecordCredits(keyOf: KeyOf, t: Tables, a: Act, c: CycleId, credit: Option<Credit>)
    requires Sound(keyOf, t) && c !in t.closed && c in Step(keyOf, t, a).closed && SameCredit(t, c, credit)
    ensures a.CloseTicket? && !a.dryRun && Credits(Step(keyOf, t, a).closed[c], a.o, credit)
  {
    hide Sound, Preserves, AddsOnlyLatest, Newest, ApplyClose, IsListing;
    StepPreserves(keyOf, t, a);
    ApplyWritesIfApplied(t, a.rows, a.o, a.snapshot, a.dryRun);
  }
}
