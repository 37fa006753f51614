/**
 * Whole histories of entries, transitions and closes: what every run keeps,
 * and what happens when a close is delivered again.
 */
module CycleHistory {
  import opened Base
  import opened ConversationCycles
  import opened TicketClose

  lemma OpenKeepsSound(keyOf: KeyOf, t: Tables, e: Entry, pk: CycleId)
    requires Sound(keyOf, t)
    ensures Sound(keyOf, OpenOrGet(keyOf, t, e, pk))
  {
    hide Admit, BuildIdentity, Ordered, Keyed;
    OpenKeepsOrder(keyOf, t, e, pk);
  }

  lemma SetStateKeepsSound(keyOf: KeyOf, t: Tables, c: CycleId, s: State)
    requires Sound(keyOf, t) && c in t.cycles
    requires Active(t.cycles[c].state)
    ensures Sound(keyOf, SetState(t, c, s, t.cycles[c].closedAt))
  {
    hide Ordered, Keyed;
    SetStateKeepsOrder(keyOf, t, c, s, t.cycles[c].closedAt);
  }

  /** Ordering and keys depend on the cycles alone. */
  lemma OrderIgnoresRows(keyOf: KeyOf, t: Tables, u: Tables)
    requires Keyed(keyOf, t) && Ordered(t) && u.cycles == t.cycles
    ensures Keyed(keyOf, u) && Ordered(u)
  {
    assert forall c, d :: c in t.cycles && d in t.cycles ==> SameTicket(t, c, d) == SameTicket(u, c, d);
    forall c | c in u.cycles && Active(u.cycles[c].state)
      ensures Newest(u, c)
    {
      assert Newest(t, c);
    }
  }

  lemma MovesKeepSound(keyOf: KeyOf, t: Tables, a: Act)
    requires Sound(keyOf, t)
    requires !a.Enter? && !a.CloseTicket?
    ensures Sound(keyOf, Step(keyOf, t, a))
  {
    hide Ordered, Keyed, OpenOrGet, ApplyClose, IsListing, AttachRow, AssignCycle, ReassignCycle, UnassignCycle, Sound;
    match a
    case Attach(c, from) => AttachKeepsSound(keyOf, t, c, from);
    case Assign(c, agent, owner, at) => AssignKeepsSound(keyOf, t, c, agent, owner, at);
    case Reassign(c, agent, owner) => ReassignKeepsSound(keyOf, t, c, agent, owner);
    case Unassign(c) => UnassignKeepsSound(keyOf, t, c);
    case Move(c, target, _) =>
      if Step(keyOf, t, a) != t {
        SetStateKeepsSound(keyOf, t, c, target);
      }
  }

  lemma AttachKeepsSound(keyOf: KeyOf, t: Tables, c: CycleId, from: Option<CycleId>)
    requires Sound(keyOf, t)
    ensures Sound(keyOf, AttachRow(t, c, from))
  {
    hide Ordered, Keyed;
    OrderIgnoresRows(keyOf, t, AttachRow(t, c, from));
  }

  lemma AssignKeepsSound(
    keyOf: KeyOf, t: Tables, c: CycleId, agent: Option<AgentId>, owner: Option<OwnerId>, at: Option<Instant>)
    requires Sound(keyOf, t)
    ensures Sound(keyOf, AssignCycle(t, c, agent, owner, at))
  {
    hide Ordered, Keyed;
    var u := AssignCycle(t, c, agent, owner, at);
    if u != t {
      SetStateKeepsSound(keyOf, t, c, Assigned);
      OrderIgnoresRows(keyOf, SetState(t, c, Assigned, t.cycles[c].closedAt), u);
    }
  }

  lemma ReassignKeepsSound(keyOf: KeyOf, t: Tables, c: CycleId, agent: Option<AgentId>, owner: Option<OwnerId>)
    requires Sound(keyOf, t)
    ensures Sound(keyOf, ReassignCycle(t, c, agent, owner))
  {
    hide Ordered, Keyed, Recorded;
    AssignmentsKeepSound(keyOf, t, ReassignCycle(t, c, agent, owner));
  }

  lemma UnassignKeepsSound(keyOf: KeyOf, t: Tables, c: CycleId)
    requires Sound(keyOf, t)
    ensures Sound(keyOf, UnassignCycle(t, c))
  {
    hide Ordered, Keyed, Recorded;
    AssignmentsKeepSound(keyOf, t, UnassignCycle(t, c));
  }

  lemma AssignmentsKeepSound(keyOf: KeyOf, t: Tables, u: Tables)
    requires Sound(keyOf, t) && u == t.(assignments := u.assignments)
    requires forall c :: c in u.assignments ==> c in t.assignments && u.assignments[c].ticket == t.assignments[c].ticket
    ensures Sound(keyOf, u)
  {
    OrderIgnoresRows(keyOf, t, u);
    hide Ordered, Keyed;
  }

  lemma ClosesOnlyKeepsSound(keyOf: KeyOf, t: Tables, u: Tables, c: CycleId, o: Occurrence)
    requires Sound(keyOf, t) && ClosesOnly(t, u, c, o)
    ensures Sound(keyOf, u)
  {
    hide Ordered, Keyed;
    var moved := SetState(t, c, Closed, o.effectiveAt);
    SetStateKeepsOrder(keyOf, t, c, Closed, o.effectiveAt);
    OrderIgnoresRows(keyOf, moved, u);
    forall d | d in u.closed
      ensures d in u.cycles && u.cycles[d].state == Closed && u.cycles[d].closedAt == Some(u.closed[d].closedAt)
           && u.cycles[d].enteredAt <= u.closed[d].closedAt
    {
      if d != c {
        assert d in u.closed - {c};
      }
    }
  }

  /** Every transaction keeps the history sound, whatever order entries and closes arrive in. */
  lemma StepKeepsSound(keyOf: KeyOf, t: Tables, a: Act)
    requires Sound(keyOf, t)
    ensures Sound(keyOf, Step(keyOf, t, a))
  {
    hide Sound, OpenOrGet, ApplyClose, IsListing, AttachRow, AssignCycle, ReassignCycle,
      UnassignCycle, MoveCycle, ClosesOnly;
    match a
    case Enter(e, pk) => OpenKeepsSound(keyOf, t, e, pk);
    case CloseTicket(o, snapshot, dryRun, rows) =>
      if IsListing(t, o.ticket, rows) {
        CloseChangesActiveOrNothing(keyOf, t, rows, o, snapshot, dryRun);
        var (u, r) := ApplyClose(t, rows, o, snapshot, dryRun);
        if u != t {
          ClosesOnlyKeepsSound(keyOf, t, u, r.cycle.value, o);
        }
      }
    case _ => MovesKeepSound(keyOf, t, a);
  }

  /**
   * In every run a ticket has at most one active cycle, that cycle is strictly
   * the latest by entry time, and closed records match their cycles.
   */
  lemma {:induction false} RunKeepsSound(keyOf: KeyOf, t: Tables, acts: seq<Act>)
    requires Sound(keyOf, t)
    ensures Sound(keyOf, Run(keyOf, t, acts))
    decreases |acts|
  {
    hide Sound, Step;
    if acts != [] {
      StepKeepsSound(keyOf, t, acts[0]);
      RunKeepsSound(keyOf, Step(keyOf, t, acts[0]), acts[1..]);
    }
  }

  lemma {:induction false} RunSnoc(keyOf: KeyOf, t: Tables, acts: seq<Act>, a: Act)
    ensures Run(keyOf, t, acts + [a]) == Step(keyOf, Run(keyOf, t, acts), a)
    decreases |acts|
  {
    hide Step;
    if acts == [] {
      assert (acts + [a])[1..] == [];
    } else {
      assert (acts + [a])[1..] == acts[1..] + [a];
      RunSnoc(keyOf, Step(keyOf, t, acts[0]), acts[1..], a);
    }
  }

  const EMPTY: Tables := Tables(map[], map[], map[], map[])

  lemma RunOfNothing(keyOf: KeyOf, t: Tables)
    ensures Run(keyOf, t, []) == t
  {
  }

  lemma EmptyIsSound(keyOf: KeyOf)
    ensures Sound(keyOf, EMPTY)
  {
  }

  /** From an empty database no close ever resolves to a past attendance. */
  lemma HistoricalIsUnreachable(keyOf: KeyOf, acts: seq<Act>, o: Occurrence, rows: seq<Listed>)
    requires IsListing(Run(keyOf, EMPTY, acts), o.ticket, rows)
    ensures ResolveCloseTarget(rows, o).classification != AppliedHistorical
  {
    hide IsListing, ResolveCloseTarget, Step, Run;
    RunKeepsSound(keyOf, EMPTY, acts);
    NeverHistorical(Run(keyOf, EMPTY, acts), o, rows);
  }

  // ---------------------------------------------------------------- what stays

  predicate Terminal(s: State) {
    s == Closed || s == Cancelled
  }

  /** Finished cycles and closed records are still there, unchanged; identities never change. */
  ghost predicate Preserves(t: Tables, u: Tables) {
    && (forall c :: c in t.cycles ==>
          && c in u.cycles
          && u.cycles[c].ticket == t.cycles[c].ticket && u.cycles[c].account == t.cycles[c].account
          && u.cycles[c].enteredAt == t.cycles[c].enteredAt && u.cycles[c].key == t.cycles[c].key
          && (Terminal(t.cycles[c].state) ==> u.cycles[c] == t.cycles[c]))
    && (forall c :: c in t.closed ==> c in u.closed && u.closed[c] == t.closed[c])
  }

  /** A record is new in `u` only if a close wrote exactly it. */
  ghost predicate RecordsByCloseOnly(t: Tables, u: Tables, a: Act) {
    forall c :: c in u.closed && c !in t.closed ==>
      && a.CloseTicket?
      && ClosesOnly(t, u, c, a.o)
  }

  /** A new cycle is later than every cycle its ticket had. */
  ghost predicate AddsOnlyLatest(t: Tables, u: Tables) {
    forall c, d :: c in u.cycles && c !in t.cycles && d in t.cycles && SameTicketAcross(t, d, u, c) ==>
      t.cycles[d].enteredAt < u.cycles[c].enteredAt
  }

  predicate SameTicketAcross(t: Tables, d: CycleId, u: Tables, c: CycleId)
    requires d in t.cycles && c in u.cycles
  {
    t.cycles[d].account == u.cycles[c].account && t.cycles[d].ticket == u.cycles[c].ticket
  }

  lemma ClosePreserves(t: Tables, u: Tables, c: CycleId, o: Occurrence)
    requires ClosesOnly(t, u, c, o)
    ensures Preserves(t, u)
    ensures forall d :: d in u.closed && d !in t.closed ==> d == c
    ensures u.cycles.Keys == t.cycles.Keys
  {
    hide Newest;
    assert forall d :: d in u.closed <==> d == c || d in u.closed - {c};
    assert forall d :: d in t.closed ==> u.closed[d] == (u.closed - {c})[d];
  }

  lemma OpenAddsOnlyLatest(keyOf: KeyOf, t: Tables, e: Entry, pk: CycleId)
    requires Keyed(keyOf, t)
    ensures var u := OpenOrGet(keyOf, t, e, pk); Preserves(t, u) && AddsOnlyLatest(t, u) && u.closed == t.closed
  {
    hide Classify;
    var u := OpenOrGet(keyOf, t, e, pk);
    if u != t {
      var id := BuildIdentity(keyOf, e).value;
      AdmittedIsLatest(keyOf, t, id);
      forall c, d | c in u.cycles && c !in t.cycles && d in t.cycles && SameTicketAcross(t, d, u, c)
        ensures t.cycles[d].enteredAt < u.cycles[c].enteredAt
      {
        assert d in Known(t, id.account, id.ticket);
      }
    }
  }

  lemma MovesPreserve(keyOf: KeyOf, t: Tables, a: Act)
    requires !a.Enter? && !a.CloseTicket?
    ensures var u := Step(keyOf, t, a); Preserves(t, u) && u.closed == t.closed && u.cycles.Keys == t.cycles.Keys
  {
  }

  lemma StepPreserves(keyOf: KeyOf, t: Tables, a: Act)
    requires Sound(keyOf, t)
    ensures var u := Step(keyOf, t, a); Preserves(t, u) && RecordsByCloseOnly(t, u, a) && AddsOnlyLatest(t, u)
  {
    hide OpenOrGet, ApplyClose, IsListing, ClosesOnly, Ordered, Keyed, Recorded, RowsLinked, Preserves, AttachRow,
      AssignCycle, ReassignCycle, UnassignCycle, MoveCycle;
    match a
    case Enter(e, pk) => OpenAddsOnlyLatest(keyOf, t, e, pk);
    case CloseTicket(o, snapshot, dryRun, rows) =>
      NothingPreserves(t);
      if IsListing(t, o.ticket, rows) {
        CloseChangesActiveOrNothing(keyOf, t, rows, o, snapshot, dryRun);
        var (u, r) := ApplyClose(t, rows, o, snapshot, dryRun);
        if u != t {
          ClosePreserves(t, u, r.cycle.value, o);
        }
      }
    case _ => MovesPreserve(keyOf, t, a);
  }

  lemma NothingPreserves(t: Tables)
    ensures Preserves(t, t)
  {
  }

  /** A closed record is written once: in every later state it is the same record on the same closed cycle. */
  lemma {:induction false} RunPreserves(keyOf: KeyOf, t: Tables, acts: seq<Act>)
    requires Sound(keyOf, t)
    ensures Preserves(t, Run(keyOf, t, acts))
    decreases |acts|
  {
    hide Sound, Step, RecordsByCloseOnly, AddsOnlyLatest;
    if acts != [] {
      StepKeepsSound(keyOf, t, acts[0]);
      StepPreserves(keyOf, t, acts[0]);
      RunPreserves(keyOf, Step(keyOf, t, acts[0]), acts[1..]);
    }
  }

  // ---------------------------------------------------------------- delivering a close again

  /**
   * A close that finds its cycle already closed is a duplicate of it exactly
   * when no later attendance began by the close's effective time.
   */
  lemma RedeliveryIsDuplicateIff(t: Tables, o: Occurrence, rows: seq<Listed>, c: CycleId)
    requires Ordered(t) && IsListing(t, o.ticket, rows) && SingleAccount(t, o.ticket)
    requires c in OfTicket(t, o.ticket) && t.cycles[c].state == Closed
    requires o.effectiveAt.Some? && t.cycles[c].enteredAt <= o.effectiveAt.value
    ensures ResolveCloseTarget(rows, o) == CloseResult(DuplicateClose, Some(c), false) <==>
      forall d :: d in OfTicket(t, o.ticket) && t.cycles[d].enteredAt <= o.effectiveAt.value ==>
        t.cycles[d].enteredAt <= t.cycles[c].enteredAt
  {
    hide SortByEntry, EnteredBy, OneAccount;
    var at := o.effectiveAt.value;
    var e := EnteredBy(SortByEntry(rows), at);
    ListingAccounts(t, o.ticket, rows);
    PickIsLatest(t, o.ticket, rows, at);
    ClosedIsPickedIff(t, o.ticket, at, c);
    ListedSome(t, o.ticket, rows, c);
    LastIsLatest(t, o.ticket, rows);
    hide IsListing, LatestBy, OfTicket, Ordered, SingleAccount;
    assert e != [];
  }

  lemma ListedSome(t: Tables, ticket: TicketId, rows: seq<Listed>, c: CycleId)
    requires IsListing(t, ticket, rows) && c in OfTicket(t, ticket)
    ensures rows != []
  {
    var i :| 0 <= i < |rows| && rows[i].id == c;
  }

  /** Among the cycles entered by `at`, `c` is the latest exactly when none of them is later. */
  lemma ClosedIsPickedIff(t: Tables, ticket: TicketId, at: Instant, c: CycleId)
    requires Ordered(t) && SingleAccount(t, ticket)
    requires c in OfTicket(t, ticket) && t.cycles[c].enteredAt <= at
    ensures forall x :: LatestBy(t, ticket, at, x) ==>
      (x == c <==> forall d :: d in OfTicket(t, ticket) && t.cycles[d].enteredAt <= at ==>
        t.cycles[d].enteredAt <= t.cycles[c].enteredAt)
  {
    LatestIsUnique(t, ticket, at);
  }

  lemma TargetStaysLatest(t: Tables, u: Tables, o: Occurrence, c: CycleId)
    requires ClosesOnly(t, u, c, o)
    requires SingleAccount(t, o.ticket) && LatestBy(t, o.ticket, o.effectiveAt.value, c)
    ensures SingleAccount(u, o.ticket) && LatestBy(u, o.ticket, o.effectiveAt.value, c)
    ensures u.cycles[c].state == Closed
  {
    hide Newest;
    assert OfTicket(u, o.ticket) == OfTicket(t, o.ticket);
  }

  /** Applying the same close twice in a row: the second is a duplicate and writes nothing. */
  lemma RepeatedCloseChangesNothing(
    keyOf: KeyOf, t: Tables, rows: seq<Listed>, o: Occurrence, snapshot: Option<ProviderSnapshot>,
    again: seq<Listed>, later: Option<ProviderSnapshot>, dryRun: bool)
    requires Sound(keyOf, t) && IsListing(t, o.ticket, rows)
    requires ApplyClose(t, rows, o, snapshot, false).1.classification == AppliedCurrent
    requires IsListing(ApplyClose(t, rows, o, snapshot, false).0, o.ticket, again)
    ensures var (u, r) := ApplyClose(t, rows, o, snapshot, false);
      ApplyClose(u, again, o, later, dryRun) == (u, CloseResult(DuplicateClose, r.cycle, false))
  {
    var (u, r) := ApplyClose(t, rows, o, snapshot, false);
    assert ResolveCloseTarget(again, o) == CloseResult(DuplicateClose, r.cycle, false) by {
      hide ResolveCloseTarget, IsListing, Ordered, Keyed, Recorded, RowsLinked, ClosesOnly, ApplyClose, SingleAccount;
      CloseChangesActiveOrNothing(keyOf, t, rows, o, snapshot, false);
      ClosesOnlyKeepsSound(keyOf, t, u, r.cycle.value, o);
      TargetStaysLatest(t, u, o, r.cycle.value);
      RedeliveryIsDuplicateIff(u, o, again, r.cycle.value);
    }
    hide ResolveCloseTarget, IsListing, Sound, Materialize;
  }
}
