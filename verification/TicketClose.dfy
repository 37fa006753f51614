/**
 * Close occurrences: resolved against the ticket's cycles by time, checked
 * against the provider, and materialised as one closed record.
 */
module TicketClose {
  import opened Base
  import opened ConversationCycles

  /** A row as the query returns it, in primary-key order. */
  datatype Listed = Listed(id: CycleId, cycle: Cycle)

  /** `effectiveAt` is absent when the caller's time carries no zone. */
  datatype Occurrence = Occurrence(ticket: TicketId, effectiveAt: Option<Instant>, closingOwner: Option<OwnerId>)

  datatype Classification =
    | AppliedCurrent
    | AppliedHistorical
    | DuplicateClose
    | NoCycle
    | IdentityUnavailable
    | ReopenNotMaterialized
    | ProviderUnavailable
    | Conflict

  datatype CloseResult = CloseResult(classification: Classification, cycle: Option<CycleId>, closesCurrent: bool)

  // ---------------------------------------------------------------- resolution

  /** Stable insertion by entry time. */
  function Insert(x: Listed, s: seq<Listed>): seq<Listed> {
    if s == [] || x.cycle.enteredAt <= s[0].cycle.enteredAt then [x] + s
    else [s[0]] + Insert(x, s[1..])
  }

  function SortByEntry(rows: seq<Listed>): seq<Listed> {
    if rows == [] then [] else Insert(rows[0], SortByEntry(rows[1..]))
  }

  function EnteredBy(s: seq<Listed>, at: Instant): seq<Listed> {
    if s == [] then []
    else if s[0].cycle.enteredAt <= at then [s[0]] + EnteredBy(s[1..], at)
    else EnteredBy(s[1..], at)
  }

  predicate OneAccount(rows: seq<Listed>) {
    forall i, j :: 0 <= i < |rows| && 0 <= j < |rows| ==> rows[i].cycle.account == rows[j].cycle.account
  }

  function ResolveCloseTarget(rows: seq<Listed>, o: Occurrence): CloseResult
  {
    if rows == [] then CloseResult(NoCycle, None, false)
    else if o.effectiveAt.None? || !OneAccount(rows) then CloseResult(Classification.IdentityUnavailable, None, false)
    else
      var ordered := SortByEntry(rows);
      var eligible := EnteredBy(ordered, o.effectiveAt.value);
      if eligible == [] || ordered == [] then CloseResult(NoCycle, None, false)
      else
        var target := eligible[|eligible| - 1];
        var historical := target.id != ordered[|ordered| - 1].id;
        if target.cycle.state == Cancelled then CloseResult(Conflict, Some(target.id), false)
        else if target.cycle.state == Closed then CloseResult(DuplicateClose, Some(target.id), false)
        else CloseResult(if historical then AppliedHistorical else AppliedCurrent, Some(target.id), !historical)
  }

  // ---------------------------------------------------------------- what the resolution means

  predicate Ascending(s: seq<Listed>) {
    forall i, j :: 0 <= i < j < |s| ==> s[i].cycle.enteredAt <= s[j].cycle.enteredAt
  }

  lemma {:induction false} InsertFacts(x: Listed, s: seq<Listed>)
    requires Ascending(s)
    ensures Ascending(Insert(x, s))
    ensures forall y :: y in Insert(x, s) <==> y == x || y in s
  {
    if s == [] || x.cycle.enteredAt <= s[0].cycle.enteredAt {
    } else {
      InsertFacts(x, s[1..]);
      var rest := Insert(x, s[1..]);
      assert s == [s[0]] + s[1..];
      forall j | 0 <= j < |rest|
        ensures s[0].cycle.enteredAt <= rest[j].cycle.enteredAt
      {
        assert rest[j] in rest;
      }
    }
  }

  lemma {:induction false} SortFacts(rows: seq<Listed>)
    ensures Ascending(SortByEntry(rows))
    ensures forall y :: y in SortByEntry(rows) <==> y in rows
  {
    if rows != [] {
      SortFacts(rows[1..]);
      InsertFacts(rows[0], SortByEntry(rows[1..]));
      assert rows == [rows[0]] + rows[1..];
    }
  }

  lemma {:induction false} EnteredByFacts(s: seq<Listed>, at: Instant)
    requires Ascending(s)
    ensures Ascending(EnteredBy(s, at))
    ensures forall y :: y in EnteredBy(s, at) <==> y in s && y.cycle.enteredAt <= at
  {
    if s != [] {
      EnteredByFacts(s[1..], at);
      var rest := EnteredBy(s[1..], at);
      assert s == [s[0]] + s[1..];
      forall j | 0 <= j < |rest|
        ensures s[0].cycle.enteredAt <= rest[j].cycle.enteredAt
      {
        assert rest[j] in rest;
      }
    }
  }

  function OfTicket(t: Tables, ticket: TicketId): set<CycleId> {
    set c | c in t.cycles && t.cycles[c].ticket == ticket
  }

  /** Every cycle of the ticket, each once, in whatever order the keys happen to sort. */
  ghost predicate IsListing(t: Tables, ticket: TicketId, rows: seq<Listed>) {
    && (forall i :: 0 <= i < |rows| ==> rows[i].id in t.cycles && rows[i].cycle == t.cycles[rows[i].id])
    && (forall c :: c in OfTicket(t, ticket) <==> exists i :: 0 <= i < |rows| && rows[i].id == c)
  }

  /** The latest cycle of the ticket entered no later than `at`. */
  ghost predicate LatestBy(t: Tables, ticket: TicketId, at: Instant, c: CycleId) {
    && c in OfTicket(t, ticket)
    && t.cycles[c].enteredAt <= at
    && forall d :: d in OfTicket(t, ticket) && t.cycles[d].enteredAt <= at ==>
         t.cycles[d].enteredAt <= t.cycles[c].enteredAt
  }

  ghost predicate SingleAccount(t: Tables, ticket: TicketId) {
    forall c, d :: c in OfTicket(t, ticket) && d in OfTicket(t, ticket) ==> t.cycles[c].account == t.cycles[d].account
  }

  lemma ListingAccounts(t: Tables, ticket: TicketId, rows: seq<Listed>)
    requires IsListing(t, ticket, rows)
    ensures OneAccount(rows) <==> SingleAccount(t, ticket)
  {
    if OneAccount(rows) {
      forall c, d | c in OfTicket(t, ticket) && d in OfTicket(t, ticket)
        ensures t.cycles[c].account == t.cycles[d].account
      {
        var i :| 0 <= i < |rows| && rows[i].id == c;
        var j :| 0 <= j < |rows| && rows[j].id == d;
      }
    } else {
      var i, j :| 0 <= i < |rows| && 0 <= j < |rows| && rows[i].cycle.account != rows[j].cycle.account;
      assert rows[i].id in OfTicket(t, ticket) && rows[j].id in OfTicket(t, ticket);
    }
  }

  /** The row the sort-and-filter picks is the latest entered by `at`, for every order of the rows. */
  lemma PickIsLatest(t: Tables, ticket: TicketId, rows: seq<Listed>, at: Instant)
    requires IsListing(t, ticket, rows)
    ensures var e := EnteredBy(SortByEntry(rows), at);
      && (e == [] <==> forall c :: c in OfTicket(t, ticket) ==> t.cycles[c].enteredAt > at)
      && (e != [] ==> var x := e[|e| - 1];
            LatestBy(t, ticket, at, x.id) && x.cycle == t.cycles[x.id])
  {
    hide SortByEntry, EnteredBy;
    SortFacts(rows);
    EnteredByFacts(SortByEntry(rows), at);
    var e := EnteredBy(SortByEntry(rows), at);
    forall c | c in OfTicket(t, ticket) && t.cycles[c].enteredAt <= at
      ensures exists i :: 0 <= i < |e| && e[i].id == c && e[i].cycle == t.cycles[c]
    {
      var i :| 0 <= i < |rows| && rows[i].id == c;
      assert rows[i] in rows;
      assert rows[i] in e;
      var k :| 0 <= k < |e| && e[k] == rows[i];
    }
    if e != [] {
      var x := e[|e| - 1];
      assert x in e;
      assert x in rows;
    }
  }

  /** Sorting ends at the latest of all. */
  lemma LastIsLatest(t: Tables, ticket: TicketId, rows: seq<Listed>)
    requires IsListing(t, ticket, rows) && rows != []
    ensures SortByEntry(rows) != []
    ensures var x := SortByEntry(rows)[|SortByEntry(rows)| - 1];
      x.id in OfTicket(t, ticket) && forall c :: c in OfTicket(t, ticket) ==> t.cycles[c].enteredAt <= t.cycles[x.id].enteredAt
  {
    SortFacts(rows);
    var s := SortByEntry(rows);
    assert rows[0] in rows;
    assert rows[0] in s;
    var x := s[|s| - 1];
    assert x in s;
    forall c | c in OfTicket(t, ticket)
      ensures t.cycles[c].enteredAt <= t.cycles[x.id].enteredAt
    {
      var i :| 0 <= i < |rows| && rows[i].id == c;
      assert rows[i] in rows;
      assert rows[i] in s;
    }
  }

  /**
   * In an ordered history an applicable close always finds the current
   * attendance: never a past one, and exactly when the latest cycle by that
   * time is active.
   */
  lemma NeverHistorical(t: Tables, o: Occurrence, rows: seq<Listed>)
    requires Ordered(t) && IsListing(t, o.ticket, rows)
    ensures var r := ResolveCloseTarget(rows, o);
      && r.classification != AppliedHistorical
      && (r.classification == AppliedCurrent <==> r.closesCurrent)
      && (r.closesCurrent <==>
            o.effectiveAt.Some? && SingleAccount(t, o.ticket)
            && exists c :: LatestBy(t, o.ticket, o.effectiveAt.value, c) && Active(t.cycles[c].state))
      && (r.closesCurrent ==>
            && r.cycle.Some? && LatestBy(t, o.ticket, o.effectiveAt.value, r.cycle.value)
            && Active(t.cycles[r.cycle.value].state) && Newest(t, r.cycle.value))
  {
    hide SortByEntry, EnteredBy, OneAccount;
    ListingAccounts(t, o.ticket, rows);
    if rows == [] {
    } else if o.effectiveAt.Some? && OneAccount(rows) {
      var at := o.effectiveAt.value;
      PickIsLatest(t, o.ticket, rows, at);
      LastIsLatest(t, o.ticket, rows);
      LatestIsUnique(t, o.ticket, at);
    }
  }

  lemma LatestIsUnique(t: Tables, ticket: TicketId, at: Instant)
    requires Ordered(t) && SingleAccount(t, ticket)
    ensures forall c, d :: LatestBy(t, ticket, at, c) && LatestBy(t, ticket, at, d) ==> c == d
    ensures forall c, d :: LatestBy(t, ticket, at, c) && Active(t.cycles[c].state) && d in OfTicket(t, ticket) && d != c ==>
      t.cycles[d].enteredAt < t.cycles[c].enteredAt
  {
    forall c, d | LatestBy(t, ticket, at, c) && LatestBy(t, ticket, at, d)
      ensures c == d
    {
      assert t.cycles[c].enteredAt == t.cycles[d].enteredAt;
      assert SameTicket(t, c, d);
    }
    forall c, d | LatestBy(t, ticket, at, c) && Active(t.cycles[c].state) && d in OfTicket(t, ticket) && d != c
      ensures t.cycles[d].enteredAt < t.cycles[c].enteredAt
    {
      assert Newest(t, c) && SameTicket(t, c, d);
    }
  }

  // ---------------------------------------------------------------- the provider's word

  datatype Stage = ClosedStage | OtherStage
  datatype Pipeline = SupportPipeline | OtherPipeline

  datatype NovoEntry =
    | NoEntry
    | AwareEntry(at: Instant)
    | NaiveEntry
    | RawEntry(milliseconds: Option<int>)
    | OtherEntry

  datatype ProviderSnapshot = ProviderSnapshot(
    ticket: TicketId,
    stage: Option<Stage>,
    pipeline: Option<Pipeline>,
    archived: bool,
    enteredNovo: NovoEntry)

  function ReopenedAt(entry: NovoEntry): Option<Instant> {
    match entry
    case AwareEntry(at) => Some(at)
    case RawEntry(milliseconds) => ParseStageEntry(milliseconds)
    case _ => None
  }

  predicate Applies(c: Classification) {
    c == AppliedCurrent || c == AppliedHistorical
  }

  /** Why the provider's current state rules the close out, if it does. */
  function ProviderDecision(o: Occurrence, s: ProviderSnapshot): (rejection: Option<Classification>)
    requires o.effectiveAt.Some?
    ensures rejection.Some? ==> !Applies(rejection.value)
  {
    if s.ticket != o.ticket || s.stage.None? || s.pipeline.None? then Some(Conflict)
    else if s.enteredNovo != NoEntry && ReopenedAt(s.enteredNovo).None? then
      Some(Classification.IdentityUnavailable)
    else if s.enteredNovo != NoEntry && ReopenedAt(s.enteredNovo).value > o.effectiveAt.value then
      Some(ReopenNotMaterialized)
    else if s.stage.value != ClosedStage && s.pipeline.value == SupportPipeline && !s.archived then
      Some(ReopenNotMaterialized)
    else None
  }

  /** The provider's time in the support queue, when it can be proved; no entry is no obstacle. */
  predicate NoLaterEntry(entry: NovoEntry, at: Instant) {
    entry == NoEntry || (ReopenedAt(entry).Some? && ReopenedAt(entry).value <= at)
  }

  /**
   * The provider allows a close exactly when it describes this ticket in full,
   * knows no later entry, and shows it closed, archived or outside support.
   */
  lemma ProviderAllowsIff(o: Occurrence, s: ProviderSnapshot)
    requires o.effectiveAt.Some?
    ensures ProviderDecision(o, s).None? <==>
      && s.ticket == o.ticket && s.stage.Some? && s.pipeline.Some?
      && NoLaterEntry(s.enteredNovo, o.effectiveAt.value)
      && (s.stage == Some(ClosedStage) || s.pipeline == Some(OtherPipeline) || s.archived)
  {
  }

  /** Why the provider rules a close out, in the order of its checks; a raw entry time counts only within the plausible years. */
  lemma ProviderAnswers(o: Occurrence, s: ProviderSnapshot)
    requires o.effectiveAt.Some?
    ensures var told := s.ticket == o.ticket && s.stage.Some? && s.pipeline.Some?;
      var entry := if s.enteredNovo.AwareEntry? then Some(s.enteredNovo.at)
                   else if s.enteredNovo.RawEntry? && s.enteredNovo.milliseconds.Some?
                           && MIN_STAGE_ENTRY_MS <= s.enteredNovo.milliseconds.value < MAX_STAGE_ENTRY_MS
                        then s.enteredNovo.milliseconds else None;
      var unreadable := entry.None? && !s.enteredNovo.NoEntry?;
      && (ProviderDecision(o, s) == Some(Conflict) <==> !told)
      && (ProviderDecision(o, s) == Some(Classification.IdentityUnavailable) <==> told && unreadable)
      && (ProviderDecision(o, s) == Some(ReopenNotMaterialized) <==>
            && told && !unreadable
            && ((entry.Some? && entry.value > o.effectiveAt.value)
                || (s.stage == Some(OtherStage) && s.pipeline == Some(SupportPipeline) && !s.archived)))
  {
  }

  function ClassifyClose(rows: seq<Listed>, o: Occurrence, snapshot: Option<ProviderSnapshot>): CloseResult {
    var r := ResolveCloseTarget(rows, o);
    if r.closesCurrent && o.effectiveAt.Some? then
      if snapshot.None? then CloseResult(ProviderUnavailable, r.cycle, false)
      else
        match ProviderDecision(o, snapshot.value)
        case Some(rejection) => CloseResult(rejection, r.cycle, false)
        case None => r
    else r
  }

  // ---------------------------------------------------------------- the write

  /** The closed record takes the assignment's facts when there is one. */
  function RecordOf(t: Tables, c: CycleId, o: Occurrence): ClosedRecord
    requires o.effectiveAt.Some?
  {
    if c in t.assignments && t.assignments[c].ticket == o.ticket then
      var a := t.assignments[c];
      ClosedRecord(o.ticket, o.effectiveAt.value, o.closingOwner, a.agent, a.owner, a.assignedAt,
                   o.closingOwner.Some? && o.closingOwner != a.owner)
    else
      ClosedRecord(o.ticket, o.effectiveAt.value, o.closingOwner, None, None, None, false)
  }

  function Materialize(t: Tables, c: CycleId, o: Occurrence): Tables
    requires c in t.cycles && o.effectiveAt.Some?
  {
    SetState(t, c, Closed, o.effectiveAt).(
      queue := if c in t.queue && t.queue[c].ticket == o.ticket then t.queue - {c} else t.queue,
      assignments := if c in t.assignments && t.assignments[c].ticket == o.ticket then t.assignments - {c} else t.assignments,
      closed := t.closed[c := RecordOf(t, c, o)])
  }

  function ApplyClose(t: Tables, rows: seq<Listed>, o: Occurrence, snapshot: Option<ProviderSnapshot>, dryRun: bool)
    : (Tables, CloseResult)
  {
    var r := ClassifyClose(rows, o, snapshot);
    if !Applies(r.classification) || r.cycle.None? || r.cycle.value !in t.cycles || o.effectiveAt.None? then (t, r)
    else if r.cycle.value in t.closed then (t, CloseResult(Conflict, r.cycle, false))
    else if dryRun then (t, r)
    else (Materialize(t, r.cycle.value, o), r)
  }

  /** `c` is the latest cycle of the ticket that the close's time admits. */
  ghost predicate Target(t: Tables, o: Occurrence, c: CycleId) {
    o.effectiveAt.Some? && SingleAccount(t, o.ticket) && LatestBy(t, o.ticket, o.effectiveAt.value, c)
  }

  /**
   * What a close answers, in an ordered history: the latest cycle its time admits decides; a finished
   * one is a conflict or a duplicate, and an active one is closed if the provider lets it.
   */
  lemma CloseAnswers(t: Tables, rows: seq<Listed>, o: Occurrence, snapshot: Option<ProviderSnapshot>)
    requires Ordered(t) && IsListing(t, o.ticket, rows)
    ensures var r := ClassifyClose(rows, o, snapshot);
      && (OfTicket(t, o.ticket) == {} ==> r == CloseResult(NoCycle, None, false))
      && (OfTicket(t, o.ticket) != {} && (o.effectiveAt.None? || !SingleAccount(t, o.ticket)) ==>
            r == CloseResult(Classification.IdentityUnavailable, None, false))
      && (OfTicket(t, o.ticket) != {} && o.effectiveAt.Some? && SingleAccount(t, o.ticket)
          && (forall c :: c in OfTicket(t, o.ticket) ==> t.cycles[c].enteredAt > o.effectiveAt.value) ==>
            r == CloseResult(NoCycle, None, false))
    ensures forall c :: Target(t, o, c) ==>
      var r := ClassifyClose(rows, o, snapshot);
      && r.cycle == Some(c)
      && (t.cycles[c].state == Cancelled ==> r.classification == Conflict)
      && (t.cycles[c].state == Closed ==> r.classification == DuplicateClose)
      && (Active(t.cycles[c].state) ==>
            r.classification ==
              if snapshot.None? then ProviderUnavailable
              else if ProviderDecision(o, snapshot.value).Some? then ProviderDecision(o, snapshot.value).value
              else AppliedCurrent)
  {
    hide SortByEntry, EnteredBy, OneAccount, ProviderDecision, LatestBy, SingleAccount;
    ListingAccounts(t, o.ticket, rows);
    if rows == [] {
      assert OfTicket(t, o.ticket) == {};
    } else {
      assert rows[0].id in OfTicket(t, o.ticket);
    }
    forall c | Target(t, o, c)
      ensures c in OfTicket(t, o.ticket)
    {
      LatestIsListed(t, o.ticket, o.effectiveAt.value, c);
    }
    if rows != [] && o.effectiveAt.Some? && OneAccount(rows) {
      var at := o.effectiveAt.value;
      PickIsLatest(t, o.ticket, rows, at);
      LastIsLatest(t, o.ticket, rows);
      LatestIsUnique(t, o.ticket, at);
      forall c | Target(t, o, c)
        ensures t.cycles[c].enteredAt <= at
      {
        LatestIsListed(t, o.ticket, at, c);
      }
    }
  }

  lemma LatestIsListed(t: Tables, ticket: TicketId, at: Instant, c: CycleId)
    requires LatestBy(t, ticket, at, c)
    ensures c in OfTicket(t, ticket) && t.cycles[c].enteredAt <= at
  {
  }

  // ---------------------------------------------------------------- runs

  datatype Act =
    | Enter(entry: Entry, pk: CycleId)
    | Attach(cycle: CycleId, from: Option<CycleId>)
    | Assign(cycle: CycleId, agent: Option<AgentId>, owner: Option<OwnerId>, at: Option<Instant>)
    | Reassign(cycle: CycleId, agent: Option<AgentId>, owner: Option<OwnerId>)
    | Unassign(cycle: CycleId)
    | Move(cycle: CycleId, target: State, reconciliation: bool)
    | CloseTicket(o: Occurrence, snapshot: Option<ProviderSnapshot>, dryRun: bool, rows: seq<Listed>)

  /** One committed transaction; a close works on a listing of the rows it locked. */
  ghost function Step(keyOf: KeyOf, t: Tables, a: Act): Tables {
    match a
    case Enter(e, pk) => OpenOrGet(keyOf, t, e, pk)
    case Attach(c, from) => AttachRow(t, c, from)
    case Assign(c, agent, owner, at) => AssignCycle(t, c, agent, owner, at)
    case Reassign(c, agent, owner) => ReassignCycle(t, c, agent, owner)
    case Unassign(c) => UnassignCycle(t, c)
    case Move(c, target, reconciliation) => MoveCycle(t, c, target, reconciliation)
    case CloseTicket(o, snapshot, dryRun, rows) =>
      if IsListing(t, o.ticket, rows) then ApplyClose(t, rows, o, snapshot, dryRun).0 else t
  }

  ghost function Run(keyOf: KeyOf, t: Tables, acts: seq<Act>): Tables
    decreases |acts|
  {
    if acts == [] then t else Run(keyOf, Step(keyOf, t, acts[0]), acts[1..])
  }

  /** A closed record belongs to a closed cycle, with the same close time and not before the entry. */
  ghost predicate Recorded(t: Tables) {
    forall c :: c in t.closed ==>
      && c in t.cycles
      && t.cycles[c].state == Closed
      && t.cycles[c].closedAt == Some(t.closed[c].closedAt)
      && t.cycles[c].enteredAt <= t.closed[c].closedAt
  }

  ghost predicate RowsLinked(t: Tables) {
    && (forall c :: c in t.queue ==> c in t.cycles && t.queue[c].ticket == t.cycles[c].ticket)
    && (forall c :: c in t.assignments ==> c in t.cycles && t.assignments[c].ticket == t.cycles[c].ticket)
  }

  ghost predicate Sound(keyOf: KeyOf, t: Tables) {
    Keyed(keyOf, t) && Ordered(t) && Recorded(t) && RowsLinked(t)
  }

  /** The record tells the close as it was delivered, and whom the cycle was assigned to until then. */
  predicate Tells(r: ClosedRecord, o: Occurrence, assignments: map<CycleId, AssignedRow>, c: CycleId) {
    && r.ticket == o.ticket && Some(r.closedAt) == o.effectiveAt && r.closedBy == o.closingOwner
    && (c in assignments ==>
          && r.agent == assignments[c].agent && r.owner == assignments[c].owner
          && r.assignedAt == assignments[c].assignedAt
          && (r.bySystem <==> r.closedBy.Some? && r.closedBy != r.owner))
    && (c !in assignments ==> r.agent.None? && r.owner.None? && r.assignedAt.None? && !r.bySystem)
  }

  /** Everything the close `o` of cycle `c` writes, and everything it leaves alone. */
  ghost predicate ClosesOnly(t: Tables, u: Tables, c: CycleId, o: Occurrence) {
    && o.effectiveAt.Some?
    && c in t.cycles && Active(t.cycles[c].state) && Newest(t, c)
    && c !in t.closed
    && t.cycles[c].enteredAt <= o.effectiveAt.value
    && u.cycles == t.cycles[c := t.cycles[c].(state := Closed, closedAt := o.effectiveAt)]
    && c in u.closed && Tells(u.closed[c], o, t.assignments, c) && u.closed - {c} == t.closed
    && u.queue == t.queue - {c}
    && u.assignments == t.assignments - {c}
  }

  lemma MaterializeClosesOnly(t: Tables, c: CycleId, o: Occurrence)
    requires Recorded(t) && RowsLinked(t)
    requires o.effectiveAt.Some? && c in OfTicket(t, o.ticket)
    requires Active(t.cycles[c].state) && Newest(t, c) && t.cycles[c].enteredAt <= o.effectiveAt.value
    ensures ClosesOnly(t, Materialize(t, c, o), c, o)
  {
    hide Newest;
    var u := Materialize(t, c, o);
    assert c !in t.closed;
    assert u.closed - {c} == t.closed;
    assert u.queue == t.queue - {c};
    assert u.assignments == t.assignments - {c};
  }

  /** A close changes the ticket's active cycle, by the provider's leave, or it changes nothing. */
  lemma CloseChangesActiveOrNothing(
    keyOf: KeyOf, t: Tables, rows: seq<Listed>, o: Occurrence, snapshot: Option<ProviderSnapshot>, dryRun: bool)
    requires Sound(keyOf, t) && IsListing(t, o.ticket, rows)
    ensures var (u, r) := ApplyClose(t, rows, o, snapshot, dryRun);
      && r.classification != AppliedHistorical
      && (r.classification != AppliedCurrent || dryRun ==> u == t)
      && (r.classification == AppliedCurrent ==>
            && o.effectiveAt.Some? && r.cycle.Some? && r.closesCurrent
            && SingleAccount(t, o.ticket)
            && LatestBy(t, o.ticket, o.effectiveAt.value, r.cycle.value)
            && snapshot.Some? && ProviderDecision(o, snapshot.value).None?
            && (!dryRun ==> ClosesOnly(t, u, r.cycle.value, o)))
  {
    hide ResolveCloseTarget, ProviderDecision, IsListing, Materialize, ClosesOnly, Ordered, Newest, SingleAccount;
    NeverHistorical(t, o, rows);
    var r := ClassifyClose(rows, o, snapshot);
    if r.classification == AppliedCurrent {
      MaterializeClosesOnly(t, r.cycle.value, o);
      assert r.cycle.value !in t.closed;
    }
  }

  /** A closed record found beside an applicable close would be a conflict; sound tables never produce it. */
  lemma ProviderReopenBlocksClose(
    t: Tables, rows: seq<Listed>, o: Occurrence, snapshot: ProviderSnapshot, dryRun: bool)
    requires o.effectiveAt.Some?
    requires snapshot.enteredNovo != NoEntry && ReopenedAt(snapshot.enteredNovo).Some?
    requires ReopenedAt(snapshot.enteredNovo).value > o.effectiveAt.value
    requires Ordered(t) && IsListing(t, o.ticket, rows)
    ensures ApplyClose(t, rows, o, Some(snapshot), dryRun).0 == t
  {
    hide ResolveCloseTarget;
    NeverHistorical(t, o, rows);
  }
}
