/**
 * The cycle history of a ticket: admission of stage entries in any order of
 * arrival, state transitions, and the ordering that the local guards imply.
 */
module ConversationCycles {
  import opened Base

  type AccountId = nat
  type RowId = nat
  /** Milliseconds since the epoch. */
  type Instant = int

  /** The digest that names a cycle; nothing below needs it to be free of collisions. */
  type KeyOf = (AccountId, TicketId, Instant) -> nat

  const MIN_STAGE_ENTRY_MS: int := 946_684_800_000
  const MAX_STAGE_ENTRY_MS: int := 4_102_444_800_000

  datatype State = Queued | Assigned | RepairRequired | Closed | Cancelled

  datatype Cycle = Cycle(
    key: nat,
    account: AccountId,
    ticket: TicketId,
    enteredAt: Instant,
    state: State,
    closedAt: Option<Instant>)

  datatype QueueRow = QueueRow(ticket: TicketId)

  datatype AssignedRow = AssignedRow(
    ticket: TicketId,
    agent: Option<AgentId>,
    owner: Option<OwnerId>,
    assignedAt: Option<Instant>)

  datatype ClosedRecord = ClosedRecord(
    ticket: TicketId,
    closedAt: Instant,
    closedBy: Option<OwnerId>,
    agent: Option<AgentId>,
    owner: Option<OwnerId>,
    assignedAt: Option<Instant>,
    bySystem: bool)

  datatype Tables = Tables(
    cycles: map<CycleId, Cycle>,
    queue: map<CycleId, QueueRow>,
    assignments: map<CycleId, AssignedRow>,
    closed: map<CycleId, ClosedRecord>)

  predicate Active(s: State) {
    s == Queued || s == Assigned || s == RepairRequired
  }

  // ---------------------------------------------------------------- transitions

  predicate Allowed(current: State, target: State) {
    || (current == Queued && target in {Assigned, Closed, Cancelled, RepairRequired})
    || (current == Assigned && target in {Closed, RepairRequired})
  }

  function Transition(current: State, target: State, reconciliation: bool): Option<State> {
    if !Active(current) then None
    else if current == RepairRequired then
      if reconciliation && target != RepairRequired then Some(target) else None
    else if Allowed(current, target) then Some(target)
    else None
  }

  /** How far along its life a cycle is. */
  function LifeStage(s: State): nat {
    match s
    case Queued => 0
    case Assigned => 1
    case RepairRequired => 2
    case Closed => 3
    case Cancelled => 3
  }

  /**
   * A finished cycle never moves, without reconciliation a cycle only moves
   * forward, an assigned one is never cancelled, and one in repair leaves it
   * only by explicit reconciliation.
   */
  lemma TransitionRespectsStates(current: State, target: State, reconciliation: bool)
    ensures Transition(current, target, reconciliation).Some? ==> Active(current) && current != target
    ensures Transition(current, target, reconciliation) in {None, Some(target)}
    ensures Transition(current, target, false).Some? <==>
      current in {Queued, Assigned} && LifeStage(current) < LifeStage(target) && !(current == Assigned && target == Cancelled)
    ensures current != RepairRequired ==> Transition(current, target, true) == Transition(current, target, false)
    ensures Transition(RepairRequired, target, true).Some? <==> target != RepairRequired
    ensures current == Assigned ==> Transition(current, Cancelled, reconciliation).None?
    ensures current == RepairRequired && !reconciliation ==> Transition(current, target, reconciliation).None?
    ensures Active(current) ==> exists t: State, r: bool :: !Active(t) && Transition(current, t, r) == Some(t)
  {
    if Active(current) {
      assert Transition(current, Closed, true) == Some(Closed);
    }
  }

  // ---------------------------------------------------------------- admission

  /** A stage-entry value as callers hand it over. */
  datatype EntryValue =
    | AwareTime(at: Instant)
    | NaiveTime
    | Raw(milliseconds: Option<int>)

  datatype Entry = Entry(account: Option<AccountId>, ticket: Option<TicketId>, value: EntryValue)

  datatype Identity = Identity(account: AccountId, ticket: TicketId, enteredAt: Instant, key: nat)

  datatype Admission = Created | Duplicate | Stale | ActiveConflict | IdentityUnavailable | InRepair

  function ParseStageEntry(milliseconds: Option<int>): Option<Instant> {
    if milliseconds.Some? && MIN_STAGE_ENTRY_MS <= milliseconds.value < MAX_STAGE_ENTRY_MS
    then milliseconds
    else None
  }

  function EntryInstant(value: EntryValue): Option<Instant> {
    match value
    case AwareTime(at) => Some(at)
    case NaiveTime => None
    case Raw(milliseconds) => ParseStageEntry(milliseconds)
  }

  function BuildIdentity(keyOf: KeyOf, e: Entry): Option<Identity> {
    var at := EntryInstant(e.value);
    if at.None? || e.account.None? || e.ticket.None? then None
    else
      Some(Identity(e.account.value, e.ticket.value, at.value,
                    keyOf(e.account.value, e.ticket.value, at.value)))
  }

  /** The cycles of one account and ticket: what the admission decision sees. */
  function Known(t: Tables, account: AccountId, ticket: TicketId): set<CycleId> {
    set c | c in t.cycles && t.cycles[c].account == account && t.cycles[c].ticket == ticket
  }

  function Classify(t: Tables, id: Identity): Admission {
    var known := Known(t, id.account, id.ticket);
    if exists c :: c in known && t.cycles[c].key == id.key then Duplicate
    else if exists c :: c in known && t.cycles[c].enteredAt > id.enteredAt then Stale
    else if exists c :: c in known && t.cycles[c].state == RepairRequired then InRepair
    else if exists c :: c in known && Active(t.cycles[c].state) then ActiveConflict
    else Created
  }

  function Admit(keyOf: KeyOf, t: Tables, e: Entry): Admission {
    var id := BuildIdentity(keyOf, e);
    if id.None? then IdentityUnavailable else Classify(t, id.value)
  }

  /** The insert, with `pk` a fresh primary key. A key already taken by another ticket raises and rolls back. */
  function OpenOrGet(keyOf: KeyOf, t: Tables, e: Entry, pk: CycleId): Tables {
    if Admit(keyOf, t, e) != Created || pk in t.cycles then t
    else
      var id := BuildIdentity(keyOf, e).value;
      if exists c :: c in t.cycles && t.cycles[c].key == id.key then t
      else
        t.(cycles := t.cycles[pk := Cycle(id.key, id.account, id.ticket, id.enteredAt, Queued, None)])
  }

  // ---------------------------------------------------------------- the ordering

  predicate SameTicket(t: Tables, c: CycleId, d: CycleId)
    requires c in t.cycles && d in t.cycles
  {
    t.cycles[c].account == t.cycles[d].account && t.cycles[c].ticket == t.cycles[d].ticket
  }

  /** Every key is the digest of its row's own natural key. */
  ghost predicate Keyed(keyOf: KeyOf, t: Tables) {
    forall c :: c in t.cycles ==>
      t.cycles[c].key == keyOf(t.cycles[c].account, t.cycles[c].ticket, t.cycles[c].enteredAt)
  }

  /** `c` is the only active cycle of its ticket and strictly the latest by entry time. */
  ghost predicate Newest(t: Tables, c: CycleId)
    requires c in t.cycles
  {
    forall d :: d in t.cycles && d != c && SameTicket(t, c, d) ==>
      !Active(t.cycles[d].state) && t.cycles[d].enteredAt < t.cycles[c].enteredAt
  }

  ghost predicate Ordered(t: Tables) {
    && (forall c :: c in t.cycles && Active(t.cycles[c].state) ==> Newest(t, c))
    && (forall c, d :: c in t.cycles && d in t.cycles && c != d && SameTicket(t, c, d) ==>
          t.cycles[c].enteredAt != t.cycles[d].enteredAt)
  }

  /** An admitted entry is later than everything known, so the constraints the insert races against cannot be hit. */
  lemma AdmittedIsLatest(keyOf: KeyOf, t: Tables, id: Identity)
    requires Keyed(keyOf, t)
    requires id.key == keyOf(id.account, id.ticket, id.enteredAt)
    requires Classify(t, id) == Created
    ensures forall c :: c in Known(t, id.account, id.ticket) ==>
      t.cycles[c].enteredAt < id.enteredAt && !Active(t.cycles[c].state)
  {
    forall c | c in Known(t, id.account, id.ticket)
      ensures t.cycles[c].enteredAt < id.enteredAt && !Active(t.cycles[c].state)
    {
      assert t.cycles[c].key != id.key;
      assert !(t.cycles[c].enteredAt > id.enteredAt);
    }
  }

  /** An entry is admitted exactly when it is new, later than every known entry, and nothing is active. */
  lemma CreatedIff(keyOf: KeyOf, t: Tables, id: Identity)
    requires Keyed(keyOf, t)
    requires id.key == keyOf(id.account, id.ticket, id.enteredAt)
    ensures Classify(t, id) == Created <==>
      forall c :: c in Known(t, id.account, id.ticket) ==>
        && t.cycles[c].enteredAt < id.enteredAt
        && !Active(t.cycles[c].state)
        && t.cycles[c].key != id.key
  {
    if Classify(t, id) == Created {
      AdmittedIsLatest(keyOf, t, id);
    }
  }

  lemma OpenKeepsOrder(keyOf: KeyOf, t: Tables, e: Entry, pk: CycleId)
    requires Keyed(keyOf, t) && Ordered(t)
    ensures var u := OpenOrGet(keyOf, t, e, pk);
      Keyed(keyOf, u) && Ordered(u) && forall c :: c in t.cycles ==> c in u.cycles && u.cycles[c] == t.cycles[c]
  {
    hide Classify;
    var u := OpenOrGet(keyOf, t, e, pk);
    if u != t {
      var id := BuildIdentity(keyOf, e).value;
      AdmittedIsLatest(keyOf, t, id);
      assert u.cycles.Keys == t.cycles.Keys + {pk};
      forall d | d in u.cycles && d != pk && SameTicket(u, pk, d)
        ensures !Active(u.cycles[d].state) && u.cycles[d].enteredAt < u.cycles[pk].enteredAt
      {
        assert d in Known(t, id.account, id.ticket);
      }
      forall c | c in u.cycles && Active(u.cycles[c].state)
        ensures Newest(u, c)
      {
        if c != pk {
          assert Newest(t, c);
          assert c !in Known(t, id.account, id.ticket);
        }
      }
    }
  }

  /** Without an account, a ticket and a proven time there is no identity. */
  lemma IdentityUnavailableIff(keyOf: KeyOf, t: Tables, e: Entry)
    ensures Admit(keyOf, t, e) == IdentityUnavailable <==>
      || e.account.None? || e.ticket.None? || e.value.NaiveTime?
      || (e.value.Raw? && (e.value.milliseconds.None? || e.value.milliseconds.value < MIN_STAGE_ENTRY_MS
                           || e.value.milliseconds.value >= MAX_STAGE_ENTRY_MS))
  {
  }

  /** `c` is the latest cycle of the account and ticket. */
  ghost predicate LatestOf(t: Tables, account: AccountId, ticket: TicketId, c: CycleId) {
    && c in t.cycles && t.cycles[c].account == account && t.cycles[c].ticket == ticket
    && forall d :: d in t.cycles && t.cycles[d].account == account && t.cycles[d].ticket == ticket ==>
         t.cycles[d].enteredAt <= t.cycles[c].enteredAt
  }

  /**
   * In an ordered history an entry that is not a repetition is decided by the ticket's latest
   * cycle alone: before it the entry is stale, after it the cycle's state says whether it is
   * in repair, still going, or over.
   */
  lemma LatestDecides(keyOf: KeyOf, t: Tables, id: Identity, c: CycleId)
    requires Keyed(keyOf, t) && Ordered(t)
    requires id.key == keyOf(id.account, id.ticket, id.enteredAt)
    requires LatestOf(t, id.account, id.ticket, c)
    ensures Classify(t, id) == Duplicate <==>
      exists d :: d in t.cycles && t.cycles[d].account == id.account && t.cycles[d].ticket == id.ticket && t.cycles[d].key == id.key
    ensures t.cycles[c].enteredAt == id.enteredAt ==> Classify(t, id) == Duplicate
    ensures Classify(t, id) != Duplicate ==>
      && (Classify(t, id) == Stale <==> id.enteredAt < t.cycles[c].enteredAt)
      && (Classify(t, id) == InRepair <==> t.cycles[c].enteredAt < id.enteredAt && t.cycles[c].state == RepairRequired)
      && (Classify(t, id) == ActiveConflict <==>
            t.cycles[c].enteredAt < id.enteredAt && t.cycles[c].state in {Queued, Assigned})
      && (Classify(t, id) == Created <==> t.cycles[c].enteredAt < id.enteredAt && t.cycles[c].state in {Closed, Cancelled})
  {
    assert c in Known(t, id.account, id.ticket);
    forall d | d in Known(t, id.account, id.ticket) && Active(t.cycles[d].state)
      ensures d == c
    {
      assert Newest(t, d) && SameTicket(t, d, c);
    }
  }

  /** The first entry of a ticket is admitted; an admitted entry adds one queued row, unless another ticket has its key. */
  lemma EntryOpens(keyOf: KeyOf, t: Tables, e: Entry, pk: CycleId)
    requires pk !in t.cycles && e.account.Some? && e.ticket.Some? && e.value.AwareTime?
    ensures var key := keyOf(e.account.value, e.ticket.value, e.value.at);
      var u := OpenOrGet(keyOf, t, e, pk);
      && ((forall c :: c in t.cycles ==> t.cycles[c].account != e.account.value || t.cycles[c].ticket != e.ticket.value) ==>
            Admit(keyOf, t, e) == Created)
      && (u != t <==> Admit(keyOf, t, e) == Created && forall c :: c in t.cycles ==> t.cycles[c].key != key)
      && (u != t ==>
            && u.cycles == t.cycles[pk := Cycle(key, e.account.value, e.ticket.value, e.value.at, Queued, None)]
            && u.queue == t.queue && u.assignments == t.assignments && u.closed == t.closed)
  {
  }

  /** Delivering the same entry again finds the cycle and changes nothing. */
  lemma RepeatedEntryIsDuplicate(keyOf: KeyOf, t: Tables, e: Entry, pk: CycleId, again: CycleId)
    requires Admit(keyOf, t, e) == Created && pk !in t.cycles
    requires OpenOrGet(keyOf, t, e, pk) != t
    ensures var u := OpenOrGet(keyOf, t, e, pk);
      Admit(keyOf, u, e) == Duplicate && OpenOrGet(keyOf, u, e, again) == u
  {
    var u := OpenOrGet(keyOf, t, e, pk);
    var id := BuildIdentity(keyOf, e).value;
    assert pk in Known(u, id.account, id.ticket) && u.cycles[pk].key == id.key;
  }

  // ---------------------------------------------------------------- moving a cycle

  /** A cycle's state and close time change; its identity does not. */
  function SetState(t: Tables, c: CycleId, s: State, closedAt: Option<Instant>): Tables
    requires c in t.cycles
  {
    t.(cycles := t.cycles[c := t.cycles[c].(state := s, closedAt := closedAt)])
  }

  function MoveCycle(t: Tables, c: CycleId, target: State, reconciliation: bool): Tables {
    if c !in t.cycles || Transition(t.cycles[c].state, target, reconciliation).None? then t
    else SetState(t, c, target, t.cycles[c].closedAt)
  }

  /** Confirming an owner moves a queued cycle on and turns its queue row into an assignment. */
  function AssignCycle(t: Tables, c: CycleId, agent: Option<AgentId>, owner: Option<OwnerId>, at: Option<Instant>): Tables {
    if c !in t.cycles || t.cycles[c].state != Queued then t
    else
      SetState(t, c, Assigned, t.cycles[c].closedAt).(
        queue := t.queue - {c},
        assignments := t.assignments[c := AssignedRow(t.cycles[c].ticket, agent, owner, at)])
  }

  /** An observed owner takes over the assignment that is there; the time of the assignment stays. */
  function ReassignCycle(t: Tables, c: CycleId, agent: Option<AgentId>, owner: Option<OwnerId>): Tables {
    if c !in t.assignments || t.assignments[c].owner == owner then t
    else t.(assignments := t.assignments[c := t.assignments[c].(agent := agent, owner := owner)])
  }

  /** An observation without an owner takes the assignment away; the cycle's state stays. */
  function UnassignCycle(t: Tables, c: CycleId): Tables {
    t.(assignments := t.assignments - {c})
  }

  /** Enqueueing binds the ticket's row to a cycle of that ticket, taking it from whichever cycle held it. */
  function AttachRow(t: Tables, c: CycleId, from: Option<CycleId>): Tables {
    if c !in t.cycles || (c in t.queue && from != Some(c))
       || (from.Some? && from.value !in t.queue)
       || (from.Some? && t.queue[from.value].ticket != t.cycles[c].ticket) then t
    else
      var rest := if from.Some? then t.queue - {from.value} else t.queue;
      t.(queue := rest[c := QueueRow(t.cycles[c].ticket)])
  }

  /**
   * What the cycle moves write: an assignment needs a queued cycle and takes its queue row, a transition
   * changes the state alone, and neither touches another cycle or a closed record.
   */
  lemma MovesWrite(
    t: Tables, c: CycleId, agent: Option<AgentId>, owner: Option<OwnerId>, at: Option<Instant>, target: State, reconciliation: bool)
    requires c in t.cycles
    ensures var u := AssignCycle(t, c, agent, owner, at);
      if t.cycles[c].state == Queued then
        && u.cycles == t.cycles[c := t.cycles[c].(state := Assigned)] && u.queue == t.queue - {c} && u.closed == t.closed
        && u.assignments == t.assignments[c := AssignedRow(t.cycles[c].ticket, agent, owner, at)]
      else u == t
    ensures var u := MoveCycle(t, c, target, reconciliation);
      if Transition(t.cycles[c].state, target, reconciliation).Some?
      then u == t.(cycles := t.cycles[c := t.cycles[c].(state := target)])
      else u == t
  {
  }

  /** Enqueueing gives a cycle without a row the ticket's row, new or taken from another cycle of the ticket, and refuses otherwise. */
  lemma AttachWrites(t: Tables, c: CycleId, from: Option<CycleId>)
    requires c in t.cycles
    ensures var u := AttachRow(t, c, from);
      var free := c !in t.queue || from == Some(c);
      var movable := from.Some? ==> from.value in t.queue && t.queue[from.value].ticket == t.cycles[c].ticket;
      && u.cycles == t.cycles && u.assignments == t.assignments && u.closed == t.closed
      && (!(free && movable) ==> u == t)
      && (free && movable ==>
            && c in u.queue && u.queue[c].ticket == t.cycles[c].ticket
            && (from.Some? && from.value != c ==> from.value !in u.queue)
            && forall d :: d != c && from != Some(d) ==>
                 (d in u.queue <==> d in t.queue) && (d in t.queue ==> u.queue[d] == t.queue[d]))
  {
  }

  lemma SetStateKeepsOrder(keyOf: KeyOf, t: Tables, c: CycleId, s: State, closedAt: Option<Instant>)
    requires Keyed(keyOf, t) && Ordered(t) && c in t.cycles
    requires Active(s) ==> Active(t.cycles[c].state)
    ensures Keyed(keyOf, SetState(t, c, s, closedAt)) && Ordered(SetState(t, c, s, closedAt))
  {
    var u := SetState(t, c, s, closedAt);
    forall a | a in u.cycles && Active(u.cycles[a].state)
      ensures Newest(u, a)
    {
      assert Active(t.cycles[a].state) && Newest(t, a);
      forall d | d in u.cycles && d != a && SameTicket(u, a, d)
        ensures !Active(u.cycles[d].state) && u.cycles[d].enteredAt < u.cycles[a].enteredAt
      {
        assert SameTicket(t, a, d);
      }
    }
    forall a, d | a in u.cycles && d in u.cycles && a != d && SameTicket(u, a, d)
      ensures u.cycles[a].enteredAt != u.cycles[d].enteredAt
    {
      assert SameTicket(t, a, d);
    }
  }
}
