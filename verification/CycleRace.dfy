/**
 * Two stage entries admitted at once: each transaction classifies against the
 * rows it locked, then inserts among the rows committed by that time. What the
 * unique constraints still guarantee, and exactly when the ordering survives.
 */
module CycleRace {
  import opened Base
  import opened ConversationCycles

  datatype RaceResult =
    | Refused(admission: Admission)
    | Inserted(cycle: CycleId)
    | FoundAfterRace(cycle: CycleId)
    | RaisedAfterRace

  /** The locked rows are still there unchanged; others may have been inserted since. */
  predicate SeenIn(seen: Tables, t: Tables) {
    forall c :: c in seen.cycles ==> c in t.cycles && t.cycles[c] == seen.cycles[c]
  }

  predicate SameNaturalKey(c: Cycle, id: Identity) {
    c.account == id.account && c.ticket == id.ticket && c.enteredAt == id.enteredAt
  }

  predicate SameTicketActive(c: Cycle, id: Identity) {
    c.account == id.account && c.ticket == id.ticket && Active(c.state)
  }

  /** Whether inserting the identity as a queued cycle breaks a unique constraint. */
  predicate Collides(t: Tables, id: Identity) {
    exists c :: c in t.cycles
      && (t.cycles[c].key == id.key || SameNaturalKey(t.cycles[c], id) || SameTicketActive(t.cycles[c], id))
  }

  /** Open, with the classification made on `seen` and the insert on `t`. */
  function OpenRacing(keyOf: KeyOf, seen: Tables, t: Tables, e: Entry, pk: CycleId): (r: (Tables, RaceResult))
    requires pk !in t.cycles
    ensures r.1.FoundAfterRace? ==> r.1.cycle in t.cycles
  {
    var admission := Admit(keyOf, seen, e);
    if admission != Created then (t, Refused(admission))
    else
      var id := BuildIdentity(keyOf, e).value;
      if !Collides(t, id) then
        (t.(cycles := t.cycles[pk := Cycle(id.key, id.account, id.ticket, id.enteredAt, Queued, None)]), Inserted(pk))
      else if c :| c in t.cycles && SameNaturalKey(t.cycles[c], id) && forall d :: d in t.cycles && SameNaturalKey(t.cycles[d], id) ==> d == c
      then (t, FoundAfterRace(c))
      else (t, RaisedAfterRace)
  }

  /** Another row has the identity's key, or its ticket and time, or is its ticket's active one. */
  predicate Blocked(t: Tables, id: Identity) {
    exists c :: c in t.cycles
      && (|| t.cycles[c].key == id.key
          || (&& t.cycles[c].account == id.account && t.cycles[c].ticket == id.ticket
              && (t.cycles[c].enteredAt == id.enteredAt || t.cycles[c].state in {Queued, Assigned, RepairRequired})))
  }

  /**
   * How a racing entry ends: refused by the rows it saw, inserted unless a committed row blocks it,
   * and otherwise answered with the one committed row of its own entry, or raised.
   */
  lemma RaceAnswers(keyOf: KeyOf, seen: Tables, t: Tables, e: Entry, pk: CycleId)
    requires pk !in t.cycles
    ensures var (u, r) := OpenRacing(keyOf, seen, t, e, pk);
      var admission := Admit(keyOf, seen, e);
      && (r.Refused? <==> admission != Created) && (r.Refused? ==> r.admission == admission)
      && (r.Inserted? <==> admission == Created && !Blocked(t, BuildIdentity(keyOf, e).value))
      && (!r.Inserted? ==> u == t)
      && (r.Inserted? ==>
            && r.cycle == pk
            && u == t.(cycles := t.cycles[pk := Cycle(
                         keyOf(e.account.value, e.ticket.value, BuildIdentity(keyOf, e).value.enteredAt),
                         e.account.value, e.ticket.value, BuildIdentity(keyOf, e).value.enteredAt, Queued, None)]))
      && (r.FoundAfterRace? ==>
            var c := t.cycles[r.cycle];
            && Some(c.account) == e.account && Some(c.ticket) == e.ticket
            && c.enteredAt == BuildIdentity(keyOf, e).value.enteredAt)
    ensures var r := OpenRacing(keyOf, seen, t, e, pk).1;
      forall c :: r.RaisedAfterRace? && DistinctEntries(t) && c in t.cycles ==>
        Some(t.cycles[c].account) != e.account || Some(t.cycles[c].ticket) != e.ticket
        || t.cycles[c].enteredAt != BuildIdentity(keyOf, e).value.enteredAt
  {
    hide Classify;
    var id := BuildIdentity(keyOf, e);
    if id.Some? {
      assert Collides(t, id.value) <==> Blocked(t, id.value);
      if DistinctEntries(t) {
        if c :| c in t.cycles && SameNaturalKey(t.cycles[c], id.value) {
          forall d | d in t.cycles && SameNaturalKey(t.cycles[d], id.value)
            ensures d == c
          {
            assert SameTicket(t, c, d);
          }
        }
      }
    }
  }

  ghost predicate OneActive(t: Tables) {
    forall c, d :: c in t.cycles && d in t.cycles && c != d && SameTicket(t, c, d) ==>
      !(Active(t.cycles[c].state) && Active(t.cycles[d].state))
  }

  ghost predicate DistinctEntries(t: Tables) {
    forall c, d :: c in t.cycles && d in t.cycles && c != d && SameTicket(t, c, d) ==>
      t.cycles[c].enteredAt != t.cycles[d].enteredAt
  }

  /** Whatever a racing transaction saw, a ticket keeps one active cycle and one row per entry. */
  lemma RaceKeepsConstraints(keyOf: KeyOf, seen: Tables, t: Tables, e: Entry, pk: CycleId)
    requires pk !in t.cycles && Keyed(keyOf, t) && OneActive(t) && DistinctEntries(t)
    ensures var u := OpenRacing(keyOf, seen, t, e, pk).0;
      Keyed(keyOf, u) && OneActive(u) && DistinctEntries(u)
      && forall c :: c in t.cycles ==> c in u.cycles && u.cycles[c] == t.cycles[c]
  {
    hide Classify;
    var (u, r) := OpenRacing(keyOf, seen, t, e, pk);
    if r.Inserted? {
      var id := BuildIdentity(keyOf, e).value;
      forall c, d | c in u.cycles && d in u.cycles && c != d && SameTicket(u, c, d)
        ensures u.cycles[c].enteredAt != u.cycles[d].enteredAt
        ensures !(Active(u.cycles[c].state) && Active(u.cycles[d].state))
      {
        assert c in t.cycles ==> !SameNaturalKey(t.cycles[c], id) && !SameTicketActive(t.cycles[c], id);
        assert d in t.cycles ==> !SameNaturalKey(t.cycles[d], id) && !SameTicketActive(t.cycles[d], id);
        assert c in t.cycles && d in t.cycles ==> SameTicket(t, c, d);
      }
    }
  }

  /**
   * The ordering survives a racing insert exactly when the entry was not admitted
   * by the rows it saw, or meets a constraint among the committed ones, or no
   * committed cycle of its ticket began later.
   */
  lemma RaceKeepsOrderIff(keyOf: KeyOf, seen: Tables, t: Tables, e: Entry, pk: CycleId)
    requires pk !in t.cycles && Keyed(keyOf, t) && Ordered(t)
    ensures Ordered(OpenRacing(keyOf, seen, t, e, pk).0) <==>
        (Admit(keyOf, seen, e) == Created && !Collides(t, BuildIdentity(keyOf, e).value) ==>
          var id := BuildIdentity(keyOf, e).value;
          forall c :: c in Known(t, id.account, id.ticket) ==> t.cycles[c].enteredAt <= id.enteredAt)
  {
    hide Classify, Keyed;
    var (u, r) := OpenRacing(keyOf, seen, t, e, pk);
    if r.Inserted? {
      var id := BuildIdentity(keyOf, e).value;
      if forall c :: c in Known(t, id.account, id.ticket) ==> t.cycles[c].enteredAt <= id.enteredAt {
        InsertKeepsOrder(t, u, id, pk);
      } else {
        var c :| c in Known(t, id.account, id.ticket) && t.cycles[c].enteredAt > id.enteredAt;
        assert SameTicket(u, pk, c) && c != pk;
        assert !Newest(u, pk);
      }
    }
  }

  lemma InsertKeepsOrder(t: Tables, u: Tables, id: Identity, pk: CycleId)
    requires Ordered(t) && pk !in t.cycles && !Collides(t, id)
    requires u.cycles == t.cycles[pk := Cycle(id.key, id.account, id.ticket, id.enteredAt, Queued, None)]
    requires forall c :: c in Known(t, id.account, id.ticket) ==> t.cycles[c].enteredAt <= id.enteredAt
    ensures Ordered(u)
  {
    forall d | d in t.cycles && SameTicket(u, pk, d)
      ensures !Active(t.cycles[d].state) && t.cycles[d].enteredAt < id.enteredAt
    {
      assert d in Known(t, id.account, id.ticket);
      assert !SameNaturalKey(t.cycles[d], id) && !SameTicketActive(t.cycles[d], id);
    }
    forall c | c in u.cycles && Active(u.cycles[c].state)
      ensures Newest(u, c)
    {
      if c != pk {
        assert Newest(t, c);
        assert !SameTicket(u, pk, c);
        assert forall d :: d in t.cycles && SameTicket(u, c, d) ==> SameTicket(t, c, d);
      }
    }
    forall c, d | c in u.cycles && d in u.cycles && c != d && SameTicket(u, c, d)
      ensures u.cycles[c].enteredAt != u.cycles[d].enteredAt
    {
      assert c in t.cycles && d in t.cycles ==> SameTicket(t, c, d);
    }
  }

  /** The loser of a race for one entry finds the winner's row and repeats no effect. */
  lemma LoserFindsWinner(keyOf: KeyOf, seen: Tables, t: Tables, e: Entry, pk: CycleId, winner: CycleId)
    requires pk !in t.cycles && DistinctEntries(t)
    requires Admit(keyOf, seen, e) == Created
    requires winner in t.cycles && SameNaturalKey(t.cycles[winner], BuildIdentity(keyOf, e).value)
    ensures OpenRacing(keyOf, seen, t, e, pk) == (t, FoundAfterRace(winner))
  {
    var id := BuildIdentity(keyOf, e).value;
    hide Admit;
    assert forall d :: d in t.cycles && SameNaturalKey(t.cycles[d], id) ==>
      SameTicket(t, d, winner) && t.cycles[d].enteredAt == t.cycles[winner].enteredAt;
    assert Collides(t, id);
  }

  /** Nothing committed in between: the plain transaction. */
  lemma WithoutRace(keyOf: KeyOf, t: Tables, e: Entry, pk: CycleId)
    requires pk !in t.cycles && Keyed(keyOf, t)
    ensures OpenRacing(keyOf, t, t, e, pk).0 == OpenOrGet(keyOf, t, e, pk)
    ensures !OpenRacing(keyOf, t, t, e, pk).1.FoundAfterRace?
  {
    if Admit(keyOf, t, e) == Created {
      var id := BuildIdentity(keyOf, e).value;
      AdmittedIsLatest(keyOf, t, id);
      hide Classify;
      forall c | c in t.cycles
        ensures !SameNaturalKey(t.cycles[c], id) && !SameTicketActive(t.cycles[c], id)
      {
        if t.cycles[c].account == id.account && t.cycles[c].ticket == id.ticket {
          assert c in Known(t, id.account, id.ticket);
        }
      }
    }
  }
}
