/**
 * Runs from an empty database to the histories in which a racing entry or a
 * close delivered again does more than its name suggests.
 */
module HistoryFailures {
  import opened Base
  import opened ConversationCycles
  import opened TicketClose
  import opened CycleHistory
  import opened CycleRace

  const TICKET_CLOSED := ProviderSnapshot(1, Some(ClosedStage), Some(SupportPipeline), false, NoEntry)

  function EntryAt(at: Instant): Entry {
    Entry(Some(1), Some(1), AwareTime(at))
  }

  function CloseAt(at: Instant): Occurrence {
    Occurrence(1, Some(at), None)
  }

  function CycleAt(keyOf: KeyOf, from: Instant): Cycle {
    Cycle(keyOf(1, 1, from), 1, 1, from, Queued, None)
  }

  /** The ticket enters once and is closed. */
  function Attendance(keyOf: KeyOf, pk: CycleId, from: Instant, until: Instant): seq<Act> {
    [Enter(EntryAt(from), pk),
     CloseTicket(CloseAt(until), Some(TICKET_CLOSED), false, [Listed(pk, CycleAt(keyOf, from))])]
  }

  function Attended(keyOf: KeyOf, pk: CycleId, from: Instant, until: Instant): Tables {
    Tables(
      map[pk := CycleAt(keyOf, from).(state := Closed, closedAt := Some(until))], map[], map[],
      map[pk := ClosedRecord(1, until, None, None, None, None, false)])
  }

  function Entered(keyOf: KeyOf, pk: CycleId, from: Instant): Tables {
    Tables(map[pk := CycleAt(keyOf, from)], map[], map[], map[])
  }

  lemma FirstEntry(keyOf: KeyOf, pk: CycleId, from: Instant)
    ensures Step(keyOf, EMPTY, Enter(EntryAt(from), pk)) == Entered(keyOf, pk, from)
  {
  }

  lemma FirstClose(keyOf: KeyOf, pk: CycleId, from: Instant, until: Instant)
    requires from <= until
    ensures Step(keyOf, Entered(keyOf, pk, from), Attendance(keyOf, pk, from, until)[1]) == Attended(keyOf, pk, from, until)
  {
    var row := Listed(pk, CycleAt(keyOf, from));
    var t := Entered(keyOf, pk, from);
    assert OfTicket(t, 1) == {pk} && [row][0].id == pk;
    assert IsListing(t, 1, [row]);
    OnlyRow(row, until);
    hide ResolveCloseTarget, IsListing;
  }

  lemma AttendedOnce(keyOf: KeyOf, pk: CycleId, from: Instant, until: Instant)
    requires from <= until
    ensures Run(keyOf, EMPTY, Attendance(keyOf, pk, from, until)) == Attended(keyOf, pk, from, until)
  {
    hide Run, Step;
    var acts := Attendance(keyOf, pk, from, until);
    RunOfNothing(keyOf, EMPTY);
    RunSnoc(keyOf, EMPTY, [], acts[0]);
    RunSnoc(keyOf, EMPTY, [acts[0]], acts[1]);
    assert [] + [acts[0]] == [acts[0]] && [acts[0]] + [acts[1]] == acts;
    FirstEntry(keyOf, pk, from);
    FirstClose(keyOf, pk, from, until);
  }

  lemma OnlyRow(row: Listed, at: Instant)
    requires row.cycle.enteredAt <= at && row.cycle.state == Queued
    ensures ResolveCloseTarget([row], CloseAt(at)) == CloseResult(AppliedCurrent, Some(row.id), true)
  {
    assert SortByEntry([row]) == [row];
    assert EnteredBy([row], at) == [row];
  }

  /**
   * Two entries of one ticket race: the later attendance opens and closes while
   * the transaction of the earlier one still goes by the rows it saw before, and
   * the earlier entry is then inserted behind it as the active cycle.
   */
  lemma RaceCanBreakOrder(keyOf: KeyOf, early: Instant, from: Instant, until: Instant)
    requires early < from <= until && keyOf(1, 1, early) != keyOf(1, 1, from)
    ensures var t := Run(keyOf, EMPTY, Attendance(keyOf, 7, from, until));
      && SeenIn(EMPTY, t) && Sound(keyOf, t) && 8 !in t.cycles
      && !Ordered(OpenRacing(keyOf, EMPTY, t, EntryAt(early), 8).0)
  {
    hide Sound, Run;
    AttendedOnce(keyOf, 7, from, until);
    EmptyIsSound(keyOf);
    RunKeepsSound(keyOf, EMPTY, Attendance(keyOf, 7, from, until));
    EntersBehind(keyOf, early, from, until);
  }

  lemma EntersBehind(keyOf: KeyOf, early: Instant, from: Instant, until: Instant)
    requires early < from && keyOf(1, 1, early) != keyOf(1, 1, from)
    ensures !Ordered(OpenRacing(keyOf, EMPTY, Attended(keyOf, 7, from, until), EntryAt(early), 8).0)
  {
    var t := Attended(keyOf, 7, from, until);
    assert Admit(keyOf, EMPTY, EntryAt(early)) == Created;
    assert !Collides(t, BuildIdentity(keyOf, EntryAt(early)).value);
    var u := OpenRacing(keyOf, EMPTY, t, EntryAt(early), 8).0;
    assert u.cycles[8].state == Queued && SameTicket(u, 8, 7);
    assert !Newest(u, 8);
  }

  /**
   * A close delivered again ends the next attendance, if that one began before the
   * close's own time: entered, closed late, entered again, and the same close once more.
   */
  lemma RedeliveryEndsNextAttendance(keyOf: KeyOf, from: Instant, again: Instant, until: Instant)
    requires from < again <= until && keyOf(1, 1, from) != keyOf(1, 1, again)
    ensures var t := Run(keyOf, EMPTY, Attendance(keyOf, 1, from, until) + [Enter(EntryAt(again), 2)]);
      && 1 in t.cycles && t.cycles[1].state == Closed && t.cycles[1].closedAt == Some(until)
      && 2 in t.cycles && t.cycles[2].state == Queued
      && var rows := [Listed(1, t.cycles[1]), Listed(2, t.cycles[2])];
         && IsListing(t, 1, rows)
         && ApplyClose(t, rows, CloseAt(until), Some(TICKET_CLOSED), false).1.classification == AppliedCurrent
         && ApplyClose(t, rows, CloseAt(until), Some(TICKET_CLOSED), false).0.cycles[2].state == Closed
  {
    var acts := Attendance(keyOf, 1, from, until);
    var s := Attended(keyOf, 1, from, until);
    AttendedOnce(keyOf, 1, from, until);
    RunSnoc(keyOf, EMPTY, acts, Enter(EntryAt(again), 2));
    EnteredAgain(keyOf, s, from, again);
    var t := s.(cycles := s.cycles[2 := CycleAt(keyOf, again)]);
    var rows := [Listed(1, t.cycles[1]), Listed(2, t.cycles[2])];
    assert OfTicket(t, 1) == {1, 2};
    assert rows[0].id == 1 && rows[1].id == 2;
    LaterOfTwo(rows[0], rows[1], until);
  }

  lemma EnteredAgain(keyOf: KeyOf, s: Tables, from: Instant, again: Instant)
    requires s.cycles.Keys == {1} && s.cycles[1].enteredAt == from && s.cycles[1].state == Closed
    requires s.cycles[1].key == keyOf(1, 1, from) && s.cycles[1].account == 1 && s.cycles[1].ticket == 1
    requires from < again && keyOf(1, 1, from) != keyOf(1, 1, again)
    ensures Step(keyOf, s, Enter(EntryAt(again), 2)) == s.(cycles := s.cycles[2 := CycleAt(keyOf, again)])
  {
    assert Known(s, 1, 1) == {1};
  }

  lemma LaterOfTwo(first: Listed, second: Listed, at: Instant)
    requires first.cycle.enteredAt < second.cycle.enteredAt <= at
    requires first.cycle.account == second.cycle.account && second.cycle.state == Queued
    ensures ResolveCloseTarget([first, second], CloseAt(at)) == CloseResult(AppliedCurrent, Some(second.id), true)
  {
    var rows := [first, second];
    assert rows[1..] == [second] && SortByEntry([second]) == [second];
    assert SortByEntry(rows) == Insert(first, [second]) == [first, second];
    assert EnteredBy([second], at) == [second];
    assert EnteredBy(rows, at) == [first, second];
  }
}
