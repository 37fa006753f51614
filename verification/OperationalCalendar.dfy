/**
 * The operational window the calendar resolves for an instant
 * (apps/support/helpdesk_calendar/service.py): the local day's intervals, the one
 * the local time falls into, and its bounds turned back into instants.
 */
module OperationalCalendar {
  import opened Base

  /** Milliseconds since the epoch; local times count the same way on the wall clock. */
  type Instant = int

  const DAY_MS: int := 86_400_000

  /** A span of the local day, in milliseconds from its midnight; the end is outside. */
  datatype Interval = Interval(start: int, end: int)

  datatype Window = Window(startAt: Instant, endAt: Instant)

  /** A time zone around one change of its offset. */
  datatype Zone = Zone(before: int, change: Instant, after: int)

  /** The resolved hours of each local day. */
  type Hours = int -> seq<Interval>

  function Local(z: Zone, now: Instant): int {
    now + if now < z.change then z.before else z.after
  }

  /** The instant of a wall-clock time; one that the change repeats or skips is read by the offset before it. */
  function AtWall(z: Zone, wall: int): Instant {
    wall - if wall < z.change + Max(z.before, z.after) then z.before else z.after
  }

  function ActiveInterval(intervals: seq<Interval>, time: int): (r: Option<Interval>)
    ensures r.Some? ==> r.value in intervals && r.value.start <= time < r.value.end
    ensures r.None? ==> forall i :: i in intervals ==> !(i.start <= time < i.end)
  {
    if intervals == [] then None
    else if intervals[0].start <= time < intervals[0].end then Some(intervals[0])
    else ActiveInterval(intervals[1..], time)
  }

  function ActiveAt(z: Zone, hours: Hours, now: Instant): Option<Interval> {
    ActiveInterval(hours(Local(z, now) / DAY_MS), Local(z, now) % DAY_MS)
  }

  /** The wall-clock start of the interval that is active now. */
  function WallStart(z: Zone, hours: Hours, now: Instant): int
    requires ActiveAt(z, hours, now).Some?
  {
    Local(z, now) / DAY_MS * DAY_MS + ActiveAt(z, hours, now).value.start
  }

  function ResolveWindow(z: Zone, hours: Hours, now: Instant): Option<Window> {
    var active := ActiveAt(z, hours, now);
    if active.None? then None
    else
      var midnight := Local(z, now) / DAY_MS * DAY_MS;
      Some(Window(AtWall(z, midnight + active.value.start), AtWall(z, midnight + active.value.end)))
  }

  /**
   * The change skips the wall-clock time the interval starts at, and now lies between
   * the change and the instant that the skipped time is read as.
   */
  predicate SkippedStart(z: Zone, hours: Hours, now: Instant)
    requires ActiveAt(z, hours, now).Some?
  {
    && z.change + z.before <= WallStart(z, hours, now) < z.change + z.after
    && z.change <= now < WallStart(z, hours, now) - z.before
  }

  /** A wall-clock time read as an instant shows itself on the clock, exactly unless the change skips it. */
  lemma WallRoundTrip(z: Zone, wall: int)
    ensures Local(z, AtWall(z, wall)) == wall <==> !(z.change + z.before <= wall < z.change + z.after)
    ensures forall now :: Local(z, now) == wall ==> AtWall(z, wall) <= now
  {
  }

  /** A window is resolved exactly while some interval of the local day contains the local time. */
  lemma ResolvesIff(z: Zone, hours: Hours, now: Instant)
    ensures var local := Local(z, now);
      ResolveWindow(z, hours, now).Some? <==>
      exists i :: i in hours(local / DAY_MS) && i.start <= local % DAY_MS < i.end
  {
  }

  /** The wall-clock end of the interval that is active now. */
  function WallEnd(z: Zone, hours: Hours, now: Instant): int
    requires ActiveAt(z, hours, now).Some?
  {
    Local(z, now) - Local(z, now) % DAY_MS + ActiveAt(z, hours, now).value.end
  }

  /** The clock has been set back past the interval's end, and the end is read as its first occurrence, which is over. */
  predicate RepeatedEnd(z: Zone, hours: Hours, now: Instant)
    requires ActiveAt(z, hours, now).Some?
  {
    z.change <= now && WallEnd(z, hours, now) < z.change + z.before && WallEnd(z, hours, now) - z.before <= now
  }

  /** The resolved window has not ended yet, unless the clock change repeats its end. */
  lemma WindowEndsEarlyIff(z: Zone, hours: Hours, now: Instant)
    requires ResolveWindow(z, hours, now).Some?
    ensures ResolveWindow(z, hours, now).value.endAt <= now <==> RepeatedEnd(z, hours, now)
    ensures z.before == z.after ==>
      ResolveWindow(z, hours, now).value == Window(WallStart(z, hours, now) - z.before, WallEnd(z, hours, now) - z.before)
  {
    var local := Local(z, now);
    assert local == local / DAY_MS * DAY_MS + local % DAY_MS;
  }

  /** The resolved window has started by now, unless the clock change skips its start. */
  lemma WindowStartsLateIff(z: Zone, hours: Hours, now: Instant)
    requires ResolveWindow(z, hours, now).Some?
    ensures ResolveWindow(z, hours, now).value.startAt > now <==> SkippedStart(z, hours, now)
  {
    var local := Local(z, now);
    assert local == local / DAY_MS * DAY_MS + local % DAY_MS;
    assert WallStart(z, hours, now) <= local;
  }
}
