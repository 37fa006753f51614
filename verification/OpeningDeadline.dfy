/**
 How long the opening barrier can hold a row, from what the calendar resolves and
 what heartbeats write (apps/support/opening_cohort_service.py).
 */
module OpeningDeadline {
  import opened Base
  import opened OpeningCohort
  import Calendar = OperationalCalendar
  import Availability

  type Zone = Calendar.Zone
  type Hours = Calendar.Hours

  /** The start of the window the calendar resolves. */
  function WindowAt(z: Zone, hours: Hours, now: Instant): Option<Instant> {
    match Calendar.ResolveWindow(z, hours, now)
    case None => None
    case Some(w) => Some(w.startAt)
  }

  predicate StartsArePast(agents: Agents, listing: seq<AgentId>, now: Instant)
    requires Known(agents, listing)
  {
    forall a :: a in listing && agents[a].onlineSince.Some? ==> agents[a].onlineSince.value <= now
  }

  /** What every heartbeat and off-hours pass so far wrote for an agent that was never observed before. */
  ghost predicate WrittenByPasses(since: Option<Instant>, s: Availability.Settings, t: Availability.Track, now: Instant,
                                  ps: seq<Availability.Pass>)
  {
    && t.row.onlineSince.None?
    && (forall i :: 0 <= i < |ps| && !ps[i].Configure? ==> ps[i].now <= now)
    && since == Availability.Passes(s, t, ps).row.onlineSince
  }

  /** Agents whose rows only those passes wrote came online in the past. */
  lemma PassesArePast(
    agents: Agents, listing: seq<AgentId>, now: Instant, s: Availability.Settings, t: map<AgentId, Availability.Track>,
    ps: map<AgentId, seq<Availability.Pass>>)
    requires Known(agents, listing)
    requires forall a :: a in listing ==>
      a in t && a in ps && WrittenByPasses(agents[a].onlineSince, s, t[a], now, ps[a])
    ensures StartsArePast(agents, listing, now)
  {
    forall a | a in listing && agents[a].onlineSince.Some?
      ensures agents[a].onlineSince.value <= now
    {
      Availability.OnlineSinceIsPast(s, t[a], ps[a], now);
    }
  }

  /** The event looks at the window the calendar resolves at its own time, and finds agents online in the past. */
  ghost predicate Resolved(e: Event, z: Zone, hours: Hours) {
    e.Evaluated? && Known(e.agents, e.listing) ==>
      && e.window == WindowAt(z, hours, e.now)
      && StartsArePast(e.agents, e.listing, e.now)
  }

  /** A clock change skips the start of the window the event looks at, and the look comes too soon after it. */
  predicate LooksTooSoon(e: Event, z: Zone, hours: Hours) {
    && e.Evaluated?
    && Calendar.ActiveAt(z, hours, e.now).Some?
    && Calendar.SkippedStart(z, hours, e.now)
  }

  /** A look at a resolved window is timely unless a clock change skips the window's start. */
  lemma ResolvedIsTimelyIff(e: Event, z: Zone, hours: Hours)
    requires e.Evaluated? && Known(e.agents, e.listing) && Resolved(e, z, hours)
    ensures Timely(e) <==> !LooksTooSoon(e, z, hours)
  {
    if e.window.Some? {
      Calendar.WindowStartsLateIff(z, hours, e.now);
    }
  }

  /**
   * The wait of a cohort frozen at a resolved window is at most the stability time
   * plus one heartbeat, unless a clock change skips the window's start and every
   * listed agent's own start is known.
   */
  lemma ResolvedBoundIff(
    z: Zone, hours: Hours, s: Settings, agents: Agents, listing: seq<AgentId>, now: Instant)
    requires Known(agents, listing) && StartsArePast(agents, listing, now)
    requires WindowAt(z, hours, now).Some?
    requires Defaults(s, agents, listing, WindowAt(z, hours, now).value, now).Some?
    ensures Defaults(s, agents, listing, WindowAt(z, hours, now).value, now).value.deadlineAt <= now + MaximumWait(s)
      <==> !Calendar.SkippedStart(z, hours, now) || exists a :: a in listing && agents[a].onlineSince.None?
  {
    hide Defaults;
    var window := WindowAt(z, hours, now).value;
    DeadlineBoundIff(s, agents, listing, window, now);
    Calendar.WindowStartsLateIff(z, hours, now);
    DefaultsNeedAgents(s, agents, listing, window, now);
    assert listing[0] in listing;
  }

  /** Every cohort of every run is bounded when its looks are resolved ones and no clock change skips a start. */
  lemma ResolvedCohortsAreBounded(
    rows: map<RowId, QueueRow>, es: seq<Event>, window: Instant, z: Zone, hours: Hours)
    requires window in Run(Board(map[], rows), es).cohorts
    requires forall k :: 0 <= k < |es| ==> Resolved(es[k], z, hours) && !LooksTooSoon(es[k], z, hours)
    ensures exists k: nat :: FrozenInTime(Board(map[], rows), es, window, k)
  {
    hide Run, FrozenInTime;
    forall k | 0 <= k < |es|
      ensures Timely(es[k])
    {
      if es[k].Evaluated? && Known(es[k].agents, es[k].listing) {
        ResolvedIsTimelyIff(es[k], z, hours);
      }
    }
    CohortsAreBounded(Board(map[], rows), es, window);
  }

  const HOUR: int := 3_600_000

  /**
   * At 07:00 the clocks go from five to four hours behind, so 02:00 to 03:00 does not
   * exist that day; hours from 02:30 are resolved to 07:30, and a look at 07:10
   * freezes a cohort that waits twenty minutes more than the maximum.
   */
  lemma SkippedOpeningWaitsLonger(s: Settings, ready: Instant, settling: Instant)
    requires ready < settling <= 7 * HOUR + HOUR / 6
    ensures var z := Calendar.Zone(-5 * HOUR, 7 * HOUR, -4 * HOUR);
      var hours: Hours := day => [Calendar.Interval(5 * HOUR / 2, 18 * HOUR)];
      var now := 7 * HOUR + HOUR / 6;
      var agents := map[0 := Agent(true, true, true, true, false, true, Some(settling)),
                        1 := Agent(true, true, true, true, true, false, Some(ready))];
      && WindowAt(z, hours, now) == Some(15 * HOUR / 2)
      && StartsArePast(agents, [0, 1], now)
      && Defaults(s, agents, [0, 1], 15 * HOUR / 2, now).Some?
      && Defaults(s, agents, [0, 1], 15 * HOUR / 2, now).value.deadlineAt == now + MaximumWait(s) + HOUR / 3
  {
    var agents := map[0 := Agent(true, true, true, true, false, true, Some(settling)),
                      1 := Agent(true, true, true, true, true, false, Some(ready))];
    assert [0, 1][0] == 0 && [0, 1][1] == 1 && agents[1].eligible && agents[0].stabilizing;
    assert 0 in Stabilizing(agents, [0, 1]) && 1 in [0, 1];
    EarliestIsLeast(agents, [0, 1]);
  }
}
