/**
 * The opening barrier: overnight backlog waits, for a bounded time, until the
 * agents who were settling when the window opened have settled.
 */
module OpeningCohort {
  import opened Base

  /** Milliseconds since the epoch. */
  type Instant = int
  type RowId = nat

  const RECHECK_JITTER_MS: int := 2_000

  datatype Mode = Off | Shadow | Enforce

  datatype Settings = Settings(mode: Mode, stableSeconds: nat, heartbeatSeconds: nat)

  datatype Agent = Agent(
    active: bool,
    autoAssign: bool,
    hasIdentity: bool,
    hasRoom: bool,
    eligible: bool,
    stabilizing: bool,
    onlineSince: Option<Instant>)

  type Agents = map<AgentId, Agent>

  datatype Reason = AllSettled | Deadline

  datatype CohortState = Open | Released(reason: Reason, at: Instant)

  datatype Cohort = Cohort(
    windowStart: Instant,
    observedAt: Instant,
    recheckAt: Instant,
    deadlineAt: Instant,
    members: seq<AgentId>,
    state: CohortState,
    callbackAt: Option<Instant>)

  datatype Outcome = NotApplicable | ShadowWouldDefer | Deferred | ReleasedAllSettled | ReleasedDeadline

  datatype QueueRow = QueueRow(enteredAt: Instant, nextAttempt: Option<Instant>)

  // ---------------------------------------------------------------- freezing a cohort

  predicate Candidate(a: Agent) {
    a.active && a.autoAssign && a.hasIdentity && a.hasRoom && (a.eligible || a.stabilizing)
  }

  /** The candidates in primary-key order. */
  ghost predicate Lists(agents: Agents, listing: seq<AgentId>) {
    forall a :: a in listing <==> a in agents && Candidate(agents[a])
  }

  predicate Known(agents: Agents, listing: seq<AgentId>) {
    forall a :: a in listing ==> a in agents
  }

  function Stabilizing(agents: Agents, listing: seq<AgentId>): (r: seq<AgentId>)
    requires Known(agents, listing)
    ensures forall a :: a in r <==> a in listing && agents[a].stabilizing
  {
    if listing == [] then []
    else
      assert listing == [listing[0]] + listing[1..];
      (if agents[listing[0]].stabilizing then [listing[0]] else []) + Stabilizing(agents, listing[1..])
  }

  /** The earliest time any of them came online; every one has such a time. */
  function EarliestOnline(agents: Agents, listing: seq<AgentId>): Instant
    requires Known(agents, listing) && listing != []
    requires forall a :: a in listing ==> agents[a].onlineSince.Some?
  {
    var first := agents[listing[0]].onlineSince.value;
    if |listing| == 1 then first
    else Min(first, EarliestOnline(agents, listing[1..]))
  }

  /** When the last of them is due to be stable; a missing start counts as now. */
  function LatestDue(agents: Agents, listing: seq<AgentId>, now: Instant, stableMs: int): Instant
    requires Known(agents, listing) && listing != []
  {
    var since := agents[listing[0]].onlineSince;
    var due := (if since.Some? then since.value else now) + stableMs;
    if |listing| == 1 then due
    else Max(due, LatestDue(agents, listing[1..], now, stableMs))
  }

  predicate AllOnline(agents: Agents, listing: seq<AgentId>)
    requires Known(agents, listing)
  {
    forall a :: a in listing ==> agents[a].onlineSince.Some?
  }

  function ObservedAt(agents: Agents, listing: seq<AgentId>, windowStart: Instant, now: Instant): Instant
    requires Known(agents, listing) && listing != []
  {
    if !AllOnline(agents, listing) then now else Max(windowStart, EarliestOnline(agents, listing))
  }

  /** The frozen cohort of a window, or nothing when there is nobody to wait for or no time left. */
  function Defaults(s: Settings, agents: Agents, listing: seq<AgentId>, windowStart: Instant, now: Instant): Option<Cohort>
    requires Known(agents, listing)
  {
    var settling := Stabilizing(agents, listing);
    if settling == [] || !(exists a :: a in listing && agents[a].eligible) then None
    else
      var observedAt := ObservedAt(agents, listing, windowStart, now);
      var deadlineAt := observedAt + (s.stableSeconds + s.heartbeatSeconds) * 1000;
      if now >= deadlineAt then None
      else
        var due := LatestDue(agents, settling, now, s.stableSeconds * 1000);
        var recheckAt := Min(deadlineAt, Max(now, due) + RECHECK_JITTER_MS);
        Some(Cohort(windowStart, observedAt, recheckAt, deadlineAt, listing, Open, None))
  }

  lemma {:induction false} EarliestIsLeast(agents: Agents, listing: seq<AgentId>)
    requires Known(agents, listing) && listing != []
    requires forall a :: a in listing ==> agents[a].onlineSince.Some?
    ensures forall a :: a in listing ==> EarliestOnline(agents, listing) <= agents[a].onlineSince.value
    ensures exists a :: a in listing && agents[a].onlineSince.value == EarliestOnline(agents, listing)
  {
    assert listing == [listing[0]] + listing[1..];
    assert listing[0] in listing;
    if |listing| > 1 {
      EarliestIsLeast(agents, listing[1..]);
      var a :| a in listing[1..] && agents[a].onlineSince.value == EarliestOnline(agents, listing[1..]);
      assert a in listing;
    }
  }

  /** When an agent is due to be stable. */
  function DueOf(a: Agent, now: Instant, stableMs: int): Instant {
    (if a.onlineSince.None? then now else a.onlineSince.value) + stableMs
  }

  lemma {:induction false} LatestIsGreatest(agents: Agents, listing: seq<AgentId>, now: Instant, stableMs: int)
    requires Known(agents, listing) && listing != []
    ensures forall a :: a in listing ==> DueOf(agents[a], now, stableMs) <= LatestDue(agents, listing, now, stableMs)
    ensures exists a :: a in listing && DueOf(agents[a], now, stableMs) == LatestDue(agents, listing, now, stableMs)
  {
    assert listing == [listing[0]] + listing[1..];
    assert listing[0] in listing;
    if |listing| > 1 {
      LatestIsGreatest(agents, listing[1..], now, stableMs);
      var a :| a in listing[1..] && DueOf(agents[a], now, stableMs) == LatestDue(agents, listing[1..], now, stableMs);
      assert a in listing;
    }
  }

  /** The recheck lies strictly after creation, no later than the deadline, and never before the last agent is due. */
  lemma RecheckWithinBounds(s: Settings, agents: Agents, listing: seq<AgentId>, windowStart: Instant, now: Instant)
    requires Known(agents, listing) && Defaults(s, agents, listing, windowStart, now).Some?
    ensures var c := Defaults(s, agents, listing, windowStart, now).value;
      && now < c.recheckAt <= c.deadlineAt
      && c.deadlineAt == c.observedAt + (s.stableSeconds + s.heartbeatSeconds) * 1000
      && (forall a :: a in listing && agents[a].stabilizing && agents[a].onlineSince.Some? ==>
            c.recheckAt < c.deadlineAt ==> agents[a].onlineSince.value + s.stableSeconds * 1000 < c.recheckAt)
  {
    var settling := Stabilizing(agents, listing);
    LatestIsGreatest(agents, settling, now, s.stableSeconds * 1000);
  }

  /**
   * The recheck comes two seconds after the last settling agent is due, or after now if that is
   * later, but no later than the deadline: it is the latest of what each settling agent asks for.
   */
  lemma RecheckFollowsLastDue(s: Settings, agents: Agents, listing: seq<AgentId>, windowStart: Instant, now: Instant)
    requires Known(agents, listing) && Defaults(s, agents, listing, windowStart, now).Some?
    ensures var c := Defaults(s, agents, listing, windowStart, now).value;
      && (forall a :: a in listing && agents[a].stabilizing ==>
            Min(c.deadlineAt, Max(now, DueOf(agents[a], now, s.stableSeconds * 1000)) + 2_000) <= c.recheckAt)
      && (exists a :: a in listing && agents[a].stabilizing
            && Min(c.deadlineAt, Max(now, DueOf(agents[a], now, s.stableSeconds * 1000)) + 2_000) == c.recheckAt)
  {
    var settling := Stabilizing(agents, listing);
    LatestIsGreatest(agents, settling, now, s.stableSeconds * 1000);
    var a :| a in settling
             && DueOf(agents[a], now, s.stableSeconds * 1000) == LatestDue(agents, settling, now, s.stableSeconds * 1000);
  }

  /** The wait counts from the first of them to come online, but not from before the window; with a start missing, from now. */
  lemma WaitCountsFromFirstOnline(s: Settings, agents: Agents, listing: seq<AgentId>, windowStart: Instant, now: Instant)
    requires Known(agents, listing) && Defaults(s, agents, listing, windowStart, now).Some?
    ensures var c := Defaults(s, agents, listing, windowStart, now).value;
      if exists a :: a in listing && agents[a].onlineSince.None? then c.observedAt == now
      else
        && (forall a :: a in listing ==> c.observedAt <= Max(windowStart, agents[a].onlineSince.value))
        && (exists a :: a in listing && c.observedAt == Max(windowStart, agents[a].onlineSince.value))
  {
    if AllOnline(agents, listing) {
      EarliestIsLeast(agents, listing);
      var a :| a in listing && agents[a].onlineSince.value == EarliestOnline(agents, listing);
    }
  }

  /**
   * A cohort is frozen exactly when somebody listed is settling, somebody is ready, and nobody
   * listed has been online for the whole maximum wait.
   */
  lemma FreezesIff(s: Settings, agents: Agents, listing: seq<AgentId>, windowStart: Instant, now: Instant)
    requires Known(agents, listing)
    ensures Defaults(s, agents, listing, windowStart, now).Some? <==>
      && (exists a :: a in listing && agents[a].stabilizing)
      && (exists a :: a in listing && agents[a].eligible)
      && (if exists a :: a in listing && agents[a].onlineSince.None? then MaximumWait(s) > 0
          else forall a :: a in listing ==> now < Max(windowStart, agents[a].onlineSince.value) + MaximumWait(s))
    ensures Defaults(s, agents, listing, windowStart, now).Some? ==>
      var c := Defaults(s, agents, listing, windowStart, now).value;
      c.windowStart == windowStart && c.members == listing && c.state == Open && c.callbackAt.None?
  {
    var settling := Stabilizing(agents, listing);
    if a :| a in listing && agents[a].stabilizing {
      assert a in settling;
    }
    if settling != [] {
      assert settling[0] in settling;
      if AllOnline(agents, listing) {
        EarliestIsLeast(agents, listing);
        var a :| a in listing && agents[a].onlineSince.value == EarliestOnline(agents, listing);
      }
    }
  }

  /**
   * The wait is at most the stability time plus one heartbeat exactly when the
   * window has opened and some candidate was online by now (or a start time is
   * missing, which counts from now).
   */
  lemma DeadlineBoundIff(s: Settings, agents: Agents, listing: seq<AgentId>, windowStart: Instant, now: Instant)
    requires Known(agents, listing) && Defaults(s, agents, listing, windowStart, now).Some?
    ensures Defaults(s, agents, listing, windowStart, now).value.deadlineAt
              <= now + (s.stableSeconds + s.heartbeatSeconds) * 1000
      <==>
        (exists a :: a in listing && agents[a].onlineSince.None?)
        || (windowStart <= now && exists a :: a in listing && agents[a].onlineSince.value <= now)
  {
    if AllOnline(agents, listing) {
      EarliestIsLeast(agents, listing);
    }
  }

  // ---------------------------------------------------------------- the barrier

  datatype Board = Board(cohorts: map<Instant, Cohort>, rows: map<RowId, QueueRow>)

  /** Members that are still settling and could still be given work. */
  function StillSettling(members: seq<AgentId>, agents: Agents): set<AgentId> {
    set a | a in members && a in agents && agents[a].stabilizing && agents[a].active && agents[a].autoAssign
              && agents[a].hasRoom
  }

  function ReleasedOutcome(reason: Reason): Outcome {
    if reason == Deadline then ReleasedDeadline else ReleasedAllSettled
  }

  function ReleaseCohort(c: Cohort, reason: Reason, now: Instant): Cohort {
    c.(state := Released(reason, now))
  }

  /** What either caller decides about a persisted cohort, before any deferral bookkeeping. */
  function Judge(c: Cohort, agents: Agents, now: Instant): (Cohort, Outcome) {
    if c.state.Released? then (c, ReleasedOutcome(c.state.reason))
    else if StillSettling(c.members, agents) == {} then (ReleaseCohort(c, AllSettled, now), ReleasedAllSettled)
    else if now >= c.deadlineAt then (ReleaseCohort(c, Deadline, now), ReleasedDeadline)
    else (c, Deferred)
  }

  /** The sweep's entry point: finalises one cohort whatever the queue holds. */
  function Finalize(b: Board, window: Instant, agents: Agents, now: Instant): (Board, Outcome) {
    if window !in b.cohorts then (b, NotApplicable)
    else
      var (c, outcome) := Judge(b.cohorts[window], agents, now);
      (b.(cohorts := b.cohorts[window := c]), outcome)
  }

  /**
   * The stored cohort or a new one. `raced` says that the cohort was committed after
   * the locked read missed it: the insert then breaks the unique window, and the
   * winner's row is read again.
   */
  function GetOrCreate(
    s: Settings, b: Board, agents: Agents, listing: seq<AgentId>, window: Instant, now: Instant, raced: bool)
    : Option<Cohort>
    requires Known(agents, listing)
  {
    if window in b.cohorts && !raced then Some(b.cohorts[window])
    else
      var frozen := Defaults(s, agents, listing, window, now);
      if frozen.Some? && window in b.cohorts then Some(b.cohorts[window]) else frozen
  }

  /** The reservation's entry point: may create the cohort, and defers the row while it is open. */
  function Evaluate(
    s: Settings, b: Board, row: RowId, window: Option<Instant>, agents: Agents, listing: seq<AgentId>, now: Instant,
    raced: bool)
    : (Board, Outcome)
    requires row in b.rows && Known(agents, listing)
  {
    if s.mode == Off || window.None? || b.rows[row].enteredAt >= window.value then (b, NotApplicable)
    else
      var found := GetOrCreate(s, b, agents, listing, window.value, now, raced);
      if found.None? then (b, NotApplicable)
      else
        var (c, outcome) := Judge(found.value, agents, now);
        if outcome != Deferred then (b.(cohorts := b.cohorts[window.value := c]), outcome)
        else
          var scheduled := if c.callbackAt.Some? then c else c.(callbackAt := Some(now));
          var kept := b.(cohorts := b.cohorts[window.value := scheduled]);
          if s.mode == Shadow then (kept, ShadowWouldDefer)
          else
            (kept.(rows := b.rows[row := b.rows[row].(nextAttempt := Some(c.recheckAt))]), Deferred)
  }

  // ---------------------------------------------------------------- what the barrier promises

  /** Cohorts sit under their own window and recheck no later than their deadline. */
  ghost predicate Sound(b: Board) {
    forall w :: w in b.cohorts ==> b.cohorts[w].windowStart == w && b.cohorts[w].recheckAt <= b.cohorts[w].deadlineAt
  }

  /** Somebody of the cohort is still settling and could still be given work. */
  predicate AnyoneSettling(members: seq<AgentId>, agents: Agents) {
    exists a :: a in members && a in agents
                && agents[a].stabilizing && agents[a].active && agents[a].autoAssign && agents[a].hasRoom
  }

  lemma SettlingIsSomebody(members: seq<AgentId>, agents: Agents)
    ensures StillSettling(members, agents) != {} <==> AnyoneSettling(members, agents)
  {
    if a :| a in members && a in agents
            && agents[a].stabilizing && agents[a].active && agents[a].autoAssign && agents[a].hasRoom {
      assert a in StillSettling(members, agents);
    }
  }

  /**
   * What either entry point finds of a stored cohort: a released one answers with its reason, an open
   * one is released as settled once nobody settles, by its deadline from then on, and defers otherwise.
   */
  lemma FinalizationAnswers(b: Board, window: Instant, agents: Agents, now: Instant)
    requires window in b.cohorts
    ensures var (u, outcome) := Finalize(b, window, agents, now);
      var c := b.cohorts[window];
      var open := c.state == Open;
      && u.rows == b.rows && u.cohorts.Keys == b.cohorts.Keys
      && (forall w :: w in b.cohorts && w != window ==> u.cohorts[w] == b.cohorts[w])
      && (outcome == ReleasedAllSettled <==>
            (c.state.Released? && c.state.reason == AllSettled) || (open && !AnyoneSettling(c.members, agents)))
      && (outcome == ReleasedDeadline <==>
            || (c.state.Released? && c.state.reason == Deadline)
            || (open && AnyoneSettling(c.members, agents) && c.deadlineAt <= now))
      && (outcome == Deferred <==> open && AnyoneSettling(c.members, agents) && now < c.deadlineAt)
      && (open && outcome != Deferred ==>
            u.cohorts[window] == c.(state := Released(if outcome == ReleasedDeadline then Deadline else AllSettled, now)))
      && (!open || outcome == Deferred ==> u.cohorts[window] == c)
    ensures forall w :: w !in b.cohorts ==> Finalize(b, w, agents, now) == (b, NotApplicable)
  {
    SettlingIsSomebody(b.cohorts[window].members, agents);
    hide StillSettling;
  }

  /**
   * When the barrier says nothing about a row: it is off, no window is open, the row arrived within
   * the window, or there is no cohort to wait for. Shadow never defers, enforcement never pretends.
   */
  lemma EvaluationAnswers(
    s: Settings, b: Board, row: RowId, window: Option<Instant>, agents: Agents, listing: seq<AgentId>, now: Instant,
    raced: bool)
    requires row in b.rows && Known(agents, listing)
    ensures var (u, outcome) := Evaluate(s, b, row, window, agents, listing, now, raced);
      && (outcome == NotApplicable <==>
            || s.mode == Off || window.None? || window.value <= b.rows[row].enteredAt
            || ((window.value !in b.cohorts || raced) && Defaults(s, agents, listing, window.value, now).None?))
      && (outcome == ShadowWouldDefer ==> s.mode == Shadow) && (outcome == Deferred ==> s.mode == Enforce)
      && (outcome == NotApplicable ==> u == b)
      && (outcome in {ShadowWouldDefer, Deferred} ==>
            && window.value in u.cohorts && u.cohorts[window.value].callbackAt.Some?
            && u.cohorts[window.value].callbackAt
               == (if window.value in b.cohorts && b.cohorts[window.value].callbackAt.Some?
                   then b.cohorts[window.value].callbackAt else Some(now)))
  {
    if window.Some? {
      FreezesIff(s, agents, listing, window.value, now);
    }
    hide Defaults, StillSettling;
  }

  /**
   * A row is deferred only before the deadline, while a member is still
   * settling, and only to a time no later than the deadline; otherwise no row
   * is rescheduled at all.
   */
  lemma DefersOnlyBeforeDeadline(
    s: Settings, b: Board, row: RowId, window: Option<Instant>, agents: Agents, listing: seq<AgentId>, now: Instant,
    raced: bool)
    requires row in b.rows && Known(agents, listing) && Sound(b)
    ensures var (u, outcome) := Evaluate(s, b, row, window, agents, listing, now, raced);
      && Sound(u)
      && (outcome == Deferred ==>
            && s.mode == Enforce && window.Some? && window.value in u.cohorts
            && var c := u.cohorts[window.value];
               && b.rows[row].enteredAt < window.value
               && c.state == Open && StillSettling(c.members, agents) != {}
               && now < c.deadlineAt
               && u.rows == b.rows[row := b.rows[row].(nextAttempt := Some(c.recheckAt))]
               && c.recheckAt <= c.deadlineAt)
      && (outcome != Deferred ==> u.rows == b.rows)
  {
    hide Defaults, StillSettling;
    if window.Some? && Defaults(s, agents, listing, window.value, now).Some? {
      RecheckWithinBounds(s, agents, listing, window.value, now);
      CreatedFor(s, agents, listing, window.value, now);
    }
  }

  lemma CreatedFor(s: Settings, agents: Agents, listing: seq<AgentId>, window: Instant, now: Instant)
    requires Known(agents, listing) && Defaults(s, agents, listing, window, now).Some?
    ensures var c := Defaults(s, agents, listing, window, now).value;
      c.windowStart == window && c.state == Open && c.members == listing && now < c.deadlineAt
  {
  }

  /**
   * The two entry points agree on a stored cohort: same verdict, same state; only
   * deferral adds its bookkeeping. A raced evaluation agrees exactly when its own
   * snapshot would have frozen a cohort; otherwise the row goes past the barrier.
   */
  lemma EvaluateAgreesWithFinalize(
    s: Settings, b: Board, row: RowId, window: Instant, agents: Agents, listing: seq<AgentId>, now: Instant, raced: bool)
    requires s.mode == Enforce
    requires row in b.rows && Known(agents, listing) && window in b.cohorts && b.rows[row].enteredAt < window
    ensures var (u, verdict) := Evaluate(s, b, row, Some(window), agents, listing, now, raced);
      var (f, finalVerdict) := Finalize(b, window, agents, now);
      && (verdict == finalVerdict <==> !raced || Defaults(s, agents, listing, window, now).Some?)
      && (verdict == finalVerdict ==>
            && u.cohorts[window].(callbackAt := None) == f.cohorts[window].(callbackAt := None)
            && (verdict != Deferred ==> u == f))
      && (verdict != finalVerdict ==> verdict == NotApplicable && u == b)
  {
    hide StillSettling, Defaults;
  }

  /** Losing the race for a window writes what evaluating the winner's row writes, or nothing. */
  lemma RaceKeepsWinner(
    s: Settings, b: Board, row: RowId, window: Instant, agents: Agents, listing: seq<AgentId>, now: Instant)
    requires row in b.rows && Known(agents, listing) && window in b.cohorts
    ensures var lost := Evaluate(s, b, row, Some(window), agents, listing, now, true);
      if Defaults(s, agents, listing, window, now).Some?
      then lost == Evaluate(s, b, row, Some(window), agents, listing, now, false)
      else lost == (b, NotApplicable)
  {
    hide StillSettling, Defaults;
  }

  /** An enforcing evaluation that freezes a new cohort always defers the row it came for. */
  lemma CreationDefers(
    s: Settings, b: Board, row: RowId, window: Instant, agents: Agents, listing: seq<AgentId>, now: Instant, raced: bool)
    requires s.mode == Enforce && row in b.rows && b.rows[row].enteredAt < window
    requires Lists(agents, listing) && window !in b.cohorts
    ensures Evaluate(s, b, row, Some(window), agents, listing, now, raced).1 == Deferred <==>
      Defaults(s, agents, listing, window, now).Some?
  {
    if Defaults(s, agents, listing, window, now).Some? {
      var c := Defaults(s, agents, listing, window, now).value;
      var settling := Stabilizing(agents, listing);
      assert settling[0] in settling;
      assert settling[0] in StillSettling(c.members, agents);
    }
  }

  // ---------------------------------------------------------------- runs

  datatype Event =
    | Evaluated(
        s: Settings, row: RowId, window: Option<Instant>, agents: Agents, listing: seq<AgentId>, now: Instant, raced: bool)
    | Finalized(of: Instant, agents: Agents, now: Instant)
    | Enqueued(row: RowId, at: QueueRow)

  function Next(b: Board, e: Event): Board {
    match e
    case Evaluated(s, row, window, agents, listing, now, raced) =>
      if row in b.rows && Known(agents, listing) then Evaluate(s, b, row, window, agents, listing, now, raced).0 else b
    case Finalized(window, agents, now) => Finalize(b, window, agents, now).0
    case Enqueued(row, at) => b.(rows := b.rows[row := at])
  }

  function Run(b: Board, es: seq<Event>): Board
    decreases |es|
  {
    if es == [] then b else Run(Next(b, es[0]), es[1..])
  }

  /** A frozen cohort keeps its times and members, and a release is for good. */
  ghost predicate Frozen(b: Board, u: Board) {
    forall w :: w in b.cohorts ==>
      && w in u.cohorts
      && u.cohorts[w].(state := b.cohorts[w].state, callbackAt := b.cohorts[w].callbackAt) == b.cohorts[w]
      && (b.cohorts[w].state.Released? ==> u.cohorts[w] == b.cohorts[w])
  }

  lemma StepKeepsFrozen(b: Board, e: Event)
    requires Sound(b)
    ensures Sound(Next(b, e)) && Frozen(b, Next(b, e))
  {
    hide StillSettling, Defaults, Known;
    match e
    case Evaluated(s, row, window, agents, listing, now, raced) =>
      if row in b.rows && Known(agents, listing) {
        DefersOnlyBeforeDeadline(s, b, row, window, agents, listing, now, raced);
      }
    case Finalized(window, agents, now) =>
    case Enqueued(row, at) =>
  }

  lemma {:induction false} ReleaseIsPermanent(b: Board, es: seq<Event>)
    requires Sound(b)
    ensures Sound(Run(b, es)) && Frozen(b, Run(b, es))
    decreases |es|
  {
    hide Next, Sound, Frozen;
    if es == [] {
      FrozenReflexive(b);
    } else {
      StepKeepsFrozen(b, es[0]);
      ReleaseIsPermanent(Next(b, es[0]), es[1..]);
      FrozenTransitive(b, Next(b, es[0]), Run(b, es));
    }
  }

  lemma FrozenReflexive(b: Board)
    ensures Frozen(b, b)
  {
  }

  lemma FrozenTransitive(b: Board, m: Board, u: Board)
    requires Frozen(b, m) && Frozen(m, u)
    ensures Frozen(b, u)
  {
  }

  /** The agents and the clock an event judges cohorts by. */
  function AgentsOf(e: Event): Agents {
    if e.Enqueued? then map[] else e.agents
  }

  /**
   * A release records why and when it happened: by deadline only at or past it
   * with a member still settling, otherwise because nobody was.
   */
  lemma ReleaseRecordsReason(b: Board, e: Event, w: Instant)
    requires w in b.cohorts && b.cohorts[w].state == Open
    requires Next(b, e).cohorts[w].state.Released?
    ensures !e.Enqueued?
    ensures var c := Next(b, e).cohorts[w];
      && c.state.at == e.now
      && (c.state.reason == AllSettled <==> StillSettling(c.members, AgentsOf(e)) == {})
      && (c.state.reason == Deadline ==> c.deadlineAt <= e.now)
  {
    hide StillSettling, Defaults, Known;
  }

  /** Whether an event looks at the cohort of a window at or past its deadline. */
  predicate LooksPast(b: Board, e: Event, window: Instant)
    requires window in b.cohorts
  {
    match e
    case Evaluated(s, row, w, agents, listing, now, raced) =>
      && row in b.rows && Known(agents, listing) && s.mode != Off && w == Some(window)
      && b.rows[row].enteredAt < window && b.cohorts[window].deadlineAt <= now
      && (raced ==> Defaults(s, agents, listing, window, now).Some?)
    case Finalized(w, _, now) => w == window && b.cohorts[window].deadlineAt <= now
    case Enqueued(_, _) => false
  }

  /**
   * The first look at a cohort past its deadline, from either entry point,
   * releases it; from then on, in every run and at any time, no row is
   * deferred for that window again.
   */
  lemma NeverDefersAgain(
    b: Board, e: Event, es: seq<Event>, window: Instant,
    s: Settings, row: RowId, agents: Agents, listing: seq<AgentId>, now: Instant, raced: bool)
    requires Sound(b) && window in b.cohorts && LooksPast(b, e, window)
    requires row in Run(Next(b, e), es).rows && Known(agents, listing)
    ensures Evaluate(s, Run(Next(b, e), es), row, Some(window), agents, listing, now, raced).1
              !in {Deferred, ShadowWouldDefer}
  {
    hide StillSettling, Defaults, Known, Run;
    var m := Next(b, e);
    StepKeepsFrozen(b, e);
    assert m.cohorts[window].state.Released?;
    ReleaseIsPermanent(m, es);
  }

  // ---------------------------------------------------------------- how long a cohort may wait

  function MaximumWait(s: Settings): int {
    (s.stableSeconds + s.heartbeatSeconds) * 1000
  }

  /** The event freezes the cohort of the window. */
  predicate Freezes(b: Board, e: Event, window: Instant) {
    e.Evaluated? && window !in b.cohorts && window in Next(b, e).cohorts
  }

  /** The window has opened, and nobody listed came online in the future; a missing start counts as now. */
  predicate Timely(e: Event) {
    e.Evaluated? && Known(e.agents, e.listing) ==>
      && (e.window.Some? ==> e.window.value <= e.now)
      && forall a :: a in e.listing && e.agents[a].onlineSince.Some? ==> e.agents[a].onlineSince.value <= e.now
  }

  /** Only an evaluation freezes a cohort, with the times its own defaults give it. */
  lemma FreezingIsDefaults(b: Board, e: Event, window: Instant)
    requires window !in b.cohorts && window in Next(b, e).cohorts
    ensures Freezes(b, e, window) && e.window == Some(window) && Known(e.agents, e.listing)
    ensures Defaults(e.s, e.agents, e.listing, window, e.now).Some?
    ensures Next(b, e).cohorts[window].deadlineAt == Defaults(e.s, e.agents, e.listing, window, e.now).value.deadlineAt
    ensures e.listing != []
  {
    hide StillSettling, Defaults, Known;
    DefaultsNeedAgents(e.s, e.agents, e.listing, window, e.now);
  }

  lemma DefaultsNeedAgents(s: Settings, agents: Agents, listing: seq<AgentId>, window: Instant, now: Instant)
    requires Known(agents, listing) && Defaults(s, agents, listing, window, now).Some?
    ensures listing != []
  {
  }

  /** Its members are everyone who could take work then: active, in the automatic rota, identified, with room, ready or settling. */
  lemma FrozenMembers(b: Board, e: Event, window: Instant)
    requires window !in b.cohorts && window in Next(b, e).cohorts
    requires e.Evaluated? ==> Lists(e.agents, e.listing)
    ensures e.Evaluated?
    ensures forall a :: a in Next(b, e).cohorts[window].members <==>
      && a in e.agents && e.agents[a].active && e.agents[a].autoAssign && e.agents[a].hasIdentity && e.agents[a].hasRoom
      && (e.agents[a].eligible || e.agents[a].stabilizing)
  {
    FreezingIsDefaults(b, e, window);
    FreezesIff(e.s, e.agents, e.listing, window, e.now);
    hide StillSettling, Defaults;
  }

  /** A cohort frozen by a timely look waits at most the stability time plus one heartbeat. */
  lemma TimelyCohortIsBounded(b: Board, e: Event, window: Instant)
    requires window !in b.cohorts && window in Next(b, e).cohorts && Timely(e)
    ensures e.Evaluated?
    ensures Next(b, e).cohorts[window].deadlineAt <= e.now + MaximumWait(e.s)
  {
    hide Next, Defaults;
    FreezingIsDefaults(b, e, window);
    DeadlineBoundIff(e.s, e.agents, e.listing, window, e.now);
    assert e.listing[0] in e.listing;
  }

  /** Event `k` of the run froze the window's cohort and gave it no longer than the maximum wait. */
  ghost predicate FrozenInTime(b: Board, es: seq<Event>, window: Instant, k: nat) {
    && k < |es|
    && Freezes(Run(b, es[..k]), es[k], window)
    && window in Run(b, es).cohorts
    && Run(b, es).cohorts[window].deadlineAt <= es[k].now + MaximumWait(es[k].s)
  }

  /**
   * Every cohort of every run was frozen by one look, and its deadline never lies
   * more than the stability time and one heartbeat after that look, provided looks
   * are timely.
   */
  lemma {:induction false} CohortsAreBounded(b: Board, es: seq<Event>, window: Instant)
    requires Sound(b) && window !in b.cohorts && window in Run(b, es).cohorts
    requires forall k :: 0 <= k < |es| ==> Timely(es[k])
    ensures exists k: nat :: FrozenInTime(b, es, window, k)
    decreases |es|
  {
    hide Next, Sound, Freezes, Timely;
    assert es[..0] == [];
    var m := Next(b, es[0]);
    StepKeepsFrozen(b, es[0]);
    if window in m.cohorts {
      FreezingIsDefaults(b, es[0], window);
      TimelyCohortIsBounded(b, es[0], window);
      ReleaseIsPermanent(m, es[1..]);
      assert FrozenInTime(b, es, window, 0);
    } else {
      CohortsAreBounded(m, es[1..], window);
      var k: nat :| FrozenInTime(m, es[1..], window, k);
      assert es[..k + 1][1..] == es[1..][..k] && es[..k + 1][0] == es[0];
      assert FrozenInTime(b, es, window, k + 1);
    }
  }

  /** So no row is deferred later than that after the look that froze its cohort. */
  lemma DefersWithinMaximum(
    b: Board, es: seq<Event>, s: Settings, row: RowId, window: Instant, agents: Agents, listing: seq<AgentId>,
    now: Instant, raced: bool)
    requires Sound(b) && window !in b.cohorts && window in Run(b, es).cohorts
    requires forall k :: 0 <= k < |es| ==> Timely(es[k])
    requires row in Run(b, es).rows && Known(agents, listing)
    requires Evaluate(s, Run(b, es), row, Some(window), agents, listing, now, raced).1 == Deferred
    ensures exists k: nat :: k < |es| && Freezes(Run(b, es[..k]), es[k], window) && now < es[k].now + MaximumWait(es[k].s)
  {
    hide Run, Timely, Freezes, Defaults;
    CohortsAreBounded(b, es, window);
    var k: nat :| FrozenInTime(b, es, window, k);
  }

  // ---------------------------------------------------------------- the tables, written in place

  class CohortTables {
    var cohorts: map<Instant, Cohort>
    var rows: map<RowId, QueueRow>

    ghost function Contents(): Board
      reads this
    {
      Board(cohorts, rows)
    }

    constructor (queue: map<RowId, QueueRow>)
      ensures Contents() == Board(map[], queue)
    {
      cohorts, rows := map[], queue;
    }

    method MarkReleased(window: Instant, reason: Reason, now: Instant)
      requires window in cohorts
      modifies this`cohorts
      ensures cohorts == old(cohorts)[window := ReleaseCohort(old(cohorts)[window], reason, now)]
    {
      cohorts := cohorts[window := cohorts[window].(state := Released(reason, now))];
    }

    method ScheduleRecheck(window: Instant, now: Instant)
      requires window in cohorts
      modifies this`cohorts
      ensures var c := old(cohorts)[window];
        cohorts == old(cohorts)[window := if c.callbackAt.Some? then c else c.(callbackAt := Some(now))]
    {
      if cohorts[window].callbackAt.None? {
        cohorts := cohorts[window := cohorts[window].(callbackAt := Some(now))];
      }
    }

    /** Finalises a cohort: the verdict and the tables are those of `Finalize`. */
    method FinalizeOpeningAssignmentCohort(window: Instant, agents: Agents, now: Instant) returns (outcome: Outcome)
      modifies this`cohorts
      ensures (Contents(), outcome) == Finalize(old(Contents()), window, agents, now)
    {
      if window !in cohorts {
        return NotApplicable;
      }
      assert cohorts == cohorts[window := cohorts[window]];
      if cohorts[window].state.Released? {
        return if cohorts[window].state.reason == Deadline then ReleasedDeadline else ReleasedAllSettled;
      }
      if StillSettling(cohorts[window].members, agents) == {} {
        MarkReleased(window, AllSettled, now);
        return ReleasedAllSettled;
      }
      if now >= cohorts[window].deadlineAt {
        MarkReleased(window, Deadline, now);
        return ReleasedDeadline;
      }
      return Deferred;
    }

    /** Creates or evaluates the cohort before a reservation: the verdict and the tables are those of `Evaluate`. */
    method EvaluateOpeningCohortBarrier(
      s: Settings, row: RowId, window: Option<Instant>, agents: Agents, listing: seq<AgentId>, now: Instant, raced: bool)
      returns (outcome: Outcome)
      requires row in rows && Known(agents, listing)
      modifies this
      ensures (Contents(), outcome) == Evaluate(s, old(Contents()), row, window, agents, listing, now, raced)
    {
      hide Defaults, Known;
      if s.mode == Off || window.None? || rows[row].enteredAt >= window.value {
        return NotApplicable;
      }
      var w := window.value;
      if w !in cohorts || raced {
        var frozen := Defaults(s, agents, listing, w, now);
        if frozen.None? {
          return NotApplicable;
        }
        if w !in cohorts {
          cohorts := cohorts[w := frozen.value];
        }
      }
      assert cohorts == old(cohorts)[w := cohorts[w]];
      if cohorts[w].state.Released? {
        return if cohorts[w].state.reason == Deadline then ReleasedDeadline else ReleasedAllSettled;
      }
      if StillSettling(cohorts[w].members, agents) == {} {
        MarkReleased(w, AllSettled, now);
        assert cohorts == old(cohorts)[w := cohorts[w]];
        return ReleasedAllSettled;
      }
      if now >= cohorts[w].deadlineAt {
        MarkReleased(w, Deadline, now);
        assert cohorts == old(cohorts)[w := cohorts[w]];
        return ReleasedDeadline;
      }
      ScheduleRecheck(w, now);
      assert cohorts == old(cohorts)[w := cohorts[w]];
      if s.mode == Shadow {
        return ShadowWouldDefer;
      }
      if rows[row].nextAttempt != Some(cohorts[w].recheckAt) {
        rows := rows[row := rows[row].(nextAttempt := Some(cohorts[w].recheckAt))];
      } else {
        assert rows == rows[row := rows[row]];
      }
      return Deferred;
    }
  }
}
