/**
 * Availability of one agent: what a heartbeat or an off-hours pass writes,
 * measured against the agent's history of observations, and the audit trail.
 */
module Availability {
  import opened Base

  /** Milliseconds since the epoch. */
  type Instant = int

  datatype Status = Online | Away | OfflineOrBusy
  datatype Remote = Available | RemoteAway | OtherRemote(code: nat)
  datatype Eligibility = Unknown | Ineligible | Eligible

  datatype Reason =
    | NeverObserved
    | IsEligible
    | AgentInactive
    | AutoAssignDisabled
    | MissingIdentity
    | MissingObservation
    | ReportedAway
    | UnknownRemoteStatus
    | ActiveOutOfOffice
    | OutsideWorkingHours
    | Stabilizing
    | MalformedRemoteData

  datatype Settings = Settings(
    strict: bool,
    enforced: bool,
    requiredSamples: nat,
    stableSeconds: nat,
    refreshSeconds: nat)

  /** The availability fields of an agent row. `inactive` is an explicit `is_active = false`. */
  datatype Row = Row(
    status: Status,
    eligibility: Eligibility,
    reason: Reason,
    remote: Remote,
    revision: nat,
    token: nat,
    onlineSince: Option<Instant>,
    samples: nat,
    heartbeatAt: Option<Instant>,
    autoAssign: bool,
    inactive: bool)

  /** One append-only audit entry. */
  datatype Decision = Decision(
    revision: nat,
    oldStatus: Status,
    newStatus: Status,
    remote: Remote,
    eligibility: Eligibility,
    reason: Reason,
    observedAt: Instant,
    token: nat)

  datatype Track = Track(row: Row, audit: seq<Decision>)

  /** What the provider batch holds for the agent. */
  datatype Reading =
    | Missing
    | Malformed(reported: Remote)
    | Observed(hasIdentity: bool, remote: Remote, outOfOffice: bool)

  datatype Verdict = Verdict(eligible: bool, reason: Reason)

  // ---------------------------------------------------------------- the verdict

  function EvaluateSignals(r: Reading, withinHours: bool): Verdict
    requires r.Observed?
  {
    if !r.hasIdentity then Verdict(false, MissingIdentity)
    else if r.remote == RemoteAway then Verdict(false, ReportedAway)
    else if r.remote != Available then Verdict(false, UnknownRemoteStatus)
    else if r.outOfOffice then Verdict(false, ActiveOutOfOffice)
    else if !withinHours then Verdict(false, OutsideWorkingHours)
    else Verdict(true, IsEligible)
  }

  function RemoteOf(r: Reading): Remote {
    match r
    case Missing => OtherRemote(0)
    case Malformed(reported) => reported
    case Observed(_, remote, _) => remote
  }

  /** Whether this observation alone lets the agent work. */
  function Signals(row: Row, r: Reading): Verdict {
    if row.inactive then Verdict(false, AgentInactive)
    else if !row.autoAssign then Verdict(false, AutoAssignDisabled)
    else
      match r
      case Missing => Verdict(false, MissingObservation)
      case Malformed(_) => Verdict(false, MalformedRemoteData)
      case Observed(_, _, _) => EvaluateSignals(r, true)
  }

  /** The stability counter the row carries forward: start and length of the current run. */
  function Extend(row: Row, now: Instant): (Instant, nat) {
    if row.remote == Available && row.onlineSince.Some? then (row.onlineSince.value, row.samples + 1)
    else (now, 1)
  }

  function Stable(s: Settings, since: Instant, samples: nat, now: Instant): bool {
    samples >= s.requiredSamples && now - since >= s.stableSeconds * 1000
  }

  function StateOf(eligible: bool): Eligibility {
    if eligible then Eligible else Ineligible
  }

  /** Raises the revision and appends to the audit when any audited field changes. */
  function Record(
    t: Track, row: Row, status: Status, eligibility: Eligibility, reason: Reason, remote: Remote, now: Instant): Track
  {
    var changed := status != t.row.status || eligibility != t.row.eligibility || reason != t.row.reason
                   || remote != t.row.remote;
    var revision := if changed then t.row.revision + 1 else t.row.revision;
    Track(
      row.(status := status, eligibility := eligibility, reason := reason, remote := remote, revision := revision),
      if changed
      then t.audit + [Decision(revision, t.row.status, status, remote, eligibility, reason, now, row.token)]
      else t.audit)
  }

  /** One agent's share of a heartbeat that holds lease generation `token`. */
  function Heartbeat(s: Settings, t: Track, token: nat, now: Instant, r: Reading): Track {
    if t.row.token > token then t
    else
      var remote := RemoteOf(r);
      var signals := Signals(t.row, r);
      var run := if s.strict then Extend(t.row, now) else (now, 1);
      var verdict :=
        if signals.eligible && s.strict && !Stable(s, run.0, run.1, now) then Verdict(false, Stabilizing) else signals;
      var status :=
        if s.enforced then (if verdict.eligible then Online else Away)
        else (if remote == Available then Online else Away);
      var row := t.row.(
        token := token,
        onlineSince := if signals.eligible then Some(run.0) else None,
        samples := if signals.eligible then run.1 else 0,
        heartbeatAt := Some(now));
      Record(t, row, status, StateOf(verdict.eligible), verdict.reason, remote, now)
  }

  /** One agent's share of an off-hours pass; an unchanged, fresh, clean row is not even written. */
  function OffHours(s: Settings, t: Track, token: nat, now: Instant): Track {
    if t.row.token > token then t
    else
      var changed := t.row.status != Away || t.row.eligibility != Ineligible || t.row.reason != OutsideWorkingHours;
      var refresh := t.row.heartbeatAt.None? || now - t.row.heartbeatAt.value >= s.refreshSeconds * 1000;
      var cleanup := t.row.onlineSince.Some? || t.row.samples != 0;
      if !(changed || refresh || cleanup) then t
      else
        var row := t.row.(token := token, onlineSince := None, samples := 0, heartbeatAt := Some(now));
        Record(t, row, Away, Ineligible, OutsideWorkingHours, t.row.remote, now)
  }

  // ---------------------------------------------------------------- history

  /** `Configure` is an administrator's edit; the other two are what a lease holder does to the agent. */
  datatype Pass =
    | Beat(token: nat, now: Instant, reading: Reading)
    | Veto(token: nat, now: Instant)
    | Configure(autoAssign: bool, inactive: bool)

  /** One applied observation of the agent: when, and whether it passed on its own. */
  datatype Sample = Sample(at: Instant, passed: bool)

  /** The query leaves inactive agents out of both passes. */
  function ApplyPass(s: Settings, t: Track, p: Pass): Track {
    match p
    case Beat(token, now, r) => if t.row.inactive then t else Heartbeat(s, t, token, now, r)
    case Veto(token, now) => if t.row.inactive then t else OffHours(s, t, token, now)
    case Configure(autoAssign, inactive) => t.(row := t.row.(autoAssign := autoAssign, inactive := inactive))
  }

  predicate Applied(t: Track, p: Pass) {
    !p.Configure? && !t.row.inactive && t.row.token <= p.token
  }

  /** The history grows by every pass that is not fenced off. */
  function Observe(t: Track, h: seq<Sample>, p: Pass): seq<Sample> {
    if !Applied(t, p) then h
    else h + [Sample(p.now, p.Beat? && Signals(t.row, p.reading).eligible)]
  }

  function Passes(s: Settings, t: Track, ps: seq<Pass>): Track
    decreases |ps|
  {
    if ps == [] then t else Passes(s, ApplyPass(s, t, ps[0]), ps[1..])
  }

  function History(s: Settings, t: Track, h: seq<Sample>, ps: seq<Pass>): seq<Sample>
    decreases |ps|
  {
    if ps == [] then h else History(s, ApplyPass(s, t, ps[0]), Observe(t, h, ps[0]), ps[1..])
  }

  /** The length of the run of passing observations the history ends with. */
  function RunLength(h: seq<Sample>): (n: nat)
    ensures n <= |h|
  {
    if h == [] || !h[|h| - 1].passed then 0 else 1 + RunLength(h[..|h| - 1])
  }

  /** It is the longest such run: all of it passed, and what came just before it did not. */
  lemma {:induction false} RunIsMaximal(h: seq<Sample>)
    ensures forall i :: |h| - RunLength(h) <= i < |h| ==> h[i].passed
    ensures RunLength(h) < |h| ==> !h[|h| - RunLength(h) - 1].passed
  {
    if h != [] && h[|h| - 1].passed {
      var front := h[..|h| - 1];
      RunIsMaximal(front);
      forall i | |h| - RunLength(h) <= i < |h|
        ensures h[i].passed
      {
        if i < |h| - 1 {
          assert front[i] == h[i];
        }
      }
    }
  }

  /** The stored counter is the run: its length, its start, and nothing when there is none. */
  ghost predicate CountsRun(row: Row, h: seq<Sample>) {
    && row.samples == RunLength(h)
    && (if RunLength(h) == 0 then row.onlineSince == None
        else row.onlineSince == Some(h[|h| - RunLength(h)].at) && row.remote == Available)
  }

  /** Enough observations over enough time, in the history's own terms. */
  ghost predicate LongEnough(s: Settings, h: seq<Sample>) {
    && RunLength(h) > 0
    && RunLength(h) >= s.requiredSamples
    && h[|h| - 1].at - h[|h| - RunLength(h)].at >= s.stableSeconds * 1000
  }

  ghost predicate Faithful(s: Settings, row: Row, h: seq<Sample>) {
    && CountsRun(row, h)
    && (h != [] ==> (row.eligibility == Eligible <==> LongEnough(s, h)))
    && (row.eligibility == Eligible ==> h != [])
  }

  lemma RunGrows(h: seq<Sample>, x: Sample)
    ensures RunLength(h + [x]) == if x.passed then RunLength(h) + 1 else 0
    ensures x.passed ==>
      (h + [x])[|h| + 1 - RunLength(h + [x])].at == if RunLength(h) == 0 then x.at else h[|h| - RunLength(h)].at
  {
    var g := h + [x];
    assert g[..|g| - 1] == h;
  }

  lemma PassKeepsFaith(s: Settings, t: Track, h: seq<Sample>, p: Pass)
    requires s.strict && Faithful(s, t.row, h)
    ensures Faithful(s, ApplyPass(s, t, p).row, Observe(t, h, p))
  {
    hide RunLength;
    if Applied(t, p) {
      RunGrows(h, Sample(p.now, p.Beat? && Signals(t.row, p.reading).eligible));
    }
  }

  /**
   * After every heartbeat and off-hours pass, in any order and with any passes
   * fenced off, the stored sample count and start are those of the trailing
   * run of passing observations, and the agent is eligible exactly when that
   * run is long enough.
   */
  lemma {:induction false} RunKeepsFaith(s: Settings, t: Track, h: seq<Sample>, ps: seq<Pass>)
    requires s.strict && Faithful(s, t.row, h)
    ensures Faithful(s, Passes(s, t, ps).row, History(s, t, h, ps))
    decreases |ps|
  {
    hide Faithful, ApplyPass, Observe;
    if ps != [] {
      PassKeepsFaith(s, t, h, ps[0]);
      RunKeepsFaith(s, ApplyPass(s, t, ps[0]), Observe(t, h, ps[0]), ps[1..]);
    }
  }

  /** The stored start of a run is the time of some pass: never later than the latest of them. */
  lemma {:induction false} OnlineSinceIsPast(s: Settings, t: Track, ps: seq<Pass>, now: Instant)
    requires t.row.onlineSince.Some? ==> t.row.onlineSince.value <= now
    requires forall i :: 0 <= i < |ps| && !ps[i].Configure? ==> ps[i].now <= now
    ensures var since := Passes(s, t, ps).row.onlineSince; since.Some? ==> since.value <= now
    decreases |ps|
  {
    if ps != [] {
      hide Stable, Signals;
      OnlineSinceIsPast(s, ApplyPass(s, t, ps[0]), ps[1..], now);
    }
  }

  /** The stored verdict and status say the same: eligible for the eligible reason, online as the mode defines it. */
  predicate Coherent(s: Settings, row: Row) {
    && (row.eligibility == Eligible <==> row.reason == IsEligible)
    && (s.enforced ==> (row.status == Online <==> row.eligibility == Eligible))
    && (row.status == Online || row.eligibility == Eligible ==> row.remote == Available)
  }

  /** Once any pass has been applied, and in every run from then on, verdict, reason and status agree. */
  lemma {:induction false} RunKeepsCoherent(s: Settings, t: Track, p: Pass, ps: seq<Pass>)
    requires Applied(t, p) && ApplyPass(s, t, p) != t
    ensures Coherent(s, Passes(s, ApplyPass(s, t, p), ps).row)
    decreases |ps|
  {
    hide Extend, Stable, Passes, ApplyPass;
    PassMakesCoherent(s, t, p);
    CoherentStays(s, ApplyPass(s, t, p), ps);
  }

  lemma PassMakesCoherent(s: Settings, t: Track, p: Pass)
    requires Applied(t, p) && ApplyPass(s, t, p) != t
    ensures Coherent(s, ApplyPass(s, t, p).row)
  {
    hide Extend, Stable;
  }

  lemma {:induction false} CoherentStays(s: Settings, t: Track, ps: seq<Pass>)
    requires Coherent(s, t.row)
    ensures Coherent(s, Passes(s, t, ps).row)
    decreases |ps|
  {
    if ps != [] {
      hide Extend, Stable;
      var u := ApplyPass(s, t, ps[0]);
      if u != t && Applied(t, ps[0]) {
        PassMakesCoherent(s, t, ps[0]);
      }
      CoherentStays(s, u, ps[1..]);
    }
  }

  /** The signals of one observation: the first obstacle in this order is the reason. */
  lemma FirstObstacle(r: Reading, withinHours: bool)
    requires r.Observed?
    ensures var v := EvaluateSignals(r, withinHours);
      && (v.reason == MissingIdentity <==> !r.hasIdentity)
      && (v.reason == ReportedAway <==> r.hasIdentity && r.remote.RemoteAway?)
      && (v.reason == UnknownRemoteStatus <==> r.hasIdentity && r.remote.OtherRemote?)
      && (v.reason == ActiveOutOfOffice <==> r.hasIdentity && r.remote.Available? && r.outOfOffice)
      && (v.reason == OutsideWorkingHours <==> r.hasIdentity && r.remote.Available? && !r.outOfOffice && !withinHours)
      && (v.reason == IsEligible <==> r.hasIdentity && r.remote.Available? && !r.outOfOffice && withinHours)
      && (v.eligible <==> v.reason == IsEligible)
  {
  }

  /** The observation has nothing against the agent. */
  predicate Clear(row: Row, r: Reading) {
    row.autoAssign && r.Observed? && r.hasIdentity && r.remote.Available? && !r.outOfOffice
  }

  /**
   * What a heartbeat that is not fenced off leaves on the row, whatever was there before: the first
   * obstacle as the reason, or, with none in the way, whether the run of clear observations is
   * long enough.
   */
  lemma HeartbeatAnswers(s: Settings, t: Track, h: seq<Sample>, token: nat, now: Instant, r: Reading)
    requires !t.row.inactive && t.row.token <= token
    requires s.strict ==> Faithful(s, t.row, h)
    ensures var row := ApplyPass(s, t, Beat(token, now, r)).row;
      var settled := !s.strict || LongEnough(s, h + [Sample(now, true)]);
      && (row.reason == AutoAssignDisabled <==> !t.row.autoAssign)
      && (row.reason == MissingObservation <==> t.row.autoAssign && r.Missing?)
      && (row.reason == MalformedRemoteData <==> t.row.autoAssign && r.Malformed?)
      && (row.reason == MissingIdentity <==> t.row.autoAssign && r.Observed? && !r.hasIdentity)
      && (row.reason == ReportedAway <==> t.row.autoAssign && r.Observed? && r.hasIdentity && r.remote.RemoteAway?)
      && (row.reason == UnknownRemoteStatus <==> t.row.autoAssign && r.Observed? && r.hasIdentity && r.remote.OtherRemote?)
      && (row.reason == ActiveOutOfOffice <==>
            t.row.autoAssign && r.Observed? && r.hasIdentity && r.remote.Available? && r.outOfOffice)
      && (row.reason == Stabilizing <==> Clear(t.row, r) && !settled)
      && (row.reason == IsEligible <==> Clear(t.row, r) && settled)
      && row.eligibility == (if Clear(t.row, r) && settled then Eligible else Ineligible)
  {
    hide RunLength, LongEnough, Extend, Stable;
    StableMeansLongEnough(s, t.row, h, now);
  }

  /** The counter carried forward says whether the run, this observation included, is long enough. */
  lemma StableMeansLongEnough(s: Settings, row: Row, h: seq<Sample>, now: Instant)
    requires s.strict ==> CountsRun(row, h)
    ensures var run := Extend(row, now);
      s.strict ==> (Stable(s, run.0, run.1, now) <==> LongEnough(s, h + [Sample(now, true)]))
  {
    hide RunLength;
    RunGrows(h, Sample(now, true));
  }

  /** The rest of the row: the reported status, the mode's own status, and the marks of the pass. */
  lemma HeartbeatMarks(s: Settings, t: Track, token: nat, now: Instant, r: Reading)
    requires !t.row.inactive && t.row.token <= token
    ensures var row := ApplyPass(s, t, Beat(token, now, r)).row;
      && row.remote == (if r.Missing? then OtherRemote(0) else if r.Malformed? then r.reported else r.remote)
      && (row.status == Online <==> if s.enforced then row.eligibility == Eligible else row.remote.Available?)
      && (row.status != Online ==> row.status == Away)
      && row.heartbeatAt == Some(now) && row.token == token
      && (row.onlineSince.Some? <==> Clear(t.row, r)) && (row.samples > 0 <==> Clear(t.row, r))
      && (Clear(t.row, r) && !s.strict ==> row.onlineSince == Some(now) && row.samples == 1)
      && row.autoAssign == t.row.autoAssign && !row.inactive
  {
    hide Stable;
  }

  /** An off-hours pass leaves the agent away, out of hours and without a run, with a heartbeat no older than the refresh. */
  lemma OffHoursAnswers(s: Settings, t: Track, token: nat, now: Instant)
    requires !t.row.inactive && t.row.token <= token
    ensures var row := ApplyPass(s, t, Veto(token, now)).row;
      && row.status == Away && row.eligibility == Ineligible && row.reason == OutsideWorkingHours
      && row.onlineSince.None? && row.samples == 0
      && row.remote == t.row.remote && row.autoAssign == t.row.autoAssign && !row.inactive
      && row.heartbeatAt.Some?
      && (row == t.row || (row.heartbeatAt == Some(now) && row.token == token))
      && (row == t.row ==> row.heartbeatAt == Some(now) || now - row.heartbeatAt.value < s.refreshSeconds * 1000)
      && ((t.row.status == Away && t.row.eligibility == Ineligible && t.row.reason == OutsideWorkingHours
           && t.row.onlineSince.None? && t.row.samples == 0
           && t.row.heartbeatAt.Some? && now - t.row.heartbeatAt.value < s.refreshSeconds * 1000)
          ==> row == t.row)
  {
  }

  /** A pass adds one entry exactly when it changes what is audited, and the entry tells both sides and the time. */
  lemma PassRecords(s: Settings, t: Track, p: Pass)
    requires !p.Configure?
    ensures var u := ApplyPass(s, t, p);
      var same := u.row.status == t.row.status && u.row.eligibility == t.row.eligibility && u.row.reason == t.row.reason
                  && u.row.remote == t.row.remote;
      if same then u.audit == t.audit && u.row.revision == t.row.revision
      else
        && u.row.revision == t.row.revision + 1
        && u.audit == t.audit + [Decision(
                                   u.row.revision, t.row.status, u.row.status, u.row.remote, u.row.eligibility,
                                   u.row.reason, p.now, p.token)]
  {
    hide Signals, Extend, Stable;
  }

  // ---------------------------------------------------------------- the audit trail

  predicate AgreesWith(d: Decision, row: Row) {
    d.newStatus == row.status && d.eligibility == row.eligibility && d.reason == row.reason && d.remote == row.remote
    && d.revision == row.revision
  }

  /** Revisions are contiguous, each entry starts where the last ended, and the newest is the row itself. */
  ghost predicate Audited(t: Track) {
    && (forall i :: 0 <= i < |t.audit| - 1 ==> t.audit[i + 1].revision == t.audit[i].revision + 1)
    && (forall i :: 0 <= i < |t.audit| - 1 ==> t.audit[i + 1].oldStatus == t.audit[i].newStatus)
    && (t.audit != [] ==> AgreesWith(t.audit[|t.audit| - 1], t.row))
  }

  lemma RecordKeepsAudit(
    t: Track, row: Row, status: Status, eligibility: Eligibility, reason: Reason, remote: Remote, now: Instant)
    requires Audited(t)
    ensures var u := Record(t, row, status, eligibility, reason, remote, now);
      Audited(u) && t.audit <= u.audit && u.row.revision == t.row.revision + |u.audit| - |t.audit|
  {
    var u := Record(t, row, status, eligibility, reason, remote, now);
    if u.audit != t.audit {
      forall i | 0 <= i < |u.audit| - 1
        ensures u.audit[i + 1].revision == u.audit[i].revision + 1 && u.audit[i + 1].oldStatus == u.audit[i].newStatus
      {
        assert u.audit[i] == t.audit[i];
      }
    }
  }

  lemma AuditIgnoresSettings(t: Track, u: Track)
    requires Audited(t) && t.audit == u.audit
    requires u.row == t.row.(autoAssign := u.row.autoAssign, inactive := u.row.inactive)
    ensures Audited(u)
  {
  }

  lemma PassKeepsAudit(s: Settings, t: Track, p: Pass)
    requires Audited(t)
    ensures var u := ApplyPass(s, t, p);
      Audited(u) && t.audit <= u.audit && u.row.revision == t.row.revision + |u.audit| - |t.audit|
  {
    hide Record, Audited, Signals, Extend, Stable;
    if p.Configure? {
      AuditIgnoresSettings(t, ApplyPass(s, t, p));
    } else if Applied(t, p) {
      match p
      case Beat(token, now, r) =>
        var u := Heartbeat(s, t, token, now, r);
        var signals := Signals(t.row, r);
        var run := if s.strict then Extend(t.row, now) else (now, 1);
        var verdict :=
          if signals.eligible && s.strict && !Stable(s, run.0, run.1, now) then Verdict(false, Stabilizing) else signals;
        var row := t.row.(
          token := token,
          onlineSince := if signals.eligible then Some(run.0) else None,
          samples := if signals.eligible then run.1 else 0,
          heartbeatAt := Some(now));
        var status :=
          if s.enforced then (if verdict.eligible then Online else Away)
          else (if RemoteOf(r) == Available then Online else Away);
        RecordKeepsAudit(t, row, status, StateOf(verdict.eligible), verdict.reason, RemoteOf(r), now);
      case Veto(token, now) =>
        var row := t.row.(token := token, onlineSince := None, samples := 0, heartbeatAt := Some(now));
        RecordKeepsAudit(t, row, Away, Ineligible, OutsideWorkingHours, t.row.remote, now);
    }
  }

  /** The audit only grows, its revisions stay contiguous, and its last entry is always the current decision. */
  lemma {:induction false} RunKeepsAudit(s: Settings, t: Track, ps: seq<Pass>)
    requires Audited(t)
    ensures var u := Passes(s, t, ps);
      Audited(u) && t.audit <= u.audit && u.row.revision == t.row.revision + |u.audit| - |t.audit|
    decreases |ps|
  {
    hide Audited, ApplyPass;
    if ps != [] {
      PassKeepsAudit(s, t, ps[0]);
      RunKeepsAudit(s, ApplyPass(s, t, ps[0]), ps[1..]);
    }
  }

  /** An agent's fencing token never goes back, even when an expired lease holder resumes. */
  lemma {:induction false} TokenNeverDecreases(s: Settings, t: Track, ps: seq<Pass>)
    ensures t.row.token <= Passes(s, t, ps).row.token
    decreases |ps|
  {
    if ps != [] {
      TokenNeverDecreases(s, ApplyPass(s, t, ps[0]), ps[1..]);
    }
  }

  /** A pass under an older generation than the row has seen changes nothing at all. */
  lemma StalePassIsFenced(s: Settings, t: Track, p: Pass)
    requires !p.Configure?
    ensures p.token < t.row.token ==> ApplyPass(s, t, p) == t
    ensures ApplyPass(s, t, p) != t ==> ApplyPass(s, t, p).row.token == p.token
  {
  }
}
