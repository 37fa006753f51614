/**
 The portfolio scan of apps/support/owner_reconciliation_service.py: observe every
 ticket of one agent while other transactions run, and mark the agent ready only
 if its generation number is start plus the scan's own bumps.
 */
module PortfolioScan {
  import opened Base
  import opened CapacityLedger
  import opened LedgerChanges
  import opened AssignmentProtocol
  import opened AssignmentInvariants
  import opened AssignmentSteps
  import opened AssignmentSafety
  import opened ObservationFreshness

  /** One turn of the interleaving: the scan's own observation, or anybody else's transaction. */
  datatype Turn = Own(observation: Observation) | Foreign(act: Act)

  function ActOf(turn: Turn): Act {
    if turn.Own? then ObserveAct(turn.observation) else turn.act
  }

  function RunTurns(w: World, turns: seq<Turn>): World
    decreases |turns|
  {
    if turns == [] then w else Next(RunTurns(w, turns[..|turns| - 1]), ActOf(turns[|turns| - 1]))
  }

  function Generation(w: World, a: AgentId): nat {
    if a in w.ledger.agents then w.ledger.agents[a].revision else 0
  }

  /** The scan counts one bump for each of its observations that re-projects the agent. */
  function OwnBump(w: World, a: AgentId, o: Observation): nat {
    var l := EnsureRow(w.ledger, o.ticket);
    if Lands(w, o) && a in Affected(l, o.ticket, o.snap, w.cfg.dir, o.captured + AssignedAgents(w, o)) then 1 else 0
  }

  /** The observation does not abort the scan: it lands, or records a close that awaits its time. */
  predicate Passes(w: World, o: Observation) {
    Lands(w, o) || (w.cfg.enforce && Picks(w, o) && ClassifyObservation(w, o) == PendingClose)
  }

  /** The `revision_tracker` entry of the scanned agent. */
  function Tracker(w: World, a: AgentId, turns: seq<Turn>): nat
    decreases |turns|
  {
    if turns == [] then Generation(w, a)
    else
      var front := turns[..|turns| - 1];
      var last := turns[|turns| - 1];
      Tracker(w, a, front) + if last.Own? then OwnBump(RunTurns(w, front), a, last.observation) else 0
  }

  /** The world in which turn `i` starts. */
  function Before(w: World, turns: seq<Turn>, i: nat): World
    requires i <= |turns|
  {
    RunTurns(w, turns[..i])
  }

  /** A rejected observation aborts the scan, so every own turn of a finished scan passed. */
  ghost predicate OwnTurnsPass(w: World, turns: seq<Turn>) {
    forall i | 0 <= i < |turns| && turns[i].Own? :: Passes(Before(w, turns, i), turns[i].observation)
  }

  /** A foreign turn that left the agent's generation, union and standing alone. */
  ghost predicate Undisturbed(w: World, turns: seq<Turn>, i: nat, a: AgentId)
    requires i < |turns|
  {
    var before := Before(w, turns, i);
    var after := Next(before, ActOf(turns[i]));
    && Generation(after, a) == Generation(before, a)
    && CapacitySet(after.ledger, a) == CapacitySet(before.ledger, a)
    && (a in before.ledger.agents && a in after.ledger.agents && after.ledger.agents[a].readiness == Degraded ==>
          before.ledger.agents[a].readiness == Degraded)
  }

  lemma PendingMakesRow(w: World, o: Observation)
    requires w.cfg.enforce
    ensures Picks(w, o) && ClassifyObservation(w, o) == PendingClose ==>
              ChangeOf(w, ObserveAct(o)) == RowCreated(o.ticket) && !Lands(w, o)
  {
  }

  /** Any enforcing transaction keeps the agent's generation promise. */
  lemma StepGeneration(w: World, act: Act, a: AgentId)
    requires Linked(w) && w.cfg.enforce && a in w.ledger.agents
    ensures a in Next(w, act).ledger.agents
    ensures Generations(w.ledger, Next(w, act).ledger, a)
    ensures act.ObserveAct? && Passes(w, act.observation) ==>
              Generation(Next(w, act), a) == Generation(w, a) + OwnBump(w, a, act.observation)
  {
    var ch := ChangeOf(w, act);
    var m := ApplyChange(w.ledger, ch, w.cfg.dir);
    StepIsAChange(w, act);
    if act.ObserveAct? {
      ObserveMoves(w, act.observation);
      PendingMakesRow(w, act.observation);
    }
    hide Next, Linked, ChangeOf, ApplyChange, CapacitySet, Lands, Affected, AssignedAgents, ClassifyObservation, Picks;
    ChangeBumpsGeneration(w.ledger, ch, w.cfg.dir, a);
    SameCoreSameUnion(m, Next(w, act).ledger, a);
  }

  /** Runs keep the world linked, enforcing, and the agent known. */
  lemma {:induction false} TurnsKeepLinks(w: World, turns: seq<Turn>, a: AgentId)
    requires Linked(w) && w.cfg.enforce && a in w.ledger.agents
    ensures Linked(RunTurns(w, turns)) && RunTurns(w, turns).cfg.enforce && a in RunTurns(w, turns).ledger.agents
    decreases |turns|
  {
    if turns != [] {
      var front := turns[..|turns| - 1];
      TurnsKeepLinks(w, front, a);
      hide Next, Linked;
      StepKeepsLinks(RunTurns(w, front), ActOf(turns[|turns| - 1]));
      StepKeepsConfig(RunTurns(w, front), ActOf(turns[|turns| - 1]));
      StepGeneration(RunTurns(w, front), ActOf(turns[|turns| - 1]), a);
    }
  }

  lemma FrontPasses(w: World, turns: seq<Turn>)
    requires turns != [] && OwnTurnsPass(w, turns)
    ensures OwnTurnsPass(w, turns[..|turns| - 1])
    ensures turns[|turns| - 1].Own? ==>
              Passes(RunTurns(w, turns[..|turns| - 1]), turns[|turns| - 1].observation)
  {
    var front := turns[..|turns| - 1];
    forall i | 0 <= i < |front| && front[i].Own?
      ensures Passes(Before(w, front, i), front[i].observation)
    {
      assert front[..i] == turns[..i];
    }
  }

  /** Turn `i` is the scan's own, or did not move the agent's generation. */
  ghost predicate Quiet(w: World, turns: seq<Turn>, i: nat, a: AgentId)
    requires i < |turns|
  {
    turns[i].Foreign? ==> Generation(Next(Before(w, turns, i), turns[i].act), a) == Generation(Before(w, turns, i), a)
  }

  ghost predicate AllQuiet(w: World, turns: seq<Turn>, a: AgentId) {
    forall i | 0 <= i < |turns| :: Quiet(w, turns, i, a)
  }

  lemma QuietPrefix(w: World, turns: seq<Turn>, n: nat, i: nat, a: AgentId)
    requires i < n <= |turns|
    ensures Quiet(w, turns[..n], i, a) <==> Quiet(w, turns, i, a)
  {
    assert turns[..n][..i] == turns[..i];
  }

  lemma QuietLast(w: World, turns: seq<Turn>, a: AgentId)
    requires turns != []
    ensures var n := |turns| - 1;
            var v := RunTurns(w, turns[..n]);
            Quiet(w, turns, n, a) <==>
            (turns[n].Foreign? ==> Generation(Next(v, turns[n].act), a) == Generation(v, a))
  {
    hide Next, RunTurns, Generation;
  }

  lemma QuietSplit(w: World, turns: seq<Turn>, a: AgentId)
    requires turns != []
    ensures AllQuiet(w, turns, a) <==> AllQuiet(w, turns[..|turns| - 1], a) && Quiet(w, turns, |turns| - 1, a)
  {
    hide Next, RunTurns, Generation, Quiet;
    var n := |turns| - 1;
    var front := turns[..n];
    forall i | 0 <= i < n
      ensures Quiet(w, front, i, a) <==> Quiet(w, turns, i, a)
    {
      QuietPrefix(w, turns, n, i, a);
    }
    if AllQuiet(w, front, a) && Quiet(w, turns, n, a) {
      forall i | 0 <= i < |turns|
        ensures Quiet(w, turns, i, a)
      {
        assert i < n ==> Quiet(w, front, i, a);
      }
    }
    if AllQuiet(w, turns, a) {
      assert forall i | 0 <= i < |front| :: Quiet(w, turns, i, a);
    }
  }

  lemma QuietFront(w: World, turns: seq<Turn>, a: AgentId)
    requires turns != []
    ensures var n := |turns| - 1;
            var v := RunTurns(w, turns[..n]);
            AllQuiet(w, turns, a) <==>
            AllQuiet(w, turns[..n], a)
            && (turns[n].Foreign? ==> Generation(Next(v, turns[n].act), a) == Generation(v, a))
  {
    hide Next, RunTurns, Generation, Quiet, AllQuiet;
    QuietSplit(w, turns, a);
    QuietLast(w, turns, a);
  }

  /** The tracker never overtakes the stored generation. */
  lemma {:induction false} TrackerBehind(w: World, a: AgentId, turns: seq<Turn>)
    requires Linked(w) && w.cfg.enforce && a in w.ledger.agents && OwnTurnsPass(w, turns)
    ensures Tracker(w, a, turns) <= Generation(RunTurns(w, turns), a)
    decreases |turns|
  {
    if turns != [] {
      var front := turns[..|turns| - 1];
      FrontPasses(w, turns);
      TrackerBehind(w, a, front);
      TurnsKeepLinks(w, front, a);
      hide Next, Linked, Passes, OwnBump;
      StepGeneration(RunTurns(w, front), ActOf(turns[|turns| - 1]), a);
    }
  }

  /**
   The generation check: a scan whose own observations all landed finds the
   stored generation equal to its tracker exactly when no other transaction
   between its start and the mark moved the agent's generation.
   */
  lemma {:induction false} TrackerMatchesIff(w: World, a: AgentId, turns: seq<Turn>)
    requires Linked(w) && w.cfg.enforce && a in w.ledger.agents && OwnTurnsPass(w, turns)
    ensures Generation(RunTurns(w, turns), a) == Tracker(w, a, turns) <==> AllQuiet(w, turns, a)
    decreases |turns|
  {
    if turns != [] {
      var n := |turns| - 1;
      var front := turns[..n];
      var v := RunTurns(w, front);
      FrontPasses(w, turns);
      TrackerMatchesIff(w, a, front);
      TrackerBehind(w, a, front);
      TurnsKeepLinks(w, front, a);
      hide Next, Linked, Passes, OwnBump, OwnTurnsPass, AllQuiet;
      StepGeneration(v, ActOf(turns[n]), a);
      QuietFront(w, turns, a);
    }
  }

  /**
   If the check passes, no other actor changed the agent's occupied or held
   tickets, and none degraded it, at any point of the scan.
   */
  lemma MatchMeansUndisturbed(w: World, a: AgentId, turns: seq<Turn>, i: nat)
    requires Linked(w) && w.cfg.enforce && a in w.ledger.agents && OwnTurnsPass(w, turns)
    requires Generation(RunTurns(w, turns), a) == Tracker(w, a, turns)
    requires i < |turns| && turns[i].Foreign?
    ensures Undisturbed(w, turns, i, a)
  {
    TrackerMatchesIff(w, a, turns);
    assert Quiet(w, turns, i, a);
    TurnsKeepLinks(w, turns[..i], a);
    hide Next, Linked;
    StepGeneration(Before(w, turns, i), turns[i].act, a);
  }

  /** Degrading an agent always moves its generation, so a passing scan saw none. */
  lemma DegradeMovesGeneration(w: World, ids: set<AgentId>, a: AgentId)
    requires a in w.ledger.agents && a in ids
    ensures Generation(Next(w, DegradeAct(ids)), a) == Generation(w, a) + 1
  {
  }

  // ----- the scan loop ----------------------------------------------------

  /** Which tickets are read: all critical ones, then backlog up to the limit. */
  function Identities(critical: seq<TicketId>, backlog: seq<TicketId>, limit: nat): seq<TicketId>
    requires |critical| <= limit
  {
    critical + backlog[..Min(|backlog|, limit - |critical|)]
  }

  function TicketsOf(turns: seq<Turn>): set<TicketId> {
    set i | 0 <= i < |turns| && turns[i].Own? :: turns[i].observation.ticket
  }

  /** What others commit, as turns of a scan. */
  function Foreigns(acts: seq<Act>): (turns: seq<Turn>)
    ensures |turns| == |acts| && forall k | 0 <= k < |acts| :: turns[k] == Foreign(acts[k])
  {
    seq(|acts|, k requires 0 <= k < |acts| => Foreign(acts[k]))
  }

  lemma {:induction false} RunAppends(w: World, turns: seq<Turn>, more: seq<Turn>)
    ensures RunTurns(w, turns + more) == RunTurns(RunTurns(w, turns), more)
    decreases |more|
  {
    if more == [] {
      assert turns + more == turns;
    } else {
      var n := |more| - 1;
      assert (turns + more)[..|turns| + n] == turns + more[..n];
      RunAppends(w, turns, more[..n]);
    }
  }

  lemma {:induction false} ForeignKeepTracker(w: World, a: AgentId, turns: seq<Turn>, acts: seq<Act>)
    ensures var all := turns + Foreigns(acts);
            && Tracker(w, a, all) == Tracker(w, a, turns)
            && RunTurns(w, all) == Run(RunTurns(w, turns), acts)
            && (OwnTurnsPass(w, turns) ==> OwnTurnsPass(w, all))
            && TicketsOf(all) == TicketsOf(turns)
    decreases |acts|
  {
    var all := turns + Foreigns(acts);
    if acts == [] {
      assert all == turns;
    } else {
      var n := |acts| - 1;
      ForeignKeepTracker(w, a, turns, acts[..n]);
      var front := turns + Foreigns(acts[..n]);
      assert all[..|turns| + n] == front;
      assert all == front + [Foreign(acts[n])];
      hide Next;
      AppendForeign(w, front, acts[n]);
    }
  }

  lemma AppendForeign(w: World, turns: seq<Turn>, act: Act)
    ensures var all := turns + [Foreign(act)];
            && (OwnTurnsPass(w, turns) ==> OwnTurnsPass(w, all))
            && TicketsOf(all) == TicketsOf(turns)
  {
    var all := turns + [Foreign(act)];
    assert forall i | 0 <= i < |turns| :: all[i] == turns[i] && all[..i] == turns[..i];
  }

  lemma AppendOwn(w: World, a: AgentId, turns: seq<Turn>, o: Observation)
    requires OwnTurnsPass(w, turns) && Passes(RunTurns(w, turns), o)
    ensures var all := turns + [Own(o)];
            && OwnTurnsPass(w, all)
            && TicketsOf(all) == TicketsOf(turns) + {o.ticket}
            && RunTurns(w, all) == Next(RunTurns(w, turns), ObserveAct(o))
            && Tracker(w, a, all) == Tracker(w, a, turns) + OwnBump(RunTurns(w, turns), a, o)
  {
    var all := turns + [Own(o)];
    assert all[..|turns|] == turns;
    assert forall i | 0 <= i < |turns| :: all[i] == turns[i] && all[..i] == turns[..i];
    hide Next, Passes, OwnBump;
    forall t | t in TicketsOf(turns) + {o.ticket}
      ensures t in TicketsOf(all)
    {
      if t in TicketsOf(turns) {
        var i :| 0 <= i < |turns| && turns[i].Own? && turns[i].observation.ticket == t;
        assert all[i].observation.ticket == t;
      } else {
        assert all[|turns|].observation.ticket == t;
      }
    }
  }

  lemma ActKeepsAgent(w: World, act: Act, a: AgentId)
    requires Linked(w) && w.cfg.enforce && a in w.ledger.agents
    ensures Linked(Next(w, act)) && Next(w, act).cfg.enforce && a in Next(w, act).ledger.agents
  {
    StepKeepsLinks(w, act);
    StepKeepsConfig(w, act);
    hide Next, Linked;
    StepGeneration(w, act, a);
  }

  lemma {:induction false} RunKeepsAgent(w: World, acts: seq<Act>, a: AgentId)
    requires Linked(w) && w.cfg.enforce && a in w.ledger.agents
    ensures Linked(Run(w, acts)) && Run(w, acts).cfg.enforce && a in Run(w, acts).ledger.agents
    decreases |acts|
  {
    if acts != [] {
      hide Next, Linked;
      RunKeepsAgent(w, acts[..|acts| - 1], a);
      ActKeepsAgent(Run(w, acts[..|acts| - 1]), acts[|acts| - 1], a);
    }
  }

  lemma NothingScanned(ids: seq<TicketId>, s: Script)
    requires WellScripted(s, |ids|)
    ensures ScanTurns(ids, s, 0) == []
  {
  }

  lemma NextScanned(ids: seq<TicketId>, s: Script, n: nat)
    requires WellScripted(s, |ids|) && n < |ids|
    ensures ScanTurns(ids, s, n + 1)
            == ScanTurns(ids, s, n) + Foreigns(s.interference[n]) + [Own(s.replies[n].(ticket := ids[n]))]
  {
  }

  lemma StartOfScan(w: World, a: AgentId)
    ensures OwnTurnsPass(w, []) && RunTurns(w, []) == w && Tracker(w, a, []) == Generation(w, a)
  {
  }

  lemma MarkOrDegrade(w: World, a: AgentId)
    requires a in w.ledger.agents
    ensures var m := Next(w, ReadyAct(a)).ledger.agents; a in m && m[a].readiness == Ready
    ensures var m := Next(w, DegradeAct({a})).ledger.agents; a in m && m[a].readiness == Degraded
  {
  }

  /**
   What the outside world answers during one scan, and what others commit: before each
   observation, before each of the two closing queries, and before the mark.
   */
  datatype Script = Script(
    complete: bool,
    timely: seq<bool>,
    replies: seq<Observation>,
    interference: seq<seq<Act>>,
    late: seq<Act>,
    later: seq<Act>,
    last: seq<Act>)

  predicate WellScripted(s: Script, n: nat) {
    |s.timely| == n && |s.replies| == n && |s.interference| == n
  }

  /** The turns of a scan of the tickets that has applied its first `n` reads. */
  function ScanTurns(ids: seq<TicketId>, s: Script, n: nat): seq<Turn>
    requires WellScripted(s, |ids|) && n <= |ids|
  {
    if n == 0 then []
    else ScanTurns(ids, s, n - 1) + Foreigns(s.interference[n - 1]) + [Own(s.replies[n - 1].(ticket := ids[n - 1]))]
  }

  /** Read `n` is made in time, and lands or records a close that awaits its time. */
  ghost predicate ReadPasses(start: World, ids: seq<TicketId>, s: Script, n: nat)
    requires WellScripted(s, |ids|) && n < |ids|
  {
    && s.timely[n]
    && Passes(RunTurns(start, ScanTurns(ids, s, n) + Foreigns(s.interference[n])), s.replies[n].(ticket := ids[n]))
  }

  /** After these turns nothing about the agent is open: no unclassified attempt, then no ambiguous hold, then no foreign change. */
  ghost predicate ClosesClean(start: World, a: AgentId, turns: seq<Turn>, s: Script) {
    && !Unclassified(RunTurns(start, turns + Foreigns(s.late)), a)
    && !Ambiguous(RunTurns(start, turns + Foreigns(s.late) + Foreigns(s.later)), a)
    && AllQuiet(start, turns + Foreigns(s.late) + Foreigns(s.later) + Foreigns(s.last), a)
  }

  /**
   The whole portfolio was listed and fits the limit, every ticket of it was read in time,
   and the close of the scan found nothing open and nobody else's hand on the agent.
   */
  ghost predicate ScanIsClean(start: World, a: AgentId, critical: seq<TicketId>, backlog: seq<TicketId>, limit: nat, s: Script)
    requires |critical| <= limit ==> WellScripted(s, |Identities(critical, backlog, limit)|)
  {
    && s.complete && |critical| + |backlog| <= limit
    && (forall n: nat | n < |critical + backlog| :: ReadPasses(start, critical + backlog, s, n))
    && ClosesClean(start, a, ScanTurns(critical + backlog, s, |critical + backlog|), s)
  }

  /** An unfinished attempt of the agent has no reservation row to tell what it holds. */
  predicate Unclassified(w: World, a: AgentId) {
    exists id | id in w.attempts ::
      && w.attempts[id].agent == a
      && w.attempts[id].state !in {Completed, Compensated}
      && ForAttempt(id) !in w.ledger.reservations
  }

  /** A held reservation of the agent waits for readback: a transfer's, or a repair's. */
  predicate Ambiguous(w: World, a: AgentId) {
    exists op | op in w.ledger.reservations ::
      && w.ledger.reservations[op].agent == a
      && w.ledger.reservations[op].state == Held
      && (op.ForTransfer? || (op.attempt in w.attempts && w.attempts[op.attempt].state == RepairRequired))
  }

  /** Nothing the closing queries look for is there. */
  lemma NothingOpen(w: World, a: AgentId)
    ensures !Unclassified(w, a) <==>
              forall id | id in w.attempts && w.attempts[id].agent == a ::
                w.attempts[id].state == Completed || w.attempts[id].state == Compensated || ForAttempt(id) in w.ledger.reservations
    ensures !Ambiguous(w, a) <==>
              forall op | op in w.ledger.reservations && w.ledger.reservations[op] == Reservation(w.ledger.reservations[op].ticket, a, Held) ::
                op.ForAttempt? && (op.attempt in w.attempts ==> w.attempts[op.attempt].state != RepairRequired)
  {
  }

  /** Others commit; the scan's own turns and its tracker are as before. */
  method LetOthersCommit(ghost start: World, a: AgentId, w: World, ghost turns: seq<Turn>, acts: seq<Act>)
    returns (v: World, ghost all: seq<Turn>)
    requires Linked(w) && w.cfg.enforce && a in w.ledger.agents
    requires OwnTurnsPass(start, turns) && w == RunTurns(start, turns)
    ensures Linked(v) && v.cfg.enforce && a in v.ledger.agents
    ensures OwnTurnsPass(start, all) && v == RunTurns(start, all) && v == Run(w, acts)
    ensures Tracker(start, a, all) == Tracker(start, a, turns) && TicketsOf(all) == TicketsOf(turns)
    ensures all == turns + Foreigns(acts)
  {
    hide Next, Linked, OwnTurnsPass, TicketsOf, Tracker, RunTurns, Run;
    RunKeepsAgent(w, acts, a);
    ForeignKeepTracker(start, a, turns, acts);
    v, all := Run(w, acts), turns + Foreigns(acts);
  }

  /** After the last observation: the closing queries, then the generation check. */
  method CloseScan(
    ghost start: World, a: AgentId, w: World, ghost turns: seq<Turn>, tracker: nat, s: Script)
    returns (v: World, clean: bool, ghost all: seq<Turn>, ghost i: nat, ghost j: nat)
    requires Linked(w) && w.cfg.enforce && a in w.ledger.agents
    requires OwnTurnsPass(start, turns) && w == RunTurns(start, turns) && tracker == Tracker(start, a, turns)
    ensures Linked(v) && a in v.ledger.agents
    ensures turns <= all && |turns| <= i <= j <= |all| && forall k | |turns| <= k < |all| :: all[k].Foreign?
    ensures OwnTurnsPass(start, all) && v == RunTurns(start, all) && TicketsOf(all) == TicketsOf(turns)
    ensures clean ==>
              && !Unclassified(Before(start, all, i), a)
              && !Ambiguous(Before(start, all, j), a)
              && Generation(v, a) == Tracker(start, a, all)
    ensures Linked(start) && start.cfg.enforce && a in start.ledger.agents ==> (clean <==> ClosesClean(start, a, turns, s))
  {
    hide Next, Linked, OwnTurnsPass, TicketsOf, Tracker, RunTurns, Run, Unclassified, Ambiguous, AllQuiet;
    v, all := LetOthersCommit(start, a, w, turns, s.late);
    i, j, clean := |all|, |all|, !Unclassified(v, a);
    ghost var first, atFirst := all, v;
    if clean {
      v, all := LetOthersCommit(start, a, v, all, s.later);
      j, clean := |all|, !Ambiguous(v, a);
      ghost var second, atSecond := all, v;
      if clean {
        v, all := LetOthersCommit(start, a, v, all, s.last);
        clean := v.ledger.agents[a].revision == tracker;
        assert all[..j] == second;
        if Linked(start) && start.cfg.enforce && a in start.ledger.agents {
          TrackerMatchesIff(start, a, all);
        }
      }
      assert all[..i] == first;
    }
  }

  /**
   Refresh one agent. `interference[i]` is what other actors commit before the
   scan's i-th observation is applied. A successful scan has observed the whole
   portfolio, found no unclassified attempt and no ambiguous hold afterwards, and
   nothing else touched the agent until it was marked; a failed one degrades it. A
   scan succeeds exactly when it is clean.
   */
  method RefreshAgentCapacity(
    start: World, a: AgentId, critical: seq<TicketId>, backlog: seq<TicketId>, limit: nat, s: Script)
    returns (w: World, ready: bool, ghost turns: seq<Turn>, ghost observed: nat, ghost i: nat, ghost j: nat)
    requires Linked(start) && start.cfg.enforce && a in start.ledger.agents
    requires |critical| <= limit ==> WellScripted(s, |Identities(critical, backlog, limit)|)
    ensures a in w.ledger.agents
    ensures ready <==> ScanIsClean(start, a, critical, backlog, limit, s)
    ensures ready ==>
              && s.complete
              && OwnTurnsPass(start, turns)
              && w == Next(RunTurns(start, turns), ReadyAct(a))
              && w.ledger.agents[a].readiness == Ready
    ensures ready ==> forall t | t in critical + backlog :: t in TicketsOf(turns)
    ensures ready ==> forall k | 0 <= k < |turns| && turns[k].Foreign? :: Undisturbed(start, turns, k, a)
    ensures ready ==>
              && observed <= i <= j <= |turns| && (forall k | observed <= k < |turns| :: turns[k].Foreign?)
              && !Unclassified(Before(start, turns, i), a) && !Ambiguous(Before(start, turns, j), a)
    ensures !ready ==> w.ledger.agents[a].readiness == Degraded
  {
    hide Next, Linked, Passes, OwnBump, Undisturbed, OwnTurnsPass, TicketsOf, Tracker, RunTurns, Run, Unclassified, Ambiguous,
      ClosesClean, ScanTurns;
    w, ready, turns, observed, i, j := start, false, [], 0, 0, 0;
    StartOfScan(start, a);
    var tracker := Generation(start, a);
    var failed := !s.complete || |critical| > limit;
    if !failed {
      var identities := Identities(critical, backlog, limit);
      var n := 0;
      NothingScanned(identities, s);
      while n < |identities| && !failed
        invariant 0 <= n <= |identities|
        invariant failed || turns == ScanTurns(identities, s, n)
        invariant forall k: nat | k < n :: ReadPasses(start, identities, s, k)
        invariant failed ==> n < |identities| && !ReadPasses(start, identities, s, n)
        invariant failed || OwnTurnsPass(start, turns)
        invariant failed || w == RunTurns(start, turns)
        invariant failed || tracker == Tracker(start, a, turns)
        invariant failed || forall k | 0 <= k < n :: identities[k] in TicketsOf(turns)
        invariant Linked(w) && w.cfg.enforce && a in w.ledger.agents
        decreases |identities| - n, if failed then 0 else 1
      {
        w, turns := LetOthersCommit(start, a, w, turns, s.interference[n]);
        var o := s.replies[n].(ticket := identities[n]);
        NextScanned(identities, s, n);
        if !s.timely[n] {
          failed := true;
        } else {
          failed := !Passes(w, o);
          if !failed {
            AppendOwn(start, a, turns, o);
            tracker := tracker + OwnBump(w, a, o);
            turns := turns + [Own(o)];
            n := n + 1;
          }
          ActKeepsAgent(w, ObserveAct(o), a);
          w := Next(w, ObserveAct(o));
        }
      }
      failed := failed || |backlog| > limit - |critical|;
      assert |critical| + |backlog| <= limit ==> identities == critical + backlog;
      if !failed {
        observed := |turns|;
        var clean;
        w, clean, turns, i, j := CloseScan(start, a, w, turns, tracker, s);
        failed := !clean;
        if clean {
          forall k | 0 <= k < |turns| && turns[k].Foreign?
            ensures Undisturbed(start, turns, k, a)
          {
            MatchMeansUndisturbed(start, a, turns, k);
          }
        }
      }
    }
    MarkOrDegrade(w, a);
    if failed {
      w := Next(w, DegradeAct({a}));
    } else {
      w := Next(w, ReadyAct(a));
      ready := true;
    }
  }
}
