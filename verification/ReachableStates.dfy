/**
 Every state the protocol can reach from a database that holds nothing but its
 agents: the invariants, without assuming any of them.
 */
module ReachableStates {
  import opened Base
  import opened CapacityLedger
  import opened AssignmentProtocol
  import opened AssignmentInvariants
  import opened AttemptLifecycle
  import opened AssignmentSafety
  import opened NonEnforcingCounter
  import opened ObservationFreshness

  lemma EmptyCounts(cfg: Config, a: AgentId)
    ensures CapacityCount(Start(cfg).ledger, a) == 0
  {
    assert CapacitySet(Start(cfg).ledger, a) == {};
  }

  lemma StartIsSound(cfg: Config)
    requires cfg.dir.Injective()
    ensures Linked(Start(cfg)) && OneEach(Start(cfg)) && ConcludedHoldNothing(Start(cfg))
    ensures CountersAgree(Start(cfg).ledger) && WithinMaximum(Start(cfg).ledger, cfg.dir)
    ensures !cfg.enforce ==> Balanced(Start(cfg))
  {
    hide CapacityCount;
    forall a | a in Start(cfg).ledger.agents
      ensures CapacityCount(Start(cfg).ledger, a) == 0
    {
      EmptyCounts(cfg, a);
    }
  }

  /**
   In every reachable enforcing state each counter is the size of its agent's
   ticket union, and no compensated or retryable attempt holds capacity; if no
   observed owner was a surprise, nobody is over the maximum.
   */
  lemma ReachableCapacity(cfg: Config, acts: seq<Act>, a: AgentId)
    requires cfg.dir.Injective() && cfg.enforce && a in cfg.dir.ownerOf
    ensures var w := Run(Start(cfg), acts);
      && a in w.ledger.agents
      && w.ledger.agents[a].chats == CapacityCount(w.ledger, a)
      && ConcludedHoldNothing(w)
      && (ExpectedRun(Start(cfg), acts) ==> w.ledger.agents[a].chats <= cfg.dir.maxChats[a])
  {
    hide Start, Run, CapacityCount, ConcludedHoldNothing;
    StartIsSound(cfg);
    assert Start(cfg).cfg == cfg by {
      StartConfig(cfg);
    }
    RunKeepsCounters(Start(cfg), acts);
    RunKeepsConcluded(Start(cfg), acts);
    if ExpectedRun(Start(cfg), acts) {
      RunKeepsMaximum(Start(cfg), acts);
    }
  }

  lemma StartConfig(cfg: Config)
    ensures Start(cfg).cfg == cfg
  {
  }

  /**
   In every reachable state a cycle has one live and one completed attempt at most;
   and each agent's total is its number of completed attempts plus the overwrites
   by the repair loop's handler that hit a completed one.
   */
  lemma ReachableAttempts(cfg: Config, acts: seq<Act>, a: AgentId)
    requires cfg.dir.Injective() && a in cfg.dir.ownerOf
    ensures var w := Run(Start(cfg), acts);
            && OneEach(w)
            && a in w.ledger.agents
            && w.ledger.agents[a].total == |CompletedBy(w, a)| + Uncompleted(Start(cfg), acts, a)
            && (Guarded(acts) ==> w.ledger.agents[a].total == |CompletedBy(w, a)|)
  {
    hide Run, OneEach, Linked, Guarded;
    StartIsSound(cfg);
    RunKeepsOneEach(Start(cfg), acts);
    RunTotalsMatch(Start(cfg), acts, a);
    assert CompletedBy(Start(cfg), a) == {};
    if Guarded(acts) {
      GuardedUncompletesNothing(Start(cfg), acts, a);
    }
  }

  /**
   Without enforcement, in every state of every run from the start each counter is
   the number of its agent's attempts not yet compensated, exactly when no close of
   an assigned conversation took anything off a counter.
   */
  lemma ReachableBalance(cfg: Config, acts: seq<Act>)
    requires cfg.dir.Injective() && !cfg.enforce
    ensures AlwaysExact(Start(cfg), acts) <==> ProtocolRun(Start(cfg), acts)
  {
    hide Run, Linked, Balanced, AlwaysExact, ProtocolRun;
    StartIsSound(cfg);
    assert forall a :: OpenBy(Start(cfg), a) == {};
    RunExactIff(Start(cfg), acts);
  }

  /** The system before any provider read is coherent, whatever the provider already knows. */
  lemma StartIsCoherent(cfg: Config, history: map<TicketId, seq<Snapshot>>)
    requires cfg.dir.Injective() && cfg.enforce
    ensures Coherent(System(Start(cfg), history, map[], 0, map[], map[]))
  {
    hide Linked;
    StartIsSound(cfg);
  }

  /** In every enforcing run from the start, an observation about to be applied was read after the last commit. */
  lemma ReachableReadIsFresh(
    cfg: Config, history: map<TicketId, seq<Snapshot>>, events: seq<Event>, r: ReadId, hints: Observation)
    requires cfg.dir.Injective() && cfg.enforce
    requires var s := RunEvents(System(Start(cfg), history, map[], 0, map[], map[]), events);
      Applicable(s, r) && Lands(s.w, Built(s, r, hints))
    ensures var s := RunEvents(System(Start(cfg), history, map[], 0, map[], map[]), events);
      var t := s.pending[r].ticket;
      && (t in s.commits ==> s.commits[t] < s.pending[r].phase.readAt)
      && (t in s.positions ==> s.positions[t] <= s.pending[r].phase.position)
  {
    hide Linked, Lands, Coherent, RunEvents;
    var start := System(Start(cfg), history, map[], 0, map[], map[]);
    StartIsCoherent(cfg, history);
    RunNeverGoesBack(start, events, 0);
    AppliedReadIsFresh(RunEvents(start, events), r, hints);
  }
}
