/**
 The counter discipline when capacity is not enforced: holds and releases are
 deltas on the stored counter, balanced by `compensated_at` alone.
 */
module NonEnforcingCounter {
  import opened Base
  import opened CapacityLedger
  import opened AssignmentProtocol
  import opened AssignmentInvariants
  import opened AttemptLifecycle
  import opened AssignmentSafety

  /** Attempts whose hold is not yet given back. */
  function OpenIn(attempts: map<AttemptId, Attempt>, a: AgentId): set<AttemptId> {
    set id | id in attempts && attempts[id].agent == a && attempts[id].compensatedAt.None?
  }

  function OpenBy(w: World, a: AgentId): set<AttemptId> {
    OpenIn(w.attempts, a)
  }

  function Chats(w: World, a: AgentId): int {
    if a in w.ledger.agents then w.ledger.agents[a].chats else 0
  }

  /** No reservations, retryable attempts are compensated, and every open hold is counted. */
  ghost predicate Balanced(w: World) {
    && Linked(w)
    && !w.cfg.enforce
    && w.ledger.reservations == map[]
    && (forall id | id in w.attempts && w.attempts[id].state == Retryable :: w.attempts[id].compensatedAt.Some?)
    && (forall a | a in w.ledger.agents :: Chats(w, a) >= |OpenBy(w, a)|)
  }

  /** A close of an assigned conversation takes one off the agent's counter. */
  predicate CloseUncounts(w: World, act: Act, a: AgentId) {
    && act.CloseAct?
    && act.cycle in w.cycles && w.cycles[act.cycle].state != CycleClosed
    && act.cycle in w.assignments && w.assignments[act.cycle].agent == Some(a)
    && a in w.ledger.agents && w.ledger.agents[a].chats > 0
  }

  /** Only the assignment protocol moves the counters: no close takes anything off one. */
  predicate ProtocolOnly(w: World, act: Act) {
    forall a | a in w.ledger.agents :: !CloseUncounts(w, act, a)
  }

  ghost predicate ProtocolRun(w: World, acts: seq<Act>) {
    forall i | 0 <= i < |acts| :: ProtocolOnly(Run(w, acts[..i]), acts[i])
  }

  /** Whether the transaction is the release of an open hold. */
  predicate ReleasesHold(w: World, act: Act) {
    && act.CompensateAct?
    && act.id in w.attempts
    && !CompensationIgnored(w.attempts[act.id], act.compensation)
    && w.attempts[act.id].compensatedAt.None?
  }

  predicate TakesHold(w: World, act: Act, a: AgentId) {
    || (act.ReserveAct? && ClassifyReserve(w, act.request) == Granted && act.request.agent == a)
    || (act.RetryAct? && CanRetry(w, act.id, act.eligible) && w.attempts[act.id].agent == a)
  }

  /** The exact delta of one transaction, clamp included. */
  lemma StepDelta(w: World, act: Act, a: AgentId)
    requires Linked(w) && !w.cfg.enforce && w.ledger.reservations == map[] && ProtocolOnly(w, act)
    requires a in w.ledger.agents && Chats(w, a) >= 0
    ensures a in Next(w, act).ledger.agents && Next(w, act).ledger.reservations == map[]
    ensures Chats(Next(w, act), a) ==
            if TakesHold(w, act, a) then Chats(w, a) + 1
            else if ReleasesHold(w, act) && w.attempts[act.id].agent == a then Max(Chats(w, a) - 1, 0)
            else Chats(w, a)
  {
    match act
    case ReserveAct(r) => ReserveDelta(w, r, a);
    case CompensateAct(id, c) => CompensateDelta(w, id, c, a);
    case RetryAct(id, eligible) => RetryDelta(w, id, eligible, a);
    case _ => PlainDelta(w, act, a);
  }

  lemma ReserveDelta(w: World, r: ReserveRequest, a: AgentId)
    requires !w.cfg.enforce && w.ledger.reservations == map[] && a in w.ledger.agents && Chats(w, a) >= 0
    ensures var v := Reserve(w, r);
            && a in v.ledger.agents && v.ledger.reservations == map[]
            && Chats(v, a) == Chats(w, a) + if ClassifyReserve(w, r) == Granted && r.agent == a then 1 else 0
  {
    hide LiveOn, CompletedOn, KeyUsed, RowReady, HasRoom, Hold;
  }

  lemma CompensateDelta(w: World, id: AttemptId, c: Compensation, a: AgentId)
    requires !w.cfg.enforce && w.ledger.reservations == map[] && a in w.ledger.agents && Chats(w, a) >= 0
    ensures var v := Compensate(w, id, c);
            && a in v.ledger.agents && v.ledger.reservations == map[]
            && Chats(v, a) == if ReleasesHold(w, CompensateAct(id, c)) && w.attempts[id].agent == a
                              then Max(Chats(w, a) - 1, 0) else Chats(w, a)
  {
    if id in w.attempts && !CompensationIgnored(w.attempts[id], c) {
      CompensateEffect(w, id, c);
      hide Compensate, CompensationIgnored, Materialize;
    }
  }

  lemma RetryDelta(w: World, id: AttemptId, eligible: bool, a: AgentId)
    requires !w.cfg.enforce && w.ledger.reservations == map[] && a in w.ledger.agents && Chats(w, a) >= 0
    ensures var v := Retry(w, id, eligible);
            && a in v.ledger.agents && v.ledger.reservations == map[]
            && Chats(v, a) == Chats(w, a) + if CanRetry(w, id, eligible) && w.attempts[id].agent == a then 1 else 0
  {
    hide Hold, HasRoom;
  }

  lemma PlainDelta(w: World, act: Act, a: AgentId)
    requires !act.ReserveAct? && !act.CompensateAct? && !act.RetryAct?
    requires !w.cfg.enforce && w.ledger.reservations == map[] && ProtocolOnly(w, act)
    requires a in w.ledger.agents && Chats(w, a) >= 0
    ensures var v := Next(w, act);
            && a in v.ledger.agents && v.ledger.reservations == map[] && Chats(v, a) == Chats(w, a)
  {
    hide Hold, HasRoom, Picks, ClassifyObservation, AppliedWorld;
    assert !CloseUncounts(w, act, a);
  }

  /** The open set moves with the counter. */
  lemma StepOpens(w: World, act: Act, a: AgentId)
    requires Balanced(w)
    ensures TakesHold(w, act, a) ==> |OpenBy(Next(w, act), a)| == |OpenBy(w, a)| + 1
    ensures ReleasesHold(w, act) && w.attempts[act.id].agent == a ==> |OpenBy(Next(w, act), a)| == |OpenBy(w, a)| - 1
    ensures !TakesHold(w, act, a) && !(ReleasesHold(w, act) && w.attempts[act.id].agent == a) ==>
              OpenBy(Next(w, act), a) == OpenBy(w, a)
  {
    hide Next, WriteOf, Balanced, Linked, TakesHold, CompensationIgnored, OpenIn;
    BalancedIsLinked(w);
    StepWrites(w, act);
    OpenWrite(w, act, a);
    match WriteOf(w, act)
    case NoWrite =>
    case WriteAttempt(id, row) =>
      OpenAfterWrite(w.attempts, id, row, a);
      if !TakesHold(w, act, a) && !(ReleasesHold(w, act) && w.attempts[act.id].agent == a) {
        OpenUnmoved(w.attempts, id, row, a);
      }
  }

  lemma BalancedIsLinked(w: World)
    requires Balanced(w)
    ensures Linked(w)
  {
  }

  /** A write that keeps the agent and whether the hold is open moves no open set. */
  lemma OpenUnmoved(attempts: map<AttemptId, Attempt>, id: AttemptId, row: Attempt, a: AgentId)
    requires id in attempts ==>
               attempts[id].agent == row.agent
               && (row.agent == a ==> (attempts[id].compensatedAt.None? <==> row.compensatedAt.None?))
    requires id !in attempts ==> row.agent != a
    ensures OpenIn(attempts[id := row], a) == OpenIn(attempts, a)
  {
  }

  /** One written row adds its attempt to the open set, removes it, or neither. */
  lemma OpenAfterWrite(attempts: map<AttemptId, Attempt>, id: AttemptId, row: Attempt, a: AgentId)
    ensures OpenIn(attempts[id := row], a) ==
            if row.agent == a && row.compensatedAt.None? then OpenIn(attempts, a) + {id} else OpenIn(attempts, a) - {id}
  {
  }

  /** The written row, read as a hold taken, a hold given back, or neither. */
  lemma OpenWrite(w: World, act: Act, a: AgentId)
    requires Balanced(w)
    ensures TakesHold(w, act, a) ==>
              && WriteOf(w, act).WriteAttempt?
              && WriteOf(w, act).id !in OpenBy(w, a)
              && WriteOf(w, act).row.agent == a && WriteOf(w, act).row.compensatedAt.None?
    ensures ReleasesHold(w, act) && w.attempts[act.id].agent == a ==>
              && WriteOf(w, act).WriteAttempt?
              && WriteOf(w, act).id in OpenBy(w, a)
              && WriteOf(w, act).row.compensatedAt.Some?
    ensures WriteOf(w, act).WriteAttempt? && !TakesHold(w, act, a)
            && !(ReleasesHold(w, act) && w.attempts[act.id].agent == a) ==>
              && (WriteOf(w, act).id in w.attempts ==>
                    && w.attempts[WriteOf(w, act).id].agent == WriteOf(w, act).row.agent
                    && (WriteOf(w, act).row.agent == a ==>
                          (w.attempts[WriteOf(w, act).id].compensatedAt.None? <==> WriteOf(w, act).row.compensatedAt.None?)))
              && (WriteOf(w, act).id !in w.attempts ==> WriteOf(w, act).row.agent != a)
  {
    hide LiveOn, CompletedOn, KeyUsed, RowReady, HasRoom, RetryDelay, Directory.Injective;
  }

  /** Compensation always stamps what it makes retryable. */
  lemma StepKeepsStamps(w: World, act: Act)
    requires Linked(w) && !w.cfg.enforce && w.ledger.reservations == map[]
    requires forall id | id in w.attempts && w.attempts[id].state == Retryable :: w.attempts[id].compensatedAt.Some?
    ensures forall id | id in Next(w, act).attempts && Next(w, act).attempts[id].state == Retryable ::
              Next(w, act).attempts[id].compensatedAt.Some?
  {
    StepWrites(w, act);
    hide Next, LiveOn, CompletedOn, KeyUsed, RowReady, HasRoom, RetryDelay, Linked;
  }

  lemma StepKeepsBalance(w: World, act: Act)
    requires Balanced(w) && ProtocolOnly(w, act)
    ensures Balanced(Next(w, act))
    ensures forall a | a in w.ledger.agents ::
              Chats(Next(w, act), a) - |OpenBy(Next(w, act), a)| == Chats(w, a) - |OpenBy(w, a)|
  {
    var v := Next(w, act);
    StepKeepsLinks(w, act);
    StepKeepsConfig(w, act);
    StepKeepsStamps(w, act);
    StepKeepsNoReservations(w, act);
    hide Next, Chats, OpenBy, TakesHold, ReleasesHold, ProtocolOnly;
    assert v.ledger.agents.Keys == w.ledger.agents.Keys;
    forall a | a in w.ledger.agents
      ensures Chats(v, a) - |OpenBy(v, a)| == Chats(w, a) - |OpenBy(w, a)|
    {
      BalanceMoves(w, act, a);
    }
  }

  lemma BalanceMoves(w: World, act: Act, a: AgentId)
    requires Balanced(w) && ProtocolOnly(w, act) && a in w.ledger.agents
    ensures Chats(Next(w, act), a) - |OpenBy(Next(w, act), a)| == Chats(w, a) - |OpenBy(w, a)|
  {
    StepDelta(w, act, a);
    StepOpens(w, act, a);
    if ReleasesHold(w, act) && w.attempts[act.id].agent == a {
      OpenIsCounted(w, act.id);
    }
    hide Next, Balanced, TakesHold, ReleasesHold, OpenBy, Chats;
  }

  lemma OpenIsCounted(w: World, id: AttemptId)
    requires Balanced(w) && id in w.attempts && w.attempts[id].compensatedAt.None?
    ensures w.attempts[id].agent in w.ledger.agents && Chats(w, w.attempts[id].agent) >= 1
  {
    var a := w.attempts[id].agent;
    assert {id} <= OpenBy(w, a);
    hide OpenBy;
    SubsetSize({id}, OpenBy(w, a));
  }

  lemma StepKeepsNoReservations(w: World, act: Act)
    requires !w.cfg.enforce && w.ledger.reservations == map[]
    ensures Next(w, act).ledger.reservations == map[]
  {
    hide LiveOn, CompletedOn, KeyUsed, RowReady, HasRoom, Hold, Picks, ClassifyObservation, AppliedWorld, RetryDelay;
  }

  lemma ProtocolPrefix(w: World, acts: seq<Act>)
    requires acts != [] && ProtocolRun(w, acts)
    ensures ProtocolRun(w, acts[..|acts| - 1])
    ensures ProtocolOnly(Run(w, acts[..|acts| - 1]), acts[|acts| - 1])
  {
    var front := acts[..|acts| - 1];
    forall i | 0 <= i < |front|
      ensures ProtocolOnly(Run(w, front[..i]), front[i])
    {
      assert front[..i] == acts[..i];
    }
  }

  /** Over a run the counter moves by exactly the change in open holds. */
  lemma {:induction false} RunKeepsBalance(w: World, acts: seq<Act>, a: AgentId)
    requires Balanced(w) && ProtocolRun(w, acts) && a in w.ledger.agents
    ensures Balanced(Run(w, acts)) && a in Run(w, acts).ledger.agents
    ensures Chats(Run(w, acts), a) - Chats(w, a) == |OpenBy(Run(w, acts), a)| - |OpenBy(w, a)|
    decreases |acts|
  {
    if acts != [] {
      hide Next, Balanced, Chats, OpenBy, ProtocolOnly;
      var v := Run(w, acts[..|acts| - 1]);
      ProtocolPrefix(w, acts);
      RunKeepsBalance(w, acts[..|acts| - 1], a);
      StepKeepsBalance(v, acts[|acts| - 1]);
      AgentsStay(v, acts[|acts| - 1], a);
    }
  }

  lemma AgentsStay(w: World, act: Act, a: AgentId)
    requires Balanced(w) && a in w.ledger.agents
    ensures a in Next(w, act).ledger.agents
  {
    StepKeepsLinks(w, act);
    StepKeepsConfig(w, act);
    hide Next;
  }

  /** The clamp at zero never takes effect: a released hold is always a counted one. */
  lemma ClampNeverActs(w: World, act: Act)
    requires Balanced(w) && ProtocolOnly(w, act) && ReleasesHold(w, act)
    ensures w.attempts[act.id].agent in w.ledger.agents
    ensures Chats(Next(w, act), w.attempts[act.id].agent) == Chats(w, w.attempts[act.id].agent) - 1
  {
    OpenIsCounted(w, act.id);
    hide Next, OpenBy;
    StepDelta(w, act, w.attempts[act.id].agent);
  }

  // ----- exactly when the counter is the open attempts ---------------------

  /** Every counter is the number of its agent's open attempts. */
  ghost predicate Exact(w: World) {
    Balanced(w) && forall a | a in w.ledger.agents :: Chats(w, a) == |OpenBy(w, a)|
  }

  lemma CloseTakesOne(w: World, act: Act, a: AgentId)
    requires !w.cfg.enforce && CloseUncounts(w, act, a)
    ensures var v := Next(w, act);
            a in v.ledger.agents && Chats(v, a) == Chats(w, a) - 1 && OpenBy(v, a) == OpenBy(w, a)
  {
  }

  /** A transaction keeps every counter exact if and only if it is not a close that takes one off. */
  lemma StepExactIff(w: World, act: Act)
    requires Exact(w)
    ensures Exact(Next(w, act)) <==> ProtocolOnly(w, act)
  {
    hide Next, Balanced, OpenBy, CloseUncounts, Chats;
    if ProtocolOnly(w, act) {
      StepKeepsBalance(w, act);
      SameAgents(w, act);
    } else {
      var a :| a in w.ledger.agents && CloseUncounts(w, act, a);
      NotEnforcing(w);
      CloseTakesOne(w, act, a);
    }
  }

  lemma NotEnforcing(w: World)
    requires Balanced(w)
    ensures !w.cfg.enforce
  {
  }

  lemma SameAgents(w: World, act: Act)
    requires Balanced(w)
    ensures Next(w, act).ledger.agents.Keys == w.ledger.agents.Keys
  {
    StepKeepsLinks(w, act);
    StepKeepsConfig(w, act);
    hide Next;
  }

  ghost predicate AlwaysExact(w: World, acts: seq<Act>) {
    forall k | 0 <= k <= |acts| :: Exact(Run(w, acts[..k]))
  }

  lemma ExactFront(w: World, acts: seq<Act>)
    requires acts != []
    ensures var last := |acts| - 1;
            && (AlwaysExact(w, acts) <==> AlwaysExact(w, acts[..last]) && Exact(Run(w, acts)))
            && (AlwaysExact(w, acts[..last]) ==> Exact(Run(w, acts[..last])))
            && (ProtocolRun(w, acts) <==>
                  ProtocolRun(w, acts[..last]) && ProtocolOnly(Run(w, acts[..last]), acts[last]))
  {
    hide Exact, ProtocolOnly, Run;
    var front := acts[..|acts| - 1];
    assert acts[..|acts|] == acts && front[..|front|] == front;
    assert forall k | 0 <= k <= |front| :: front[..k] == acts[..k];
    assert forall k | 0 <= k < |front| :: front[k] == acts[k];
  }

  /** Over any run every counter is exact in every state if and only if no close takes anything off one. */
  lemma {:induction false} RunExactIff(w: World, acts: seq<Act>)
    requires Exact(w)
    ensures AlwaysExact(w, acts) <==> ProtocolRun(w, acts)
    decreases |acts|
  {
    hide Next, Exact, ProtocolOnly, AlwaysExact, ProtocolRun;
    if acts == [] {
      ExactAtStart(w);
    } else {
      var last := |acts| - 1;
      RunExactIff(w, acts[..last]);
      ExactFront(w, acts);
      if AlwaysExact(w, acts[..last]) {
        StepExactIff(Run(w, acts[..last]), acts[last]);
      }
    }
  }

  lemma ExactAtStart(w: World)
    requires Exact(w)
    ensures AlwaysExact(w, []) && ProtocolRun(w, [])
  {
    hide Exact;
    assert forall k | 0 <= k <= 0 :: Run(w, [][..k]) == w;
  }
}
