/**
 The attempt state machine over whole runs: its edges, its terminal states, one
 live and one completed attempt for a cycle, and exact assignment totals.
 */
module AttemptLifecycle {
  import opened Base
  import opened CapacityLedger
  import opened LedgerChanges
  import opened AssignmentProtocol
  import opened AssignmentInvariants
  import opened AssignmentSteps

  /** The one attempt row a transaction writes, if any. */
  datatype Write = NoWrite | WriteAttempt(id: AttemptId, row: Attempt)

  function WriteOf(w: World, act: Act): Write {
    match act
    case ReserveAct(r) =>
      if ClassifyReserve(w, r) == Granted then
        var row := w.queue[r.cycle];
        WriteAttempt(r.id, Attempt(
                       row.ticket, r.cycle, r.kind, row.id, r.agent, w.cfg.dir.ownerOf[r.agent],
                       AttemptReserved, None, None, 0))
      else NoWrite
    case MarkAct(id) =>
      if id in w.attempts && w.attempts[id].state in {AttemptReserved, ExternalApplied, RepairRequired}
      then WriteAttempt(id, w.attempts[id].(state := ExternalApplied)) else NoWrite
    case FinalizeAct(id) =>
      if CanFinalize(w, id) then WriteAttempt(id, w.attempts[id].(state := Completed, nextRetryAt := None)) else NoWrite
    case CompensateAct(id, c) =>
      if id !in w.attempts || CompensationIgnored(w.attempts[id], c) then NoWrite
      else if RepairKeepsHold(w, id, c) then WriteAttempt(id, w.attempts[id].(state := RepairRequired))
      else WriteAttempt(id, CompensatedAttempt(w.attempts[id], c, w.now))
    case RetryAct(id, eligible) =>
      if CanRetry(w, id, eligible)
      then WriteAttempt(id, w.attempts[id].(state := AttemptReserved, compensatedAt := None, nextRetryAt := None))
      else NoWrite
    case RepairCrashAct(id) =>
      if id in w.attempts && LiveAlone(w, id) then WriteAttempt(id, w.attempts[id].(state := RepairRequired)) else NoWrite
    case _ => NoWrite
  }

  function Written(attempts: map<AttemptId, Attempt>, wr: Write): map<AttemptId, Attempt> {
    match wr
    case NoWrite => attempts
    case WriteAttempt(id, row) => attempts[id := row]
  }

  lemma ReserveWrites(w: World, r: ReserveRequest)
    ensures Reserve(w, r).attempts == Written(w.attempts, WriteOf(w, ReserveAct(r)))
  {
    hide LiveOn, CompletedOn, KeyUsed, RowReady, HasRoom, TakeCapacity, EnsureRow;
  }

  lemma CompensateWrites(w: World, id: AttemptId, c: Compensation)
    requires Linked(w)
    ensures Compensate(w, id, c).attempts == Written(w.attempts, WriteOf(w, CompensateAct(id, c)))
  {
    if id in w.attempts {
      EnterIsIdle(w, id);
      hide Linked;
      if !CompensationIgnored(w.attempts[id], c) {
        CompensateEffect(w, id, c);
        hide Compensate;
      }
    }
  }

  lemma ObserveWrites(w: World, o: Observation)
    ensures Observe(w, o).attempts == w.attempts
  {
    ProjectionKeys(Enter(w, o.ticket), o);
    hide Picks, ClassifyObservation, ProjectOwner, ProjectClose, ApplyObservation, AssignedAgents, Degrade;
  }

  lemma PlainWrites(w: World, act: Act)
    requires !act.ReserveAct? && !act.CompensateAct? && !act.ObserveAct?
    ensures Next(w, act).attempts == Written(w.attempts, WriteOf(w, act))
  {
    hide TakeCapacity, Degrade, HasRoom, Hold, CanTransfer, EnsureRow;
  }

  /** A transaction writes at most one attempt row, the one `WriteOf` names. */
  lemma StepWrites(w: World, act: Act)
    requires Linked(w)
    ensures Next(w, act).attempts == Written(w.attempts, WriteOf(w, act))
  {
    hide Linked, WriteOf;
    match act
    case ReserveAct(r) => ReserveWrites(w, r);
    case CompensateAct(id, c) => CompensateWrites(w, id, c);
    case ObserveAct(o) =>
      ObserveWrites(w, o);
      ObserveWritesNothing(w, act);
    case _ => PlainWrites(w, act);
  }

  lemma ObserveWritesNothing(w: World, act: Act)
    requires act.ObserveAct?
    ensures WriteOf(w, act) == NoWrite
  {
  }

  // ----- edges ------------------------------------------------------------

  /** The edges of the attempt state machine. */
  predicate Edge(a: AttemptState, b: AttemptState) {
    || a == b
    || (a in {AttemptReserved, RepairRequired} && b == ExternalApplied)
    || (a == ExternalApplied && b == Completed)
    || (a == Retryable && b == AttemptReserved)
    || (a in {AttemptReserved, ExternalApplied, Compensating, Retryable, RepairRequired}
        && b in {Compensated, Retryable, RepairRequired})
  }

  /** What the written row can be, act by act. */
  lemma WriteFacts(w: World, act: Act)
    requires WriteOf(w, act).WriteAttempt?
    ensures var id := WriteOf(w, act).id;
            var row := WriteOf(w, act).row;
            && (id !in w.attempts ==>
                  act.ReserveAct? && ClassifyReserve(w, act.request) == Granted && act.request.id == id
                  && row.state == AttemptReserved && row.cycle == act.request.cycle)
            && (id in w.attempts ==>
                  && row.cycle == w.attempts[id].cycle && row.agent == w.attempts[id].agent
                  && (Edge(w.attempts[id].state, row.state) || (act == RepairCrashAct(id) && row.state == RepairRequired))
                  && (row.state == Completed ==> act == FinalizeAct(id) && CanFinalize(w, id))
                  && (row.state in {Compensated, Retryable} ==>
                        act.CompensateAct? && act.id == id && !act.compensation.repair
                        && !CompensationIgnored(w.attempts[id], act.compensation)))
  {
    hide LiveOn, CompletedOn, KeyUsed, RowReady, HasRoom, RetryDelay;
  }

  lemma WriteFinal(w: World, id: AttemptId)
    ensures CanFinalize(w, id) ==>
              WriteOf(w, FinalizeAct(id)) == WriteAttempt(id, w.attempts[id].(state := Completed, nextRetryAt := None))
    ensures WriteOf(w, RepairCrashAct(id)) ==
            if id in w.attempts && LiveAlone(w, id) then WriteAttempt(id, w.attempts[id].(state := RepairRequired))
            else NoWrite
  {
  }

  /** Every guarded transaction moves every attempt along an edge. */
  lemma StepFollowsEdges(w: World, act: Act, id: AttemptId)
    requires Linked(w) && id in w.attempts && !act.RepairCrashAct?
    ensures id in Next(w, act).attempts
    ensures Edge(w.attempts[id].state, Next(w, act).attempts[id].state)
    ensures Next(w, act).attempts[id].cycle == w.attempts[id].cycle
    ensures Next(w, act).attempts[id].agent == w.attempts[id].agent
  {
    StepWrites(w, act);
    if WriteOf(w, act).WriteAttempt? {
      WriteFacts(w, act);
    }
    hide Next, Linked, WriteOf;
  }

  predicate Terminal(s: AttemptState) {
    s in {Completed, Compensated}
  }

  predicate Guarded(acts: seq<Act>) {
    forall i | 0 <= i < |acts| :: !acts[i].RepairCrashAct?
  }

  /** The exception handler overwrites the attempt, and the unique constraint lets it. */
  predicate Overwrites(w: World, act: Act, id: AttemptId)
    requires id in w.attempts
  {
    act == RepairCrashAct(id) && LiveAlone(w, id)
  }

  /**
   A terminal attempt leaves its state exactly when the repair loop's exception
   handler overwrites it and no other attempt of its cycle is live; no other
   transaction moves it.
   */
  lemma TerminalLeavesIff(w: World, act: Act, id: AttemptId)
    requires Linked(w) && id in w.attempts && Terminal(w.attempts[id].state)
    ensures id in Next(w, act).attempts
    ensures Next(w, act).attempts[id].state != w.attempts[id].state <==> Overwrites(w, act, id)
  {
    StepWrites(w, act);
    WriteFinal(w, id);
    if !act.RepairCrashAct? {
      StepFollowsEdges(w, act, id);
    }
    hide Next, Linked, WriteOf, Edge;
    if act.RepairCrashAct? && act.id != id {
      WriteFinal(w, act.id);
    } else if !act.RepairCrashAct? {
      TerminalStays(w.attempts[id].state, Next(w, act).attempts[id].state);
    }
  }

  lemma TerminalStays(a: AttemptState, b: AttemptState)
    requires Terminal(a) && Edge(a, b)
    ensures a == b
  {
  }

  ghost predicate NeverOverwritten(w: World, acts: seq<Act>, id: AttemptId) {
    forall k | 0 <= k < |acts| :: id in Run(w, acts[..k]).attempts ==> !Overwrites(Run(w, acts[..k]), acts[k], id)
  }

  /**
   A terminal attempt keeps its state in every state of a run exactly when no
   overwrite of the run both names it and finds no other live attempt on its cycle.
   */
  lemma {:induction false} TerminalForever(w: World, acts: seq<Act>, id: AttemptId)
    requires Linked(w) && id in w.attempts && Terminal(w.attempts[id].state)
    ensures KeepsState(w, acts, id) <==> NeverOverwritten(w, acts, id)
    decreases |acts|
  {
    hide Next, Linked, Run, KeepsState, NeverOverwritten, Overwrites;
    if acts == [] {
      KeepsFromStart(w, id);
    } else {
      var last := |acts| - 1;
      var front := acts[..last];
      var v := Run(w, front);
      TerminalForever(w, front, id);
      KeepsFront(w, acts, id);
      RunKeepsLinks(w, front);
      OverwrittenFront(w, acts, id);
      if KeepsState(w, front, id) {
        KeepsNow(w, front, id);
        TerminalLeavesIff(v, acts[last], id);
        RunStep(w, acts);
      }
    }
  }

  lemma OverwrittenFront(w: World, acts: seq<Act>, id: AttemptId)
    requires acts != []
    ensures var last := |acts| - 1;
            NeverOverwritten(w, acts, id) <==>
            && NeverOverwritten(w, acts[..last], id)
            && (id in Run(w, acts[..last]).attempts ==> !Overwrites(Run(w, acts[..last]), acts[last], id))
  {
    hide Run, Overwrites;
    var front := acts[..|acts| - 1];
    assert forall k | 0 <= k < |front| :: front[k] == acts[k] && front[..k] == acts[..k];
  }

  /** In every state of the run the attempt is in the state it started in. */
  ghost predicate KeepsState(w: World, acts: seq<Act>, id: AttemptId)
    requires id in w.attempts
  {
    forall k | 0 <= k <= |acts| ::
      id in Run(w, acts[..k]).attempts && Run(w, acts[..k]).attempts[id].state == w.attempts[id].state
  }

  lemma KeepsFromStart(w: World, id: AttemptId)
    requires id in w.attempts
    ensures KeepsState(w, [], id) && NeverOverwritten(w, [], id)
  {
    assert forall k | 0 <= k <= 0 :: Run(w, [][..k]) == w;
  }

  lemma KeepsNow(w: World, acts: seq<Act>, id: AttemptId)
    requires id in w.attempts && KeepsState(w, acts, id)
    ensures id in Run(w, acts).attempts && Run(w, acts).attempts[id].state == w.attempts[id].state
  {
    assert acts[..|acts|] == acts;
  }

  lemma KeepsFront(w: World, acts: seq<Act>, id: AttemptId)
    requires id in w.attempts && acts != []
    ensures KeepsState(w, acts, id) <==>
            && KeepsState(w, acts[..|acts| - 1], id)
            && id in Run(w, acts).attempts && Run(w, acts).attempts[id].state == w.attempts[id].state
  {
    hide Run;
    var front := acts[..|acts| - 1];
    assert acts[..|acts|] == acts;
    assert forall k | 0 <= k <= |front| :: front[..k] == acts[..k];
  }

  lemma RunStep(w: World, acts: seq<Act>)
    requires acts != []
    ensures Run(w, acts) == Next(Run(w, acts[..|acts| - 1]), acts[|acts| - 1])
  {
  }

  // ----- cycles -----------------------------------------------------------

  /** Cycles are never forgotten, never re-queued, and a closed cycle stays closed. */
  ghost predicate CyclesAdvance(w: World, v: World) {
    forall c | c in w.cycles ::
      && c in v.cycles
      && v.cycles[c].ticket == w.cycles[c].ticket
      && (w.cycles[c].state != CycleQueued ==> v.cycles[c].state != CycleQueued)
      && (w.cycles[c].state == CycleClosed ==> v.cycles[c].state == CycleClosed)
  }

  lemma ObserveAdvancesCycles(w: World, o: Observation)
    ensures CyclesAdvance(w, Observe(w, o))
  {
    var e := Enter(w, o.ticket);
    ProjectAdvancesCycles(e, o);
    hide Picks, ClassifyObservation, ProjectOwner, ProjectClose, ApplyObservation, AssignedAgents, Degrade;
  }

  lemma ProjectAdvancesCycles(w: World, o: Observation)
    ensures CyclesAdvance(w, ProjectClose(if o.project then ProjectOwner(w, o) else w, o))
  {
    hide RowProjectable, ProtectedBy;
    var p := if o.project then ProjectOwner(w, o) else w;
    assert CyclesAdvance(w, p);
  }

  lemma StepAdvancesCycles(w: World, act: Act)
    ensures CyclesAdvance(w, Next(w, act))
  {
    if act.ObserveAct? {
      ObserveAdvancesCycles(w, act.observation);
    }
    hide Observe, ClassifyReserve, TakeCapacity, Degrade, HasRoom, Hold, CanTransfer, EnsureRow, ReleaseCapacity, RetryDelay;
  }

  /** Finalization consumes the queued state of its cycle. */
  lemma FinalizeConsumesCycle(w: World, id: AttemptId)
    requires CanFinalize(w, id)
    ensures w.cycles[w.attempts[id].cycle].state == CycleQueued
    ensures Next(w, FinalizeAct(id)).cycles[w.attempts[id].cycle].state == CycleAssigned
  {
  }

  // ----- one live, one completed ------------------------------------------

  /** At most one live and one completed attempt for a cycle. */
  ghost predicate OneEach(w: World) {
    && (forall i, j | i in w.attempts && j in w.attempts && w.attempts[i].cycle == w.attempts[j].cycle ::
          && (IsLive(w.attempts[i].state) && IsLive(w.attempts[j].state) ==> i == j)
          && (w.attempts[i].state == Completed && w.attempts[j].state == Completed ==> i == j))
    && (forall i | i in w.attempts && w.attempts[i].state == Completed ::
          && w.attempts[i].cycle in w.cycles
          && w.cycles[w.attempts[i].cycle].state != CycleQueued)
  }

  lemma MoveKeepsOneEach(w: World, v: World, id: AttemptId)
    requires OneEach(w) && CyclesAdvance(w, v)
    requires id in w.attempts && id in v.attempts && v.attempts == w.attempts[id := v.attempts[id]]
    requires v.attempts[id].cycle == w.attempts[id].cycle && v.attempts[id].cycle in w.cycles
    requires Edge(w.attempts[id].state, v.attempts[id].state)
    requires v.attempts[id].state == Completed && w.attempts[id].state != Completed ==>
               && w.cycles[v.attempts[id].cycle].state == CycleQueued
               && v.cycles[v.attempts[id].cycle].state != CycleQueued
    ensures OneEach(v)
  {
  }

  lemma AddKeepsOneEach(w: World, v: World, id: AttemptId)
    requires OneEach(w) && CyclesAdvance(w, v)
    requires id !in w.attempts && id in v.attempts && v.attempts == w.attempts[id := v.attempts[id]]
    requires v.attempts[id].state == AttemptReserved && LiveOn(w, v.attempts[id].cycle) == {}
    ensures OneEach(v)
  {
    forall i | i in w.attempts && w.attempts[i].cycle == v.attempts[id].cycle
      ensures !IsLive(w.attempts[i].state)
    {
      assert i !in LiveOn(w, v.attempts[id].cycle);
    }
  }

  lemma GrantedIsAlone(w: World, r: ReserveRequest)
    requires ClassifyReserve(w, r) == Granted
    ensures LiveOn(w, r.cycle) == {} && w.cycles[r.cycle].state == CycleQueued
  {
  }

  lemma StepKeepsOneEach(w: World, act: Act)
    requires Linked(w) && OneEach(w)
    ensures OneEach(Next(w, act))
  {
    hide Next, WriteOf, Linked, OneEach, CyclesAdvance, CanFinalize, Edge, ClassifyReserve, LiveOn, CompensationIgnored;
    var v := Next(w, act);
    StepWrites(w, act);
    StepAdvancesCycles(w, act);
    match WriteOf(w, act)
    case NoWrite => IdleKeepsOneEach(w, v);
    case WriteAttempt(id, row) =>
      WriteFacts(w, act);
      if id in w.attempts {
        LinkedCycle(w, id);
        if row.state == Completed && w.attempts[id].state != Completed {
          FinalizeConsumesCycle(w, id);
        }
        if act.RepairCrashAct? {
          CrashIsOverwrite(w, act.id);
          OverwriteBreaksIff(w, id);
        } else {
          MoveKeepsOneEach(w, v, id);
        }
      } else {
        GrantedIsAlone(w, act.request);
        AddKeepsOneEach(w, v, id);
      }
  }

  lemma IdleKeepsOneEach(w: World, v: World)
    requires OneEach(w) && CyclesAdvance(w, v) && v.attempts == w.attempts
    ensures OneEach(v)
  {
  }

  lemma LinkedCycle(w: World, id: AttemptId)
    requires Linked(w) && id in w.attempts
    ensures w.attempts[id].cycle in w.cycles
  {
  }

  /**
   From the guards alone, without the unique constraint, the exception handler's
   overwrite keeps the promise exactly when no other attempt of the cycle is live.
   */
  lemma OverwriteBreaksIff(w: World, i: AttemptId)
    requires OneEach(w) && i in w.attempts
    ensures OneEach(Overwritten(w, i)) <==> LiveAlone(w, i)
  {
    var v := Overwritten(w, i);
    if !LiveAlone(w, i) {
      var j :| j in w.attempts && j != i && w.attempts[j].cycle == w.attempts[i].cycle && IsLive(w.attempts[j].state);
      assert IsLive(v.attempts[i].state) && v.attempts[j] == w.attempts[j];
    }
  }

  lemma CrashIsOverwrite(w: World, i: AttemptId)
    ensures WriteOf(w, RepairCrashAct(i)).WriteAttempt? ==>
              i in w.attempts && LiveAlone(w, i) && Next(w, RepairCrashAct(i)) == Overwritten(w, i)
              && WriteOf(w, RepairCrashAct(i)).id == i
  {
    hide LiveAlone;
  }

  /**
   The constraint is exact: the overwrite is refused exactly when another attempt of
   the cycle is live, which is exactly when it would break the promise, and then only
   an attempt that had already ended is spared it; otherwise the attempt is in repair.
   */
  lemma OverwriteRefusedIff(w: World, i: AttemptId)
    requires OneEach(w) && i in w.attempts
    ensures OverwriteRefused(w, i) <==>
            exists j | j in w.attempts && j != i && w.attempts[j].cycle == w.attempts[i].cycle :: IsLive(w.attempts[j].state)
    ensures OverwriteRefused(w, i) <==> !OneEach(Overwritten(w, i))
    ensures OverwriteRefused(w, i) ==> Terminal(w.attempts[i].state) && Next(w, RepairCrashAct(i)) == w
    ensures !OverwriteRefused(w, i) ==> Next(w, RepairCrashAct(i)).attempts[i].state == RepairRequired
  {
    OverwriteBreaksIff(w, i);
    if OverwriteRefused(w, i) {
      EndedOrLive(w.attempts[i].state);
    }
  }

  lemma EndedOrLive(s: AttemptState)
    ensures Terminal(s) <==> !IsLive(s)
  {
    match s
    case AttemptReserved =>
    case ExternalApplied =>
    case Completed =>
    case Compensating =>
    case Compensated =>
    case Retryable =>
    case RepairRequired =>
  }

  lemma {:induction false} RunKeepsLinks(w: World, acts: seq<Act>)
    requires Linked(w)
    ensures Linked(Run(w, acts))
    decreases |acts|
  {
    if acts != [] {
      hide Next, Linked;
      RunKeepsLinks(w, acts[..|acts| - 1]);
      StepKeepsLinks(Run(w, acts[..|acts| - 1]), acts[|acts| - 1]);
    }
  }

  /** In every run a cycle has at most one live and at most one completed attempt, whatever the handler overwrites. */
  lemma {:induction false} RunKeepsOneEach(w: World, acts: seq<Act>)
    requires Linked(w) && OneEach(w)
    ensures Linked(Run(w, acts)) && OneEach(Run(w, acts))
    decreases |acts|
  {
    if acts != [] {
      hide Next, Linked, OneEach;
      RunKeepsOneEach(w, acts[..|acts| - 1]);
      StepKeepsLinks(Run(w, acts[..|acts| - 1]), acts[|acts| - 1]);
      StepKeepsOneEach(Run(w, acts[..|acts| - 1]), acts[|acts| - 1]);
    }
  }

  // ----- what an attempt is for ---------------------------------------------

  predicate SamePurpose(a: Attempt, b: Attempt) {
    a.ticket == b.ticket && a.cycle == b.cycle && a.kind == b.kind && a.agent == b.agent && a.owner == b.owner
  }

  lemma WriteKeepsPurpose(w: World, act: Act, id: AttemptId)
    requires id in w.attempts
    ensures WriteOf(w, act).WriteAttempt? && WriteOf(w, act).id == id ==> SamePurpose(w.attempts[id], WriteOf(w, act).row)
  {
    hide LiveOn, CompletedOn, KeyUsed, RowReady, HasRoom, RetryDelay;
  }

  /** No transaction changes whom or what an attempt is for. */
  lemma StepKeepsPurpose(w: World, act: Act, id: AttemptId)
    requires Linked(w) && id in w.attempts
    ensures id in Next(w, act).attempts && SamePurpose(w.attempts[id], Next(w, act).attempts[id])
  {
    StepWrites(w, act);
    WriteKeepsPurpose(w, act, id);
    hide Next, Linked, WriteOf;
  }

  lemma {:induction false} RunKeepsPurpose(w: World, acts: seq<Act>, id: AttemptId)
    requires Linked(w) && id in w.attempts
    ensures id in Run(w, acts).attempts && SamePurpose(w.attempts[id], Run(w, acts).attempts[id])
    decreases |acts|
  {
    if acts != [] {
      hide Next, Linked;
      var v := Run(w, acts[..|acts| - 1]);
      RunKeepsPurpose(w, acts[..|acts| - 1], id);
      RunKeepsLinks(w, acts[..|acts| - 1]);
      StepKeepsPurpose(v, acts[|acts| - 1], id);
    }
  }

  /** A cycle is reserved at most once for each kind of assignment, in any run. */
  lemma KindReservesOnce(w: World, acts: seq<Act>, id: AttemptId, r: ReserveRequest)
    requires Linked(w) && id in w.attempts && r.cycle == w.attempts[id].cycle && r.kind == w.attempts[id].kind
    ensures ClassifyReserve(Run(w, acts), r) != Granted
  {
    hide Run, Linked, LiveOn, CompletedOn, RowReady, HasRoom;
    RunKeepsPurpose(w, acts, id);
    assert KeyUsed(Run(w, acts), r.cycle, r.kind);
  }

  // ----- totals -----------------------------------------------------------

  function CompletedBy(w: World, a: AgentId): set<AttemptId> {
    set id | id in w.attempts && w.attempts[id].agent == a && w.attempts[id].state == Completed
  }

  ghost predicate SameTotals(l: Ledger, m: Ledger) {
    forall a | a in l.agents :: a in m.agents && m.agents[a].total == l.agents[a].total
  }

  lemma TakeKeepsTotals(w: World, id: AttemptId, t: TicketId, a: AgentId)
    requires w.cfg.enforce ==> t in w.ledger.occupancy
    ensures SameTotals(w.ledger, TakeCapacity(w, id, t, a))
  {
    hide CapacityCount, HeldTables;
    var stamped := StampAgent(w.ledger, a, w.now);
    assert SameTotals(w.ledger, stamped);
    if w.cfg.enforce {
      var h := HeldTables(stamped, ForAttempt(id), t, a);
      HeldTablesAgents(stamped, ForAttempt(id), t, a);
      assert SameTotals(stamped, Materialize(h, {a}, true));
    }
  }

  lemma HeldTablesAgents(l: Ledger, op: Operation, t: TicketId, a: AgentId)
    requires t in l.occupancy
    ensures HeldTables(l, op, t, a).agents == l.agents
  {
  }

  lemma ReleaseKeepsTotals(w: World, id: AttemptId, at: Attempt)
    ensures SameTotals(w.ledger, ReleaseCapacity(w, id, at))
  {
    hide CapacityCount;
    var c := Conclude(w.ledger, ForAttempt(id), false);
    assert SameTotals(w.ledger, Materialize(c, {at.agent}, w.cfg.enforce));
  }

  lemma ReserveKeepsTotals(w: World, r: ReserveRequest)
    ensures SameTotals(w.ledger, Reserve(w, r).ledger)
  {
    hide LiveOn, CompletedOn, KeyUsed, RowReady, HasRoom, TakeCapacity;
    if ClassifyReserve(w, r) == Granted {
      TakeKeepsTotals(Enter(w, w.queue[r.cycle].ticket), r.id, w.queue[r.cycle].ticket, r.agent);
    }
  }

  lemma ObserveKeepsTotals(w: World, o: Observation)
    ensures SameTotals(w.ledger, Observe(w, o).ledger)
  {
    hide CapacityCount, Picks, ClassifyObservation, ProjectOwner, ProjectClose, AssignedAgents, Rewritten, Affected, RejectedAgents;
    var e := Enter(w, o.ticket);
    assert SameTotals(w.ledger, e.ledger);
    if w.cfg.enforce {
      RewrittenAgents(e.ledger, o.ticket, o.snap, w.cfg.dir);
    }
  }

  lemma RewrittenAgents(l: Ledger, t: TicketId, s: Snapshot, d: Directory)
    requires t in l.occupancy
    ensures Rewritten(l, t, s, d).agents == l.agents
  {
  }

  lemma CompensateKeepsTotals(w: World, id: AttemptId, c: Compensation)
    requires Linked(w)
    ensures SameTotals(w.ledger, Compensate(w, id, c).ledger)
  {
    if id in w.attempts {
      EnterIsIdle(w, id);
      hide Linked;
      if !CompensationIgnored(w.attempts[id], c) {
        CompensateEffect(w, id, c);
        ReleaseKeepsTotals(w, id, w.attempts[id]);
        hide Compensate, ReleaseCapacity;
      }
    }
  }

  lemma PlainKeepsTotals(w: World, act: Act)
    requires !act.ReserveAct? && !act.CompensateAct? && !act.ObserveAct? && !act.FinalizeAct?
    ensures SameTotals(w.ledger, Next(w, act).ledger)
  {
    hide CapacityCount, CanTransfer, HasRoom, TakeCapacity;
    match act
    case RetryAct(id, eligible) =>
      if CanRetry(w, id, eligible) && (w.cfg.enforce ==> w.attempts[id].ticket in Enter(w, w.attempts[id].ticket).ledger.occupancy) {
        TakeKeepsTotals(Enter(w, w.attempts[id].ticket), id, w.attempts[id].ticket, w.attempts[id].agent);
      }
    case _ =>
  }

  lemma FinalizeTotals(w: World, id: AttemptId, a: AgentId)
    requires a in w.ledger.agents
    ensures var v := Next(w, FinalizeAct(id));
            && a in v.ledger.agents
            && v.ledger.agents[a].total == w.ledger.agents[a].total
               + if CanFinalize(w, id) && w.attempts[id].agent == a then 1 else 0
  {
  }

  lemma OthersKeepTotals(w: World, act: Act)
    requires Linked(w) && !act.FinalizeAct?
    ensures SameTotals(w.ledger, Next(w, act).ledger)
  {
    hide Linked, SameTotals;
    match act
    case ReserveAct(r) => ReserveKeepsTotals(w, r);
    case CompensateAct(id, c) => CompensateKeepsTotals(w, id, c);
    case ObserveAct(o) => ObserveKeepsTotals(w, o);
    case _ => PlainKeepsTotals(w, act);
  }

  /** Only a finalization that goes through adds to a total, and it adds one. */
  lemma StepTotals(w: World, act: Act, a: AgentId)
    requires Linked(w) && a in w.ledger.agents
    ensures a in Next(w, act).ledger.agents
    ensures Next(w, act).ledger.agents[a].total == w.ledger.agents[a].total
            + if act.FinalizeAct? && CanFinalize(w, act.id) && w.attempts[act.id].agent == a then 1 else 0
  {
    if act.FinalizeAct? {
      FinalizeTotals(w, act.id, a);
    } else {
      OthersKeepTotals(w, act);
    }
    hide Next, Linked, CanFinalize;
  }

  /** The exception handler overwrites a completed attempt of the agent, and is not refused. */
  predicate CrashUncompletes(w: World, act: Act, a: AgentId) {
    && act.RepairCrashAct?
    && act.id in w.attempts
    && LiveAlone(w, act.id)
    && w.attempts[act.id].state == Completed
    && w.attempts[act.id].agent == a
  }

  /**
   Each step raises an agent's total by exactly the attempts it completes, unless
   the exception handler overwrites a completed attempt: then the total is left
   one ahead.
   */
  lemma StepTotalsMatch(w: World, act: Act, a: AgentId)
    requires Linked(w) && a in w.ledger.agents
    ensures a in Next(w, act).ledger.agents
    ensures Next(w, act).ledger.agents[a].total - |CompletedBy(Next(w, act), a)|
            == w.ledger.agents[a].total - |CompletedBy(w, a)| + if CrashUncompletes(w, act, a) then 1 else 0
  {
    var v := Next(w, act);
    StepTotals(w, act, a);
    StepWrites(w, act);
    if act.FinalizeAct? && CanFinalize(w, act.id) && w.attempts[act.id].agent == a {
      WriteFinal(w, act.id);
      hide Next, WriteOf, Linked;
      assert CompletedBy(v, a) == CompletedBy(w, a) + {act.id};
    } else if act.RepairCrashAct? {
      CrashedCompletions(w, act.id, a);
    } else {
      CompletedByUnmoved(w, act, a);
    }
  }

  lemma CrashedCompletions(w: World, id: AttemptId, a: AgentId)
    ensures var act := RepairCrashAct(id);
            |CompletedBy(Next(w, act), a)| == |CompletedBy(w, a)| - if CrashUncompletes(w, act, a) then 1 else 0
  {
    hide Next, LiveAlone;
    var v := Next(w, RepairCrashAct(id));
    CrashedAttempts(w, id);
    if CrashUncompletes(w, RepairCrashAct(id), a) {
      assert CompletedBy(v, a) == CompletedBy(w, a) - {id};
    } else {
      assert CompletedBy(v, a) == CompletedBy(w, a);
    }
  }

  lemma CrashedAttempts(w: World, id: AttemptId)
    ensures Next(w, RepairCrashAct(id)).attempts
            == if id in w.attempts && LiveAlone(w, id) then w.attempts[id := w.attempts[id].(state := RepairRequired)]
               else w.attempts
  {
    hide LiveAlone;
  }

  lemma CompletedByUnmoved(w: World, act: Act, a: AgentId)
    requires Linked(w) && !act.RepairCrashAct?
    requires !(act.FinalizeAct? && CanFinalize(w, act.id) && w.attempts[act.id].agent == a)
    ensures CompletedBy(Next(w, act), a) == CompletedBy(w, a)
  {
    var v := Next(w, act);
    hide Next, Linked, WriteOf, CanFinalize, ClassifyReserve;
    StepWrites(w, act);
    if WriteOf(w, act).WriteAttempt? {
      WriteFacts(w, act);
    }
    assert CompletedBy(v, a) == CompletedBy(w, a);
  }

  /** How many overwrites of the run hit a completed attempt of the agent. */
  function Uncompleted(w: World, acts: seq<Act>, a: AgentId): nat
    decreases |acts|
  {
    if acts == [] then 0
    else
      var front := acts[..|acts| - 1];
      Uncompleted(w, front, a) + if CrashUncompletes(Run(w, front), acts[|acts| - 1], a) then 1 else 0
  }

  /**
   Over any run an agent's total rises by its newly completed attempts plus the
   overwrites that hit a completed one: by exactly the completed attempts if and
   only if no overwrite hits one.
   */
  lemma {:induction false} RunTotalsMatch(w: World, acts: seq<Act>, a: AgentId)
    requires Linked(w) && a in w.ledger.agents
    ensures Linked(Run(w, acts)) && a in Run(w, acts).ledger.agents
    ensures Run(w, acts).ledger.agents[a].total - w.ledger.agents[a].total
            == |CompletedBy(Run(w, acts), a)| - |CompletedBy(w, a)| + Uncompleted(w, acts, a)
    decreases |acts|
  {
    if acts != [] {
      hide Next, Linked, OneEach, CompletedBy, CrashUncompletes;
      var last := |acts| - 1;
      RunTotalsMatch(w, acts[..last], a);
      StepKeepsLinks(Run(w, acts[..last]), acts[last]);
      StepTotalsMatch(Run(w, acts[..last]), acts[last], a);
    }
  }

  /** Without the handler's overwrites the totals are the completed attempts. */
  lemma {:induction false} GuardedUncompletesNothing(w: World, acts: seq<Act>, a: AgentId)
    requires Guarded(acts)
    ensures Uncompleted(w, acts, a) == 0
    decreases |acts|
  {
    if acts != [] {
      GuardedUncompletesNothing(w, acts[..|acts| - 1], a);
    }
  }

  // ----- a row is offered once ---------------------------------------------

  /** Until its claim expires, a granted row is out of every other automatic reservation's reach. */
  lemma GrantShieldsRow(w: World, r: ReserveRequest, seconds: nat, other: ReserveRequest)
    requires ClassifyReserve(w, r) == Granted
    requires other.kind == Automatic && other.cycle == r.cycle && seconds < w.cfg.claimTtl
    ensures ClassifyReserve(Next(Next(w, ReserveAct(r)), Tick(seconds)), other) == RowUnavailable
  {
    hide TakeCapacity, LiveOn, CompletedOn, KeyUsed, HasRoom, EnsureRow;
  }

  /** Finalization takes the attempt's queue row away, so nothing is left to reserve on its cycle. */
  lemma FinalizationConsumesRow(w: World, id: AttemptId, other: ReserveRequest)
    requires CanFinalize(w, id) && RowLinked(w, w.attempts[id]) && other.cycle == w.attempts[id].cycle
    ensures ClassifyReserve(Next(w, FinalizeAct(id)), other) == RowUnavailable
    ensures var v := Next(w, FinalizeAct(id));
            other.cycle in v.assignments
            && v.assignments[other.cycle].agent == Some(w.attempts[id].agent)
            && v.assignments[other.cycle].owner == w.attempts[id].owner
  {
  }

  lemma {:induction false} RunAdvancesCycles(w: World, acts: seq<Act>, c: CycleId)
    requires c in w.cycles && w.cycles[c].state != CycleQueued
    ensures c in Run(w, acts).cycles && Run(w, acts).cycles[c].state != CycleQueued
    decreases |acts|
  {
    if acts != [] {
      hide Next;
      RunAdvancesCycles(w, acts[..|acts| - 1], c);
      StepAdvancesCycles(Run(w, acts[..|acts| - 1]), acts[|acts| - 1]);
    }
  }

  /** Once a cycle has left the queued state no reservation on it is ever granted again. */
  lemma NeverReservedAgain(w: World, acts: seq<Act>, r: ReserveRequest)
    requires r.cycle in w.cycles && w.cycles[r.cycle].state != CycleQueued
    ensures ClassifyReserve(Run(w, acts), r) != Granted
  {
    hide Run;
    RunAdvancesCycles(w, acts, r.cycle);
  }
}
