/**
 A queue row whose automatic attempt has ended for good: the unique idempotency key
 of its cycle refuses every other automatic attempt, in every run, and the refusal
 raises out of the drain that meets the row.
 */
module SpentKey {
  import opened Base
  import opened CapacityLedger
  import opened AssignmentProtocol
  import opened AssignmentInvariants
  import opened AttemptLifecycle
  import opened CompensationUndo
  import Drain = QueueDrain

  /** Everything a reservation asks for before its insert. */
  predicate ChecksPass(w: World, r: ReserveRequest) {
    && r.cycle in w.queue && r.cycle in w.cycles
    && (r.kind == Automatic ==> RowReady(w.queue[r.cycle], w.now) && !r.deferred && CompletedOn(w, r.cycle) == {})
    && w.cycles[r.cycle].state == CycleQueued
    && LiveOn(w, r.cycle) == {}
    && r.eligible && r.agent in w.cfg.dir.ownerOf && HasRoom(w, r.agent)
  }

  lemma InsertMeetsKeys(w: World, r: ReserveRequest)
    ensures ClassifyReserve(w, r) in {Granted, KeyTaken} <==> ChecksPass(w, r)
    ensures KeyUsed(w, r.cycle, r.kind) ==> ClassifyReserve(w, r) != Granted
    ensures ClassifyReserve(w, r) == KeyTaken ==> Next(w, ReserveAct(r)) == w
  {
    hide LiveOn, CompletedOn, KeyUsed, RowReady, HasRoom, EnsureRow;
  }

  /**
   Once a cycle has had an attempt of one kind, a reservation of that kind raises on
   the key exactly when all its checks pass, in every later run; it changes nothing.
   */
  lemma SpentKeyIff(w: World, acts: seq<Act>, id: AttemptId, r: ReserveRequest)
    requires Linked(w) && id in w.attempts && r.cycle == w.attempts[id].cycle && r.kind == w.attempts[id].kind
    ensures var v := Run(w, acts);
            && (ClassifyReserve(v, r) == KeyTaken <==> ChecksPass(v, r))
            && ClassifyReserve(v, r) != Granted
            && (ClassifyReserve(v, r) == KeyTaken ==> Next(v, ReserveAct(r)) == v)
  {
    hide Run, Linked, ClassifyReserve, ChecksPass, Next;
    KindReservesOnce(w, acts, id, r);
    InsertMeetsKeys(Run(w, acts), r);
  }

  /** A final compensation without quarantine puts its row straight back where automatic reservations look. */
  lemma FinalCompensationKeepsRow(w: World, id: AttemptId, c: Compensation, r: ReserveRequest)
    requires Linked(w) && OneEach(w) && id in w.attempts && !CompensationIgnored(w.attempts[id], c)
    requires w.attempts[id].kind == Automatic && RowLinked(w, w.attempts[id]) && w.queue[w.attempts[id].cycle].eligible
    requires Final(c) && !c.quarantine
    requires r.kind == Automatic && r.cycle == w.attempts[id].cycle
    ensures var z := Next(w, CompensateAct(id, c));
            && r.cycle in z.queue && RowReady(z.queue[r.cycle], z.now)
            && (ClassifyReserve(z, r) == KeyTaken <==>
                  && !r.deferred && w.cycles[r.cycle].state == CycleQueued && CompletedOn(w, r.cycle) == {}
                  && r.eligible && r.agent in w.cfg.dir.ownerOf && HasRoom(z, r.agent))
  {
    hide Next, Linked, OneEach, LiveOn, CompletedOn, KeyUsed, RowReady, HasRoom, CompensationIgnored, ClassifyReserve;
    var z := Next(w, CompensateAct(id, c));
    LinkedCycle(w, id);
    UnfinishedIsLive(w.attempts[id], c);
    CompensatedCycle(w, id, c);
    CompensatedRow(w, id, c);
    NobodyLeftLive(w, id, z);
    CompletedStay(w, id, z);
    OwnKeyUsed(z, id);
    InsertMeetsKeys(z, r);
  }

  /** Trying again, any number of times, leaves the row where it was. */
  lemma {:induction false} RetriesChangeNothing(v: World, acts: seq<Act>)
    requires forall k | 0 <= k < |acts| :: acts[k].ReserveAct? && ClassifyReserve(v, acts[k].request) == KeyTaken
    ensures Run(v, acts) == v
    decreases |acts|
  {
    if acts != [] {
      hide ClassifyReserve, Next;
      var last := |acts| - 1;
      assert forall k | 0 <= k < last :: acts[..last][k] == acts[k];
      RetriesChangeNothing(v, acts[..last]);
      InsertMeetsKeys(v, acts[last].request);
    }
  }

  // ----- the drain that meets such a row ----------------------------------

  /** How one candidate's transaction on a row it could lock shows in the drain. */
  function Seen(o: ReserveOutcome): Drain.TxOutcome {
    match o
    case RowUnavailable => Drain.CandidateRejected
    case DeferredByBarrier => Drain.BarrierDefers
    case StaleCycleRow => Drain.CycleStale
    case CompletedSameCycle => Drain.CompletedSame
    case ExistingAttempt => Drain.Existing(Drain.OtherLive)
    case CandidateRejected => Drain.CandidateRejected
    case KeyTaken => Drain.KeyViolated
    case Granted => Drain.Granted
  }

  /** The oldest takeable row of the call and of every candidate's transaction is `row`. */
  predicate Meets(c: Drain.Call, excluded: set<Drain.RowId>, row: Drain.RowId) {
    && c.mayAssign && !c.precheckDefers
    && Drain.FirstReady(c.precheck, excluded) == Some(row)
    && forall i | 0 <= i < |c.candidates| ::
         Drain.FirstReady(
           if c.enforced then Drain.OnlyRow(c.candidates[i].view, row) else c.candidates[i].view, excluded) == Some(row)
  }

  /** Candidate `i` tries the row in the world that `before[i]` leads to. */
  predicate Tries(c: Drain.Call, w: World, before: seq<seq<Act>>, rs: seq<ReserveRequest>) {
    && |before| == |rs| == |c.candidates|
    && forall i | 0 <= i < |rs| :: c.candidates[i].outcome == Seen(ClassifyReserve(Run(w, before[i]), rs[i]))
  }

  /** Candidate `i` passes every check, and all before it were turned down. */
  predicate FirstToPass(w: World, before: seq<seq<Act>>, rs: seq<ReserveRequest>, i: nat) {
    && i < |rs| && |before| == |rs|
    && ChecksPass(Run(w, before[i]), rs[i])
    && forall j | 0 <= j < i :: ClassifyReserve(Run(w, before[j]), rs[j]) == CandidateRejected
  }

  lemma {:induction false} FirstViolation(
    c: Drain.Call, candidates: seq<Drain.Candidate>, excluded: set<Drain.RowId>, row: Drain.RowId, i: nat)
    requires row !in excluded && i < |candidates|
    requires candidates[i].outcome == Drain.KeyViolated
    requires forall j | 0 <= j < i :: candidates[j].outcome == Drain.CandidateRejected
    requires forall j | 0 <= j < |candidates| ::
      Drain.FirstReady(
        if c.enforced then Drain.OnlyRow(candidates[j].view, row) else candidates[j].view, excluded) == Some(row)
    ensures Drain.TryCandidates(c, candidates, excluded, row) == Drain.Reservation(None, Drain.KeyRefused, None)
    decreases i
  {
    hide Drain.FirstReady, Drain.OnlyRow;
    if i > 0 {
      var rest := candidates[1..];
      assert forall j | 0 <= j < |rest| :: rest[j] == candidates[j + 1];
      FirstViolation(c, rest, excluded, row, i - 1);
    }
  }

  /**
   A drain whose oldest row has a spent key stops at it as soon as one candidate
   passes the checks: the item raises, and every row behind it is left alone.
   */
  lemma SpentRowEndsDrain(
    w: World, id: AttemptId, env: nat -> Drain.Call, k: nat, seen: set<Drain.RowId>, total: nat, row: Drain.RowId,
    before: seq<seq<Act>>, rs: seq<ReserveRequest>, i: nat)
    requires Linked(w) && id in w.attempts
    requires forall j | 0 <= j < |rs| :: rs[j].cycle == w.attempts[id].cycle && rs[j].kind == w.attempts[id].kind
    requires Meets(env(k), seen, row) && Tries(env(k), w, before, rs) && FirstToPass(w, before, rs, i)
    requires |seen| < total
    ensures Drain.ProcessItem(env(k), seen) == Drain.ItemResult(Drain.Raised, None, false, false)
    ensures Drain.Trace(env, k, seen, total) == [Drain.ItemResult(Drain.Raised, None, false, false)]
  {
    hide Run, Linked, ClassifyReserve, ChecksPass, Drain.FirstReady, Drain.OnlyRow, Drain.TryCandidates;
    var c := env(k);
    SpentKeyIff(w, before[i], id, rs[i]);
    assert c.candidates[i].outcome == Drain.KeyViolated;
    forall j | 0 <= j < i
      ensures c.candidates[j].outcome == Drain.CandidateRejected
    {
      assert ClassifyReserve(Run(w, before[j]), rs[j]) == CandidateRejected;
    }
    TakenRowIsNew(c.precheck, seen, row);
    FirstViolation(c, c.candidates, seen, row, i);
  }

  lemma TakenRowIsNew(view: seq<Drain.RowView>, excluded: set<Drain.RowId>, row: Drain.RowId)
    requires Drain.FirstReady(view, excluded) == Some(row)
    ensures row !in excluded
  {
  }
}
