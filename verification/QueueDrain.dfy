/**
 * The queue drain: rows are taken oldest first, never twice in one drain,
 * while other workers change the queue between any two of its transactions.
 */
module QueueDrain {
  import opened Base

  type RowId = nat

  /** One queue row as a query sees it; `ready` says its retry time and claim allow taking it now. */
  datatype RowView = RowView(id: RowId, ready: bool)

  datatype AttemptState = Reserved | OtherLive

  /** What one candidate's transaction finds once it has locked the row; a violated key raises out of the drain. */
  datatype TxOutcome =
    | BarrierDefers
    | CycleStale
    | LegacyAmbiguous
    | CompletedSame
    | Existing(state: AttemptState)
    | CandidateRejected
    | KeyViolated
    | Granted

  /** The row views are in queue order and omit rows other workers hold locked. */
  datatype Candidate = Candidate(view: seq<RowView>, outcome: TxOutcome)

  datatype ExecOutcome =
    | ExecAssigned
    | ExecConvergedExternalOwner
    | ExecStaleTicket
    | ExecSkippedStaleCycle
    | ExecRetryableExternalError
    | ExecRepairRequired
    | ExecOther
    | ExecRaises

  /** Everything the database and the provider answer during one call. */
  datatype Call = Call(
    mayAssign: bool,
    enforced: bool,
    precheck: seq<RowView>,
    precheckDefers: bool,
    candidates: seq<Candidate>,
    someNotReady: bool,
    deferView: seq<RowView>,
    exec: ExecOutcome)

  datatype Reason =
    | ReservedNow
    | ExistingAttempt
    | CompletedSameCycle
    | LegacyCycleAmbiguous
    | StaleCycle
    | QueueEmptyOrClaimed
    | NoEligibleCandidate
    | CandidateChanged
    | DeferredStabilizingCohort
    | CapacityNotReady
    | KeyRefused

  datatype Reservation = Reservation(attempt: Option<AttemptState>, reason: Reason, row: Option<RowId>)

  datatype Outcome =
    | AssignedNewEffect
    | ConvergedCompleted
    | ConvergedExternalOwner
    | QuarantinedLegacyAmbiguous
    | QuarantinedStaleCycle
    | QuarantinedPermanentProviderError
    | DeferredNoAgent
    | DeferredCandidateChanged
    | DeferredProviderTransient
    | DeferredCohort
    | DeferredCapacityNotReady
    | ClaimedElsewhere
    | QueueEmpty
    | SystemicFailure
    | Raised

  /** `Raised` stands for the exception that leaves the call instead of a result. */
  datatype ItemResult = ItemResult(outcome: Outcome, row: Option<RowId>, madeProgress: bool, effectApplied: bool)

  // ---------------------------------------------------------------- one reservation

  /** The oldest ready row that is not excluded. */
  function FirstReady(view: seq<RowView>, excluded: set<RowId>): (r: Option<RowId>)
    ensures r.Some? ==> r.value !in excluded
  {
    if view == [] then None
    else if view[0].ready && view[0].id !in excluded then Some(view[0].id)
    else FirstReady(view[1..], excluded)
  }

  predicate Takeable(row: RowView, excluded: set<RowId>) {
    row.ready && row.id !in excluded
  }

  /** The row taken is the first takeable one; none is taken exactly when there is none. */
  lemma {:induction false} TakesOldest(view: seq<RowView>, excluded: set<RowId>)
    ensures FirstReady(view, excluded).None? <==> forall i :: 0 <= i < |view| ==> !Takeable(view[i], excluded)
    ensures FirstReady(view, excluded).Some? ==>
      exists i :: 0 <= i < |view| && FirstReady(view, excluded) == Some(view[i].id) && Takeable(view[i], excluded)
        && forall j :: 0 <= j < i ==> !Takeable(view[j], excluded)
  {
    if view != [] && !Takeable(view[0], excluded) {
      var rest := view[1..];
      TakesOldest(rest, excluded);
      assert forall i :: 0 < i < |view| ==> view[i] == rest[i - 1];
      if FirstReady(rest, excluded).Some? {
        var k :| 0 <= k < |rest| && FirstReady(rest, excluded) == Some(rest[k].id) && Takeable(rest[k], excluded)
          && forall j :: 0 <= j < k ==> !Takeable(rest[j], excluded);
        assert view[k + 1] == rest[k];
      }
    }
  }

  /** The oldest row that is not excluded, ready or not: the one a drain without candidates backs off. */
  function FirstActive(view: seq<RowView>, excluded: set<RowId>): (r: Option<RowId>)
    ensures r.Some? ==> r.value !in excluded
  {
    if view == [] then None
    else if view[0].id !in excluded then Some(view[0].id)
    else FirstActive(view[1..], excluded)
  }

  function OnlyRow(view: seq<RowView>, id: RowId): seq<RowView> {
    if view == [] then []
    else if view[0].id == id then [view[0]] + OnlyRow(view[1..], id)
    else OnlyRow(view[1..], id)
  }

  function TryCandidates(
    c: Call, candidates: seq<Candidate>, excluded: set<RowId>, prechecked: RowId): (r: Reservation)
    requires prechecked !in excluded
    ensures r.row.Some? ==> r.row.value !in excluded
    ensures r.attempt.Some? || r.reason == StaleCycle || r.reason == LegacyCycleAmbiguous ==> r.row.Some?
  {
    if candidates == [] then
      Reservation(None, CandidateChanged, FirstActive(c.deferView, excluded))
    else
      var view := if c.enforced then OnlyRow(candidates[0].view, prechecked) else candidates[0].view;
      var row := FirstReady(view, excluded);
      if row.None? then Reservation(None, QueueEmptyOrClaimed, None)
      else
        match candidates[0].outcome
        case BarrierDefers => Reservation(None, DeferredStabilizingCohort, row)
        case CycleStale => Reservation(None, StaleCycle, row)
        case LegacyAmbiguous => Reservation(None, LegacyCycleAmbiguous, row)
        case CompletedSame => Reservation(Some(OtherLive), CompletedSameCycle, row)
        case Existing(state) => Reservation(Some(state), ExistingAttempt, row)
        case CandidateRejected => TryCandidates(c, candidates[1..], excluded, prechecked)
        case KeyViolated => Reservation(None, KeyRefused, None)
        case Granted => Reservation(Some(Reserved), ReservedNow, row)
  }

  function ReserveNext(c: Call, excluded: set<RowId>): (r: Reservation)
    ensures r.row.Some? ==> r.row.value !in excluded
    ensures r.attempt.Some? || r.reason == StaleCycle || r.reason == LegacyCycleAmbiguous ==> r.row.Some?
  {
    var row := FirstReady(c.precheck, excluded);
    if row.None? then Reservation(None, QueueEmptyOrClaimed, None)
    else if c.precheckDefers then Reservation(None, DeferredStabilizingCohort, row)
    else if c.candidates == [] then
      var deferred := FirstActive(c.deferView, excluded);
      if c.enforced && c.someNotReady then Reservation(None, CapacityNotReady, deferred)
      else Reservation(None, NoEligibleCandidate, deferred)
    else TryCandidates(c, c.candidates, excluded, row.value)
  }

  // ---------------------------------------------------------------- one item

  function Typed(exec: ExecOutcome, effectPending: bool): Outcome {
    match exec
    case ExecAssigned => if effectPending then AssignedNewEffect else ConvergedCompleted
    case ExecConvergedExternalOwner => ConvergedExternalOwner
    case ExecStaleTicket => QuarantinedPermanentProviderError
    case ExecSkippedStaleCycle => QuarantinedStaleCycle
    case ExecRetryableExternalError => DeferredProviderTransient
    case ExecRepairRequired => SystemicFailure
    case ExecOther => ClaimedElsewhere
    case ExecRaises => Raised
  }

  predicate Progress(o: Outcome) {
    o in {AssignedNewEffect, ConvergedCompleted, ConvergedExternalOwner, QuarantinedPermanentProviderError,
          QuarantinedStaleCycle}
  }

  /** The typed result; it never names an excluded row, and progress always names one. */
  function ProcessItem(c: Call, excluded: set<RowId>): (r: ItemResult)
    ensures r.row.Some? ==> r.row.value !in excluded
    ensures r.madeProgress || r.effectApplied || r.outcome.ClaimedElsewhere? || r.outcome.SystemicFailure? ==> r.row.Some?
    ensures r.effectApplied <==> r.outcome == AssignedNewEffect
  {
    if !c.mayAssign then ItemResult(DeferredNoAgent, None, false, false)
    else
      var reservation := ReserveNext(c, excluded);
      var row := reservation.row;
      match reservation.attempt
      case None =>
        (match reservation.reason
         case QueueEmptyOrClaimed => ItemResult(QueueEmpty, None, false, false)
         case LegacyCycleAmbiguous => ItemResult(QuarantinedLegacyAmbiguous, row, true, false)
         case StaleCycle => ItemResult(QuarantinedStaleCycle, row, true, false)
         case CandidateChanged => ItemResult(DeferredCandidateChanged, row, false, false)
         case DeferredStabilizingCohort => ItemResult(DeferredCohort, row, false, false)
         case CapacityNotReady => ItemResult(DeferredCapacityNotReady, row, false, false)
         case KeyRefused => ItemResult(Raised, None, false, false)
         case _ => ItemResult(DeferredNoAgent, row, false, false))
      case Some(state) =>
        if reservation.reason == CompletedSameCycle then ItemResult(ConvergedCompleted, row, true, false)
        else
          var typed := Typed(c.exec, state == Reserved);
          if typed == Raised then ItemResult(Raised, None, false, false)
          else ItemResult(typed, row, Progress(typed), typed == AssignedNewEffect)
  }

  /** The row a drain without candidates backs off is the oldest that is not excluded, ready or not. */
  lemma {:induction false} BacksOffOldest(view: seq<RowView>, excluded: set<RowId>)
    ensures FirstActive(view, excluded).None? <==> forall i :: 0 <= i < |view| ==> view[i].id in excluded
    ensures FirstActive(view, excluded).Some? ==>
      exists i :: 0 <= i < |view| && FirstActive(view, excluded) == Some(view[i].id)
        && forall j :: 0 <= j < i ==> view[j].id in excluded
  {
    if view != [] && view[0].id in excluded {
      var rest := view[1..];
      BacksOffOldest(rest, excluded);
      assert forall i :: 0 < i < |view| ==> view[i] == rest[i - 1];
      if FirstActive(rest, excluded).Some? {
        var k :| 0 <= k < |rest| && FirstActive(rest, excluded) == Some(rest[k].id)
          && forall j :: 0 <= j < k ==> rest[j].id in excluded;
        assert view[k + 1] == rest[k];
      }
    }
  }

  /** A row the candidate's transaction may take: ready and not excluded, and under enforcement the one already checked. */
  predicate Offered(c: Call, row: RowView, excluded: set<RowId>, prechecked: RowId) {
    row.ready && row.id !in excluded && (c.enforced ==> row.id == prechecked)
  }

  predicate OffersNothing(c: Call, view: seq<RowView>, excluded: set<RowId>, prechecked: RowId) {
    forall i :: 0 <= i < |view| ==> !Offered(c, view[i], excluded, prechecked)
  }

  lemma {:induction false} OnlyRowOffers(c: Call, view: seq<RowView>, excluded: set<RowId>, prechecked: RowId)
    ensures FirstReady(OnlyRow(view, prechecked), excluded).None? <==>
      forall i :: 0 <= i < |view| ==> !(Takeable(view[i], excluded) && view[i].id == prechecked)
    ensures FirstReady(OnlyRow(view, prechecked), excluded).Some? ==>
      FirstReady(OnlyRow(view, prechecked), excluded) == Some(prechecked)
  {
    if view != [] {
      OnlyRowOffers(c, view[1..], excluded, prechecked);
      assert forall i :: 0 < i < |view| ==> view[i] == view[1..][i - 1];
    }
  }

  /** The row the candidate's transaction takes, if any. */
  function RowFor(c: Call, view: seq<RowView>, excluded: set<RowId>, prechecked: RowId): Option<RowId> {
    FirstReady(if c.enforced then OnlyRow(view, prechecked) else view, excluded)
  }

  lemma RowIsOffered(c: Call, view: seq<RowView>, excluded: set<RowId>, prechecked: RowId)
    ensures RowFor(c, view, excluded, prechecked).None? <==> OffersNothing(c, view, excluded, prechecked)
    ensures c.enforced && RowFor(c, view, excluded, prechecked).Some? ==>
      RowFor(c, view, excluded, prechecked) == Some(prechecked)
  {
    OnlyRowOffers(c, view, excluded, prechecked);
    TakesOldest(view, excluded);
  }

  /** Every candidate before `n` was offered a row and rejected. */
  predicate AllRejected(c: Call, candidates: seq<Candidate>, excluded: set<RowId>, prechecked: RowId, n: nat)
    requires n <= |candidates|
  {
    forall j :: 0 <= j < n ==>
      !OffersNothing(c, candidates[j].view, excluded, prechecked) && candidates[j].outcome == CandidateRejected
  }

  /**
   * The first candidate that is offered no row, or is not rejected, decides the reservation: the
   * former ends it empty-handed, the latter with the answer of its transaction.
   */
  lemma {:induction false} FirstAnswerDecides(
    c: Call, candidates: seq<Candidate>, excluded: set<RowId>, prechecked: RowId, n: nat)
    requires prechecked !in excluded && n <= |candidates|
    requires AllRejected(c, candidates, excluded, prechecked, n)
    ensures var r := TryCandidates(c, candidates, excluded, prechecked);
      if n == |candidates| then r == Reservation(None, CandidateChanged, FirstActive(c.deferView, excluded))
      else if OffersNothing(c, candidates[n].view, excluded, prechecked) then r == Reservation(None, QueueEmptyOrClaimed, None)
      else
        var row := RowFor(c, candidates[n].view, excluded, prechecked);
        match candidates[n].outcome
        case BarrierDefers => r == Reservation(None, DeferredStabilizingCohort, row)
        case CycleStale => r == Reservation(None, StaleCycle, row)
        case LegacyAmbiguous => r == Reservation(None, LegacyCycleAmbiguous, row)
        case CompletedSame => r.attempt.Some? && r.reason == CompletedSameCycle && r.row == row
        case Existing(state) => r == Reservation(Some(state), ExistingAttempt, row)
        case CandidateRejected => true
        case KeyViolated => r == Reservation(None, KeyRefused, None)
        case Granted => r == Reservation(Some(Reserved), ReservedNow, row)
    decreases n
  {
    hide OffersNothing;
    if candidates != [] {
      RowIsOffered(c, candidates[0].view, excluded, prechecked);
    }
    if n > 0 {
      var rest := candidates[1..];
      assert forall j :: 0 <= j < n - 1 ==> rest[j] == candidates[j + 1];
      FirstAnswerDecides(c, rest, excluded, prechecked, n - 1);
      assert n < |candidates| ==> rest[n - 1] == candidates[n];
    }
  }

  /**
   * What an item reports: without assignment nothing is tried; without an attempt the reason decides,
   * and only a quarantined row counts as progress; with one, its execution decides.
   */
  lemma ItemAnswers(c: Call, excluded: set<RowId>)
    requires c.mayAssign
    ensures var item, r := ProcessItem(c, excluded), ReserveNext(c, excluded);
      var executes := r.attempt.Some? && r.reason != CompletedSameCycle;
      && (r.attempt.None? ==>
            && (item.outcome == QueueEmpty <==> r.reason == QueueEmptyOrClaimed)
            && (item.outcome == QuarantinedLegacyAmbiguous <==> r.reason == LegacyCycleAmbiguous)
            && (item.outcome == QuarantinedStaleCycle <==> r.reason == StaleCycle)
            && (item.outcome == DeferredCandidateChanged <==> r.reason == CandidateChanged)
            && (item.outcome == DeferredCohort <==> r.reason == DeferredStabilizingCohort)
            && (item.outcome == DeferredCapacityNotReady <==> r.reason == CapacityNotReady)
            && (item.outcome == DeferredNoAgent ==> r.reason in {NoEligibleCandidate, ReservedNow, ExistingAttempt, CompletedSameCycle})
            && (item.madeProgress <==> r.reason in {LegacyCycleAmbiguous, StaleCycle}))
      && (r.attempt.Some? && !executes ==> item == ItemResult(ConvergedCompleted, r.row, true, false))
      && (executes ==>
            && (item.outcome == AssignedNewEffect <==> c.exec == ExecAssigned && r.attempt == Some(Reserved))
            && (item.outcome == ConvergedCompleted <==> c.exec == ExecAssigned && r.attempt != Some(Reserved))
            && (item.outcome == ConvergedExternalOwner <==> c.exec == ExecConvergedExternalOwner)
            && (item.outcome == QuarantinedPermanentProviderError <==> c.exec == ExecStaleTicket)
            && (item.outcome == QuarantinedStaleCycle <==> c.exec == ExecSkippedStaleCycle)
            && (item.outcome == DeferredProviderTransient <==> c.exec == ExecRetryableExternalError)
            && (item.outcome == ClaimedElsewhere <==> c.exec == ExecOther)
            && (item.madeProgress <==> c.exec in {ExecAssigned, ExecConvergedExternalOwner, ExecStaleTicket, ExecSkippedStaleCycle}))
      && (item.outcome !in {QueueEmpty, Raised} ==> item.row == r.row)
    ensures ProcessItem(c.(mayAssign := false), excluded) == ItemResult(DeferredNoAgent, None, false, false)
  {
    hide ReserveNext;
  }

  /** Before any candidate: nothing ready, a barrier, or nobody to offer the row to, in which case the oldest row backs off. */
  lemma ReservationStopsEarly(c: Call, excluded: set<RowId>)
    ensures var r := ReserveNext(c, excluded);
      var none := forall i :: 0 <= i < |c.precheck| ==> !Takeable(c.precheck[i], excluded);
      && (none ==> r == Reservation(None, QueueEmptyOrClaimed, None))
      && (!none && c.precheckDefers ==> r.attempt.None? && r.reason == DeferredStabilizingCohort && r.row.Some?)
      && (!none && !c.precheckDefers && c.candidates == [] ==>
            && r.attempt.None? && r.row == FirstActive(c.deferView, excluded)
            && r.reason == if c.enforced && c.someNotReady then CapacityNotReady else NoEligibleCandidate)
      && (!none && !c.precheckDefers && c.candidates != [] ==>
            exists row: RowId :: row !in excluded && FirstReady(c.precheck, excluded) == Some(row)
              && r == TryCandidates(c, c.candidates, excluded, row))
  {
    hide TryCandidates;
    TakesOldest(c.precheck, excluded);
  }

  /** A new effect is reported exactly when this call's attempt was still reserved and its execution assigned. */
  lemma NewEffectIff(c: Call, excluded: set<RowId>)
    ensures ProcessItem(c, excluded).effectApplied <==>
      && c.mayAssign
      && ReserveNext(c, excluded).attempt == Some(Reserved)
      && ReserveNext(c, excluded).reason != CompletedSameCycle
      && c.exec == ExecAssigned
    ensures ReserveNext(c, excluded).reason == ReservedNow ==> ReserveNext(c, excluded).attempt == Some(Reserved)
  {
    CandidateReasons(c, c.candidates, excluded);
  }

  /** A drain stops for a systemic failure exactly when an execution asked for repair. */
  lemma SystemicFailureIff(c: Call, excluded: set<RowId>)
    ensures ProcessItem(c, excluded).outcome == SystemicFailure <==>
      && c.mayAssign
      && ReserveNext(c, excluded).attempt.Some?
      && ReserveNext(c, excluded).reason != CompletedSameCycle
      && c.exec == ExecRepairRequired
  {
    hide ReserveNext;
  }

  /** An item raises exactly when its reservation met a taken key or its execution raised. */
  lemma RaisedIff(c: Call, excluded: set<RowId>)
    ensures ProcessItem(c, excluded).outcome == Raised <==>
      && c.mayAssign
      && (|| ReserveNext(c, excluded) == Reservation(None, KeyRefused, None)
          || (&& ReserveNext(c, excluded).attempt.Some?
              && ReserveNext(c, excluded).reason != CompletedSameCycle
              && c.exec == ExecRaises))
  {
    var row := FirstReady(c.precheck, excluded);
    if row.Some? && !c.precheckDefers && c.candidates != [] {
      RefusedHasNoRow(c, c.candidates, excluded, row.value);
    }
  }

  lemma {:induction false} RefusedHasNoRow(
    c: Call, candidates: seq<Candidate>, excluded: set<RowId>, prechecked: RowId)
    requires prechecked !in excluded
    ensures TryCandidates(c, candidates, excluded, prechecked).reason == KeyRefused ==>
      TryCandidates(c, candidates, excluded, prechecked) == Reservation(None, KeyRefused, None)
  {
    if candidates != [] {
      RefusedHasNoRow(c, candidates[1..], excluded, prechecked);
    }
  }

  /** Capacity is blamed only by an enforcing call that found a ready row, no candidate, and an agent not ready. */
  lemma CapacityBlamedIff(c: Call, excluded: set<RowId>)
    ensures ProcessItem(c, excluded).outcome == DeferredCapacityNotReady <==>
      && c.mayAssign && c.enforced && c.someNotReady
      && FirstReady(c.precheck, excluded).Some? && !c.precheckDefers && c.candidates == []
  {
    var row := FirstReady(c.precheck, excluded);
    if row.Some? && !c.precheckDefers && c.candidates != [] {
      NeverBlamesCapacity(c, c.candidates, excluded, row.value);
    }
  }

  lemma {:induction false} NeverBlamesCapacity(
    c: Call, candidates: seq<Candidate>, excluded: set<RowId>, prechecked: RowId)
    requires prechecked !in excluded
    ensures TryCandidates(c, candidates, excluded, prechecked).reason !in {CapacityNotReady, NoEligibleCandidate}
  {
    if candidates != [] {
      NeverBlamesCapacity(c, candidates[1..], excluded, prechecked);
    }
  }

  /** A fresh reservation comes from the first candidate whose transaction does not reject it. */
  lemma {:induction false} CandidateReasons(c: Call, candidates: seq<Candidate>, excluded: set<RowId>)
    ensures forall row :: row !in excluded && TryCandidates(c, candidates, excluded, row).reason == ReservedNow ==>
      && TryCandidates(c, candidates, excluded, row).attempt == Some(Reserved)
      && exists i :: 0 <= i < |candidates| && candidates[i].outcome == Granted
           && forall j :: 0 <= j < i ==> candidates[j].outcome == CandidateRejected
  {
    if candidates != [] {
      var rest := candidates[1..];
      CandidateReasons(c, rest, excluded);
      forall row | row !in excluded && TryCandidates(c, candidates, excluded, row).reason == ReservedNow
        ensures TryCandidates(c, candidates, excluded, row).attempt == Some(Reserved)
        ensures exists i ::
          && 0 <= i < |candidates| && candidates[i].outcome == Granted
          && forall j :: 0 <= j < i ==> candidates[j].outcome == CandidateRejected
      {
        if candidates[0].outcome == CandidateRejected {
          var k :| 0 <= k < |rest| && rest[k].outcome == Granted
            && forall j :: 0 <= j < k ==> rest[j].outcome == CandidateRejected;
          assert candidates[k + 1] == rest[k];
          assert forall j :: 0 < j < k + 1 ==> candidates[j] == rest[j - 1];
        } else {
          assert candidates[0].outcome == Granted;
        }
      }
    }
  }

  // ---------------------------------------------------------------- the drain as a trace

  function RowsOf(r: ItemResult): set<RowId> {
    if r.row.Some? then {r.row.value} else {}
  }

  predicate Stops(r: ItemResult) {
    r.outcome == QueueEmpty || r.outcome == SystemicFailure || (!r.madeProgress && r.row.None?)
  }

  /** The results of one drain: call number `k` onwards, against whatever the environment answers. */
  function Trace(env: nat -> Call, k: nat, seen: set<RowId>, total: nat): (results: seq<ItemResult>)
    decreases total - |seen|
  {
    if |seen| >= total then []
    else
      var r := ProcessItem(env(k), seen);
      if Stops(r) then [r]
      else
        assert r.row.Some? && |seen + {r.row.value}| == |seen| + 1;
        [r] + Trace(env, k + 1, seen + RowsOf(r), total)
  }

  /** One if the outcome is in the class. */
  function Is(o: Outcome, outcomes: set<Outcome>): nat {
    if o in outcomes then 1 else 0
  }

  function Count(results: seq<ItemResult>, outcomes: set<Outcome>): nat {
    if results == [] then 0
    else Is(results[0].outcome, outcomes) + Count(results[1..], outcomes)
  }

  /** Results that neither progressed nor ended the drain by their outcome. */
  function CountIdle(results: seq<ItemResult>): nat {
    if results == [] then 0
    else
      (if !results[0].madeProgress && results[0].outcome != QueueEmpty && results[0].outcome != SystemicFailure then 1 else 0)
      + CountIdle(results[1..])
  }

  const CONVERGED: set<Outcome> := {ConvergedCompleted, ConvergedExternalOwner}
  const QUARANTINED: set<Outcome> :=
    {QuarantinedLegacyAmbiguous, QuarantinedStaleCycle, QuarantinedPermanentProviderError}
  const DEFERRED: set<Outcome> :=
    {DeferredNoAgent, DeferredCandidateChanged, DeferredProviderTransient, DeferredCohort, DeferredCapacityNotReady}

  ghost predicate Avoids(t: seq<ItemResult>, seen: set<RowId>) {
    forall i :: 0 <= i < |t| && t[i].row.Some? ==> t[i].row.value !in seen
  }

  ghost predicate DistinctRows(t: seq<ItemResult>) {
    forall i, j :: 0 <= i < j < |t| && t[i].row.Some? && t[j].row.Some? ==> t[i].row != t[j].row
  }

  lemma PrependRow(r: ItemResult, rest: seq<ItemResult>, seen: set<RowId>)
    requires Avoids(rest, seen + RowsOf(r)) && DistinctRows(rest)
    requires r.row.Some? ==> r.row.value !in seen
    ensures Avoids([r] + rest, seen) && DistinctRows([r] + rest)
  {
    var t := [r] + rest;
    assert forall i :: 0 < i < |t| ==> t[i] == rest[i - 1];
    forall i | 0 < i < |t| && t[i].row.Some?
      ensures t[i].row.value !in seen && t[i].row != r.row
    {
      assert rest[i - 1].row.value !in seen + RowsOf(r);
    }
  }

  /** No row of the trace was excluded, and no two results name the same row. */
  lemma {:induction false} NoRowTwice(env: nat -> Call, k: nat, seen: set<RowId>, total: nat)
    ensures Avoids(Trace(env, k, seen, total), seen) && DistinctRows(Trace(env, k, seen, total))
    decreases total - |seen|
  {
    hide ProcessItem, Avoids, DistinctRows;
    if |seen| < total && !Stops(ProcessItem(env(k), seen)) {
      var r := ProcessItem(env(k), seen);
      assert |seen + {r.row.value}| == |seen| + 1;
      NoRowTwice(env, k + 1, seen + RowsOf(r), total);
      PrependRow(r, Trace(env, k + 1, seen + RowsOf(r), total), seen);
    } else {
      ShortTrace(Trace(env, k, seen, total), seen);
    }
  }

  lemma ShortTrace(t: seq<ItemResult>, seen: set<RowId>)
    requires |t| <= 1 && (t != [] && t[0].row.Some? ==> t[0].row.value !in seen)
    ensures Avoids(t, seen) && DistinctRows(t)
  {
  }

  /** Every result but the last names a row, and the trace is no longer than the rows still to see. */
  lemma {:induction false} OnlyLastStops(env: nat -> Call, k: nat, seen: set<RowId>, total: nat)
    requires |seen| <= total
    ensures var t := Trace(env, k, seen, total);
      && |t| <= total - |seen|
      && (forall i :: 0 <= i < |t| - 1 ==> !Stops(t[i]) && t[i].row.Some?)
      && (|t| < total - |seen| ==> t != [] && Stops(t[|t| - 1]))
    decreases total - |seen|
  {
    hide ProcessItem;
    if |seen| < total {
      var r := ProcessItem(env(k), seen);
      if !Stops(r) {
        assert |seen + {r.row.value}| == |seen| + 1;
        OnlyLastStops(env, k + 1, seen + RowsOf(r), total);
        var rest := Trace(env, k + 1, seen + RowsOf(r), total);
        var t := [r] + rest;
        forall i | 0 <= i < |t| - 1
          ensures !Stops(t[i]) && t[i].row.Some?
        {
          if i > 0 {
            assert t[i] == rest[i - 1];
          }
        }
      }
    }
  }

  lemma ClassesPartition(o: Outcome)
    ensures Is(o, {AssignedNewEffect}) + Is(o, CONVERGED) + Is(o, QUARANTINED) + Is(o, DEFERRED)
          + Is(o, {ClaimedElsewhere}) + Is(o, {SystemicFailure}) + Is(o, {QueueEmpty}) + Is(o, {Raised}) == 1
  {
  }

  /** The counters partition the results: each is counted once, unless it found the queue empty or raised. */
  lemma {:induction false} CountersAddUp(results: seq<ItemResult>)
    ensures Count(results, {AssignedNewEffect}) + Count(results, CONVERGED) + Count(results, QUARANTINED)
          + Count(results, DEFERRED) + Count(results, {ClaimedElsewhere}) + Count(results, {SystemicFailure})
          + Count(results, {QueueEmpty}) + Count(results, {Raised})
          == |results|
  {
    hide Is;
    if results != [] {
      CountersAddUp(results[1..]);
      ClassesPartition(results[0].outcome);
    }
  }

  lemma {:induction false} CountBounds(results: seq<ItemResult>, outcomes: set<Outcome>)
    ensures Count(results, outcomes) <= |results|
    ensures (forall i :: 0 <= i < |results| ==> results[i].outcome !in outcomes) ==> Count(results, outcomes) == 0
    decreases |results|
  {
    if results != [] {
      CountBounds(results[1..], outcomes);
    }
  }

  lemma {:induction false} CountAppend(results: seq<ItemResult>, r: ItemResult, outcomes: set<Outcome>)
    ensures Count(results + [r], outcomes) == Count(results, outcomes) + Is(r.outcome, outcomes)
    decreases |results|
  {
    if results == [] {
      assert results + [r] == [r];
    } else {
      assert (results + [r])[1..] == results[1..] + [r];
      CountAppend(results[1..], r, outcomes);
    }
  }

  lemma {:induction false} CountIdleAppend(results: seq<ItemResult>, r: ItemResult)
    ensures CountIdle(results + [r]) == CountIdle(results) + CountIdle([r])
    decreases |results|
  {
    if results == [] {
      assert results + [r] == [r];
    } else {
      assert (results + [r])[1..] == results[1..] + [r];
      CountIdleAppend(results[1..], r);
    }
  }

  /** The drain ends with an exception. */
  predicate Raises(t: seq<ItemResult>) {
    t != [] && t[|t| - 1].outcome == Raised
  }

  /** A raised item names no row, so it stops the drain. */
  lemma {:induction false} TraceRaises(env: nat -> Call, k: nat, seen: set<RowId>, total: nat, i: nat)
    requires i < |Trace(env, k, seen, total)|
    ensures Trace(env, k, seen, total)[i].outcome == Raised ==> Stops(Trace(env, k, seen, total)[i])
    decreases i
  {
    var r := ProcessItem(env(k), seen);
    RaisedNamesNothing(env(k), seen);
    hide ProcessItem;
    if i > 0 && !Stops(r) {
      assert |seen + {r.row.value}| == |seen| + 1;
      TraceRaises(env, k + 1, seen + RowsOf(r), total, i - 1);
    }
  }

  lemma RaisedNamesNothing(c: Call, excluded: set<RowId>)
    ensures ProcessItem(c, excluded).outcome == Raised ==> ProcessItem(c, excluded) == ItemResult(Raised, None, false, false)
  {
  }

  /** A drain finds the queue empty, fails systemically or raises at most once, and only at its end. */
  lemma StopsAreLast(env: nat -> Call, total: nat)
    ensures var t := Trace(env, 0, {}, total);
      && Count(t, {QueueEmpty}) + Count(t, {SystemicFailure}) + Count(t, {Raised}) <= 1
      && (Count(t, {Raised}) == 1 <==> Raises(t))
  {
    hide Trace;
    var t := Trace(env, 0, {}, total);
    OnlyLastStops(env, 0, {}, total);
    if t != [] {
      var front := t[..|t| - 1];
      assert t == front + [t[|t| - 1]];
      forall i | 0 <= i < |front|
        ensures front[i].outcome !in {QueueEmpty, SystemicFailure, Raised}
      {
        assert !Stops(t[i]);
        TraceRaises(env, 0, {}, total, i);
      }
      CountBounds(front, {QueueEmpty});
      CountBounds(front, {SystemicFailure});
      CountBounds(front, {Raised});
      CountAppend(front, t[|t| - 1], {Raised});
      CountAppend(front, t[|t| - 1], {QueueEmpty});
      CountAppend(front, t[|t| - 1], {SystemicFailure});
    }
  }

  // ---------------------------------------------------------------- the loop itself

  datatype Report = Report(
    assignments: nat,
    converged: nat,
    quarantined: nat,
    deferred: nat,
    claimedElsewhere: nat,
    systemicFailures: nat,
    processed: nat,
    noProgress: nat,
    remaining: nat,
    totalPending: nat,
    assignmentDisabled: bool)

  function IdleReport(totalPending: nat, disabled: bool): Report {
    Report(0, 0, 0, 0, 0, 0, 0, 0, totalPending, totalPending, disabled)
  }

  /** Counters of a report are the tallies of a trace. */
  ghost predicate Tallies(r: Report, t: seq<ItemResult>) {
    && r.assignments == Count(t, {AssignedNewEffect})
    && r.converged == Count(t, CONVERGED)
    && r.quarantined == Count(t, QUARANTINED)
    && r.deferred == Count(t, DEFERRED)
    && r.claimedElsewhere == Count(t, {ClaimedElsewhere})
    && r.systemicFailures == Count(t, {SystemicFailure})
  }

  ghost function RowsSeen(t: seq<ItemResult>): set<RowId> {
    set i | 0 <= i < |t| && t[i].row.Some? :: t[i].row.value
  }

  method Tally(r: Report, item: ItemResult, ghost done: seq<ItemResult>) returns (s: Report)
    requires Tallies(r, done) && item.outcome != QueueEmpty
    ensures Tallies(s, done + [item])
    ensures s == r.(assignments := s.assignments, converged := s.converged, quarantined := s.quarantined,
                    deferred := s.deferred, claimedElsewhere := s.claimedElsewhere,
                    systemicFailures := s.systemicFailures)
  {
    hide Count;
    s := r;
    if item.outcome == SystemicFailure {
      s := s.(systemicFailures := s.systemicFailures + 1);
    } else if item.outcome == AssignedNewEffect {
      s := s.(assignments := s.assignments + 1);
    } else if item.outcome in CONVERGED {
      s := s.(converged := s.converged + 1);
    } else if item.outcome in QUARANTINED {
      s := s.(quarantined := s.quarantined + 1);
    } else if item.outcome in DEFERRED {
      s := s.(deferred := s.deferred + 1);
    } else if item.outcome == ClaimedElsewhere {
      s := s.(claimedElsewhere := s.claimedElsewhere + 1);
    }
    CountAppend(done, item, {AssignedNewEffect});
    CountAppend(done, item, CONVERGED);
    CountAppend(done, item, QUARANTINED);
    CountAppend(done, item, DEFERRED);
    CountAppend(done, item, {ClaimedElsewhere});
    CountAppend(done, item, {SystemicFailure});
  }

  /**
   * One drain. An exception inside an item leaves it without a report, and that
   * happens exactly when the trace ends in one. Otherwise its counters are the
   * tallies of the trace, `processed` is the number of distinct rows the trace
   * names, and the closing sanity check cannot fire: never more assignments than
   * rows pending at the start.
   */
  method DrainQueue(
    env: nat -> Call, mayAssign: bool, totalPending: nat, anyPotentialAgent: bool, remaining: nat)
    returns (outcome: Option<Report>)
    ensures !mayAssign || totalPending == 0 || !anyPotentialAgent ==>
      outcome == Some(IdleReport(totalPending, !mayAssign))
    ensures mayAssign && totalPending > 0 && anyPotentialAgent ==>
      var t := Trace(env, 0, {}, totalPending);
      && (outcome.None? <==> Raises(t))
      && (outcome.Some? ==>
            && Tallies(outcome.value, t)
            && outcome.value.noProgress == CountIdle(t)
            && outcome.value.processed == |RowsSeen(t)|
            && outcome.value.remaining == remaining
            && Counted(outcome.value) == |t| - Count(t, {QueueEmpty}))
    ensures outcome.Some? ==>
      && Counted(outcome.value) <= totalPending
      && outcome.value.assignments <= outcome.value.totalPending == totalPending
  {
    hide ProcessItem, RowsSeen, RowsOf, Stops, Count, CountIdle, Trace;
    if !mayAssign || totalPending == 0 || !anyPotentialAgent {
      return Some(IdleReport(totalPending, !mayAssign));
    }
    var report := IdleReport(totalPending, false).(remaining := remaining);
    var seen: set<RowId> := {};
    var k := 0;
    var stopped := false;
    ghost var done: seq<ItemResult> := [];
    ghost var whole := Trace(env, 0, {}, totalPending);
    NothingTallied(report);
    while !stopped && |seen| < totalPending
      invariant |done| == k
      invariant |seen| <= totalPending
      invariant RowsSeen(done) == seen
      invariant Tallies(report, done)
      invariant forall i :: 0 <= i < |done| ==> done[i].outcome != Raised
      invariant report.noProgress == CountIdle(done)
      invariant report.remaining == remaining && report.totalPending == totalPending
      invariant whole == done + if stopped then [] else Trace(env, k, seen, totalPending)
      decreases !stopped, totalPending - |seen|
    {
      var item := ProcessItem(env(k), seen);
      SeenGrows(done, item);
      TraceStep(env, k, seen, totalPending, done);
      if item.outcome == Raised {
        RaisedStops(env(k), seen);
        assert whole[|done|] == item && |whole| == |done| + 1;
        return None;
      }
      if item.outcome != QueueEmpty {
        report := Tally(report, item, done);
      } else {
        EmptyIsUncounted(report, done, item);
      }
      report := report.(noProgress := report.noProgress + CountIdle([item]));
      CountIdleAppend(done, item);
      seen := seen + RowsOf(item);
      stopped := Stops(item);
      done := done + [item];
      k := k + 1;
    }
    TraceEnds(env, k, seen, totalPending, stopped);
    assert whole == done;
    report := report.(processed := |seen|);
    OnlyLastStops(env, 0, {}, totalPending);
    NothingRaised(whole);
    TalliesBound(report, whole);
    return Some(report);
  }

  function Counted(r: Report): nat {
    r.assignments + r.converged + r.quarantined + r.deferred + r.claimedElsewhere + r.systemicFailures
  }

  lemma RaisedStops(c: Call, excluded: set<RowId>)
    ensures ProcessItem(c, excluded).outcome == Raised ==> Stops(ProcessItem(c, excluded))
  {
    RaisedNamesNothing(c, excluded);
    hide ProcessItem;
  }

  lemma NothingRaised(t: seq<ItemResult>)
    requires forall i :: 0 <= i < |t| ==> t[i].outcome != Raised
    ensures Count(t, {Raised}) == 0 && !Raises(t)
  {
    CountBounds(t, {Raised});
  }

  lemma SeenGrows(done: seq<ItemResult>, item: ItemResult)
    ensures RowsSeen(done + [item]) == RowsSeen(done) + RowsOf(item)
  {
    var all := done + [item];
    forall id | id in RowsSeen(done) + RowsOf(item)
      ensures id in RowsSeen(all)
    {
      if id in RowsSeen(done) {
        var i :| 0 <= i < |done| && done[i].row.Some? && done[i].row.value == id;
        assert all[i] == done[i];
      } else {
        assert all[|done|] == item;
      }
    }
  }

  lemma EmptyIsUncounted(r: Report, done: seq<ItemResult>, item: ItemResult)
    requires Tallies(r, done) && item.outcome == QueueEmpty
    ensures Tallies(r, done + [item])
  {
    hide Count;
    CountAppend(done, item, {AssignedNewEffect});
    CountAppend(done, item, CONVERGED);
    CountAppend(done, item, QUARANTINED);
    CountAppend(done, item, DEFERRED);
    CountAppend(done, item, {ClaimedElsewhere});
    CountAppend(done, item, {SystemicFailure});
  }

  lemma NothingTallied(r: Report)
    requires r.assignments == r.converged == r.quarantined == r.deferred == 0
    requires r.claimedElsewhere == r.systemicFailures == 0
    ensures Tallies(r, []) && RowsSeen([]) == {} && CountIdle([]) == 0
  {
  }

  lemma TalliesBound(r: Report, t: seq<ItemResult>)
    requires Tallies(r, t) && Count(t, {Raised}) == 0
    ensures Counted(r) == |t| - Count(t, {QueueEmpty})
  {
    hide Count;
    CountersAddUp(t);
  }

  lemma TraceStep(env: nat -> Call, k: nat, seen: set<RowId>, total: nat, done: seq<ItemResult>)
    requires |seen| < total
    ensures var item := ProcessItem(env(k), seen);
      && (!Stops(item) ==> |seen + RowsOf(item)| == |seen| + 1)
      && |seen + RowsOf(item)| <= |seen| + 1
      && done + Trace(env, k, seen, total)
         == done + [item] + if Stops(item) then [] else Trace(env, k + 1, seen + RowsOf(item), total)
  {
    hide ProcessItem;
    var item := ProcessItem(env(k), seen);
    if item.row.Some? {
      assert seen + RowsOf(item) == seen + {item.row.value};
      assert |seen + {item.row.value}| == |seen| + 1;
    } else {
      assert seen + RowsOf(item) == seen;
    }
    if !Stops(item) {
      var rest := Trace(env, k + 1, seen + RowsOf(item), total);
      assert Trace(env, k, seen, total) == [item] + rest;
      assert done + ([item] + rest) == done + [item] + rest;
    }
  }

  lemma TraceEnds(env: nat -> Call, k: nat, seen: set<RowId>, total: nat, stopped: bool)
    requires stopped || |seen| >= total
    ensures (if stopped then [] else Trace(env, k, seen, total)) == []
  {
  }
}
