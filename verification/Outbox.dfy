/**
 * Delivery of outbox events: a claim takes the event and its thread's lease in
 * one transaction, the request runs outside, and the outcome is recorded in
 * another, possibly long after a second worker has taken the event over.
 */
module Outbox {
  import opened Base

  type EventId = nat
  type ThreadId = nat
  type ClaimId = nat
  /** Milliseconds since the epoch. */
  type Instant = int

  datatype Status = Pending | Processing | RetryScheduled | Delivered | DeadLetter | Cancelled

  datatype Event = Event(
    thread: Option<ThreadId>,
    status: Status,
    attempts: nat,
    maxAttempts: nat,
    availableAt: Instant,
    lockedAt: Option<Instant>)

  datatype Lease = Lease(current: Option<EventId>, lockedAt: Option<Instant>)

  /** What a worker carries away from a claim, and when it claimed. */
  datatype Claim = Claim(event: EventId, thread: ThreadId, attempt: nat, maxAttempts: nat, since: Instant)

  datatype Failure = Failure(retryable: bool, configurationMissing: bool)

  datatype Tables = Tables(events: map<EventId, Event>, leases: map<ThreadId, Lease>)

  // ---------------------------------------------------------------- the three transactions

  predicate Fresh(lockedAt: Option<Instant>, now: Instant, stale: nat) {
    lockedAt.Some? && lockedAt.value > now - stale
  }

  predicate Claimable(t: Tables, e: EventId, now: Instant, stale: nat) {
    && e in t.events
    && var event := t.events[e];
       && event.status !in {Delivered, DeadLetter, Cancelled}
       && !(event.status == Processing && Fresh(event.lockedAt, now, stale))
       && event.availableAt <= now
       && event.thread.Some?
       && (event.thread.value in t.leases ==>
             var lease := t.leases[event.thread.value];
             !(lease.current.Some? && lease.current != Some(e) && Fresh(lease.lockedAt, now, stale)))
  }

  function ClaimEvent(t: Tables, e: EventId, now: Instant): Tables
    requires e in t.events && t.events[e].thread.Some?
  {
    var event := t.events[e];
    Tables(
      t.events[e := event.(status := Processing, lockedAt := Some(now), attempts := event.attempts + 1)],
      t.leases[event.thread.value := Lease(Some(e), Some(now))])
  }

  function ClaimOf(t: Tables, e: EventId, now: Instant): Claim
    requires e in t.events && t.events[e].thread.Some?
  {
    Claim(e, t.events[e].thread.value, t.events[e].attempts + 1, t.events[e].maxAttempts, now)
  }

  function ReleaseThread(leases: map<ThreadId, Lease>, c: Claim): map<ThreadId, Lease> {
    if c.thread in leases && leases[c.thread].current == Some(c.event)
    then leases[c.thread := Lease(None, None)]
    else leases
  }

  function RecordSuccess(t: Tables, c: Claim): Tables {
    if c.event !in t.events then t
    else
      Tables(
        if t.events[c.event].status == Delivered then t.events
        else t.events[c.event := t.events[c.event].(status := Delivered, lockedAt := None)],
        ReleaseThread(t.leases, c))
  }

  function FailedEvent(event: Event, c: Claim, f: Failure, now: Instant, delay: nat): Event {
    var exhausted := !f.configurationMissing && c.attempt >= c.maxAttempts;
    var attempts := if f.configurationMissing && event.attempts > 0 then event.attempts - 1 else event.attempts;
    if !f.retryable || exhausted then
      event.(status := DeadLetter, lockedAt := None, attempts := attempts, availableAt := now)
    else
      event.(status := RetryScheduled, lockedAt := None, attempts := attempts, availableAt := now + delay)
  }

  function RecordFailure(t: Tables, c: Claim, f: Failure, now: Instant, delay: nat): Tables {
    if c.event !in t.events then t
    else
      Tables(
        if t.events[c.event].status == Delivered then t.events
        else t.events[c.event := FailedEvent(t.events[c.event], c, f, now, delay)],
        ReleaseThread(t.leases, c))
  }

  /** A missing configuration costs no attempt and never ends the event, on whatever attempt it was. */
  lemma MissingConfigurationCostsNothing(t: Tables, e: EventId, now: Instant, later: Instant, delay: nat)
    requires e in t.events && t.events[e].thread.Some?
    ensures var claimed := ClaimEvent(t, e, now);
      var failed := RecordFailure(claimed, ClaimOf(t, e, now), Failure(true, true), later, delay);
      && failed.events[e].attempts == t.events[e].attempts
      && failed.events[e].status == RetryScheduled && failed.events[e].availableAt == later + delay
      && failed.leases[t.events[e].thread.value].current.None?
  {
  }

  // ---------------------------------------------------------------- runs of many workers

  datatype World = World(tables: Tables, claims: map<ClaimId, Claim>, now: Instant)

  datatype Act =
    | Receive(id: EventId, thread: Option<ThreadId>, maxAttempts: nat, availableAt: Instant)
    | Wait(time: nat)
    | Take(claim: ClaimId, id: EventId)
    | Succeed(claim: ClaimId)
    | Fail(claim: ClaimId, failure: Failure, delay: nat)
    | Crash(claim: ClaimId)

  /** A worker takes an event, reports on a claim it holds, or dies holding one. */
  function Next(w: World, stale: nat, a: Act): World {
    match a
    case Receive(id, thread, maxAttempts, availableAt) =>
      if id in w.tables.events then w
      else
        w.(tables := w.tables.(events := w.tables.events[id := Event(thread, Pending, 0, maxAttempts, availableAt, None)]))
    case Wait(time) => w.(now := w.now + time)
    case Take(k, id) =>
      if k in w.claims || !Claimable(w.tables, id, w.now, stale) then w
      else
        w.(tables := ClaimEvent(w.tables, id, w.now), claims := w.claims[k := ClaimOf(w.tables, id, w.now)])
    case Succeed(k) =>
      if k !in w.claims then w
      else w.(tables := RecordSuccess(w.tables, w.claims[k]), claims := w.claims - {k})
    case Fail(k, f, delay) =>
      if k !in w.claims then w
      else w.(tables := RecordFailure(w.tables, w.claims[k], f, w.now, delay), claims := w.claims - {k})
    case Crash(k) => w.(claims := w.claims - {k})
  }

  function Run(w: World, stale: nat, acts: seq<Act>): World
    decreases |acts|
  {
    if acts == [] then w else Run(Next(w, stale, acts[0]), stale, acts[1..])
  }

  // ---------------------------------------------------------------- what each act answers

  /** Someone locked it, and not so long ago that others may take over. */
  predicate LockedSince(lockedAt: Option<Instant>, since: Instant) {
    lockedAt.Some? && lockedAt.value > since
  }

  /**
   * A claim goes through exactly for an event that is due, not over, on a thread, and not being
   * worked on, while no other event holds that thread; it then takes the event, an attempt of it
   * and the thread, and nothing else.
   */
  lemma TakeAnswers(w: World, stale: nat, k: ClaimId, id: EventId)
    requires k !in w.claims
    ensures var u := Next(w, stale, Take(k, id));
      var since := w.now - stale;
      && u.now == w.now
      && (k in u.claims <==>
            && id in w.tables.events
            && var e := w.tables.events[id];
               && (e.status in {Pending, RetryScheduled} || (e.status == Processing && !LockedSince(e.lockedAt, since)))
               && e.availableAt <= w.now
               && e.thread.Some?
               && (e.thread.value in w.tables.leases ==>
                     var lease := w.tables.leases[e.thread.value];
                     lease.current.None? || lease.current.value == id || !LockedSince(lease.lockedAt, since)))
      && (k !in u.claims ==> u == w)
      && (k in u.claims ==>
            var e := w.tables.events[id];
            && u.claims == w.claims[k := Claim(id, e.thread.value, e.attempts + 1, e.maxAttempts, w.now)]
            && u.tables.events == w.tables.events[id := Event(
                                    e.thread, Processing, e.attempts + 1, e.maxAttempts, e.availableAt, Some(w.now))]
            && u.tables.leases == w.tables.leases[e.thread.value := Lease(Some(id), Some(w.now))])
  {
  }

  /** A report lets the claim go, and the thread if it is still the claim's own; a delivered event it leaves alone. */
  lemma ReportAnswers(w: World, stale: nat, a: Act)
    requires (a.Succeed? || a.Fail?) && a.claim in w.claims && w.claims[a.claim].event in w.tables.events
    ensures var u := Next(w, stale, a);
      var c := w.claims[a.claim];
      && u.now == w.now && u.claims == w.claims - {a.claim}
      && u.tables.events.Keys == w.tables.events.Keys
      && (forall e :: e in w.tables.events && e != c.event ==> u.tables.events[e] == w.tables.events[e])
      && u.tables.leases.Keys == w.tables.leases.Keys
      && (forall t :: t in w.tables.leases ==>
            u.tables.leases[t] == if t == c.thread && w.tables.leases[t].current == Some(c.event) then Lease(None, None)
                                  else w.tables.leases[t])
      && (w.tables.events[c.event].status == Delivered ==> u.tables.events[c.event] == w.tables.events[c.event])
      && (a.Succeed? ==> u.tables.events[c.event].status == Delivered)
  {
    hide FailedEvent;
  }

  /**
   * A failed attempt ends the event when it cannot be retried or was the last one allowed, and
   * otherwise schedules it after the delay; a missing configuration gives the attempt back and
   * is never the last one.
   */
  lemma FailureAnswers(w: World, stale: nat, k: ClaimId, f: Failure, delay: nat)
    requires k in w.claims && w.claims[k].event in w.tables.events
    requires w.tables.events[w.claims[k].event].status != Delivered
    ensures var before := w.tables.events[w.claims[k].event];
      var after := Next(w, stale, Fail(k, f, delay)).tables.events[w.claims[k].event];
      && (after.status == DeadLetter <==>
            !f.retryable || (!f.configurationMissing && w.claims[k].maxAttempts <= w.claims[k].attempt))
      && (after.status != DeadLetter ==> after.status == RetryScheduled)
      && after.availableAt == (if after.status == DeadLetter then w.now else w.now + delay)
      && after.attempts == (if f.configurationMissing then Max(before.attempts - 1, 0) else before.attempts)
      && after.lockedAt.None? && after.thread == before.thread && after.maxAttempts == before.maxAttempts
  {
  }

  lemma {:induction false} ClockNeverGoesBack(w: World, stale: nat, acts: seq<Act>)
    ensures w.now <= Run(w, stale, acts).now
    decreases |acts|
  {
    if acts != [] {
      ClockNeverGoesBack(Next(w, stale, acts[0]), stale, acts[1..]);
    }
  }

  predicate Untouched(w: World, u: World, id: EventId) {
    && id in w.tables.events && id in u.tables.events && u.tables.events[id] == w.tables.events[id]
    && forall k :: k in u.claims ==> u.claims[k].event != id
  }

  /**
   * An event nobody is working on rests until it is due: until then no claim on it goes through, in
   * any run, so after a failure its delay passes in full before the next attempt.
   */
  lemma {:induction false} RestsUntilDue(w: World, stale: nat, acts: seq<Act>, id: EventId)
    requires Untouched(w, w, id) && Run(w, stale, acts).now < w.tables.events[id].availableAt
    ensures Untouched(w, Run(w, stale, acts), id)
    decreases |acts|
  {
    if acts != [] {
      var u := Next(w, stale, acts[0]);
      ClockNeverGoesBack(u, stale, acts[1..]);
      assert Untouched(w, u, id) by {
        hide Run, FailedEvent;
      }
      RestsUntilDue(u, stale, acts[1..], id);
    }
  }

  /** The act is a claim on the event that goes through. */
  predicate Claims(w: World, stale: nat, a: Act, id: EventId) {
    a.Take? && a.id == id && a.claim !in w.claims && a.claim in Next(w, stale, a).claims
  }

  /** The only worker of an event fails it for another try: its next attempt starts no earlier than the delay allows. */
  lemma DelayPassesInFull(w: World, stale: nat, k: ClaimId, delay: nat, acts: seq<Act>, next: Act)
    requires k in w.claims && w.claims[k].event in w.tables.events && w.claims[k].attempt < w.claims[k].maxAttempts
    requires w.tables.events[w.claims[k].event].status == Processing
    requires forall j :: j in w.claims && w.claims[j].event == w.claims[k].event ==> j == k
    requires Claims(Run(Next(w, stale, Fail(k, Failure(true, false), delay)), stale, acts), stale, next, w.claims[k].event)
    ensures w.now + delay <= Run(Next(w, stale, Fail(k, Failure(true, false), delay)), stale, acts).now
  {
    hide Run;
    var id := w.claims[k].event;
    var u := Next(w, stale, Fail(k, Failure(true, false), delay));
    var v := Run(u, stale, acts);
    assert u.tables.events[id].availableAt == w.now + delay;
    if v.now < w.now + delay {
      RestsUntilDue(u, stale, acts, id);
    }
  }

  // ---------------------------------------------------------------- leases and locks

  predicate EventLocked(e: Event) {
    e.status == Processing <==> e.lockedAt.Some?
  }

  predicate LeaseNames(t: Tables, thread: ThreadId)
    requires thread in t.leases
  {
    t.leases[thread].current.Some? ==>
      var e := t.leases[thread].current.value;
      && e in t.events
      && t.events[e].status == Processing
      && t.events[e].thread == Some(thread)
      && t.events[e].lockedAt == t.leases[thread].lockedAt
  }

  predicate ProcessingLeased(t: Tables, e: EventId, now: Instant, stale: nat)
    requires e in t.events
  {
    t.events[e].status == Processing ==>
      && t.events[e].thread.Some?
      && t.events[e].thread.value in t.leases
      && (t.leases[t.events[e].thread.value].current == Some(e) || !Fresh(t.events[e].lockedAt, now, stale))
  }

  /**
   * A lease with a current event names an event in processing with the same
   * lock time; an event in processing without its thread's lease is stale.
   */
  ghost predicate Leased(w: World, stale: nat) {
    && (forall e :: e in w.tables.events ==> EventLocked(w.tables.events[e]))
    && (forall t :: t in w.tables.leases ==> LeaseNames(w.tables, t))
    && (forall e :: e in w.tables.events ==> ProcessingLeased(w.tables, e, w.now, stale))
    && (forall k :: k in w.claims ==>
          w.claims[k].event in w.tables.events && w.tables.events[w.claims[k].event].thread == Some(w.claims[k].thread))
  }

  lemma TakeKeepsLeased(w: World, stale: nat, k: ClaimId, id: EventId)
    requires Leased(w, stale)
    ensures Leased(Next(w, stale, Take(k, id)), stale)
  {
    var u := Next(w, stale, Take(k, id));
    if u != w {
      var thread := w.tables.events[id].thread.value;
      forall e | e in u.tables.events
        ensures ProcessingLeased(u.tables, e, u.now, stale)
      {
        if e != id && w.tables.events[e].status == Processing && w.tables.events[e].thread == Some(thread) {
          assert ProcessingLeased(w.tables, e, w.now, stale);
          assert LeaseNames(w.tables, thread);
        } else if e != id {
          assert ProcessingLeased(w.tables, e, w.now, stale);
        }
      }
      forall t | t in u.tables.leases
        ensures LeaseNames(u.tables, t)
      {
        if t != thread {
          assert LeaseNames(w.tables, t);
        }
      }
    }
  }

  /** An event leaves processing and its own lease lets go of it; every other row keeps its place. */
  lemma FinishKeepsLeased(w: World, u: World, stale: nat, k: ClaimId, finished: Event)
    requires Leased(w, stale) && k in w.claims
    requires finished.status != Processing && finished.lockedAt.None?
    requires var c := w.claims[k];
      && finished.thread == w.tables.events[c.event].thread
      && u == World(Tables(w.tables.events[c.event := finished], ReleaseThread(w.tables.leases, c)), w.claims - {k}, w.now)
    ensures Leased(u, stale)
  {
    var c := w.claims[k];
    forall t | t in u.tables.leases
      ensures LeaseNames(u.tables, t)
    {
      assert LeaseNames(w.tables, t);
    }
    forall e | e in u.tables.events
      ensures ProcessingLeased(u.tables, e, u.now, stale)
    {
      assert ProcessingLeased(w.tables, e, w.now, stale);
    }
  }

  lemma CompletionKeepsLeased(w: World, stale: nat, a: Act)
    requires Leased(w, stale) && (a.Succeed? || a.Fail?) && a.claim in w.claims
    ensures Leased(Next(w, stale, a), stale)
  {
    hide Leased;
    var c := w.claims[a.claim];
    ClaimedEventExists(w, stale, a.claim);
    var before := w.tables.events[c.event];
    var finished :=
      if before.status == Delivered then before
      else if a.Succeed? then before.(status := Delivered, lockedAt := None)
      else FailedEvent(before, c, a.failure, w.now, a.delay);
    assert w.tables.events[c.event := before] == w.tables.events;
    FinishKeepsLeased(w, Next(w, stale, a), stale, a.claim, finished);
  }

  lemma ClaimedEventExists(w: World, stale: nat, k: ClaimId)
    requires Leased(w, stale) && k in w.claims
    ensures w.claims[k].event in w.tables.events && EventLocked(w.tables.events[w.claims[k].event])
  {
  }

  lemma StepKeepsLeased(w: World, stale: nat, a: Act)
    requires Leased(w, stale)
    ensures Leased(Next(w, stale, a), stale)
  {
    match a
    case Take(k, id) => TakeKeepsLeased(w, stale, k, id);
    case Succeed(k) =>
      if k in w.claims {
        CompletionKeepsLeased(w, stale, a);
      }
    case Fail(k, f, delay) =>
      if k in w.claims {
        CompletionKeepsLeased(w, stale, a);
      }
    case Receive(_, _, _, _) => QuietKeepsLeased(w, stale, a);
    case Wait(_) => QuietKeepsLeased(w, stale, a);
    case Crash(_) =>
  }

  lemma QuietKeepsLeased(w: World, stale: nat, a: Act)
    requires Leased(w, stale) && (a.Receive? || a.Wait?)
    ensures Leased(Next(w, stale, a), stale)
  {
    var u := Next(w, stale, a);
    forall t | t in u.tables.leases
      ensures LeaseNames(u.tables, t)
    {
      assert LeaseNames(w.tables, t);
    }
    forall e | e in u.tables.events
      ensures ProcessingLeased(u.tables, e, u.now, stale)
    {
      if e in w.tables.events {
        assert ProcessingLeased(w.tables, e, w.now, stale);
      }
    }
  }

  /** Leases and locks agree in every run of any number of workers, crashes and late reports included. */
  lemma {:induction false} RunKeepsLeased(w: World, stale: nat, acts: seq<Act>)
    requires Leased(w, stale)
    ensures Leased(Run(w, stale, acts), stale)
    decreases |acts|
  {
    hide Leased, Next;
    if acts != [] {
      StepKeepsLeased(w, stale, acts[0]);
      RunKeepsLeased(Next(w, stale, acts[0]), stale, acts[1..]);
    }
  }

  /** A thread has at most one event in processing whose lock is not stale. */
  lemma OneFreshPerThread(w: World, stale: nat, d: EventId, e: EventId)
    requires Leased(w, stale) && d in w.tables.events && e in w.tables.events
    requires w.tables.events[d].status == Processing && Fresh(w.tables.events[d].lockedAt, w.now, stale)
    requires w.tables.events[e].status == Processing && Fresh(w.tables.events[e].lockedAt, w.now, stale)
    requires w.tables.events[d].thread == w.tables.events[e].thread
    ensures d == e
  {
    assert ProcessingLeased(w.tables, d, w.now, stale) && ProcessingLeased(w.tables, e, w.now, stale);
  }

  /** A delivered event stays delivered, with its attempts, whatever superseded workers report later. */
  lemma {:induction false} DeliveredForever(w: World, stale: nat, acts: seq<Act>, e: EventId)
    requires e in w.tables.events && w.tables.events[e].status == Delivered
    ensures e in Run(w, stale, acts).tables.events
    ensures Run(w, stale, acts).tables.events[e] == w.tables.events[e]
    decreases |acts|
  {
    if acts != [] {
      DeliveredForever(Next(w, stale, acts[0]), stale, acts[1..], e);
    }
  }

  /** A worker still holds a claim on the event. */
  predicate ClaimLive(w: World, e: EventId) {
    exists k :: k in w.claims && w.claims[k].event == e
  }

  /** A report on a live claim of the event that delivers it, or that its claim still allows to retry. */
  predicate Revives(w: World, a: Act, e: EventId) {
    || (a.Succeed? && a.claim in w.claims && w.claims[a.claim].event == e)
    || (a.Fail? && a.claim in w.claims && w.claims[a.claim].event == e
        && a.failure.retryable
        && (a.failure.configurationMissing || w.claims[a.claim].attempt < w.claims[a.claim].maxAttempts))
  }

  /** A dead letter stays one through every act but such a report. */
  lemma DeadLetterLeavesIff(w: World, stale: nat, a: Act, e: EventId)
    requires e in w.tables.events && w.tables.events[e].status == DeadLetter
    ensures e in Next(w, stale, a).tables.events
    ensures Next(w, stale, a).tables.events[e].status != DeadLetter <==> Revives(w, a, e)
    ensures ClaimLive(Next(w, stale, a), e) ==> ClaimLive(w, e)
  {
    var u := Next(w, stale, a);
    if k :| k in u.claims && u.claims[k].event == e {
      assert k in w.claims;
    }
  }

  /** Without a live claim an event in the dead letters is there for good. */
  lemma {:induction false} DeadLetterStays(w: World, stale: nat, acts: seq<Act>, e: EventId)
    requires e in w.tables.events && w.tables.events[e].status == DeadLetter && !ClaimLive(w, e)
    ensures e in Run(w, stale, acts).tables.events
    ensures Run(w, stale, acts).tables.events[e].status == DeadLetter
    decreases |acts|
  {
    hide Next, ClaimLive;
    if acts != [] {
      DeadLetterLeavesIff(w, stale, acts[0], e);
      RevivingNeedsClaim(w, acts[0], e);
      DeadLetterStays(Next(w, stale, acts[0]), stale, acts[1..], e);
    }
  }

  lemma RevivingNeedsClaim(w: World, a: Act, e: EventId)
    ensures Revives(w, a, e) ==> ClaimLive(w, e)
  {
  }

  predicate IsDeadLetter(w: World, e: EventId) {
    e in w.tables.events && w.tables.events[e].status == DeadLetter
  }

  /** A dead letter is there for good, in every run, exactly when no worker still holds a claim on it. */
  lemma DeadLetterIsFinalIff(w: World, stale: nat, e: EventId)
    requires IsDeadLetter(w, e)
    ensures (forall acts :: IsDeadLetter(Run(w, stale, acts), e)) <==> !ClaimLive(w, e)
  {
    if ClaimLive(w, e) {
      var k :| k in w.claims && w.claims[k].event == e;
      RunOne(w, stale, Succeed(k));
      DeadLetterLeavesIff(w, stale, Succeed(k), e);
      assert !IsDeadLetter(Run(w, stale, [Succeed(k)]), e);
    } else {
      forall acts
        ensures IsDeadLetter(Run(w, stale, acts), e)
      {
        DeadLetterStays(w, stale, acts, e);
      }
    }
  }

  lemma RunOne(w: World, stale: nat, a: Act)
    ensures Run(w, stale, [a]) == Next(w, stale, a)
  {
    hide Next;
    assert [a][1..] == [];
  }

  lemma RunCons(w: World, stale: nat, a: Act, rest: seq<Act>)
    ensures Run(w, stale, [a] + rest) == Run(Next(w, stale, a), stale, rest)
  {
    hide Next;
    assert ([a] + rest)[1..] == rest;
  }

  function EmptyWorld(now: Instant): World {
    World(Tables(map[], map[]), map[], now)
  }

  /** One event is taken, taken over once stale, and refused for good by the second worker. */
  function TakenOver(now: Instant, stale: nat): seq<Act> {
    [Receive(0, Some(0), 2, now)] + ([Take(0, 0)] + ([Wait(stale)] + ([Take(1, 0)] + [Fail(1, Failure(false, false), 0)])))
  }

  lemma TakenOverWorld(now: Instant, stale: nat)
    ensures var w := Run(EmptyWorld(now), stale, TakenOver(now, stale));
      && IsDeadLetter(w, 0)
      && 0 in w.claims && w.claims[0].event == 0 && w.claims[0].attempt == 1 && w.claims[0].maxAttempts == 2
  {
    var a0, a1, a2, a3, a4 :=
      Receive(0, Some(0), 2, now), Take(0, 0), Wait(stale), Take(1, 0), Fail(1, Failure(false, false), 0);
    var w0 := EmptyWorld(now);
    var w1 := Next(w0, stale, a0);
    var w2 := Next(w1, stale, a1);
    var w3 := Next(w2, stale, a2);
    var w4 := Next(w3, stale, a3);
    assert w2.claims == map[0 := Claim(0, 0, 1, 2, now)];
    assert w4.claims == map[0 := Claim(0, 0, 1, 2, now), 1 := Claim(0, 0, 2, 2, now + stale)];
    RunCons(w0, stale, a0, [a1] + ([a2] + ([a3] + [a4])));
    RunCons(w1, stale, a1, [a2] + ([a3] + [a4]));
    RunCons(w2, stale, a2, [a3] + [a4]);
    RunCons(w3, stale, a3, [a4]);
    RunOne(w4, stale, a4);
  }

  /** From an empty outbox: the superseded first worker still schedules the retry of an event already dead. */
  lemma DeadLetterComesBack(now: Instant, stale: nat)
    ensures var w := Run(EmptyWorld(now), stale, TakenOver(now, stale));
      && IsDeadLetter(w, 0)
      && !IsDeadLetter(Next(w, stale, Fail(0, Failure(true, false), 0)), 0)
  {
    hide Run, TakenOver, Next;
    TakenOverWorld(now, stale);
    DeadLetterLeavesIff(Run(EmptyWorld(now), stale, TakenOver(now, stale)), stale, Fail(0, Failure(true, false), 0), 0);
  }

  // ---------------------------------------------------------------- attempts

  predicate WithinBudget(e: Event) {
    && e.attempts <= e.maxAttempts
    && (e.status == Pending || e.status == RetryScheduled ==> e.attempts < e.maxAttempts)
  }

  predicate ClaimCurrent(w: World, k: ClaimId)
    requires k in w.claims
  {
    var c := w.claims[k];
    && c.event in w.tables.events
    && w.tables.events[c.event].status == Processing
    && w.tables.events[c.event].attempts == c.attempt >= 1
    && w.tables.events[c.event].maxAttempts == c.maxAttempts
  }

  /** Every event is within its budget and each claim is the only one on its event. */
  ghost predicate Budgeted(w: World) {
    && (forall e :: e in w.tables.events ==> WithinBudget(w.tables.events[e]))
    && (forall k :: k in w.claims ==> ClaimCurrent(w, k))
    && (forall j, k :: j in w.claims && k in w.claims && w.claims[j].event == w.claims[k].event ==> j == k)
  }

  lemma FailureWithinBudget(event: Event, c: Claim, f: Failure, now: Instant, delay: nat)
    requires WithinBudget(event)
    requires event.attempts == c.attempt >= 1 && event.maxAttempts == c.maxAttempts
    ensures WithinBudget(FailedEvent(event, c, f, now, delay))
  {
  }

  /** The act is a claim that goes through. */
  predicate Granted(w: World, stale: nat, a: Act) {
    a.Take? && a.claim !in w.claims && Claimable(w.tables, a.id, w.now, stale)
  }

  /**
   * A claim that takes over an event in processing although its last attempt is
   * spent or its worker is still alive, or an event that allows no attempt at all.
   */
  predicate Overruns(w: World, stale: nat, a: Act) {
    || (Granted(w, stale, a)
        && w.tables.events[a.id].status == Processing
        && (w.tables.events[a.id].attempts == w.tables.events[a.id].maxAttempts || ClaimLive(w, a.id)))
    || (a.Receive? && a.id !in w.tables.events && a.maxAttempts == 0)
  }

  /** One act takes an event past its maximum exactly when it claims it with the last attempt already spent. */
  lemma AttemptsPassIff(w: World, stale: nat, a: Act, e: EventId)
    requires Budgeted(w) && e in w.tables.events
    ensures e in Next(w, stale, a).tables.events
    ensures Next(w, stale, a).tables.events[e].attempts > Next(w, stale, a).tables.events[e].maxAttempts <==>
      Granted(w, stale, a) && a.id == e && w.tables.events[e].attempts == w.tables.events[e].maxAttempts
  {
    hide ReleaseThread, Claimable;
    assert WithinBudget(w.tables.events[e]);
  }

  lemma EventsStayWithinBudget(w: World, stale: nat, a: Act, e: EventId)
    requires Budgeted(w) && !Overruns(w, stale, a)
    requires e in Next(w, stale, a).tables.events
    ensures WithinBudget(Next(w, stale, a).tables.events[e])
  {
    hide FailedEvent, ReleaseThread, Claimable, ClaimLive;
    if e in w.tables.events {
      assert WithinBudget(w.tables.events[e]);
    }
    if a.Take? && Granted(w, stale, a) {
      TakenIsOpen(w, stale, a);
    }
    if (a.Fail? || a.Succeed?) && a.claim in w.claims {
      assert ClaimCurrent(w, a.claim);
      var c := w.claims[a.claim];
      if a.Fail? {
        FailureWithinBudget(w.tables.events[c.event], c, a.failure, w.now, a.delay);
      }
    }
  }

  lemma TakenIsOpen(w: World, stale: nat, a: Act)
    requires Granted(w, stale, a)
    ensures a.id in w.tables.events && w.tables.events[a.id].status in {Pending, Processing, RetryScheduled}
  {
  }

  lemma StepKeepsBudget(w: World, stale: nat, a: Act)
    requires Budgeted(w) && !Overruns(w, stale, a)
    ensures Budgeted(Next(w, stale, a))
  {
    hide FailedEvent, ReleaseThread, WithinBudget, Claimable;
    var u := Next(w, stale, a);
    forall e | e in u.tables.events
      ensures WithinBudget(u.tables.events[e])
    {
      EventsStayWithinBudget(w, stale, a, e);
    }
    if Granted(w, stale, a) {
      TakenIsOpen(w, stale, a);
    }
    forall k | k in u.claims
      ensures ClaimCurrent(u, k)
    {
      if k in w.claims {
        assert ClaimCurrent(w, k);
      }
      if (a.Fail? || a.Succeed?) && a.claim in w.claims {
        assert k != a.claim && ClaimCurrent(w, a.claim);
      }
    }
    if Granted(w, stale, a) {
      TakenHasNoWorker(w, stale, a);
    }
  }

  lemma TakenHasNoWorker(w: World, stale: nat, a: Act)
    requires Budgeted(w) && Granted(w, stale, a) && !Overruns(w, stale, a)
    ensures forall k :: k in w.claims ==> w.claims[k].event != a.id
  {
    hide WithinBudget;
    TakenIsOpen(w, stale, a);
    assert forall k :: k in w.claims ==> ClaimCurrent(w, k);
  }

  /** An overrun leaves an event past its maximum, out of attempts while pending, or with two workers. */
  lemma OverrunBreaksBudget(w: World, stale: nat, a: Act)
    requires Budgeted(w) && Overruns(w, stale, a)
    ensures !Budgeted(Next(w, stale, a))
  {
    hide Claimable;
    var u := Next(w, stale, a);
    if a.Take? {
      TakenIsOpen(w, stale, a);
    }
    if a.Receive? {
      assert !WithinBudget(u.tables.events[a.id]);
    } else if w.tables.events[a.id].attempts == w.tables.events[a.id].maxAttempts {
      assert !WithinBudget(u.tables.events[a.id]);
    } else {
      var k :| k in w.claims && w.claims[k].event == a.id;
      assert u.claims[k].event == u.claims[a.claim].event && k != a.claim;
    }
  }

  predicate NeverOverruns(w: World, stale: nat, acts: seq<Act>)
    decreases |acts|
  {
    acts == [] || (!Overruns(w, stale, acts[0]) && NeverOverruns(Next(w, stale, acts[0]), stale, acts[1..]))
  }

  ghost predicate AlwaysBudgeted(w: World, stale: nat, acts: seq<Act>)
    decreases |acts|
  {
    Budgeted(w) && (acts == [] || AlwaysBudgeted(Next(w, stale, acts[0]), stale, acts[1..]))
  }

  /**
   * Every event stays within its maximum and has one worker at most, in every state
   * of a run, exactly when the run never overruns: it may take over events in
   * processing, as long as their worker is gone and an attempt is left.
   */
  lemma {:induction false} RunKeepsBudgetIff(w: World, stale: nat, acts: seq<Act>)
    requires Budgeted(w)
    ensures AlwaysBudgeted(w, stale, acts) <==> NeverOverruns(w, stale, acts)
    ensures NeverOverruns(w, stale, acts) ==> Budgeted(Run(w, stale, acts))
    decreases |acts|
  {
    hide Budgeted, Next, Overruns;
    if acts != [] {
      var u := Next(w, stale, acts[0]);
      if Overruns(w, stale, acts[0]) {
        OverrunBreaksBudget(w, stale, acts[0]);
        BrokenAtOnce(u, stale, acts[1..]);
      } else {
        StepKeepsBudget(w, stale, acts[0]);
        RunKeepsBudgetIff(u, stale, acts[1..]);
      }
    }
  }

  lemma BrokenAtOnce(w: World, stale: nat, acts: seq<Act>)
    requires !Budgeted(w)
    ensures !AlwaysBudgeted(w, stale, acts)
  {
    hide Budgeted, Next;
  }

  /** From an empty outbox, a run that never overruns keeps attempts within the maximum and one worker for each event. */
  lemma AttemptsNeverExceed(now: Instant, stale: nat, acts: seq<Act>, e: EventId)
    requires NeverOverruns(EmptyWorld(now), stale, acts)
    requires e in Run(EmptyWorld(now), stale, acts).tables.events
    ensures var w := Run(EmptyWorld(now), stale, acts);
      && w.tables.events[e].attempts <= w.tables.events[e].maxAttempts
      && forall j, k :: j in w.claims && k in w.claims && w.claims[j].event == w.claims[k].event == e ==> j == k
  {
    hide Run, NeverOverruns;
    RunKeepsBudgetIff(EmptyWorld(now), stale, acts);
    assert WithinBudget(Run(EmptyWorld(now), stale, acts).tables.events[e]);
  }

  /** A worker dies on the only attempt an event allows, and another takes the event over. */
  function LastAttemptLost(now: Instant, stale: nat): seq<Act> {
    [Receive(0, Some(0), 1, now)] + ([Take(0, 0)] + ([Crash(0)] + ([Wait(stale)] + [Take(1, 0)])))
  }

  /** From an empty outbox: one crash on the last attempt is enough to pass the maximum. */
  lemma TakeoverExceedsBudget(now: Instant, stale: nat)
    ensures var w := Run(EmptyWorld(now), stale, LastAttemptLost(now, stale));
      0 in w.tables.events && w.tables.events[0].attempts == 2 && w.tables.events[0].maxAttempts == 1
  {
    var a0, a1, a2, a3, a4 := Receive(0, Some(0), 1, now), Take(0, 0), Crash(0), Wait(stale), Take(1, 0);
    var w0 := EmptyWorld(now);
    var w1 := Next(w0, stale, a0);
    var w2 := Next(w1, stale, a1);
    var w3 := Next(w2, stale, a2);
    var w4 := Next(w3, stale, a3);
    assert w2.claims == map[0 := Claim(0, 0, 1, 1, now)];
    assert w4.claims == map[];
    RunCons(w0, stale, a0, [a1] + ([a2] + ([a3] + [a4])));
    RunCons(w1, stale, a1, [a2] + ([a3] + [a4]));
    RunCons(w2, stale, a2, [a3] + [a4]);
    RunCons(w3, stale, a3, [a4]);
    RunOne(w4, stale, a4);
  }

  // ---------------------------------------------------------------- how many failures an event survives

  /** The act reports a failure of a real attempt at the event. */
  predicate FailsNow(w: World, a: Act, e: EventId) {
    a.Fail? && a.claim in w.claims && w.claims[a.claim].event == e && !a.failure.configurationMissing
  }

  function Failures(w: World, stale: nat, acts: seq<Act>, e: EventId): nat
    decreases |acts|
  {
    if acts == [] then 0
    else (if FailsNow(w, acts[0], e) then 1 else 0) + Failures(Next(w, stale, acts[0]), stale, acts[1..], e)
  }

  /** Each failure so far used up an attempt, and so did the attempt under way or the one that delivered. */
  predicate Spent(w: World, e: EventId, failures: nat) {
    if e in w.tables.events then
      && failures + (if w.tables.events[e].status in {Processing, Delivered} then 1 else 0) <= w.tables.events[e].attempts
      && w.tables.events[e].status != Cancelled
    else failures == 0
  }

  lemma StepSpends(w: World, stale: nat, a: Act, e: EventId, failures: nat)
    requires Budgeted(w) && Spent(w, e, failures)
    ensures Spent(Next(w, stale, a), e, failures + if FailsNow(w, a, e) then 1 else 0)
  {
    hide ReleaseThread, WithinBudget;
    if (a.Fail? || a.Succeed?) && a.claim in w.claims {
      assert ClaimCurrent(w, a.claim);
    }
  }

  lemma {:induction false} RunSpends(w: World, stale: nat, acts: seq<Act>, e: EventId, failures: nat)
    requires Budgeted(w) && NeverOverruns(w, stale, acts) && Spent(w, e, failures)
    ensures Budgeted(Run(w, stale, acts))
    ensures Spent(Run(w, stale, acts), e, failures + Failures(w, stale, acts, e))
    decreases |acts|
  {
    hide Budgeted, Next, Overruns, Spent, FailsNow;
    if acts != [] {
      StepSpends(w, stale, acts[0], e, failures);
      StepKeepsBudget(w, stale, acts[0]);
      RunSpends(
        Next(w, stale, acts[0]), stale, acts[1..], e, failures + if FailsNow(w, acts[0], e) then 1 else 0);
    }
  }

  /**
   * In a run that never overruns, an event fails at most as often as its maximum
   * allows, failures for want of configuration aside, and the last allowed failure
   * ends it.
   */
  lemma LastFailureEnds(now: Instant, stale: nat, acts: seq<Act>, e: EventId)
    requires NeverOverruns(EmptyWorld(now), stale, acts)
    requires e in Run(EmptyWorld(now), stale, acts).tables.events
    ensures var w := Run(EmptyWorld(now), stale, acts);
      var failures := Failures(EmptyWorld(now), stale, acts, e);
      && failures <= w.tables.events[e].maxAttempts
      && (failures == w.tables.events[e].maxAttempts ==> w.tables.events[e].status == DeadLetter)
  {
    hide Run, NeverOverruns, Failures;
    RunSpends(EmptyWorld(now), stale, acts, e, 0);
    assert WithinBudget(Run(EmptyWorld(now), stale, acts).tables.events[e]);
  }

  // ---------------------------------------------------------------- one delivery per thread at a time

  /** Every worker still holding a claim is within the time after which others may take over. */
  predicate Timely(w: World, stale: nat) {
    forall k :: k in w.claims ==> w.now - stale < w.claims[k].since
  }

  predicate TimelyRun(w: World, stale: nat, acts: seq<Act>)
    decreases |acts|
  {
    Timely(w, stale) && (acts == [] || TimelyRun(Next(w, stale, acts[0]), stale, acts[1..]))
  }

  predicate ClaimHoldsThread(w: World, k: ClaimId)
    requires k in w.claims
  {
    var c := w.claims[k];
    && c.event in w.tables.events
    && w.tables.events[c.event].thread == Some(c.thread)
    && w.tables.events[c.event].status == Processing
    && w.tables.events[c.event].lockedAt == Some(c.since)
    && c.thread in w.tables.leases
    && w.tables.leases[c.thread] == Lease(Some(c.event), Some(c.since))
  }

  ghost predicate Serial(w: World) {
    && (forall k :: k in w.claims ==> ClaimHoldsThread(w, k))
    && (forall j, k :: j in w.claims && k in w.claims && w.claims[j].thread == w.claims[k].thread ==> j == k)
  }

  lemma StepKeepsSerial(w: World, stale: nat, a: Act)
    requires Serial(w) && Timely(w, stale)
    ensures Serial(Next(w, stale, a))
  {
    var u := Next(w, stale, a);
    if a.Take? && u != w {
      var thread := w.tables.events[a.id].thread.value;
      forall k | k in w.claims
        ensures w.claims[k].thread != thread
      {
        assert ClaimHoldsThread(w, k);
      }
    }
    forall k | k in u.claims
      ensures ClaimHoldsThread(u, k)
    {
      if k in w.claims {
        assert ClaimHoldsThread(w, k);
      }
      if (a.Succeed? || a.Fail?) && a.claim in w.claims {
        assert k != a.claim && ClaimHoldsThread(w, a.claim);
      }
    }
  }

  /**
   * While every worker reports or dies before its claim goes stale, no two
   * workers deliver to the same thread at the same time, and each holds both
   * the event and the lease it claimed.
   */
  lemma {:induction false} RunKeepsSerial(w: World, stale: nat, acts: seq<Act>)
    requires Serial(w) && TimelyRun(w, stale, acts)
    ensures Serial(Run(w, stale, acts))
    decreases |acts|
  {
    hide Serial, Next, Timely;
    if acts != [] {
      StepKeepsSerial(w, stale, acts[0]);
      RunKeepsSerial(Next(w, stale, acts[0]), stale, acts[1..]);
    }
  }

  // ---------------------------------------------------------------- the tables, written in place

  class OutboxTables {
    var events: map<EventId, Event>
    var leases: map<ThreadId, Lease>

    ghost function Contents(): Tables
      reads this
    {
      Tables(events, leases)
    }

    constructor ()
      ensures Contents() == Tables(map[], map[])
    {
      events, leases := map[], map[];
    }

    /** Takes a due event and its thread, or leaves both alone. */
    method ClaimOutboxEvent(id: EventId, now: Instant, stale: nat) returns (claim: Option<Claim>)
      modifies this
      ensures claim.Some? <==> Claimable(old(Contents()), id, now, stale)
      ensures claim.Some? ==>
        Contents() == ClaimEvent(old(Contents()), id, now) && claim.value == ClaimOf(old(Contents()), id, now)
      ensures claim.None? ==>
        events == old(events)
        && forall t :: t in leases && leases[t].current.Some? ==> t in old(leases) && leases[t] == old(leases)[t]
    {
      if id !in events {
        return None;
      }
      var event := events[id];
      if event.status == Delivered || event.status == DeadLetter || event.status == Cancelled {
        return None;
      }
      if event.status == Processing && Fresh(event.lockedAt, now, stale) {
        return None;
      }
      if event.availableAt > now || event.thread.None? {
        return None;
      }
      var thread := event.thread.value;
      if thread !in leases {
        leases := leases[thread := Lease(None, None)];
      }
      var lease := leases[thread];
      if lease.current.Some? && lease.current != Some(id) && Fresh(lease.lockedAt, now, stale) {
        return None;
      }
      leases := leases[thread := Lease(Some(id), Some(now))];
      assert leases == old(leases)[thread := Lease(Some(id), Some(now))];
      events := events[id := event.(status := Processing, lockedAt := Some(now), attempts := event.attempts + 1)];
      return Some(Claim(id, thread, event.attempts + 1, event.maxAttempts, now));
    }

    /** Lets the thread go only if it is still this claim's event that holds it. */
    method ReleaseThreadLease(claim: Claim)
      modifies this`leases
      ensures leases == ReleaseThread(old(leases), claim)
    {
      if claim.thread in leases && leases[claim.thread].current == Some(claim.event) {
        leases := leases[claim.thread := Lease(None, None)];
      }
    }

    method RecordDelivered(claim: Claim)
      requires claim.event in events
      modifies this
      ensures Contents() == RecordSuccess(old(Contents()), claim)
    {
      if events[claim.event].status != Delivered {
        events := events[claim.event := events[claim.event].(status := Delivered, lockedAt := None)];
      }
      ReleaseThreadLease(claim);
    }

    method RecordFailed(claim: Claim, failure: Failure, now: Instant, delay: nat)
      requires claim.event in events
      modifies this
      ensures Contents() == RecordFailure(old(Contents()), claim, failure, now, delay)
    {
      var event := events[claim.event];
      if event.status != Delivered {
        var exhausted := claim.attempt >= claim.maxAttempts;
        if failure.configurationMissing {
          event := event.(attempts := if event.attempts > 0 then event.attempts - 1 else 0);
          exhausted := false;
        }
        if !failure.retryable || exhausted {
          event := event.(status := DeadLetter, availableAt := now);
        } else {
          event := event.(status := RetryScheduled, availableAt := now + delay);
        }
        events := events[claim.event := event.(lockedAt := None)];
      }
      ReleaseThreadLease(claim);
    }
  }

  // ---------------------------------------------------------------- retry delay

  function Power(n: nat): (p: real)
    ensures p >= 1.0
  {
    if n == 0 then 1.0 else 2.0 * Power(n - 1)
  }

  function LeastReal(a: real, b: real): real {
    if a <= b then a else b
  }

  function GreatestReal(a: real, b: real): real {
    if a >= b then a else b
  }

  /** The capped exponential part of the delay, before jitter. */
  function Backoff(configuredBase: real, configuredCap: real, attempt: int): real {
    var base := GreatestReal(configuredBase, 0.1);
    var cap := GreatestReal(configuredCap, base);
    LeastReal(base * Power(if attempt > 1 then attempt - 1 else 0), cap)
  }

  /** `draw` is the uniform draw in [0, 1]. */
  function RetryDelaySeconds(configuredBase: real, configuredCap: real, attempt: int, draw: real): real {
    var base := GreatestReal(configuredBase, 0.1);
    var cap := GreatestReal(configuredCap, base);
    var backoff := Backoff(configuredBase, configuredCap, attempt);
    LeastReal(backoff + backoff * draw, cap)
  }

  function DelayCap(configuredBase: real, configuredCap: real): real {
    GreatestReal(configuredCap, GreatestReal(configuredBase, 0.1))
  }

  lemma {:induction false} PowerGrows(n: nat)
    ensures Power(n) <= Power(n + 1)
  {
  }

  lemma BackoffBounds(configuredBase: real, configuredCap: real, attempt: int)
    ensures 0.1 <= Backoff(configuredBase, configuredCap, attempt) <= DelayCap(configuredBase, configuredCap)
  {
    hide Power;
    Scale(GreatestReal(configuredBase, 0.1), 1.0, Power(if attempt > 1 then attempt - 1 else 0));
  }

  lemma BackoffGrows(configuredBase: real, configuredCap: real, attempt: int)
    ensures Backoff(configuredBase, configuredCap, attempt) <= Backoff(configuredBase, configuredCap, attempt + 1)
  {
    hide Power;
    var n: nat := if attempt > 1 then attempt - 1 else 0;
    PowerGrows(n);
    Scale(GreatestReal(configuredBase, 0.1), Power(n), Power(n + 1));
  }

  /**
   * The backoff starts at the base, no less than a tenth of a second, and doubles with every attempt
   * up to the cap, which is never below the base; the jitter adds at most as much again.
   */
  lemma BackoffDoubles(configuredBase: real, configuredCap: real, attempt: int)
    ensures var base := if configuredBase >= 0.1 then configuredBase else 0.1;
      var cap := if configuredCap >= base then configuredCap else base;
      && DelayCap(configuredBase, configuredCap) == cap
      && (attempt <= 1 ==> Backoff(configuredBase, configuredCap, attempt) == base)
      && (attempt >= 1 ==> Backoff(configuredBase, configuredCap, attempt + 1)
                             == LeastReal(2.0 * Backoff(configuredBase, configuredCap, attempt), cap))
      && forall draw :: RetryDelaySeconds(configuredBase, configuredCap, attempt, draw)
                          == LeastReal(Backoff(configuredBase, configuredCap, attempt)
                                       + Backoff(configuredBase, configuredCap, attempt) * draw, cap)
  {
    if attempt >= 1 {
      PowerOfNext(attempt - 1);
      hide Power;
      var base := GreatestReal(configuredBase, 0.1);
      assert base * (2.0 * Power(attempt - 1)) == 2.0 * (base * Power(attempt - 1));
      Scale(base, 0.0, Power(attempt - 1));
    }
  }

  lemma PowerOfNext(n: nat)
    ensures Power(n + 1) == 2.0 * Power(n)
  {
  }

  /** The delay lies between the backoff and the cap, is never zero, and its floor does not fall with more attempts. */
  lemma DelayBounds(configuredBase: real, configuredCap: real, attempt: int, draw: real)
    requires 0.0 <= draw <= 1.0
    ensures var r := RetryDelaySeconds(configuredBase, configuredCap, attempt, draw);
      && 0.1 <= Backoff(configuredBase, configuredCap, attempt) <= r
      && r <= 2.0 * Backoff(configuredBase, configuredCap, attempt)
      && r <= DelayCap(configuredBase, configuredCap)
    ensures Backoff(configuredBase, configuredCap, attempt) <= Backoff(configuredBase, configuredCap, attempt + 1)
  {
    hide Backoff;
    var backoff := Backoff(configuredBase, configuredCap, attempt);
    BackoffBounds(configuredBase, configuredCap, attempt);
    BackoffGrows(configuredBase, configuredCap, attempt);
    Scale(backoff, 0.0, draw);
    Scale(backoff, draw, 1.0);
    assert backoff * 0.0 == 0.0 && backoff * 1.0 == backoff;
    assert 0.0 <= backoff * draw <= backoff;
    assert RetryDelaySeconds(configuredBase, configuredCap, attempt, draw)
        == LeastReal(backoff + backoff * draw, DelayCap(configuredBase, configuredCap));
  }

  lemma Scale(x: real, a: real, b: real)
    requires x >= 0.0 && a <= b
    ensures x * a <= x * b
  {
  }
}
