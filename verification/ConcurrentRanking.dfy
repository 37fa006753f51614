/**
 Fairness when several reservations rank the agents at the same moment: each goes by
 the stamps it saw, and picks and stamps in a later transaction.
 */
module ConcurrentRanking {
  import opened Base
  import opened QueueRanking

  type Worker = nat

  /** The agents, and for each reservation under way the order it ranked them in. */
  datatype Floor = Floor(desk: Desk, pending: map<Worker, seq<Agent>>)

  /**
   * A reservation ranks, and later picks the first agent of its own order that
   * passes, or is dropped because its row is gone. `logged` is the newest owner on the
   * log afterwards. `Stamps` is a manual assignment or an observed owner change.
   */
  datatype Move =
    | Ranks(worker: Worker, eligible: seq<AgentId>)
    | Picks(worker: Worker, passing: set<AgentId>, now: Instant, chats: nat, logged: Option<OwnerId>)
    | Drops(worker: Worker)
    | Stamps(agent: AgentId, now: Instant, chats: nat)

  predicate Consistent(f: Floor) {
    && WellFormed(f.desk)
    && forall w, a :: w in f.pending && a in f.pending[w] ==>
         a.id in f.desk.agents && a.owner == f.desk.agents[a.id].owner
  }

  /** At most `k` reservations are under way at a time. */
  predicate Admissible(f: Floor, m: Move, k: nat) {
    match m
    case Ranks(w, eligible) =>
      w !in f.pending && |f.pending| < k && forall i :: 0 <= i < |eligible| ==> eligible[i] in f.desk.agents
    case Picks(w, _, _, _, _) => w in f.pending
    case Drops(w) => w in f.pending
    case Stamps(a, _, _) => a in f.desk.agents
  }

  function Picked(f: Floor, m: Move): (r: Option<AgentId>)
    requires Consistent(f)
    ensures r.Some? ==> r.value in f.desk.agents
  {
    if m.Picks? && m.worker in f.pending then
      match FirstPassing(f.pending[m.worker], m.passing)
      case None => None
      case Some(a) => Some(a.id)
    else None
  }

  function After(f: Floor, m: Move, k: nat): (g: Floor)
    requires Consistent(f) && Admissible(f, m, k)
    ensures Consistent(g) && g.desk.agents.Keys == f.desk.agents.Keys
  {
    match m
    case Ranks(w, eligible) =>
      RankedRows(f.desk, eligible);
      f.(pending := f.pending[w := Ranked(Rows(f.desk, eligible), f.desk.lastOwner)])
    case Picks(w, _, now, chats, logged) =>
      var desk := match Picked(f, m) case None => f.desk case Some(a) => Stamp(f.desk, a, now, chats);
      Floor(desk.(lastOwner := logged), f.pending - {w})
    case Drops(w) => f.(pending := f.pending - {w})
    case Stamps(a, now, chats) => f.(desk := Stamp(f.desk, a, now, chats))
  }

  /** A ranking holds rows of the desk as they are. */
  lemma RankedRows(d: Desk, eligible: seq<AgentId>)
    requires WellFormed(d) && forall i :: 0 <= i < |eligible| ==> eligible[i] in d.agents
    ensures var order := Ranked(Rows(d, eligible), d.lastOwner);
      Ordered(order) && forall a :: a in order ==> a.id in d.agents && a == d.agents[a.id]
  {
    hide Ranked;
    var rows := Rows(d, eligible);
    RankedIsOrdered(rows, d.lastOwner);
    forall a | a in Ranked(rows, d.lastOwner)
      ensures a.id in d.agents && a == d.agents[a.id]
    {
      RankedMembers(rows, d.lastOwner, a);
      var i :| 0 <= i < |rows| && rows[i] == a;
      assert rows[i] == d.agents[eligible[i]];
    }
  }

  // ---------------------------------------------------------------- the agent that waits

  /** `x` is eligible and passing throughout, and everybody stamped is stamped later than `x` last was. */
  predicate Available(m: Move, x: AgentId, since: Instant) {
    match m
    case Ranks(_, eligible) => x in eligible
    case Picks(_, passing, now, _, _) => x in passing && since < now
    case Drops(_) => true
    case Stamps(a, now, _) => a != x && since < now
  }

  /** The order leaves `x` out: it was stepping aside. */
  predicate Aside(order: seq<Agent>, x: AgentId) {
    forall a :: a in order ==> a.id != x
  }

  predicate PicksOther(f: Floor, m: Move, x: AgentId)
    requires Consistent(f)
  {
    Picked(f, m).Some? && Picked(f, m) != Some(x)
  }

  predicate PicksAside(f: Floor, m: Move, x: AgentId)
    requires Consistent(f)
  {
    PicksOther(f, m, x) && Aside(f.pending[m.worker], x)
  }

  predicate RunOf(f: Floor, ms: seq<Move>, k: nat)
    requires Consistent(f)
    decreases |ms|
  {
    ms == [] || (Admissible(f, ms[0], k) && RunOf(After(f, ms[0], k), ms[1..], k))
  }

  function PassedBy(f: Floor, ms: seq<Move>, k: nat, x: AgentId): nat
    requires Consistent(f) && RunOf(f, ms, k)
    decreases |ms|
  {
    if ms == [] then 0
    else (if PicksOther(f, ms[0], x) then 1 else 0) + PassedBy(After(f, ms[0], k), ms[1..], k, x)
  }

  function PassedAside(f: Floor, ms: seq<Move>, k: nat, x: AgentId): nat
    requires Consistent(f) && RunOf(f, ms, k)
    decreases |ms|
  {
    if ms == [] then 0
    else (if PicksAside(f, ms[0], x) then 1 else 0) + PassedAside(After(f, ms[0], k), ms[1..], k, x)
  }

  predicate NeverPicked(f: Floor, ms: seq<Move>, k: nat, x: AgentId)
    requires Consistent(f) && RunOf(f, ms, k)
    decreases |ms|
  {
    ms == [] || (Picked(f, ms[0]) != Some(x) && NeverPicked(After(f, ms[0], k), ms[1..], k, x))
  }

  /** Orders are sorted, and those that hold `x` hold it with its present stamp. */
  ghost predicate Current(f: Floor, x: AgentId) {
    && x in f.desk.agents
    && forall w :: w in f.pending ==>
         && Ordered(f.pending[w])
         && forall a :: a in f.pending[w] && a.id == x ==> LastOf(a) == LastOf(f.desk.agents[x])
  }

  /** The order ranks somebody ahead of `x` who has been stamped since. */
  ghost predicate Stale(f: Floor, w: Worker, x: AgentId)
    requires w in f.pending && x in f.desk.agents
  {
    && !Aside(f.pending[w], x)
    && exists a :: a in f.pending[w] && a.id != x && LastOf(a) <= LastOf(f.desk.agents[x]) && a.id !in Ahead(f.desk, x)
  }

  ghost function StaleOnes(f: Floor, x: AgentId): set<Worker>
    requires x in f.desk.agents
  {
    set w | w in f.pending && Stale(f, w, x)
  }

  function AsideOnes(f: Floor, x: AgentId): set<Worker> {
    set w | w in f.pending && Aside(f.pending[w], x)
  }

  /** Each agent ahead may cost `k` picks, and each stale order one. */
  ghost function Budget(f: Floor, x: AgentId, k: nat): nat
    requires x in f.desk.agents
  {
    k * |Ahead(f.desk, x)| + |StaleOnes(f, x)|
  }

  // ---------------------------------------------------------------- one move

  lemma MoveKeepsCurrent(f: Floor, m: Move, k: nat, x: AgentId)
    requires Consistent(f) && Admissible(f, m, k) && Current(f, x)
    requires Available(m, x, LastOf(f.desk.agents[x])) && Picked(f, m) != Some(x)
    ensures Current(After(f, m, k), x)
    ensures After(f, m, k).desk.agents[x] == f.desk.agents[x]
  {
    hide Ranked, Ordered, Picked;
    if m.Ranks? {
      RankedRows(f.desk, m.eligible);
    }
  }

  /** The agent stamped by the move, if any. */
  function Stamped(f: Floor, m: Move): Option<AgentId>
    requires Consistent(f)
  {
    if m.Stamps? then Some(m.agent) else Picked(f, m)
  }

  lemma AheadAfterMove(f: Floor, m: Move, k: nat, x: AgentId)
    requires Consistent(f) && Admissible(f, m, k) && x in f.desk.agents
    requires Available(m, x, LastOf(f.desk.agents[x])) && Picked(f, m) != Some(x)
    ensures Ahead(After(f, m, k).desk, x)
      == match Stamped(f, m) case Some(a) => Ahead(f.desk, x) - {a} case None => Ahead(f.desk, x)
  {
    hide Ranked, FirstPassing;
    if Stamped(f, m).Some? && (m.Picks? || m.Stamps?) {
      StampShrinksAhead(f.desk, Stamped(f, m).value, m.now, m.chats, x);
    }
  }

  /** If nobody ahead is stamped, no order goes stale, and a new one is fresh. */
  lemma OrdersStayFresh(f: Floor, m: Move, k: nat, x: AgentId)
    requires Consistent(f) && Admissible(f, m, k) && x in f.desk.agents
    requires Ahead(After(f, m, k).desk, x) == Ahead(f.desk, x)
    requires After(f, m, k).desk.agents[x] == f.desk.agents[x]
    ensures StaleOnes(After(f, m, k), x) <= StaleOnes(f, x)
    ensures (m.Picks? || m.Drops?) ==> StaleOnes(After(f, m, k), x) == StaleOnes(f, x) - {m.worker}
  {
    hide Ranked, Picked;
    var g := After(f, m, k);
    assert forall w :: w in g.pending && w in f.pending && g.pending[w] == f.pending[w] ==> (Stale(g, w, x) <==> Stale(f, w, x));
    if m.Ranks? {
      RankedRows(f.desk, m.eligible);
      assert !Stale(g, m.worker, x);
    }
  }

  lemma WithoutOne<T>(s: set<T>, x: T)
    ensures |s - {x}| == |s| - if x in s then 1 else 0
  {
    if x !in s {
      assert s - {x} == s;
    }
  }

  /** Orders are at most as many as reservations under way. */
  lemma StaleAreFew(g: Floor, x: AgentId)
    requires x in g.desk.agents
    ensures |StaleOnes(g, x)| <= |g.pending|
  {
    SubsetSize(StaleOnes(g, x), g.pending.Keys);
  }

  lemma PendingAfter(f: Floor, m: Move, k: nat)
    requires Consistent(f) && Admissible(f, m, k) && |f.pending| <= k
    ensures |After(f, m, k).pending| <= k
    ensures m.Picks? ==> |After(f, m, k).pending| <= k - 1
  {
    hide Ranked, Picked;
    match m
    case Ranks(w, _) => assert After(f, m, k).pending.Keys == f.pending.Keys + {w};
    case Picks(w, _, _, _, _) =>
      assert After(f, m, k).pending.Keys == f.pending.Keys - {w};
      WithoutOne(f.pending.Keys, w);
    case Drops(w) =>
      assert After(f, m, k).pending.Keys == f.pending.Keys - {w};
      WithoutOne(f.pending.Keys, w);
    case Stamps(_, _, _) =>
  }

  /** An order that holds `x` yields somebody it ranks ahead of `x`; stamped since, if no longer ahead. */
  lemma PickIsAheadOrStale(f: Floor, m: Move, x: AgentId)
    requires Consistent(f) && Current(f, x) && m.Picks? && m.worker in f.pending
    requires x in m.passing && PicksOther(f, m, x) && !PicksAside(f, m, x)
    ensures Picked(f, m).value in Ahead(f.desk, x) || m.worker in StaleOnes(f, x)
  {
    hide Ordered, Ahead;
    var order := f.pending[m.worker];
    var mine :| mine in order && mine.id == x;
    FirstPassingIsMinimal(order, m.passing, mine);
    var a := FirstPassing(order, m.passing).value;
    assert a in order && a.id != x && LastOf(a) <= LastOf(f.desk.agents[x]);
  }

  /** `k` times one less is `k` less. */
  lemma TimesOneLess(k: nat, n: nat)
    requires n > 0
    ensures k * (n - 1) == k * n - k
  {
  }

  /** Only a pick or a stamp stamps anybody. */
  lemma StampingMoves(f: Floor, m: Move)
    requires Consistent(f) && Stamped(f, m).Some?
    ensures m.Picks? || m.Stamps?
    ensures Picked(f, m).Some? ==> m.Picks? && m.worker in f.pending
  {
  }

  /** Stamping somebody ahead pays for every order it can turn stale. */
  lemma StampPays(f: Floor, m: Move, k: nat, x: AgentId)
    requires Consistent(f) && Admissible(f, m, k) && x in f.desk.agents && |f.pending| <= k
    requires Available(m, x, LastOf(f.desk.agents[x])) && Picked(f, m) != Some(x)
    requires Stamped(f, m).Some? && Stamped(f, m).value in Ahead(f.desk, x)
    ensures x in After(f, m, k).desk.agents
    ensures Budget(After(f, m, k), x, k) + (if PicksOther(f, m, x) then 1 else 0) <= Budget(f, x, k)
  {
    hide After, Admissible, Available, Picked, Ahead, StaleOnes, Aside;
    var g := After(f, m, k);
    AheadAfterMove(f, m, k, x);
    PendingAfter(f, m, k);
    StaleAreFew(g, x);
    StampingMoves(f, m);
    WithoutOne(Ahead(f.desk, x), Stamped(f, m).value);
    TimesOneLess(k, |Ahead(f.desk, x)|);
  }

  /** Every move keeps within the budget, and a pick that ranked `x` uses up one of it. */
  lemma MoveSpends(f: Floor, m: Move, k: nat, x: AgentId)
    requires Consistent(f) && Admissible(f, m, k) && Current(f, x) && |f.pending| <= k
    requires Available(m, x, LastOf(f.desk.agents[x])) && Picked(f, m) != Some(x)
    ensures x in After(f, m, k).desk.agents
    ensures Budget(After(f, m, k), x, k) + (if PicksOther(f, m, x) && !PicksAside(f, m, x) then 1 else 0)
         <= Budget(f, x, k)
  {
    hide After, Admissible, Picked, Ahead, StaleOnes, Aside, Ordered;
    var g := After(f, m, k);
    var stamped := Stamped(f, m);
    MoveKeepsCurrent(f, m, k, x);
    if stamped.Some? && stamped.value in Ahead(f.desk, x) {
      StampPays(f, m, k, x);
    } else {
      AheadAfterMove(f, m, k, x);
      NobodyRemoved(Ahead(f.desk, x), stamped);
      OrdersStayFresh(f, m, k, x);
      SubsetSize(StaleOnes(g, x), StaleOnes(f, x));
      if PicksOther(f, m, x) && !PicksAside(f, m, x) {
        StampingMoves(f, m);
        PickIsAheadOrStale(f, m, x);
        WithoutOne(StaleOnes(f, x), m.worker);
      }
    }
  }

  lemma NobodyRemoved(s: set<AgentId>, a: Option<AgentId>)
    requires a.Some? ==> a.value !in s
    ensures (match a case Some(b) => s - {b} case None => s) == s
  {
  }

  predicate AllAvailable(ms: seq<Move>, x: AgentId, since: Instant) {
    forall i :: 0 <= i < |ms| ==> Available(ms[i], x, since)
  }

  /**
   * With at most `k` reservations at a time an available agent is passed over at most
   * `k` times for each agent that can rank ahead of it, once for each order already
   * stale, and the times it was stepping aside.
   */
  lemma {:induction false} ConcurrentStarvationBound(f: Floor, ms: seq<Move>, k: nat, x: AgentId)
    requires Consistent(f) && RunOf(f, ms, k) && Current(f, x) && |f.pending| <= k
    requires AllAvailable(ms, x, LastOf(f.desk.agents[x])) && NeverPicked(f, ms, k, x)
    ensures PassedBy(f, ms, k, x) <= Budget(f, x, k) + PassedAside(f, ms, k, x)
    decreases |ms|
  {
    hide After, Admissible, Available, Current, Budget, Picked, Aside, Consistent;
    if ms != [] {
      var g := After(f, ms[0], k);
      CurrentKnows(f, x);
      MoveSpends(f, ms[0], k, x);
      MoveKeepsCurrent(f, ms[0], k, x);
      PendingAfter(f, ms[0], k);
      assert forall i :: 0 <= i < |ms[1..]| ==> ms[1..][i] == ms[i + 1];
      ConcurrentStarvationBound(g, ms[1..], k, x);
    }
  }

  // ---------------------------------------------------------------- a prompt log

  /** Each pick is on the log by the next ranking. */
  predicate LogsPromptly(f: Floor, m: Move)
    requires Consistent(f)
  {
    m.Picks? ==>
      m.logged == match Picked(f, m) case Some(a) => f.desk.agents[a].owner case None => f.desk.lastOwner
  }

  predicate AllPrompt(f: Floor, ms: seq<Move>, k: nat)
    requires Consistent(f) && RunOf(f, ms, k)
    decreases |ms|
  {
    ms == [] || (LogsPromptly(f, ms[0]) && AllPrompt(After(f, ms[0], k), ms[1..], k))
  }

  /** How many picks may still leave `x` aside. */
  function AsideBudget(f: Floor, x: AgentId, k: nat): nat
    requires x in f.desk.agents
  {
    if Vetoed(f.desk, x) then k else |AsideOnes(f, x)|
  }

  /** Whoever is not stepping aside is in the ranking. */
  lemma RankedUnlessVetoed(d: Desk, eligible: seq<AgentId>, x: AgentId)
    requires WellFormed(d) && x in d.agents && x in eligible && !Vetoed(d, x)
    requires forall i :: 0 <= i < |eligible| ==> eligible[i] in d.agents
    ensures !Aside(Ranked(Rows(d, eligible), d.lastOwner), x)
  {
    hide Ranked;
    var rows := Rows(d, eligible);
    var i :| 0 <= i < |eligible| && eligible[i] == x;
    assert rows[i] == d.agents[x];
    RankedMembers(rows, d.lastOwner, d.agents[x]);
    assert d.agents[x] in Ranked(rows, d.lastOwner);
  }

  lemma AsideAfterMove(f: Floor, m: Move, k: nat, x: AgentId)
    requires Consistent(f) && Admissible(f, m, k) && x in f.desk.agents
    requires m.Ranks? ==> x in m.eligible && !Vetoed(f.desk, x)
    ensures AsideOnes(After(f, m, k), x) == AsideOnes(f, x) - if m.Picks? || m.Drops? then {m.worker} else {}
  {
    hide Ranked, Picked, Aside;
    if m.Ranks? {
      RankedUnlessVetoed(f.desk, m.eligible, x);
    }
  }

  /** A prompt pick of somebody else ends the veto, and no other move starts one. */
  lemma VetoAfterMove(f: Floor, m: Move, k: nat, x: AgentId)
    requires Consistent(f) && Admissible(f, m, k) && x in f.desk.agents && OwnOwner(f.desk, x)
    requires LogsPromptly(f, m) && Picked(f, m) != Some(x)
    ensures x in After(f, m, k).desk.agents && OwnOwner(After(f, m, k).desk, x)
    ensures Vetoed(After(f, m, k).desk, x) <==> Vetoed(f.desk, x) && !PicksOther(f, m, x)
  {
    hide Ranked, FirstPassing;
  }

  lemma AsideAreFew(g: Floor, x: AgentId)
    ensures |AsideOnes(g, x)| <= |g.pending|
  {
    SubsetSize(AsideOnes(g, x), g.pending.Keys);
  }

  lemma MoveSpendsAside(f: Floor, m: Move, k: nat, x: AgentId)
    requires Consistent(f) && Admissible(f, m, k) && x in f.desk.agents && |f.pending| <= k
    requires Available(m, x, LastOf(f.desk.agents[x])) && Picked(f, m) != Some(x)
    requires OwnOwner(f.desk, x) && LogsPromptly(f, m)
    ensures x in After(f, m, k).desk.agents
    ensures AsideBudget(After(f, m, k), x, k) + (if PicksAside(f, m, x) then 1 else 0) <= AsideBudget(f, x, k)
  {
    hide After, Picked, AsideOnes, Aside, Vetoed, OwnOwner, LogsPromptly;
    var g := After(f, m, k);
    VetoAfterMove(f, m, k, x);
    PendingAfter(f, m, k);
    AsideAreFew(g, x);
    if Picked(f, m).Some? {
      StampingMoves(f, m);
    }
    if !Vetoed(f.desk, x) {
      AsideAfterMove(f, m, k, x);
      SubsetSize(AsideOnes(g, x), AsideOnes(f, x));
      if PicksAside(f, m, x) {
        PickIsAside(f, m, x);
        WithoutOne(AsideOnes(f, x), m.worker);
      }
    }
  }

  lemma PickIsAside(f: Floor, m: Move, x: AgentId)
    requires Consistent(f) && PicksAside(f, m, x)
    ensures m.Picks? && m.worker in AsideOnes(f, x)
  {
  }

  /** With a prompt log the agent steps aside for at most `k` picks. */
  lemma {:induction false} VetoDelaysAtMost(f: Floor, ms: seq<Move>, k: nat, x: AgentId)
    requires Consistent(f) && RunOf(f, ms, k) && Current(f, x) && |f.pending| <= k
    requires AllAvailable(ms, x, LastOf(f.desk.agents[x])) && NeverPicked(f, ms, k, x)
    requires AllPrompt(f, ms, k) && OwnOwner(f.desk, x)
    ensures PassedAside(f, ms, k, x) <= AsideBudget(f, x, k)
    decreases |ms|
  {
    hide After, Admissible, Available, Current, AsideBudget, Picked, Aside, Consistent, LogsPromptly, OwnOwner;
    if ms != [] {
      var g := After(f, ms[0], k);
      CurrentKnows(f, x);
      MoveSpendsAside(f, ms[0], k, x);
      VetoAfterMove(f, ms[0], k, x);
      MoveKeepsCurrent(f, ms[0], k, x);
      PendingAfter(f, ms[0], k);
      assert forall i :: 0 <= i < |ms[1..]| ==> ms[1..][i] == ms[i + 1];
      VetoDelaysAtMost(g, ms[1..], k, x);
    }
  }

  lemma CurrentKnows(f: Floor, x: AgentId)
    requires Current(f, x)
    ensures x in f.desk.agents
  {
  }

  /**
   * The fairness promise with `k` reservations at a time: with `r` agents that can rank
   * ahead, an always available agent is picked after at most `k * (r + 1)` picks of
   * others.
   */
  lemma ServedWithinConcurrently(d: Desk, ms: seq<Move>, k: nat, x: AgentId)
    requires WellFormed(d) && x in d.agents && OwnOwner(d, x)
    requires RunOf(Floor(d, map[]), ms, k) && AllPrompt(Floor(d, map[]), ms, k)
    requires AllAvailable(ms, x, LastOf(d.agents[x]))
    requires PassedBy(Floor(d, map[]), ms, k, x) > k * (|Ahead(d, x)| + 1)
    ensures !NeverPicked(Floor(d, map[]), ms, k, x)
  {
    hide Ahead, Budget, AsideBudget, PassedBy, PassedAside, AllPrompt, RunOf, NeverPicked, AllAvailable;
    NothingPending(d, k, x);
    if NeverPicked(Floor(d, map[]), ms, k, x) {
      ConcurrentStarvationBound(Floor(d, map[]), ms, k, x);
      VetoDelaysAtMost(Floor(d, map[]), ms, k, x);
    }
  }

  lemma NothingPending(d: Desk, k: nat, x: AgentId)
    requires x in d.agents
    ensures Budget(Floor(d, map[]), x, k) + AsideBudget(Floor(d, map[]), x, k) <= k * (|Ahead(d, x)| + 1)
  {
    hide Ahead;
    var f := Floor(d, map[]);
    assert StaleOnes(f, x) == {} && AsideOnes(f, x) == {};
    TimesOneLess(k, |Ahead(d, x)| + 1);
  }
}
