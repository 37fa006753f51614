/**
 * The order in which eligible agents are offered a ticket: longest without an
 * assignment first, except that the agent served last steps aside. Over whole
 * runs this bounds how often an available agent can be passed over.
 */
module QueueRanking {
  import opened Base

  type Instant = int

  /** 1 January 2000, in milliseconds: the stand-in for an agent never assigned. */
  const EPOCH: Instant := 946_684_800_000

  datatype Agent = Agent(id: AgentId, owner: Option<OwnerId>, last: Option<Instant>, chats: nat)

  function LastOf(a: Agent): Instant {
    if a.last.Some? then a.last.value else EPOCH
  }

  /** The sort key is (last assignment, current chats, primary key). */
  predicate Precedes(a: Agent, b: Agent) {
    || LastOf(a) < LastOf(b)
    || (LastOf(a) == LastOf(b) && (a.chats < b.chats || (a.chats == b.chats && a.id <= b.id)))
  }

  function Insert(x: Agent, s: seq<Agent>): seq<Agent> {
    if s == [] || Precedes(x, s[0]) then [x] + s else [s[0]] + Insert(x, s[1..])
  }

  function SortByRank(s: seq<Agent>): seq<Agent> {
    if s == [] then [] else Insert(s[0], SortByRank(s[1..]))
  }

  function Without(s: seq<Agent>, owner: Option<OwnerId>): seq<Agent> {
    if s == [] then []
    else if s[0].owner != owner then [s[0]] + Without(s[1..], owner)
    else Without(s[1..], owner)
  }

  function Candidates(eligible: seq<Agent>, lastOwner: Option<OwnerId>): seq<Agent> {
    if lastOwner.None? || |eligible| <= 1 then eligible
    else
      var kept := Without(eligible, lastOwner);
      if kept == [] then eligible else kept
  }

  function Ranked(eligible: seq<Agent>, lastOwner: Option<OwnerId>): seq<Agent> {
    SortByRank(Candidates(eligible, lastOwner))
  }

  // ---------------------------------------------------------------- what the ranking is

  predicate Ordered(s: seq<Agent>) {
    forall i, j :: 0 <= i < j < |s| ==> Precedes(s[i], s[j])
  }

  lemma {:induction false} InsertFacts(x: Agent, s: seq<Agent>)
    requires Ordered(s)
    ensures Ordered(Insert(x, s))
    ensures multiset(Insert(x, s)) == multiset(s) + multiset{x}
  {
    hide Precedes, Ordered;
    if s == [] || Precedes(x, s[0]) {
      assert multiset([x] + s) == multiset(s) + multiset{x};
      FrontKeepsOrder(x, s);
    } else {
      assert s == [s[0]] + s[1..];
      TailOrdered(s);
      InsertFacts(x, s[1..]);
      var rest := Insert(x, s[1..]);
      forall y | y in rest
        ensures Precedes(s[0], y)
      {
        assert y in multiset(rest);
        assert y in s[1..] || y == x;
      }
      HeadKeepsOrder(s[0], rest);
    }
  }

  lemma FrontKeepsOrder(x: Agent, s: seq<Agent>)
    requires Ordered(s) && (s == [] || Precedes(x, s[0]))
    ensures Ordered([x] + s)
  {
    forall y | y in s
      ensures Precedes(x, y)
    {
      var i :| 0 <= i < |s| && s[i] == y;
      assert i > 0 ==> Precedes(s[0], s[i]);
    }
    HeadKeepsOrder(x, s);
  }

  lemma HeadKeepsOrder(x: Agent, s: seq<Agent>)
    requires Ordered(s) && forall y :: y in s ==> Precedes(x, y)
    ensures Ordered([x] + s)
  {
    hide Precedes;
    var t := [x] + s;
    forall i, j | 0 <= i < j < |t|
      ensures Precedes(t[i], t[j])
    {
      assert t[j] == s[j - 1];
      assert i > 0 ==> t[i] == s[i - 1];
    }
  }

  lemma TailOrdered(s: seq<Agent>)
    requires Ordered(s) && s != []
    ensures Ordered(s[1..])
    ensures forall x :: !Precedes(x, s[0]) ==> Precedes(s[0], x)
    ensures forall y :: y in s[1..] ==> Precedes(s[0], y)
  {
  }

  /** Ranking reorders the candidates, loses none and invents none. */
  lemma {:induction false} SortFacts(s: seq<Agent>)
    ensures Ordered(SortByRank(s))
    ensures multiset(SortByRank(s)) == multiset(s)
  {
    if s != [] {
      SortFacts(s[1..]);
      InsertFacts(s[0], SortByRank(s[1..]));
      assert s == [s[0]] + s[1..];
    }
  }

  lemma {:induction false} WithoutFacts(s: seq<Agent>, owner: Option<OwnerId>)
    ensures forall a :: a in Without(s, owner) <==> a in s && a.owner != owner
  {
    if s != [] {
      WithoutFacts(s[1..], owner);
      assert s == [s[0]] + s[1..];
    }
  }

  /** Who is ranked: everyone eligible, less the last owner's agents when anyone else is left. */
  lemma RankedMembers(eligible: seq<Agent>, lastOwner: Option<OwnerId>, a: Agent)
    ensures a in Ranked(eligible, lastOwner) <==>
      && a in eligible
      && (|| lastOwner.None? || |eligible| <= 1 || a.owner != lastOwner
          || forall b :: b in eligible ==> b.owner == lastOwner)
  {
    SortFacts(Candidates(eligible, lastOwner));
    WithoutFacts(eligible, lastOwner);
    var c := Candidates(eligible, lastOwner);
    assert a in Ranked(eligible, lastOwner) <==> a in multiset(c);
    if lastOwner.Some? && |eligible| > 1 {
      var kept := Without(eligible, lastOwner);
      if kept != [] {
        assert kept[0] in kept;
      }
    }
  }

  lemma HeadsAgree(s: seq<Agent>, t: seq<Agent>)
    requires Ordered(s) && Ordered(t) && s != [] && t != []
    requires t[0] in s && s[0] in t
    requires t[0].id == s[0].id ==> t[0] == s[0]
    ensures s[0] == t[0]
  {
    var i :| 0 <= i < |s| && s[i] == t[0];
    var j :| 0 <= j < |t| && t[j] == s[0];
    if i != 0 && j != 0 {
      assert Precedes(s[0], s[i]) && Precedes(t[0], t[j]);
    }
  }

  /** Removing the same head leaves the same rows. */
  lemma TailsMatch(s: seq<Agent>, t: seq<Agent>)
    requires s != [] && t != [] && s[0] == t[0] && multiset(s) == multiset(t)
    ensures multiset(s[1..]) == multiset(t[1..])
    ensures forall a :: a in s[1..] ==> a in s
  {
    assert s == [s[0]] + s[1..] && t == [t[0]] + t[1..];
    assert multiset(s[1..]) == multiset(s) - multiset{s[0]};
    assert multiset(t[1..]) == multiset(t) - multiset{t[0]};
  }

  /** Rows with distinct keys have one order. */
  lemma {:induction false} OrderIsCanonical(s: seq<Agent>, t: seq<Agent>)
    requires Ordered(s) && Ordered(t) && multiset(s) == multiset(t)
    requires forall a, b :: a in s && b in s && a.id == b.id ==> a == b
    ensures s == t
    decreases |s|
  {
    hide Precedes, Ordered;
    assert |s| == |multiset(s)| && |t| == |multiset(t)|;
    if s != [] {
      assert s[0] in multiset(t) && t[0] in multiset(s);
      HeadsAgree(s, t);
      TailsMatch(s, t);
      TailOrdered(s);
      TailOrdered(t);
      OrderIsCanonical(s[1..], t[1..]);
      assert s == [s[0]] + s[1..] && t == [t[0]] + t[1..];
    }
  }

  lemma {:induction false} WithoutCounts(s: seq<Agent>, owner: Option<OwnerId>, a: Agent)
    ensures multiset(Without(s, owner))[a] == if a.owner != owner then multiset(s)[a] else 0
  {
    if s != [] {
      WithoutCounts(s[1..], owner, a);
      assert s == [s[0]] + s[1..];
    }
  }

  /** The ranking does not depend on how the database returned the rows. */
  lemma RankingIgnoresRowOrder(s: seq<Agent>, t: seq<Agent>, lastOwner: Option<OwnerId>)
    requires multiset(s) == multiset(t)
    requires forall a, b :: a in s && b in s && a.id == b.id ==> a == b
    ensures Ranked(s, lastOwner) == Ranked(t, lastOwner)
  {
    hide SortByRank, Without, Ordered;
    forall a: Agent
      ensures multiset(Without(s, lastOwner))[a] == multiset(Without(t, lastOwner))[a]
    {
      WithoutCounts(s, lastOwner, a);
      WithoutCounts(t, lastOwner, a);
    }
    assert multiset(Without(s, lastOwner)) == multiset(Without(t, lastOwner));
    assert |s| == |multiset(s)| && |t| == |multiset(t)|;
    assert |Without(s, lastOwner)| == |multiset(Without(s, lastOwner))|;
    assert |Without(t, lastOwner)| == |multiset(Without(t, lastOwner))|;
    var c, d := Candidates(s, lastOwner), Candidates(t, lastOwner);
    assert multiset(c) == multiset(d);
    SortFacts(c);
    SortFacts(d);
    forall a, b | a in SortByRank(c) && b in SortByRank(c) && a.id == b.id
      ensures a == b
    {
      RankedMembers(s, lastOwner, a);
      RankedMembers(s, lastOwner, b);
    }
    OrderIsCanonical(SortByRank(c), SortByRank(d));
  }

  /** The first ranked agent that passes every later check. */
  function FirstPassing(ranked: seq<Agent>, passing: set<AgentId>): (r: Option<Agent>)
    ensures r.Some? ==> r.value in ranked && r.value.id in passing
    ensures r.None? ==> forall a :: a in ranked ==> a.id !in passing
  {
    if ranked == [] then None
    else if ranked[0].id in passing then Some(ranked[0])
    else FirstPassing(ranked[1..], passing)
  }

  lemma {:induction false} FirstPassingIsMinimal(ranked: seq<Agent>, passing: set<AgentId>, x: Agent)
    requires Ordered(ranked) && x in ranked && x.id in passing
    ensures FirstPassing(ranked, passing).Some?
    ensures Precedes(FirstPassing(ranked, passing).value, x)
  {
    var i :| 0 <= i < |ranked| && ranked[i] == x;
    if ranked[0].id !in passing {
      assert x == ranked[1..][i - 1];
      FirstPassingIsMinimal(ranked[1..], passing, x);
    }
  }

  // ---------------------------------------------------------------- runs of assignments

  /** The agents and the owner of the newest automatic assignment on the log. */
  datatype Desk = Desk(agents: map<AgentId, Agent>, lastOwner: Option<OwnerId>)

  /**
   * `Auto` is one automatic assignment: the eligible rows are ranked, the
   * first passing agent is stamped, and `logged` is the newest owner on the
   * log by the next ranking. `Other` stamps an agent by a manual assignment or
   * an observed owner change.
   */
  datatype Event =
    | Auto(eligible: seq<AgentId>, passing: set<AgentId>, now: Instant, chats: nat, logged: Option<OwnerId>)
    | Other(agent: AgentId, now: Instant, chats: nat)

  function Rows(d: Desk, ids: seq<AgentId>): (rows: seq<Agent>)
    requires forall i :: 0 <= i < |ids| ==> ids[i] in d.agents
    ensures |rows| == |ids| && forall i :: 0 <= i < |ids| ==> rows[i] == d.agents[ids[i]]
  {
    seq(|ids|, i requires 0 <= i < |ids| => d.agents[ids[i]])
  }

  predicate WellFormed(d: Desk) {
    forall a :: a in d.agents ==> d.agents[a].id == a
  }

  /** The event happens among the known agents and at a time newer than every stamp. */
  predicate Possible(d: Desk, e: Event) {
    && (forall a :: a in d.agents ==> LastOf(d.agents[a]) < e.now)
    && (if e.Auto? then forall i :: 0 <= i < |e.eligible| ==> e.eligible[i] in d.agents else e.agent in d.agents)
  }

  function Stamp(d: Desk, a: AgentId, now: Instant, chats: nat): Desk
    requires a in d.agents
  {
    d.(agents := d.agents[a := d.agents[a].(last := Some(now), chats := chats)])
  }

  function Chosen(d: Desk, e: Event): (r: Option<AgentId>)
    requires WellFormed(d) && Possible(d, e) && e.Auto?
    ensures r.Some? ==> r.value in d.agents && r.value in e.passing && r.value in e.eligible
  {
    var ranked := Ranked(Rows(d, e.eligible), d.lastOwner);
    match FirstPassing(ranked, e.passing)
    case None => None
    case Some(a) =>
      RankedMembers(Rows(d, e.eligible), d.lastOwner, a);
      Some(a.id)
  }

  function Next(d: Desk, e: Event): (r: Desk)
    requires WellFormed(d) && Possible(d, e)
    ensures WellFormed(r) && r.agents.Keys == d.agents.Keys
  {
    match e
    case Other(a, now, chats) => Stamp(d, a, now, chats)
    case Auto(_, _, now, chats, logged) =>
      match Chosen(d, e)
      case None => d.(lastOwner := logged)
      case Some(a) => Stamp(d, a, now, chats).(lastOwner := logged)
  }

  predicate PossibleRun(d: Desk, es: seq<Event>)
    requires WellFormed(d)
    decreases |es|
  {
    es == [] || (Possible(d, es[0]) && PossibleRun(Next(d, es[0]), es[1..]))
  }

  /** Eligible and passing in every automatic assignment, stamped by nothing else. */
  predicate AlwaysAvailable(es: seq<Event>, x: AgentId) {
    forall i :: 0 <= i < |es| ==>
      if es[i].Auto? then x in es[i].eligible && x in es[i].passing else es[i].agent != x
  }

  predicate Vetoed(d: Desk, x: AgentId)
    requires x in d.agents
  {
    d.lastOwner.Some? && d.agents[x].owner == d.lastOwner
  }

  /** How many automatic assignments went to someone else, and how many of those while `x` was stepping aside. */
  function PassedOver(d: Desk, es: seq<Event>, x: AgentId): nat
    requires WellFormed(d) && PossibleRun(d, es)
    decreases |es|
  {
    if es == [] then 0
    else
      (if es[0].Auto? && Chosen(d, es[0]).Some? && Chosen(d, es[0]) != Some(x) then 1 else 0)
      + PassedOver(Next(d, es[0]), es[1..], x)
  }

  function PassedOverByVeto(d: Desk, es: seq<Event>, x: AgentId): nat
    requires WellFormed(d) && PossibleRun(d, es) && x in d.agents
    decreases |es|
  {
    if es == [] then 0
    else
      (if es[0].Auto? && Chosen(d, es[0]).Some? && Chosen(d, es[0]) != Some(x) && Vetoed(d, x) then 1 else 0)
      + PassedOverByVeto(Next(d, es[0]), es[1..], x)
  }

  predicate NeverChosen(d: Desk, es: seq<Event>, x: AgentId)
    requires WellFormed(d) && PossibleRun(d, es)
    decreases |es|
  {
    es == [] || ((es[0].Auto? ==> Chosen(d, es[0]) != Some(x)) && NeverChosen(Next(d, es[0]), es[1..], x))
  }

  /** The agents whose last assignment is no newer than `x`'s: those that can rank ahead of it. */
  function Ahead(d: Desk, x: AgentId): set<AgentId>
    requires x in d.agents
  {
    set a | a in d.agents && a != x && LastOf(d.agents[a]) <= LastOf(d.agents[x])
  }

  /** An event stamps whoever it assigns to, with its time and chats, and nobody else; an assignment moves the log. */
  lemma EventStamps(d: Desk, e: Event, a: AgentId)
    requires WellFormed(d) && Possible(d, e) && a in d.agents
    ensures var assignee := if e.Auto? then Chosen(d, e) else Some(e.agent);
      && Next(d, e).agents[a] == (if assignee == Some(a) then Agent(a, d.agents[a].owner, Some(e.now), e.chats) else d.agents[a])
      && Next(d, e).lastOwner == (if e.Auto? then e.logged else d.lastOwner)
  {
    hide Ranked;
  }

  /** Unless it is stepping aside, an available agent loses only to one ranked ahead of it. */
  lemma ChosenIsAhead(d: Desk, e: Event, x: AgentId)
    requires WellFormed(d) && Possible(d, e) && e.Auto? && x in d.agents
    requires x in e.eligible && x in e.passing && !Vetoed(d, x)
    ensures Chosen(d, e).Some?
    ensures Chosen(d, e) != Some(x) ==> Chosen(d, e).value in Ahead(d, x)
  {
    hide Ranked;
    var rows := Rows(d, e.eligible);
    var ranked := Ranked(rows, d.lastOwner);
    var k :| 0 <= k < |e.eligible| && e.eligible[k] == x;
    assert rows[k] == d.agents[x];
    RankedMembers(rows, d.lastOwner, d.agents[x]);
    assert Ordered(ranked) by {
      RankedIsOrdered(rows, d.lastOwner);
    }
    FirstPassingIsMinimal(ranked, e.passing, d.agents[x]);
    RankedMembers(rows, d.lastOwner, FirstPassing(ranked, e.passing).value);
  }

  /**
   * Whoever is chosen has waited longest of all that pass and do not step aside: at ties of the
   * last assignment it has the fewest chats, and at ties of those the lowest primary key.
   */
  lemma ChosenWaitedLongest(d: Desk, e: Event, x: AgentId)
    requires WellFormed(d) && Possible(d, e) && e.Auto? && x in d.agents
    requires x in e.eligible && x in e.passing && !Vetoed(d, x)
    ensures Chosen(d, e).Some?
    ensures var c, a := d.agents[Chosen(d, e).value], d.agents[x];
      var waited := if c.last.None? then 946_684_800_000 else c.last.value;
      var other := if a.last.None? then 946_684_800_000 else a.last.value;
      && waited <= other
      && (waited == other ==> c.chats <= a.chats)
      && (waited == other && c.chats == a.chats ==> Chosen(d, e).value <= x)
  {
    hide Ranked;
    var rows := Rows(d, e.eligible);
    var ranked := Ranked(rows, d.lastOwner);
    var k :| 0 <= k < |e.eligible| && e.eligible[k] == x;
    assert rows[k] == d.agents[x];
    RankedMembers(rows, d.lastOwner, d.agents[x]);
    RankedIsOrdered(rows, d.lastOwner);
    FirstPassingIsMinimal(ranked, e.passing, d.agents[x]);
    RankedMembers(rows, d.lastOwner, FirstPassing(ranked, e.passing).value);
  }

  lemma RankedIsOrdered(rows: seq<Agent>, lastOwner: Option<OwnerId>)
    ensures Ordered(Ranked(rows, lastOwner))
  {
    SortFacts(Candidates(rows, lastOwner));
  }

  lemma StampShrinksAhead(d: Desk, a: AgentId, now: Instant, chats: nat, x: AgentId)
    requires a in d.agents && x in d.agents && a != x
    requires LastOf(d.agents[x]) < now
    ensures Ahead(Stamp(d, a, now, chats), x) == Ahead(d, x) - {a}
  {
  }

  /**
   * An available agent is passed over at most once for each agent that can
   * rank ahead of it, besides the times it was stepping aside, however late
   * assignments reach the log.
   */
  lemma {:induction false} StarvationBound(d: Desk, es: seq<Event>, x: AgentId)
    requires WellFormed(d) && PossibleRun(d, es) && x in d.agents
    requires AlwaysAvailable(es, x) && NeverChosen(d, es, x)
    ensures PassedOver(d, es, x) <= |Ahead(d, x)| + PassedOverByVeto(d, es, x)
    decreases |es|
  {
    hide Ahead, Chosen, Stamp;
    if es != [] {
      var e := es[0];
      var d' := Next(d, e);
      assert AlwaysAvailable(es[1..], x);
      StarvationBound(d', es[1..], x);
      AheadAfter(d, e, x);
    }
  }

  lemma AheadAfter(d: Desk, e: Event, x: AgentId)
    requires WellFormed(d) && Possible(d, e) && x in d.agents
    requires if e.Auto? then x in e.eligible && x in e.passing && Chosen(d, e) != Some(x) else e.agent != x
    ensures |Ahead(Next(d, e), x)| <= |Ahead(d, x)|
    ensures e.Auto? && Chosen(d, e).Some? && !Vetoed(d, x) ==> |Ahead(Next(d, e), x)| < |Ahead(d, x)|
    ensures Next(d, e).agents[x] == d.agents[x]
  {
    hide Chosen, Ahead;
    var stamped := if e.Other? then Some(e.agent) else Chosen(d, e);
    if stamped.Some? {
      var a := stamped.value;
      StampShrinksAhead(d, a, e.now, e.chats, x);
      AheadIgnoresLog(Stamp(d, a, e.now, e.chats), Next(d, e), x);
      SubsetSize(Ahead(d, x) - {a}, Ahead(d, x));
      if e.Auto? && !Vetoed(d, x) {
        ChosenIsAhead(d, e, x);
      }
    } else {
      AheadIgnoresLog(d, Next(d, e), x);
    }
  }

  lemma AheadIgnoresLog(d: Desk, e: Desk, x: AgentId)
    requires d.agents == e.agents && x in d.agents
    ensures Ahead(d, x) == Ahead(e, x)
  {
  }

  /** Each automatic assignment reaches the log before the next ranking. */
  predicate Prompt(d: Desk, es: seq<Event>)
    requires WellFormed(d) && PossibleRun(d, es)
    decreases |es|
  {
    || es == []
    || (&& (es[0].Auto? ==>
              es[0].logged == (match Chosen(d, es[0]) case Some(a) => d.agents[a].owner case None => d.lastOwner))
        && Prompt(Next(d, es[0]), es[1..]))
  }

  predicate OwnOwner(d: Desk, x: AgentId)
    requires x in d.agents
  {
    forall a :: a in d.agents && a != x ==> d.agents[a].owner != d.agents[x].owner
  }

  /** With a prompt log the agent steps aside for at most one assignment. */
  lemma {:induction false} VetoDelaysOnce(d: Desk, es: seq<Event>, x: AgentId)
    requires WellFormed(d) && PossibleRun(d, es) && x in d.agents
    requires AlwaysAvailable(es, x) && NeverChosen(d, es, x)
    requires Prompt(d, es) && OwnOwner(d, x)
    ensures PassedOverByVeto(d, es, x) <= if Vetoed(d, x) then 1 else 0
    decreases |es|
  {
    hide Chosen;
    if es != [] {
      var d' := Next(d, es[0]);
      assert AlwaysAvailable(es[1..], x);
      assert d'.agents[x].owner == d.agents[x].owner;
      assert OwnOwner(d', x);
      VetoDelaysOnce(d', es[1..], x);
    }
  }

  /**
   * The fairness promise: with `r` agents that can rank ahead, an always
   * available agent is chosen after at most `r + 1` assignments to others.
   */
  lemma ServedWithin(d: Desk, es: seq<Event>, x: AgentId)
    requires WellFormed(d) && PossibleRun(d, es) && x in d.agents
    requires AlwaysAvailable(es, x) && Prompt(d, es) && OwnOwner(d, x)
    requires PassedOver(d, es, x) > |Ahead(d, x)| + 1
    ensures !NeverChosen(d, es, x)
  {
    hide Ahead, PassedOver, PassedOverByVeto, Prompt;
    if NeverChosen(d, es, x) {
      StarvationBound(d, es, x);
      VetoDelaysOnce(d, es, x);
    }
  }

  /**
   * A round can choose nobody although `x` is eligible and passes every
   * check: exactly when `x` must step aside for others and none of them passes.
   */
  lemma StalledIff(d: Desk, e: Event, x: AgentId)
    requires WellFormed(d) && Possible(d, e) && e.Auto? && x in d.agents
    requires x in e.eligible && x in e.passing
    ensures Chosen(d, e).None? <==>
      && Vetoed(d, x)
      && (exists a :: a in e.eligible && d.agents[a].owner != d.lastOwner)
      && (forall a :: a in e.eligible && d.agents[a].owner != d.lastOwner ==> a !in e.passing)
  {
    hide Ranked;
    var rows := Rows(d, e.eligible);
    var ranked := Ranked(rows, d.lastOwner);
    var k :| 0 <= k < |e.eligible| && e.eligible[k] == x;
    assert rows[k] == d.agents[x];
    forall a | a in d.agents
      ensures d.agents[a] in ranked <==>
        && a in e.eligible
        && (|| d.lastOwner.None? || |rows| <= 1 || d.agents[a].owner != d.lastOwner
            || forall b :: b in rows ==> b.owner == d.lastOwner)
    {
      RankedMembers(rows, d.lastOwner, d.agents[a]);
      if a in e.eligible {
        var i :| 0 <= i < |e.eligible| && e.eligible[i] == a;
        assert rows[i] == d.agents[a];
      }
    }
    if Chosen(d, e).None? {
      assert d.agents[x] !in ranked;
      var b :| b in rows && b.owner != d.lastOwner;
      assert b.id in e.eligible;
    } else {
      var a := FirstPassing(ranked, e.passing).value;
      RankedMembers(rows, d.lastOwner, a);
      assert a == d.agents[a.id];
    }
  }

  /**
   * One assignment is enough: of two agents the first is served, and in the next
   * round it is the only one that passes, steps aside for the other, and nobody is
   * chosen.
   */
  lemma StallsAfterOneAssignment(now: Instant)
    requires now > EPOCH
    ensures var d := Desk(map[0 := Agent(0, Some(0), None, 0), 1 := Agent(1, Some(1), None, 0)], None);
      var first := Auto([0], {0}, now, 0, Some(0));
      var second := Auto([0, 1], {0}, now + 1, 0, Some(0));
      && Possible(d, first) && Chosen(d, first) == Some(0)
      && Possible(Next(d, first), second) && Chosen(Next(d, first), second).None?
  {
    hide Ranked;
    var d := Desk(map[0 := Agent(0, Some(0), None, 0), 1 := Agent(1, Some(1), None, 0)], None);
    var first := Auto([0], {0}, now, 0, Some(0));
    var second := Auto([0, 1], {0}, now + 1, 0, Some(0));
    assert first.eligible[0] == 0 && second.eligible[0] == 0 && second.eligible[1] == 1;
    StalledIff(d, first, 0);
    var v := Next(d, first);
    StalledIff(v, second, 0);
  }
}
