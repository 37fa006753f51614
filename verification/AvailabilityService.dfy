/**
 * The reconciliation lease and the passes over all agents, written in place.
 */
module AvailabilityService {
  import opened Base
  import opened Availability

  type OwnerToken = nat

  datatype Lease = Lease(owner: Option<OwnerToken>, expiresAt: Option<Instant>, generation: nat)

  predicate Held(l: Lease, now: Instant) {
    l.owner.Some? && l.expiresAt.Some? && l.expiresAt.value > now
  }

  function Acquire(l: Lease, token: OwnerToken, now: Instant, ttl: nat): Lease {
    if Held(l, now) then l else Lease(Some(token), Some(now + ttl), l.generation + 1)
  }

  function Release(l: Lease, token: OwnerToken): Lease {
    if l.owner != Some(token) then l else l.(owner := None, expiresAt := None)
  }

  datatype LeaseEvent = Acquires(token: OwnerToken, now: Instant, ttl: nat) | Releases(token: OwnerToken)

  datatype Grant = Grant(token: OwnerToken, generation: nat)

  function NextLease(l: Lease, e: LeaseEvent): Lease {
    match e
    case Acquires(token, now, ttl) => Acquire(l, token, now, ttl)
    case Releases(token) => Release(l, token)
  }

  /** The grants handed out along a run, oldest first. */
  function Grants(l: Lease, es: seq<LeaseEvent>): seq<Grant>
    decreases |es|
  {
    if es == [] then []
    else
      var m := NextLease(l, es[0]);
      (if m.generation != l.generation && es[0].Acquires? then [Grant(es[0].token, m.generation)] else [])
      + Grants(m, es[1..])
  }

  /** Every grant has the next generation: they increase strictly, without gaps, in any run. */
  lemma {:induction false} GenerationsIncrease(l: Lease, es: seq<LeaseEvent>)
    ensures forall i :: 0 <= i < |Grants(l, es)| ==> Grants(l, es)[i].generation == l.generation + 1 + i
    decreases |es|
  {
    if es != [] {
      var m := NextLease(l, es[0]);
      GenerationsIncrease(m, es[1..]);
      var rest := Grants(m, es[1..]);
      var g := Grants(l, es);
      assert g == (if m.generation != l.generation then [Grant(es[0].token, m.generation)] else []) + rest;
      forall i | 0 <= i < |g|
        ensures g[i].generation == l.generation + 1 + i
      {
        if m.generation != l.generation {
          assert i > 0 ==> g[i] == rest[i - 1];
        } else {
          assert g[i] == rest[i];
        }
      }
    }
  }

  function LeaseAfter(l: Lease, es: seq<LeaseEvent>): Lease
    decreases |es|
  {
    if es == [] then l else LeaseAfter(NextLease(l, es[0]), es[1..])
  }

  predicate ReleasedBy(es: seq<LeaseEvent>, token: OwnerToken) {
    exists i :: 0 <= i < |es| && es[i] == Releases(token)
  }

  /** Nobody but its owner ends a lease before it expires: not a release by others, nor a contender. */
  lemma {:induction false} OnlyOwnerReleases(l: Lease, es: seq<LeaseEvent>)
    requires l.owner.Some? && l.expiresAt.Some?
    requires !ReleasedBy(es, l.owner.value)
    requires forall i :: 0 <= i < |es| && es[i].Acquires? ==> es[i].now < l.expiresAt.value
    ensures LeaseAfter(l, es) == l
    decreases |es|
  {
    if es != [] {
      assert es[0] != Releases(l.owner.value);
      assert forall i :: 0 <= i < |es[1..]| ==> es[1..][i] == es[i + 1];
      OnlyOwnerReleases(l, es[1..]);
    }
  }

  /** A lease is granted, in full and with the next generation, unless an owner's lease has yet to expire. */
  lemma AcquireAnswers(l: Lease, token: OwnerToken, now: Instant, ttl: nat)
    ensures Acquire(l, token, now, ttl) ==
      if l.owner.Some? && l.expiresAt.Some? && now < l.expiresAt.value then l
      else Lease(Some(token), Some(now + ttl), l.generation + 1)
    ensures Release(l, token) == if l.owner == Some(token) then Lease(None, None, l.generation) else l
  {
  }

  /** The event is a grant: it hands out a generation the lease did not have. */
  predicate IsGrant(l: Lease, e: LeaseEvent) {
    e.Acquires? && NextLease(l, e).generation != l.generation
  }

  /**
   * A holder has the lease to itself for as long as it was granted: whoever gets it next does so
   * no earlier than its expiry, unless the holder released it.
   */
  lemma GrantsDoNotOverlap(l: Lease, first: LeaseEvent, between: seq<LeaseEvent>, next: LeaseEvent)
    requires IsGrant(l, first) && !ReleasedBy(between, first.token)
    requires forall i :: 0 <= i < |between| && between[i].Acquires? && next.Acquires? ==> between[i].now <= next.now
    requires IsGrant(LeaseAfter(NextLease(l, first), between), next)
    ensures first.now + first.ttl <= next.now
  {
    var held := NextLease(l, first);
    if next.now < first.now + first.ttl {
      OnlyOwnerReleases(held, between);
    }
  }

  // ---------------------------------------------------------------- passes over all agents

  function PassAll(s: Settings, tracks: map<AgentId, Track>, passes: map<AgentId, Pass>): map<AgentId, Track>
    requires passes.Keys == tracks.Keys
  {
    map a | a in tracks :: ApplyPass(s, tracks[a], passes[a])
  }

  /** A provider batch as seen by each agent; an agent the batch does not mention is `Missing`. */
  function Beats(agents: set<AgentId>, token: nat, now: Instant, batch: map<AgentId, Reading>): map<AgentId, Pass> {
    map a | a in agents :: Beat(token, now, if a in batch then batch[a] else Missing)
  }

  function Vetoes(agents: set<AgentId>, token: nat, now: Instant): map<AgentId, Pass> {
    map a | a in agents :: Veto(token, now)
  }

  predicate InScope(t: Track, token: nat) {
    !t.row.inactive && t.row.token <= token
  }

  /** The agents a listing names so far whose pass is not fenced off. */
  function Checked(tracks: map<AgentId, Track>, agents: seq<AgentId>, token: nat): nat
    requires forall i :: 0 <= i < |agents| ==> agents[i] in tracks
  {
    if agents == [] then 0
    else
      Checked(tracks, agents[..|agents| - 1], token)
      + if InScope(tracks[agents[|agents| - 1]], token) then 1 else 0
  }

  function StatusChanges(before: map<AgentId, Track>, after: map<AgentId, Track>, agents: seq<AgentId>): nat
    requires forall i :: 0 <= i < |agents| ==> agents[i] in before && agents[i] in after
  {
    if agents == [] then 0
    else
      StatusChanges(before, after, agents[..|agents| - 1])
      + if before[agents[|agents| - 1]].row.status != after[agents[|agents| - 1]].row.status then 1 else 0
  }

  function CheckedAgents(tracks: map<AgentId, Track>, agents: seq<AgentId>, token: nat): set<AgentId> {
    set a | a in agents && a in tracks && !tracks[a].row.inactive && tracks[a].row.token <= token
  }

  function ChangedAgents(before: map<AgentId, Track>, after: map<AgentId, Track>, agents: seq<AgentId>): set<AgentId> {
    set a | a in agents && a in before && a in after && before[a].row.status != after[a].row.status
  }

  lemma OneMore(tracks: map<AgentId, Track>, after: map<AgentId, Track>, agents: seq<AgentId>, a: AgentId, token: nat)
    requires a in tracks && a in after && a !in agents
    ensures CheckedAgents(tracks, agents + [a], token)
         == CheckedAgents(tracks, agents, token) + if InScope(tracks[a], token) then {a} else {}
    ensures ChangedAgents(tracks, after, agents + [a])
         == ChangedAgents(tracks, after, agents) + if tracks[a].row.status != after[a].row.status then {a} else {}
    ensures a !in CheckedAgents(tracks, agents, token) && a !in ChangedAgents(tracks, after, agents)
  {
  }

  /**
   * Over a listing without repetitions the two counts are the numbers of agents that are active and
   * not yet written under a newer lease, and of agents whose status the pass changed.
   */
  lemma {:induction false} CountsAreAgents(
    before: map<AgentId, Track>, after: map<AgentId, Track>, agents: seq<AgentId>, token: nat)
    requires forall i :: 0 <= i < |agents| ==> agents[i] in before && agents[i] in after
    requires forall i, j :: 0 <= i < j < |agents| ==> agents[i] != agents[j]
    ensures Checked(before, agents, token) == |CheckedAgents(before, agents, token)|
    ensures StatusChanges(before, after, agents) == |ChangedAgents(before, after, agents)|
    decreases |agents|
  {
    hide CheckedAgents, ChangedAgents, InScope;
    if agents == [] {
      NobodyListed(before, after, token);
    } else {
      var front, last := agents[..|agents| - 1], agents[|agents| - 1];
      CountsAreAgents(before, after, front, token);
      OneMore(before, after, front, last, token);
      assert agents == front + [last];
    }
  }

  lemma NobodyListed(before: map<AgentId, Track>, after: map<AgentId, Track>, token: nat)
    ensures CheckedAgents(before, [], token) == {} && ChangedAgents(before, after, []) == {}
  {
  }

  /**
   * A pass over everyone leaves inactive agents and agents written under a newer lease alone; of the
   * rest, an agent the batch does not mention is ineligible for want of an observation, and one it
   * mentions carries the status reported for it.
   */
  lemma BatchReachesEveryone(
    s: Settings, tracks: map<AgentId, Track>, token: nat, now: Instant, batch: map<AgentId, Reading>, a: AgentId)
    requires a in tracks
    ensures var after := PassAll(s, tracks, Beats(tracks.Keys, token, now, batch));
      && after.Keys == tracks.Keys
      && (tracks[a].row.inactive || token < tracks[a].row.token ==> after[a] == tracks[a])
      && (!tracks[a].row.inactive && tracks[a].row.token <= token ==>
            && after[a].row.token == token && after[a].row.heartbeatAt == Some(now)
            && (after[a].row.reason == MissingObservation <==>
                  tracks[a].row.autoAssign && (a !in batch || batch[a].Missing?))
            && (a in batch && batch[a].Observed? ==> after[a].row.remote == batch[a].remote))
  {
    hide Stable, Extend;
  }

  class Service {
    var lease: Lease
    var tracks: map<AgentId, Track>

    constructor (agents: map<AgentId, Track>)
      ensures tracks == agents && lease == Lease(None, None, 0)
    {
      tracks := agents;
      lease := Lease(None, None, 0);
    }

    /** Grants the next generation, unless someone holds an unexpired lease. */
    method AcquireLease(token: OwnerToken, now: Instant, ttl: nat) returns (generation: Option<nat>)
      modifies this`lease
      ensures lease == Acquire(old(lease), token, now, ttl)
      ensures generation.None? <==> Held(old(lease), now)
      ensures generation.Some? ==> generation.value == lease.generation > old(lease).generation && Held(lease, now) == (ttl > 0)
    {
      if lease.expiresAt.Some? && lease.expiresAt.value > now && lease.owner.Some? {
        return None;
      }
      lease := lease.(owner := Some(token), expiresAt := Some(now + ttl), generation := lease.generation + 1);
      return Some(lease.generation);
    }

    method ReleaseLease(token: OwnerToken) returns (released: bool)
      modifies this`lease
      ensures lease == Release(old(lease), token)
      ensures released <==> old(lease).owner == Some(token)
      ensures lease.generation == old(lease).generation
    {
      if lease.owner != Some(token) {
        return false;
      }
      lease := lease.(owner := None, expiresAt := None);
      return true;
    }

    /** One reconciliation transaction over the listed agents, under the generation the worker was granted. */
    method ApplyHeartbeat(
      s: Settings, listing: seq<AgentId>, token: nat, now: Instant, batch: map<AgentId, Reading>)
      returns (agentsChecked: nat, statusChanges: nat)
      requires forall a :: a in listing <==> a in tracks && !tracks[a].row.inactive
      requires forall i, j :: 0 <= i < j < |listing| ==> listing[i] != listing[j]
      modifies this`tracks
      ensures tracks == PassAll(s, old(tracks), Beats(old(tracks).Keys, token, now, batch))
      ensures agentsChecked == Checked(old(tracks), listing, token)
      ensures statusChanges == StatusChanges(old(tracks), tracks, listing)
    {
      agentsChecked, statusChanges := PassOver(s, listing, token, Beats(tracks.Keys, token, now, batch));
    }

    /** The local schedule veto over the listed agents. */
    method MaterializeOffHours(s: Settings, listing: seq<AgentId>, token: nat, now: Instant)
      returns (agentsChecked: nat, statusChanges: nat)
      requires forall a :: a in listing <==> a in tracks && !tracks[a].row.inactive
      requires forall i, j :: 0 <= i < j < |listing| ==> listing[i] != listing[j]
      modifies this`tracks
      ensures tracks == PassAll(s, old(tracks), Vetoes(old(tracks).Keys, token, now))
      ensures agentsChecked == Checked(old(tracks), listing, token)
      ensures statusChanges == StatusChanges(old(tracks), tracks, listing)
    {
      agentsChecked, statusChanges := PassOver(s, listing, token, Vetoes(tracks.Keys, token, now));
    }

    /** The loop both passes share: skip an agent a newer holder has written, apply the pass to the rest. */
    method PassOver(s: Settings, listing: seq<AgentId>, token: nat, passes: map<AgentId, Pass>)
      returns (agentsChecked: nat, statusChanges: nat)
      requires forall a :: a in listing <==> a in tracks && !tracks[a].row.inactive
      requires forall i, j :: 0 <= i < j < |listing| ==> listing[i] != listing[j]
      requires passes.Keys == tracks.Keys
      requires forall a :: a in passes ==> !passes[a].Configure? && passes[a].token == token
      modifies this`tracks
      ensures tracks == PassAll(s, old(tracks), passes)
      ensures agentsChecked == Checked(old(tracks), listing, token)
      ensures statusChanges == StatusChanges(old(tracks), tracks, listing)
    {
      hide ApplyPass, Checked, StatusChanges;
      CountNobody(tracks);
      ghost var before := tracks;
      agentsChecked, statusChanges := 0, 0;
      var i := 0;
      while i < |listing|
        invariant 0 <= i <= |listing|
        invariant tracks.Keys == before.Keys
        invariant forall a :: a in listing[..i] ==> tracks[a] == ApplyPass(s, before[a], passes[a])
        invariant forall a :: a in before && a !in listing[..i] ==> tracks[a] == before[a]
        invariant agentsChecked == Checked(before, listing[..i], token)
        invariant statusChanges == StatusChanges(before, tracks, listing[..i])
      {
        var a := listing[i];
        ghost var middle := tracks;
        assert listing[..i + 1] == listing[..i] + [a];
        assert a !in listing[..i];
        if tracks[a].row.token > token {
          StalePassIsFenced(s, tracks[a], passes[a]);
        } else {
          agentsChecked := agentsChecked + 1;
          var next := ApplyPass(s, tracks[a], passes[a]);
          if next.row.status != tracks[a].row.status {
            statusChanges := statusChanges + 1;
          }
          tracks := tracks[a := next];
        }
        ChangesIgnoreOthers(before, middle, tracks, listing[..i]);
        CountNext(before, tracks, listing[..i], a, token);
        i := i + 1;
      }
      assert listing[..i] == listing;
      InactiveUntouched(s, before, passes);
    }
  }

  lemma {:induction false} ChangesIgnoreOthers(
    before: map<AgentId, Track>, after: map<AgentId, Track>, later: map<AgentId, Track>, agents: seq<AgentId>)
    requires forall i :: 0 <= i < |agents| ==> agents[i] in before && agents[i] in after && agents[i] in later
    requires forall i :: 0 <= i < |agents| ==> after[agents[i]] == later[agents[i]]
    ensures StatusChanges(before, after, agents) == StatusChanges(before, later, agents)
    decreases |agents|
  {
    if agents != [] {
      ChangesIgnoreOthers(before, after, later, agents[..|agents| - 1]);
    }
  }

  lemma CountNobody(tracks: map<AgentId, Track>)
    ensures forall token :: Checked(tracks, [], token) == 0
    ensures StatusChanges(tracks, tracks, []) == 0
  {
  }

  lemma CountNext(
    before: map<AgentId, Track>, after: map<AgentId, Track>, agents: seq<AgentId>, a: AgentId, token: nat)
    requires forall i :: 0 <= i < |agents| ==> agents[i] in before && agents[i] in after
    requires a in before && a in after
    ensures Checked(before, agents + [a], token)
         == Checked(before, agents, token) + if InScope(before[a], token) then 1 else 0
    ensures StatusChanges(before, after, agents + [a])
         == StatusChanges(before, after, agents) + if before[a].row.status != after[a].row.status then 1 else 0
  {
    var all := agents + [a];
    assert all[..|all| - 1] == agents;
  }

  lemma InactiveUntouched(s: Settings, tracks: map<AgentId, Track>, passes: map<AgentId, Pass>)
    requires passes.Keys == tracks.Keys
    requires forall a :: a in passes ==> !passes[a].Configure?
    ensures forall a :: a in tracks && tracks[a].row.inactive ==> ApplyPass(s, tracks[a], passes[a]) == tracks[a]
  {
  }
}
