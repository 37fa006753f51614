/**
 * Which agents took part in a cycle: its recorded owner, and every earlier
 * owner who wrote to the customer while the cycle was theirs.
 */
module Attribution {
  import opened Base

  type AccountId = nat
  type UserId = nat
  /** Milliseconds since the epoch. */
  type Instant = int

  const BATCH: nat := 100

  /** An assigned or closed row of a cycle. */
  datatype Projection = Projection(cycle: CycleId, owner: Option<OwnerId>)

  /** An assignment log entry; entries are ordered by time. */
  datatype LogEntry = LogEntry(cycle: CycleId, owner: OwnerId, at: Option<Instant>)

  datatype Transfer = Transfer(cycle: CycleId, ticket: TicketId, source: OwnerId, target: OwnerId, at: Instant)

  datatype CycleInfo = CycleInfo(account: AccountId, openedAt: Instant, closedAt: Option<Instant>)

  /** An outgoing message with evidence of who wrote it. */
  datatype Message = Message(key: Key, at: Instant)

  datatype Key = Key(account: AccountId, ticket: TicketId, actor: UserId)

  datatype Interval = Interval(start: Instant, end: Instant, cycle: CycleId, owner: OwnerId)

  datatype Window = Window(key: Key, interval: Interval)

  datatype Evidence = Evidence(
    projections: seq<Projection>,
    logs: seq<LogEntry>,
    transfers: seq<Transfer>,
    cycles: map<CycleId, CycleInfo>,
    users: map<OwnerId, set<UserId>>)

  type Pair = (CycleId, OwnerId)

  predicate Valid(e: Evidence) {
    forall i :: 0 <= i < |e.transfers| ==> e.transfers[i].cycle in e.cycles
  }

  // ---------------------------------------------------------------- recorded owners

  /** The newest row of a cycle, if it has one. */
  function LastProjection(ps: seq<Projection>, c: CycleId): Option<Projection> {
    if ps == [] then None
    else if ps[|ps| - 1].cycle == c then Some(ps[|ps| - 1])
    else LastProjection(ps[..|ps| - 1], c)
  }

  function LastLogged(ls: seq<LogEntry>, c: CycleId): Option<OwnerId> {
    if ls == [] then None
    else if ls[|ls| - 1].cycle == c && ls[|ls| - 1].at.Some? then Some(ls[|ls| - 1].owner)
    else LastLogged(ls[..|ls| - 1], c)
  }

  /** The owner on the cycle's row; only a cycle without rows falls back to the log. */
  function RecordedOwner(e: Evidence, c: CycleId): Option<OwnerId> {
    var row := LastProjection(e.projections, c);
    if row.Some? then row.value.owner else LastLogged(e.logs, c)
  }

  /** When the owner was first assigned the cycle, by the log. */
  function FirstAssigned(ls: seq<LogEntry>, c: CycleId, o: OwnerId): Option<Instant> {
    if ls == [] then None
    else
      var rest := FirstAssigned(ls[..|ls| - 1], c, o);
      var last := ls[|ls| - 1];
      if last.cycle != c || last.owner != o || last.at.None? then rest
      else if rest.None? || last.at.value < rest.value then last.at
      else rest
  }

  // ---------------------------------------------------------------- windows

  /** When the cycle last came to the owner by a transfer. */
  function LastReceived(ts: seq<Transfer>, c: CycleId, o: OwnerId): Option<Instant> {
    if ts == [] then None
    else if ts[|ts| - 1].cycle == c && ts[|ts| - 1].target == o then Some(ts[|ts| - 1].at)
    else LastReceived(ts[..|ts| - 1], c, o)
  }

  function Latest(a: Option<Instant>, b: Option<Instant>): Option<Instant> {
    if a.None? then b else if b.None? then a else Some(Max(a.value, b.value))
  }

  /** The one HubSpot user behind an owner id; none when there are several or nobody. */
  function OnlyUser(users: map<OwnerId, set<UserId>>, o: OwnerId): (r: Option<UserId>)
    ensures r.Some? <==> o in users && |users[o]| == 1
    ensures r.Some? ==> users[o] == {r.value}
  {
    if o !in users || |users[o]| != 1 then None
    else
      SingletonChoice(users[o]);
      var u :| u in users[o];
      Some(u)
  }

  lemma SingletonChoice(s: set<UserId>)
    requires |s| == 1
    ensures forall x, y :: x in s && y in s ==> x == y
    ensures forall x :: x in s ==> s == {x}
  {
    forall x, y | x in s && y in s
      ensures x == y
    {
      SubsetSize({x, y}, s);
    }
  }

  /**
   * The time the source of transfer `i` held the cycle, clipped to the life of
   * the cycle; nothing if the owner is ambiguous or the time is empty.
   */
  function WindowOf(e: Evidence, i: nat): Option<Window>
    requires Valid(e) && i < |e.transfers|
  {
    var t := e.transfers[i];
    var info := e.cycles[t.cycle];
    var user := OnlyUser(e.users, t.source);
    var started := Latest(FirstAssigned(e.logs, t.cycle, t.source), LastReceived(e.transfers[..i], t.cycle, t.source));
    if user.None? || started.None? || started.value >= t.at then None
    else
      var start := Max(started.value, info.openedAt);
      var ended := if info.closedAt.Some? then Min(t.at, info.closedAt.value) else t.at;
      if (info.closedAt.Some? && start >= info.closedAt.value) || start >= ended then None
      else Some(Window(Key(info.account, t.ticket, user.value), Interval(start, ended, t.cycle, t.source)))
  }

  predicate Logs(l: LogEntry, c: CycleId, o: OwnerId) {
    l.cycle == c && l.owner == o && l.at.Some?
  }

  lemma {:induction false} FirstAssignedIsEarliest(ls: seq<LogEntry>, c: CycleId, o: OwnerId)
    ensures var first := FirstAssigned(ls, c, o);
      && (first.Some? <==> exists k :: 0 <= k < |ls| && Logs(ls[k], c, o))
      && (first.Some? ==>
            && (exists k :: 0 <= k < |ls| && Logs(ls[k], c, o) && ls[k].at == first)
            && forall k :: 0 <= k < |ls| && Logs(ls[k], c, o) ==> first.value <= ls[k].at.value)
  {
    if ls != [] {
      var front, n := ls[..|ls| - 1], |ls| - 1;
      FirstAssignedIsEarliest(front, c, o);
      assert forall k :: 0 <= k < n ==> front[k] == ls[k];
      if FirstAssigned(front, c, o).Some? {
        var k :| 0 <= k < |front| && Logs(front[k], c, o) && front[k].at == FirstAssigned(front, c, o);
        assert Logs(ls[k], c, o);
      }
      if Logs(ls[n], c, o) {
        assert 0 <= n < |ls|;
      }
    }
  }

  /** The transfer brings the cycle to the owner. */
  predicate Brings(t: Transfer, c: CycleId, o: OwnerId) {
    t.cycle == c && t.target == o
  }

  /** Transfer `j` is the last of the first `n` that brings the cycle to the owner. */
  predicate LastBringing(ts: seq<Transfer>, n: nat, c: CycleId, o: OwnerId, j: nat)
    requires n <= |ts|
  {
    j < n && Brings(ts[j], c, o) && forall k :: j < k < n ==> !Brings(ts[k], c, o)
  }

  lemma {:induction false} LastReceivedIsLatest(ts: seq<Transfer>, n: nat, c: CycleId, o: OwnerId)
    requires n <= |ts|
    ensures LastReceived(ts[..n], c, o).None? ==> forall k :: 0 <= k < n ==> !Brings(ts[k], c, o)
    ensures LastReceived(ts[..n], c, o).Some? ==>
      exists j: nat :: LastBringing(ts, n, c, o, j) && LastReceived(ts[..n], c, o) == Some(ts[j].at)
    decreases n
  {
    if n > 0 {
      assert ts[..n][..n - 1] == ts[..n - 1] && ts[..n][n - 1] == ts[n - 1];
      if Brings(ts[n - 1], c, o) {
        assert LastBringing(ts, n, c, o, n - 1);
      } else {
        LastReceivedIsLatest(ts, n - 1, c, o);
        if LastReceived(ts[..n - 1], c, o).Some? {
          var j: nat :| LastBringing(ts, n - 1, c, o, j) && LastReceived(ts[..n - 1], c, o) == Some(ts[j].at);
          assert LastBringing(ts, n, c, o, j);
        }
      }
    }
  }

  /** The owner is known to have had the cycle by then: by the log at the earliest, and since the last transfer to it. */
  ghost predicate HadBy(e: Evidence, i: nat, at: Instant)
    requires i < |e.transfers|
  {
    var c, o := e.transfers[i].cycle, e.transfers[i].source;
    var logged := exists k :: 0 <= k < |e.logs| && Logs(e.logs[k], c, o);
    && (logged ==> exists k :: 0 <= k < |e.logs| && Logs(e.logs[k], c, o) && e.logs[k].at.value <= at)
    && (forall j: nat :: LastBringing(e.transfers, i, c, o, j) ==> e.transfers[j].at <= at)
    && (logged || exists j: nat :: LastBringing(e.transfers, i, c, o, j))
  }

  /**
   * The moments a transfer credits to its source: those at which the source already had the cycle,
   * before the transfer and within the cycle's life, if the source is one known user.
   */
  lemma WindowMoments(e: Evidence, i: nat, at: Instant)
    requires Valid(e) && i < |e.transfers|
    ensures var t, w := e.transfers[i], WindowOf(e, i);
      var info := e.cycles[t.cycle];
      (w.Some? && w.value.interval.start <= at < w.value.interval.end) <==>
        && t.source in e.users && |e.users[t.source]| == 1
        && HadBy(e, i, at) && at < t.at
        && info.openedAt <= at && (info.closedAt.Some? ==> at < info.closedAt.value)
  {
    hide FirstAssigned, LastReceived, LastBringing;
    var t := e.transfers[i];
    FirstAssignedIsEarliest(e.logs, t.cycle, t.source);
    LastReceivedIsLatest(e.transfers, i, t.cycle, t.source);
    OneLastBringing(e.transfers, i, t.cycle, t.source);
  }

  lemma OneLastBringing(ts: seq<Transfer>, n: nat, c: CycleId, o: OwnerId)
    requires n <= |ts|
    ensures forall j: nat, k: nat :: LastBringing(ts, n, c, o, j) && LastBringing(ts, n, c, o, k) ==> j == k
    ensures (exists j: nat :: LastBringing(ts, n, c, o, j)) ==> exists j :: 0 <= j < n && Brings(ts[j], c, o)
  {
  }

  /** What a window is for: the source's own user on the ticket's account, and the cycle it left. */
  lemma WindowNames(e: Evidence, i: nat)
    requires Valid(e) && i < |e.transfers| && WindowOf(e, i).Some?
    ensures var t, w := e.transfers[i], WindowOf(e, i).value;
      && w.key.account == e.cycles[t.cycle].account && w.key.ticket == t.ticket
      && t.source in e.users && e.users[t.source] == {w.key.actor}
      && w.interval.cycle == t.cycle && w.interval.owner == t.source && w.interval.start < w.interval.end
  {
    hide FirstAssigned, LastReceived;
  }

  /** Row `k` is the newest of its cycle. */
  predicate NewestRow(ps: seq<Projection>, c: CycleId, k: nat) {
    k < |ps| && ps[k].cycle == c && forall j :: k < j < |ps| ==> ps[j].cycle != c
  }

  predicate NoRow(ps: seq<Projection>, c: CycleId) {
    forall j :: 0 <= j < |ps| ==> ps[j].cycle != c
  }

  predicate NewestLog(ls: seq<LogEntry>, c: CycleId, k: nat) {
    k < |ls| && Logs(ls[k], c, ls[k].owner) && forall j :: k < j < |ls| ==> !Logs(ls[j], c, ls[j].owner)
  }

  predicate NoLog(ls: seq<LogEntry>, c: CycleId) {
    forall j :: 0 <= j < |ls| ==> !Logs(ls[j], c, ls[j].owner)
  }

  /** The recorded owner is that of the cycle's newest row, even when it has none; without rows, the last timed log entry's. */
  lemma RecordedIsNewest(e: Evidence, c: CycleId, k: nat)
    ensures NewestRow(e.projections, c, k) ==> RecordedOwner(e, c) == e.projections[k].owner
    ensures NoRow(e.projections, c) && NewestLog(e.logs, c, k) ==> RecordedOwner(e, c) == Some(e.logs[k].owner)
    ensures NoRow(e.projections, c) && NoLog(e.logs, c) ==> RecordedOwner(e, c).None?
  {
    LastIsNewestRow(e.projections, c, k);
    LastIsNewestLog(e.logs, c, k);
  }

  lemma {:induction false} LastIsNewestRow(ps: seq<Projection>, c: CycleId, k: nat)
    ensures NewestRow(ps, c, k) ==> LastProjection(ps, c) == Some(ps[k])
    ensures NoRow(ps, c) ==> LastProjection(ps, c).None?
    decreases |ps|
  {
    if ps != [] && ps[|ps| - 1].cycle != c {
      LastIsNewestRow(ps[..|ps| - 1], c, k);
    }
  }

  lemma {:induction false} LastIsNewestLog(ls: seq<LogEntry>, c: CycleId, k: nat)
    ensures NewestLog(ls, c, k) ==> LastLogged(ls, c) == Some(ls[k].owner)
    ensures NoLog(ls, c) ==> LastLogged(ls, c).None?
    decreases |ls|
  {
    if ls != [] && !Logs(ls[|ls| - 1], c, ls[|ls| - 1].owner) {
      LastIsNewestLog(ls[..|ls| - 1], c, k);
    }
  }

  predicate Proves(w: Window, m: Message) {
    m.key == w.key && w.interval.start <= m.at < w.interval.end
  }

  /** The definition: every message is checked against every window. */
  ghost predicate ShouldAttribute(e: Evidence, ms: seq<Message>, p: Pair)
    requires Valid(e)
  {
    || RecordedOwner(e, p.0) == Some(p.1)
    || exists i: nat, m :: i < |e.transfers| && m in ms && ProvesTransfer(e, i, m, p)
  }

  predicate ProvesTransfer(e: Evidence, i: nat, m: Message, p: Pair)
    requires Valid(e) && i < |e.transfers|
  {
    && WindowOf(e, i).Some?
    && Proves(WindowOf(e, i).value, m)
    && p == (WindowOf(e, i).value.interval.cycle, WindowOf(e, i).value.interval.owner)
  }

  // ---------------------------------------------------------------- windows do not overlap

  /** The transfer of the same cycle just before `i`. */
  ghost predicate PreviousOf(ts: seq<Transfer>, h: int, i: int) {
    && 0 <= h < i < |ts|
    && ts[h].cycle == ts[i].cycle
    && forall k :: h < k < i ==> ts[k].cycle != ts[i].cycle
  }

  /** Transfers are in time order and each starts from the owner the previous one of its cycle went to. */
  ghost predicate Chained(ts: seq<Transfer>) {
    && (forall i, j :: 0 <= i < j < |ts| ==> ts[i].at <= ts[j].at)
    && (forall h, i :: PreviousOf(ts, h, i) ==> ts[h].target == ts[i].source)
  }

  lemma {:induction false} ReceivedFromPrevious(ts: seq<Transfer>, h: nat, i: nat, n: nat)
    requires PreviousOf(ts, h, i) && h < n <= i && ts[h].target == ts[i].source
    ensures LastReceived(ts[..n], ts[i].cycle, ts[i].source) == Some(ts[h].at)
    decreases n
  {
    assert ts[..n][..n - 1] == ts[..n - 1];
    if n - 1 != h {
      ReceivedFromPrevious(ts, h, i, n - 1);
    }
  }

  /** A window lies between the previous transfer of its cycle and its own. */
  lemma WindowBetweenTransfers(e: Evidence, i: nat)
    requires Valid(e) && Chained(e.transfers) && i < |e.transfers| && WindowOf(e, i).Some?
    ensures var iv := WindowOf(e, i).value.interval;
      && iv.start < iv.end <= e.transfers[i].at
      && e.cycles[iv.cycle].openedAt <= iv.start
      && (e.cycles[iv.cycle].closedAt.Some? ==> iv.end <= e.cycles[iv.cycle].closedAt.value)
      && forall h :: PreviousOf(e.transfers, h, i) ==> e.transfers[h].at <= iv.start
  {
    hide FirstAssigned, LastReceived;
    forall h | PreviousOf(e.transfers, h, i)
      ensures e.transfers[h].at <= WindowOf(e, i).value.interval.start
    {
      ReceivedFromPrevious(e.transfers, h, i, i);
    }
  }

  lemma {:induction false} PreviousExists(ts: seq<Transfer>, a: nat, i: nat) returns (h: nat)
    requires a < i < |ts| && ts[a].cycle == ts[i].cycle
    ensures PreviousOf(ts, h, i) && a <= h
    decreases i - a
  {
    h := a;
    if k :| a < k < i && ts[k].cycle == ts[i].cycle {
      h := PreviousExists(ts, k, i);
    }
  }

  /** Two windows of one cycle never share an instant: each moment is credited to one owner at most. */
  lemma WindowsDisjoint(e: Evidence, i: nat, j: nat)
    requires Valid(e) && Chained(e.transfers) && i < j < |e.transfers|
    requires WindowOf(e, i).Some? && WindowOf(e, j).Some?
    requires e.transfers[i].cycle == e.transfers[j].cycle
    ensures WindowOf(e, i).value.interval.end <= WindowOf(e, j).value.interval.start
  {
    hide WindowOf;
    WindowBetweenTransfers(e, i);
    WindowBetweenTransfers(e, j);
    var h := PreviousExists(e.transfers, i, j);
    assert e.transfers[i].at <= e.transfers[h].at;
  }

  // ---------------------------------------------------------------- collecting, in place

  /** The owner and the start dictionaries, filled row by row. */
  method CollectOwners(e: Evidence) returns (owners: map<CycleId, OwnerId>, started: map<Pair, Instant>)
    ensures forall c :: c in owners <==> RecordedOwner(e, c).Some?
    ensures forall c :: c in owners ==> RecordedOwner(e, c) == Some(owners[c])
    ensures forall c: CycleId, o: OwnerId :: (c, o) in started <==> FirstAssigned(e.logs, c, o).Some?
    ensures forall c: CycleId, o: OwnerId :: (c, o) in started ==> FirstAssigned(e.logs, c, o) == Some(started[(c, o)])
  {
    owners := map[];
    var projected: set<CycleId> := {};
    for i := 0 to |e.projections|
      invariant forall c :: c in projected <==> LastProjection(e.projections[..i], c).Some?
      invariant forall c :: c in owners ==> c in projected
      invariant forall c :: c in projected ==>
        LastProjection(e.projections[..i], c).value.owner == if c in owners then Some(owners[c]) else None
    {
      var row := e.projections[i];
      assert e.projections[..i + 1][..i] == e.projections[..i];
      projected := projected + {row.cycle};
      if row.owner.Some? {
        owners := owners[row.cycle := row.owner.value];
      } else {
        owners := owners - {row.cycle};
      }
    }
    assert e.projections[..|e.projections|] == e.projections;
    started := map[];
    ghost var byRow := owners;
    for i := 0 to |e.logs|
      invariant forall c :: c in projected ==> (c in owners <==> c in byRow) && (c in owners ==> owners[c] == byRow[c])
      invariant forall c :: c !in projected ==>
        LastLogged(e.logs[..i], c) == if c in owners then Some(owners[c]) else None
      invariant forall c: CycleId, o: OwnerId :: FirstAssigned(e.logs[..i], c, o) == if (c, o) in started then Some(started[(c, o)]) else None
    {
      var entry := e.logs[i];
      assert e.logs[..i + 1][..i] == e.logs[..i];
      if entry.at.Some? {
        if entry.cycle !in projected {
          owners := owners[entry.cycle := entry.owner];
        }
        var key := (entry.cycle, entry.owner);
        if key !in started || entry.at.value < started[key] {
          started := started[key := entry.at.value];
        }
      }
    }
    assert e.logs[..|e.logs|] == e.logs;
  }

  type Table = map<Key, seq<Interval>>

  /** Every window is in the table under its key, and nothing else is. */
  ghost predicate Holds(e: Evidence, n: nat, table: Table)
    requires Valid(e) && n <= |e.transfers|
  {
    && (forall k :: k in table ==> table[k] != [])
    && (forall k, iv :: k in table && iv in table[k] ==> exists i: nat :: i < n && WindowOf(e, i) == Some(Window(k, iv)))
    && (forall i: nat :: i < n && WindowOf(e, i).Some? ==>
          WindowOf(e, i).value.key in table && WindowOf(e, i).value.interval in table[WindowOf(e, i).value.key])
  }

  /** The keys in the order they were first used. */
  ghost predicate Orders(order: seq<Key>, table: Table) {
    forall k :: k in order <==> k in table
  }

  lemma HoldsNothing(e: Evidence)
    requires Valid(e)
    ensures Holds(e, 0, map[])
  {
  }

  lemma HoldsNext(e: Evidence, n: nat, table: Table)
    requires Valid(e) && n < |e.transfers| && Holds(e, n, table)
    ensures WindowOf(e, n).None? ==> Holds(e, n + 1, table)
    ensures WindowOf(e, n).Some? ==>
      var w := WindowOf(e, n).value;
      Holds(e, n + 1, table[w.key := (if w.key in table then table[w.key] else []) + [w.interval]])
  {
    hide WindowOf;
    if WindowOf(e, n).Some? {
      var w := WindowOf(e, n).value;
      var next := table[w.key := (if w.key in table then table[w.key] else []) + [w.interval]];
      forall k, iv | k in next && iv in next[k]
        ensures exists i: nat :: i < n + 1 && WindowOf(e, i) == Some(Window(k, iv))
      {
        if k in table && iv in table[k] {
          var i: nat :| i < n && WindowOf(e, i) == Some(Window(k, iv));
          assert i < n + 1;
        } else {
          assert WindowOf(e, n) == Some(Window(k, iv));
        }
      }
    } else {
      forall k, iv | k in table && iv in table[k]
        ensures exists i: nat :: i < n + 1 && WindowOf(e, i) == Some(Window(k, iv))
      {
        var i: nat :| i < n && WindowOf(e, i) == Some(Window(k, iv));
        assert i < n + 1;
      }
    }
  }

  /** The message windows, built transfer by transfer from the two start dictionaries. */
  method BuildWindows(e: Evidence, started: map<Pair, Instant>) returns (order: seq<Key>, table: Table)
    requires Valid(e)
    requires forall c: CycleId, o: OwnerId :: (c, o) in started <==> FirstAssigned(e.logs, c, o).Some?
    requires forall c: CycleId, o: OwnerId :: (c, o) in started ==> FirstAssigned(e.logs, c, o) == Some(started[(c, o)])
    ensures Holds(e, |e.transfers|, table) && Orders(order, table)
  {
    hide Holds, FirstAssigned, Latest, Min, Max;
    order, table := [], map[];
    HoldsNothing(e);
    var received: map<Pair, Instant> := map[];
    for i := 0 to |e.transfers|
      invariant Holds(e, i, table) && Orders(order, table)
      invariant forall c: CycleId, o: OwnerId ::
        LastReceived(e.transfers[..i], c, o) == if (c, o) in received then Some(received[(c, o)]) else None
    {
      HoldsNext(e, i, table);
      var t := e.transfers[i];
      var info := e.cycles[t.cycle];
      var key := (t.cycle, t.source);
      assert e.transfers[..i + 1][..i] == e.transfers[..i];
      var begun := Latest(
        if key in started then Some(started[key]) else None, if key in received then Some(received[key]) else None);
      received := received[(t.cycle, t.target) := t.at];
      var user := OnlyUser(e.users, t.source);
      if user.None? || begun.None? || begun.value >= t.at {
        continue;
      }
      var start := Max(begun.value, info.openedAt);
      if info.closedAt.Some? && start >= info.closedAt.value {
        continue;
      }
      var ended := if info.closedAt.Some? then Min(t.at, info.closedAt.value) else t.at;
      if start >= ended {
        continue;
      }
      var k := Key(info.account, t.ticket, user.value);
      ghost var before := table;
      if k !in table {
        order := order + [k];
        table := table[k := []];
      }
      table := table[k := table[k] + [Interval(start, ended, t.cycle, t.source)]];
      assert table == before[k := (if k in before then before[k] else []) + [Interval(start, ended, t.cycle, t.source)]];
    }
  }

  // ---------------------------------------------------------------- the batched sweep

  /** The message lies in one of the intervals kept under its own key. */
  ghost predicate Hit(table: Table, m: Message, p: Pair) {
    m.key in table && exists iv :: iv in table[m.key] && iv.start <= m.at < iv.end && p == (iv.cycle, iv.owner)
  }

  /** Some message hits through one of the keys: every message against every window. */
  ghost predicate Found(table: Table, keys: seq<Key>, ms: seq<Message>, p: Pair) {
    exists m :: m in ms && m.key in keys && Hit(table, m, p)
  }

  function Flatten(table: Table, keys: seq<Key>): (r: seq<Interval>)
    requires forall k :: k in keys ==> k in table
    ensures forall k, iv :: k in keys && iv in table[k] ==> iv in r
    ensures keys != [] && (forall k :: k in keys ==> table[k] != []) ==> r != []
  {
    if keys == [] then []
    else
      assert keys == [keys[0]] + keys[1..];
      table[keys[0]] + Flatten(table, keys[1..])
  }

  function EarliestStart(ivs: seq<Interval>): (r: Instant)
    requires ivs != []
    ensures forall iv :: iv in ivs ==> r <= iv.start
  {
    assert ivs == [ivs[0]] + ivs[1..];
    if |ivs| == 1 then ivs[0].start else Min(ivs[0].start, EarliestStart(ivs[1..]))
  }

  function LatestEnd(ivs: seq<Interval>): (r: Instant)
    requires ivs != []
    ensures forall iv :: iv in ivs ==> iv.end <= r
  {
    assert ivs == [ivs[0]] + ivs[1..];
    if |ivs| == 1 then ivs[0].end else Max(ivs[0].end, LatestEnd(ivs[1..]))
  }

  predicate SharesParts(m: Message, keys: seq<Key>) {
    && (exists k :: k in keys && k.account == m.key.account)
    && (exists k :: k in keys && k.ticket == m.key.ticket)
    && (exists k :: k in keys && k.actor == m.key.actor)
  }

  /** What the database returns for a batch: account, ticket, actor and time are filtered separately. */
  function Query(ms: seq<Message>, keys: seq<Key>, from: Instant, until: Instant): (r: seq<Message>)
    ensures forall m :: m in r <==> m in ms && SharesParts(m, keys) && from <= m.at < until
  {
    if ms == [] then []
    else
      assert ms == [ms[0]] + ms[1..];
      if SharesParts(ms[0], keys) && from <= ms[0].at < until then [ms[0]] + Query(ms[1..], keys, from, until)
      else Query(ms[1..], keys, from, until)
  }

  /** The separate filters and the batch's outer bounds lose no message that proves anything. */
  lemma PrefilterLosesNothing(table: Table, keys: seq<Key>, ms: seq<Message>, p: Pair)
    requires keys != [] && forall k :: k in keys ==> k in table && table[k] != []
    ensures var ivs := Flatten(table, keys);
      Found(table, keys, ms, p) <==> Found(table, keys, Query(ms, keys, EarliestStart(ivs), LatestEnd(ivs)), p)
  {
    var ivs := Flatten(table, keys);
    var rows := Query(ms, keys, EarliestStart(ivs), LatestEnd(ivs));
    if Found(table, keys, ms, p) {
      var m :| m in ms && m.key in keys && Hit(table, m, p);
      var iv :| iv in table[m.key] && iv.start <= m.at < iv.end;
      assert iv in ivs;
      assert SharesParts(m, keys);
      assert m in rows;
    }
  }

  lemma FoundSplits(table: Table, front: seq<Key>, back: seq<Key>, ms: seq<Message>, p: Pair)
    ensures Found(table, front + back, ms, p) <==> Found(table, front, ms, p) || Found(table, back, ms, p)
  {
    if Found(table, front, ms, p) {
      var m :| m in ms && m.key in front && Hit(table, m, p);
      assert m.key in front + back;
    } else if Found(table, back, ms, p) {
      var m :| m in ms && m.key in back && Hit(table, m, p);
      assert m.key in front + back;
    }
  }

  lemma FoundNext(table: Table, keys: seq<Key>, ms: seq<Message>, m: Message, p: Pair)
    ensures Found(table, keys, ms + [m], p) <==> Found(table, keys, ms, p) || (m.key in keys && Hit(table, m, p))
  {
    if Found(table, keys, ms, p) {
      var n :| n in ms && n.key in keys && Hit(table, n, p);
      assert n in ms + [m];
    } else if m.key in keys && Hit(table, m, p) {
      assert m in ms + [m];
    }
  }

  /** One message against the intervals of its key. */
  method SweepMessage(intervals: seq<Interval>, at: Instant, found: set<Pair>) returns (r: set<Pair>)
    ensures forall p :: p in r <==>
      p in found || exists iv :: iv in intervals && iv.start <= at < iv.end && p == (iv.cycle, iv.owner)
  {
    r := found;
    for i := 0 to |intervals|
      invariant forall p :: p in r <==>
        p in found || exists iv :: iv in intervals[..i] && iv.start <= at < iv.end && p == (iv.cycle, iv.owner)
    {
      var iv := intervals[i];
      assert intervals[..i + 1] == intervals[..i] + [iv];
      if iv.start <= at < iv.end {
        r := r + {(iv.cycle, iv.owner)};
      }
    }
    assert intervals[..|intervals|] == intervals;
  }

  /** One batch of keys: query within the batch's outer bounds, then check each row exactly. */
  method SweepBatch(table: Table, keys: seq<Key>, ms: seq<Message>, found: set<Pair>) returns (r: set<Pair>)
    requires keys != [] && forall k :: k in keys ==> k in table && table[k] != []
    ensures forall p :: p in r <==> p in found || Found(table, keys, ms, p)
  {
    hide Found;
    var ivs := Flatten(table, keys);
    var rows := Query(ms, keys, EarliestStart(ivs), LatestEnd(ivs));
    r := found;
    NothingFound(table, keys);
    for i := 0 to |rows|
      invariant forall p :: p in r <==> p in found || Found(table, keys, rows[..i], p)
    {
      var m := rows[i];
      assert rows[..i + 1] == rows[..i] + [m];
      forall p
        ensures Found(table, keys, rows[..i + 1], p) <==>
          Found(table, keys, rows[..i], p) || (m.key in keys && Hit(table, m, p))
      {
        FoundNext(table, keys, rows[..i], m, p);
      }
      if m.key in keys {
        r := SweepMessage(table[m.key], m.at, r);
      }
    }
    assert rows[..|rows|] == rows;
    forall p
      ensures Found(table, keys, ms, p) <==> Found(table, keys, rows, p)
    {
      PrefilterLosesNothing(table, keys, ms, p);
    }
  }

  lemma NothingFound(table: Table, keys: seq<Key>)
    ensures forall p :: !Found(table, keys, [], p)
  {
  }

  lemma NoKeysFound(table: Table, ms: seq<Message>)
    ensures forall p :: !Found(table, [], ms, p)
  {
  }

  /** All windows, a hundred keys at a time: exactly what checking every message against every window finds. */
  method SweepWindows(order: seq<Key>, table: Table, ms: seq<Message>, recorded: set<Pair>) returns (r: set<Pair>)
    requires forall k :: k in order ==> k in table && table[k] != []
    ensures forall p :: p in r <==> p in recorded || Found(table, order, ms, p)
  {
    hide Found;
    r := recorded;
    var offset := 0;
    NoKeysFound(table, ms);
    while offset < |order|
      invariant 0 <= offset <= |order|
      invariant forall p :: p in r <==> p in recorded || Found(table, order[..offset], ms, p)
    {
      var end := if offset + BATCH < |order| then offset + BATCH else |order|;
      var keys := order[offset..end];
      r := SweepBatch(table, keys, ms, r);
      assert order[..end] == order[..offset] + keys;
      forall p
        ensures Found(table, order[..end], ms, p) <==> Found(table, order[..offset], ms, p) || Found(table, keys, ms, p)
      {
        FoundSplits(table, order[..offset], keys, ms, p);
      }
      offset := end;
    }
    assert order[..offset] == order;
  }

  /** The join through the table is the join through the transfers. */
  lemma TableJoinIsNaive(e: Evidence, order: seq<Key>, table: Table, ms: seq<Message>, p: Pair)
    requires Valid(e) && Holds(e, |e.transfers|, table) && Orders(order, table)
    ensures Found(table, order, ms, p) <==>
      exists i: nat, m :: i < |e.transfers| && m in ms && ProvesTransfer(e, i, m, p)
  {
    hide WindowOf;
    if Found(table, order, ms, p) {
      var m :| m in ms && m.key in order && Hit(table, m, p);
      var iv :| iv in table[m.key] && iv.start <= m.at < iv.end && p == (iv.cycle, iv.owner);
      var i: nat :| i < |e.transfers| && WindowOf(e, i) == Some(Window(m.key, iv));
      assert ProvesTransfer(e, i, m, p);
    }
    if i: nat, m :| i < |e.transfers| && m in ms && ProvesTransfer(e, i, m, p) {
      assert m.key in table;
      assert WindowOf(e, i).value.interval in table[m.key];
      assert Hit(table, m, p);
    }
  }

  /**
   * The pairs of cycle and agent with proven participation: exactly those the
   * definition attributes.
   */
  method AttributedAgentCycles(e: Evidence, ms: seq<Message>) returns (attributed: set<Pair>)
    requires Valid(e)
    ensures forall p :: p in attributed <==> ShouldAttribute(e, ms, p)
  {
    hide Holds, Orders, Found, RecordedOwner, FirstAssigned, ProvesTransfer;
    var owners, started := CollectOwners(e);
    var recorded := set c | c in owners :: (c, owners[c]);
    var order, table := BuildWindows(e, started);
    OrderedKeysHold(e, order, table);
    attributed := SweepWindows(order, table, ms, recorded);
    forall p
      ensures Found(table, order, ms, p) <==>
        exists i: nat, m :: i < |e.transfers| && m in ms && ProvesTransfer(e, i, m, p)
    {
      TableJoinIsNaive(e, order, table, ms, p);
    }
    assert forall p: Pair :: p in recorded <==> RecordedOwner(e, p.0) == Some(p.1);
  }

  lemma OrderedKeysHold(e: Evidence, order: seq<Key>, table: Table)
    requires Valid(e) && Holds(e, |e.transfers|, table) && Orders(order, table)
    ensures forall k :: k in order ==> k in table && table[k] != []
  {
  }

  // ---------------------------------------------------------------- asking about some cycles only

  /** The three filtered queries. */
  function SomeRows(ps: seq<Projection>, ids: set<CycleId>): seq<Projection> {
    if ps == [] then []
    else SomeRows(ps[..|ps| - 1], ids) + if ps[|ps| - 1].cycle in ids then [ps[|ps| - 1]] else []
  }

  function SomeLogs(ls: seq<LogEntry>, ids: set<CycleId>): seq<LogEntry> {
    if ls == [] then []
    else SomeLogs(ls[..|ls| - 1], ids) + if ls[|ls| - 1].cycle in ids then [ls[|ls| - 1]] else []
  }

  function SomeTransfers(ts: seq<Transfer>, ids: set<CycleId>): (r: seq<Transfer>)
    ensures |r| <= |ts| && forall t :: t in r ==> t in ts && t.cycle in ids
  {
    if ts == [] then []
    else SomeTransfers(ts[..|ts| - 1], ids) + if ts[|ts| - 1].cycle in ids then [ts[|ts| - 1]] else []
  }

  function Restrict(e: Evidence, ids: set<CycleId>): Evidence {
    e.(projections := SomeRows(e.projections, ids), logs := SomeLogs(e.logs, ids),
       transfers := SomeTransfers(e.transfers, ids))
  }

  lemma {:induction false} RowsRestrict(ps: seq<Projection>, ids: set<CycleId>, c: CycleId)
    ensures LastProjection(SomeRows(ps, ids), c) == if c in ids then LastProjection(ps, c) else None
  {
    if ps != [] {
      RowsRestrict(ps[..|ps| - 1], ids, c);
      var front := SomeRows(ps[..|ps| - 1], ids);
      var last := ps[|ps| - 1];
      assert SomeRows(ps, ids) == if last.cycle in ids then front + [last] else front;
      assert (front + [last])[..|front|] == front;
    }
  }

  lemma SomeLogsStep(ls: seq<LogEntry>, ids: set<CycleId>)
    requires ls != []
    ensures var front, last := SomeLogs(ls[..|ls| - 1], ids), ls[|ls| - 1];
      && SomeLogs(ls, ids) == (if last.cycle in ids then front + [last] else front)
      && (front + [last])[..|front|] == front
  {
  }

  lemma {:induction false} LoggedRestrict(ls: seq<LogEntry>, ids: set<CycleId>, c: CycleId)
    ensures LastLogged(SomeLogs(ls, ids), c) == if c in ids then LastLogged(ls, c) else None
  {
    if ls != [] {
      LoggedRestrict(ls[..|ls| - 1], ids, c);
      SomeLogsStep(ls, ids);
    }
  }

  lemma {:induction false} AssignedRestrict(ls: seq<LogEntry>, ids: set<CycleId>, c: CycleId, o: OwnerId)
    ensures FirstAssigned(SomeLogs(ls, ids), c, o) == if c in ids then FirstAssigned(ls, c, o) else None
  {
    if ls != [] {
      AssignedRestrict(ls[..|ls| - 1], ids, c, o);
      SomeLogsStep(ls, ids);
    }
  }

  lemma {:induction false} TransfersRestrict(ts: seq<Transfer>, ids: set<CycleId>, c: CycleId, o: OwnerId)
    requires c in ids
    ensures LastReceived(SomeTransfers(ts, ids), c, o) == LastReceived(ts, c, o)
  {
    if ts != [] {
      TransfersRestrict(ts[..|ts| - 1], ids, c, o);
      var front := SomeTransfers(ts[..|ts| - 1], ids);
      var last := ts[|ts| - 1];
      assert SomeTransfers(ts, ids) == if last.cycle in ids then front + [last] else front;
      assert (front + [last])[..|front|] == front;
    }
  }

  /** Where a kept transfer lands in the filtered list: after the kept ones before it. */
  lemma {:induction false} KeptAt(ts: seq<Transfer>, ids: set<CycleId>, n: nat)
    requires n < |ts| && ts[n].cycle in ids
    ensures var j := |SomeTransfers(ts[..n], ids)|;
      j < |SomeTransfers(ts, ids)| && SomeTransfers(ts, ids)[j] == ts[n]
      && SomeTransfers(ts, ids)[..j] == SomeTransfers(ts[..n], ids)
    decreases |ts|
  {
    var front := ts[..|ts| - 1];
    if n < |ts| - 1 {
      KeptAt(front, ids, n);
      assert front[..n] == ts[..n];
    }
  }

  /** Every transfer of the filtered list is one of the originals, kept. */
  lemma {:induction false} KeptFrom(ts: seq<Transfer>, ids: set<CycleId>, j: nat) returns (n: nat)
    requires j < |SomeTransfers(ts, ids)|
    ensures n < |ts| && ts[n].cycle in ids && j == |SomeTransfers(ts[..n], ids)|
    decreases |ts|
  {
    var front := ts[..|ts| - 1];
    if j < |SomeTransfers(front, ids)| {
      n := KeptFrom(front, ids, j);
      assert front[..n] == ts[..n];
    } else {
      n := |ts| - 1;
    }
  }

  lemma RestrictKeepsValid(e: Evidence, ids: set<CycleId>)
    requires Valid(e)
    ensures Valid(Restrict(e, ids))
  {
    var r := Restrict(e, ids);
    forall j | 0 <= j < |r.transfers|
      ensures r.transfers[j].cycle in r.cycles
    {
      assert r.transfers[j] in r.transfers;
      var i :| 0 <= i < |e.transfers| && e.transfers[i] == r.transfers[j];
    }
  }

  lemma WindowRestricts(e: Evidence, ids: set<CycleId>, n: nat)
    requires Valid(e) && Valid(Restrict(e, ids)) && n < |e.transfers| && e.transfers[n].cycle in ids
    ensures var j := |SomeTransfers(e.transfers[..n], ids)|;
      j < |Restrict(e, ids).transfers| && WindowOf(Restrict(e, ids), j) == WindowOf(e, n)
  {
    hide FirstAssigned, LastReceived, SomeTransfers, SomeLogs, SomeRows;
    KeptAt(e.transfers, ids, n);
    AssignedRestrict(e.logs, ids, e.transfers[n].cycle, e.transfers[n].source);
    TransfersRestrict(e.transfers[..n], ids, e.transfers[n].cycle, e.transfers[n].source);
  }

  /** Asking about some cycles gives the full answer restricted to them; no cycles, no answer. */
  lemma RestrictionCommutes(e: Evidence, ids: set<CycleId>, ms: seq<Message>, p: Pair)
    requires Valid(e)
    ensures Valid(Restrict(e, ids))
    ensures ShouldAttribute(Restrict(e, ids), ms, p) <==> p.0 in ids && ShouldAttribute(e, ms, p)
  {
    RestrictKeepsValid(e, ids);
    var r := Restrict(e, ids);
    RowsRestrict(e.projections, ids, p.0);
    LoggedRestrict(e.logs, ids, p.0);
    hide WindowOf, Restrict, LastProjection, LastLogged;
    if j: nat, m :| j < |r.transfers| && m in ms && ProvesTransfer(r, j, m, p) {
      var n := KeptFrom(e.transfers, ids, j);
      WindowRestricts(e, ids, n);
      WindowCycle(e, n);
      assert ProvesTransfer(e, n, m, p);
    }
    if n: nat, m :| p.0 in ids && n < |e.transfers| && m in ms && ProvesTransfer(e, n, m, p) {
      WindowCycle(e, n);
      WindowRestricts(e, ids, n);
      assert ProvesTransfer(r, |SomeTransfers(e.transfers[..n], ids)|, m, p);
    }
  }

  lemma WindowCycle(e: Evidence, n: nat)
    requires Valid(e) && n < |e.transfers|
    ensures WindowOf(e, n).Some? ==> WindowOf(e, n).value.interval.cycle == e.transfers[n].cycle
  {
  }
}
