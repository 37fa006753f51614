/** Identifiers and small collection facts shared by every module. */
module Base {

  type AgentId = nat
  type OwnerId = nat
  type TicketId = nat
  type CycleId = nat
  type AttemptId = nat
  type TransferId = nat

  datatype Option<+T> = None | Some(value: T)

  function Min(a: int, b: int): int {
    if a <= b then a else b
  }

  function Max(a: int, b: int): int {
    if a >= b then a else b
  }

  /** A set inside another is no larger. */
  lemma {:induction false} SubsetSize<T>(a: set<T>, b: set<T>)
    requires a <= b
    ensures |a| <= |b|
    decreases |a|
  {
    if x :| x in a {
      SubsetSize(a - {x}, b - {x});
    }
  }

  /** A set that gains at most one element grows by at most one. */
  lemma GrowsByOne<T>(a: set<T>, b: set<T>, x: T)
    requires a <= b + {x}
    ensures |a| <= |b| + 1
  {
    SubsetSize(a, b + {x});
    if x in b {
      assert b + {x} == b;
    }
  }
}
