/**
 Exclusive locks as internal/state/lock.go gives them out: a table that says
 which process has each lock, and what one step of a process may do to it.
 */
module LockTable {

  type Pid = nat

  /** What a step does to the locks of the process that takes it. */
  datatype LockMove<L> = Keep | Take(l: L) | Give(l: L) | GiveAll

  function MoveLocks<L>(locks: map<L, Pid>, p: Pid, move: LockMove<L>): map<L, Pid> {
    match move
    case Keep => locks
    case Take(l) => locks[l := p]
    case Give(l) => locks - {l}
    case GiveAll => map l | l in locks && locks[l] != p :: locks[l]
  }

  predicate Owns<L>(locks: map<L, Pid>, l: L, p: Pid) {
    l in locks && locks[l] == p
  }

  /** Whether the process that moves has l afterwards, given whether it had it. */
  predicate HasAfter<L(==)>(move: LockMove<L>, l: L, had: bool) {
    match move
    case Keep => had
    case Take(m) => had || l == m
    case Give(m) => had && l != m
    case GiveAll => false
  }

  /** A lock is only taken when it is free, and only given back by who has it. */
  predicate Allowed<L>(locks: map<L, Pid>, p: Pid, move: LockMove<L>) {
    (move.Take? ==> move.l !in locks) && (move.Give? ==> Owns(locks, move.l, p))
  }

  /** An allowed move changes what its own process has, and nothing else. */
  lemma MoveChangesOwn<L>(locks: map<L, Pid>, p: Pid, move: LockMove<L>, l: L, q: Pid)
    requires Allowed(locks, p, move)
    ensures Owns(MoveLocks(locks, p, move), l, q) <==>
            if q == p then HasAfter(move, l, Owns(locks, l, p)) else Owns(locks, l, q)
  {
  }
}
