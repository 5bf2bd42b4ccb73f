/**
 What one Prepare builds and one Close clears when none of their system
 calls fails (internal/scratch/scratch.go), step by step in the order of the
 source, in a directory that may hold anything.
 */
module CheckoutRuns {
  import opened LockTable
  import opened SweepProtocol

  // ----- the steps of one process -----

  /** The step of p, when it is enabled. */
  function After(s: System, p: Pid, a: Action): System {
    var x := ProcOf(s, p);
    System(NextDirs(s, x, a), MoveLocks(s.locks, p, MoveOf(x, a)), s.procs[p := NextProcess(s, x, a)],
           s.clock + (if a.Tick? then a.elapsed else 0), NextStamps(s, x, a))
  }

  lemma AfterIsNext(s: System, p: Pid, a: Action, s': System)
    ensures Next(s, p, a, s') <==> Enabled(s, ProcOf(s, p), a) && s' == After(s, p, a)
  {
    hide Enabled, NextDirs, MoveLocks, NextProcess, NextStamps, MoveOf;
  }

  function Do(s: System, p: Pid, acts: seq<Action>): System
    decreases |acts|
  {
    if acts == [] then s else Do(After(s, p, acts[0]), p, acts[1..])
  }

  /** Every step can be taken in turn. */
  predicate Possible(s: System, p: Pid, acts: seq<Action>)
    decreases |acts|
  {
    acts == [] || (Enabled(s, ProcOf(s, p), acts[0]) && Possible(After(s, p, acts[0]), p, acts[1..]))
  }

  lemma {:induction false} DoInTurn(s: System, p: Pid, a: seq<Action>, b: seq<Action>)
    ensures Do(s, p, a + b) == Do(Do(s, p, a), p, b)
    ensures Possible(s, p, a + b) <==> Possible(s, p, a) && Possible(Do(s, p, a), p, b)
    decreases |a|
  {
    if a == [] {
      assert a + b == b;
    } else {
      var s1 := After(s, p, a[0]);
      assert a + b == [a[0]] + (a[1..] + b) && a == [a[0]] + a[1..];
      DoFirst(s, p, a[0], a[1..] + b);
      DoFirst(s, p, a[0], a[1..]);
      hide After, Enabled, ProcOf, Do, Possible;
      DoInTurn(s1, p, a[1..], b);
    }
  }

  lemma DoFirst(s: System, p: Pid, a: Action, later: seq<Action>)
    ensures Do(s, p, [a] + later) == Do(After(s, p, a), p, later)
    ensures Possible(s, p, [a] + later) <==> Enabled(s, ProcOf(s, p), a) && Possible(After(s, p, a), p, later)
  {
    hide After, Enabled, ProcOf;
    assert ([a] + later)[1..] == later;
  }

  // ----- clearing and making -----

  predicate Builds(a: Action) {
    (a.ClearItem? && Disposable(a.item)) || (a.MakeItem? && a.item != Used)
  }

  predicate Clears(a: Action) {
    a.ClearItem? && Disposable(a.item)
  }

  /** What a clearing or making leaves of a directory. */
  function Built(d: Dir, clock: Time, a: Action): Dir
    requires Builds(a)
  {
    if a.ClearItem? then Removed(d, ItemName(a.item))
    else if ItemName(a.item) in d then d
    else d[ItemName(a.item) := Entry(Directory, clock)]
  }

  function AllBuilt(d: Dir, clock: Time, acts: seq<Action>): Dir
    requires forall a | a in acts :: Builds(a)
    decreases |acts|
  {
    if acts == [] then d else AllBuilt(Built(d, clock, acts[0]), clock, acts[1..])
  }

  /** The process in its own directory, which holds d. */
  predicate Works(s: System, p: Pid, x: Process, d: Dir, clock: Time) {
    ProcOf(s, p) == x && DirOf(s, x.own) == d && s.clock == clock
  }

  lemma BuildsOne(s: System, p: Pid, x: Process, d: Dir, clock: Time, a: Action)
    requires Works(s, p, x, d, clock) && Builds(a)
    requires x.pc == Building || (x.pc == Closing && Clears(a))
    ensures Enabled(s, x, a) && Works(After(s, p, a), p, x, Built(d, clock, a), clock)
    ensures After(s, p, a).locks == s.locks
  {
    hide ItemName, Disposable;
  }

  lemma {:induction false} BuildsAll(s: System, p: Pid, x: Process, d: Dir, clock: Time, acts: seq<Action>)
    requires Works(s, p, x, d, clock) && forall a | a in acts :: Builds(a)
    requires x.pc == Building || (x.pc == Closing && forall a | a in acts :: Clears(a))
    ensures Possible(s, p, acts) && Works(Do(s, p, acts), p, x, AllBuilt(d, clock, acts), clock)
    ensures Do(s, p, acts).locks == s.locks
    decreases |acts|
  {
    if acts != [] {
      hide After, Enabled, Works, Built, Builds, Clears;
      BuildsOne(s, p, x, d, clock, acts[0]);
      BuildsAll(After(s, p, acts[0]), p, x, Built(d, clock, acts[0]), clock, acts[1..]);
      assert Works(s, p, x, d, clock);
      WorksIs(s, p, x, d, clock);
    }
  }

  lemma WorksIs(s: System, p: Pid, x: Process, d: Dir, clock: Time)
    requires Works(s, p, x, d, clock)
    ensures ProcOf(s, p) == x && DirOf(s, x.own) == d && s.clock == clock
  {
  }

  // ----- one Prepare -----

  const CLEARING := [ClearItem(Checkout), ClearItem(Hooks), ClearItem(Tmp)]
  const MAKING := [MakeItem(Hooks), MakeItem(Tmp), MakeItem(Cache), MakeItem(Checkout)]

  /** Past its stamp and its sweep, a Prepare clears what a crashed round left, and makes its directories. */
  const PREPARE := CLEARING + MAKING + [FinishBuild]

  /** A link in none of the three places to clear, and nothing but a directory in the cache's. */
  predicate Preparable(d: Dir) {
    && (forall n | n in d && n in {"checkout", "hooks", "tmp"} :: d[n].kind != Link)
    && ("cache" in d ==> d["cache"].kind == Directory)
  }

  /** New directories for everything but the cache, which is kept, and nothing else touched. */
  predicate Prepared(d: Dir, d': Dir, clock: Time) {
    && d'.Keys == d.Keys + {"checkout", "hooks", "tmp", "cache"}
    && forall n | n in d' ::
         d'[n] == if n in d && n !in {"checkout", "hooks", "tmp"} then d[n] else Entry(Directory, clock)
  }

  function Cleared(d: Dir): Dir {
    Removed(Removed(Removed(d, "checkout"), "hooks"), "tmp")
  }

  function Made(d: Dir, clock: Time, n: string): Dir {
    if n in d then d else d[n := Entry(Directory, clock)]
  }

  lemma AllCleared(d: Dir, clock: Time)
    ensures forall a | a in CLEARING :: Clears(a) && Builds(a)
    ensures AllBuilt(d, clock, CLEARING) == Cleared(d)
  {
    hide Removed;
    assert CLEARING[1..] == [ClearItem(Hooks), ClearItem(Tmp)];
    assert CLEARING[1..][1..] == [ClearItem(Tmp)];
  }

  function AllFour(d: Dir, clock: Time): Dir {
    Made(Made(Made(Made(d, clock, "hooks"), clock, "tmp"), clock, "cache"), clock, "checkout")
  }

  lemma AllMade(d: Dir, clock: Time)
    ensures forall a | a in MAKING :: Builds(a)
    ensures AllBuilt(d, clock, MAKING) == AllFour(d, clock)
  {
    hide Removed;
    assert MAKING[1..] == [MakeItem(Tmp), MakeItem(Cache), MakeItem(Checkout)];
    assert MAKING[1..][1..] == [MakeItem(Cache), MakeItem(Checkout)];
    assert MAKING[1..][1..][1..] == [MakeItem(Checkout)];
  }

  lemma AllFourIs(d: Dir, clock: Time)
    ensures AllFour(d, clock).Keys == d.Keys + {"checkout", "hooks", "tmp", "cache"}
    ensures forall n | n in AllFour(d, clock) ::
              AllFour(d, clock)[n] == if n in d then d[n] else Entry(Directory, clock)
  {
  }

  lemma BuiltDirectory(d: Dir, clock: Time)
    ensures Complete(AllFour(Cleared(d), clock)) <==> Preparable(d)
    ensures Preparable(d) ==> Prepared(d, AllFour(Cleared(d), clock), clock)
  {
    CompleteIs(AllFour(Cleared(d), clock));
    ClearedIs(d);
    AllFourIs(Cleared(d), clock);
    hide Cleared, Complete, AllFour, Made;
  }

  lemma CompleteIs(d: Dir)
    ensures Complete(d) <==>
            Has(d, "cache", Directory) && Has(d, "checkout", Directory) && Has(d, "tmp", Directory)
            && Has(d, "hooks", Directory)
  {
    if Complete(d) {
      CompleteHasAll(d);
    }
  }

  lemma ClearedIs(d: Dir)
    ensures Closed(d, Cleared(d))
  {
  }

  /** Nothing under the three names but links, and everything else as it was. */
  predicate Closed(d: Dir, d': Dir) {
    && (forall n | n in d :: n in d' <==> (n in {"checkout", "hooks", "tmp"} ==> d[n].kind == Link))
    && d'.Keys <= d.Keys
    && (forall n | n in d' :: d'[n] == d[n])
  }

  /**
   A Prepare past its sweep succeeds without a fault exactly when its
   directory has no link where it clears and nothing but a directory for its
   cache. It then has a new checkout, hooks and temp directory, the cache it
   had, or a new one, and has touched nothing else.
   */
  lemma PreparesExactlyWhen(s: System, p: Pid)
    requires ProcOf(s, p).pc == Building
    ensures var x := ProcOf(s, p); var s' := Do(s, p, PREPARE);
            && (Possible(s, p, PREPARE) <==> Preparable(DirOf(s, x.own)))
            && (Possible(s, p, PREPARE) ==>
                  ProcOf(s', p) == x.(pc := Ready) && Prepared(DirOf(s, x.own), DirOf(s', x.own), s.clock))
  {
    var x, d, clock := ProcOf(s, p), DirOf(s, ProcOf(s, p).own), s.clock;
    AllCleared(d, clock);
    AllMade(Cleared(d), clock);
    hide After, Enabled, AllBuilt, Builds, Clears, Complete, Preparable, Prepared, Cleared, Made, Do, Possible,
         ItemName;
    BuildsAll(s, p, x, d, clock, CLEARING);
    var s1 := Do(s, p, CLEARING);
    BuildsAll(s1, p, x, Cleared(d), clock, MAKING);
    var s2 := Do(s1, p, MAKING);
    DoInTurn(s, p, CLEARING, MAKING);
    DoInTurn(s, p, CLEARING + MAKING, [FinishBuild]);
    BuiltDirectory(d, clock);
    Finishes(s2, p);
  }

  lemma Finishes(s: System, p: Pid)
    requires ProcOf(s, p).pc == Building
    ensures var x := ProcOf(s, p); var s' := Do(s, p, [FinishBuild]);
            && (Possible(s, p, [FinishBuild]) <==> Complete(DirOf(s, x.own)))
            && ProcOf(s', p) == x.(pc := Ready) && DirOf(s', x.own) == DirOf(s, x.own)
  {
    hide Complete;
    assert [FinishBuild][1..] == [];
  }

  // ----- one Close -----

  const CLOSING := [ClearItem(Checkout), ClearItem(Tmp), ClearItem(Hooks)]

  /**
   A Close without a fault is always possible: it leaves nothing under the
   three names but links, touches nothing else, the cache and the stamp
   included, and gives the lock back.
   */
  lemma CloseClears(s: System, p: Pid)
    requires ProcOf(s, p).pc == Closing
    ensures var own := ProcOf(s, p).own; var s' := Do(s, p, CLOSING + [DropOwn]);
            && Possible(s, p, CLOSING + [DropOwn])
            && Closed(DirOf(s, own), DirOf(s', own))
            && ProcOf(s', p) == NOT_RUNNING && s'.locks == s.locks - {own}
  {
    var x, d, clock := ProcOf(s, p), DirOf(s, ProcOf(s, p).own), s.clock;
    AllClosed(d, clock);
    hide After, Enabled, AllBuilt, Builds, Clears, Closed, Do, Possible, ItemName;
    BuildsAll(s, p, x, d, clock, CLOSING);
    DoInTurn(s, p, CLOSING, [DropOwn]);
    Leaves(Do(s, p, CLOSING), p);
  }

  lemma AllClosed(d: Dir, clock: Time)
    ensures forall a | a in CLOSING :: Clears(a) && Builds(a)
    ensures Closed(d, AllBuilt(d, clock, CLOSING))
  {
    assert CLOSING[1..] == [ClearItem(Tmp), ClearItem(Hooks)];
    assert CLOSING[1..][1..] == [ClearItem(Hooks)];
    assert AllBuilt(d, clock, CLOSING) == Removed(Removed(Removed(d, "checkout"), "tmp"), "hooks");
  }

  lemma Leaves(s: System, p: Pid)
    requires ProcOf(s, p).pc == Closing
    ensures var own := ProcOf(s, p).own; var s' := Do(s, p, [DropOwn]);
            && Possible(s, p, [DropOwn]) && ProcOf(s', p) == NOT_RUNNING
            && DirOf(s', own) == DirOf(s, own) && s'.locks == s.locks - {own}
  {
    assert [DropOwn][1..] == [];
  }
}
