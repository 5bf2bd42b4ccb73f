/**
 When a Prepare gets past its stamp. The stamp is set by a rename
 (internal/scratch/sweep.go), which replaces links and files but fails on a
 directory; so a directory under the stamp's name stops every Prepare of its
 workflow until some other workflow's sweep moves it away.
 */
module StampRuns {
  import opened LockTable
  import opened SweepProtocol

  const USED := ItemName(Used)
  const CACHE := ItemName(Cache)

  /** A Prepare of d can take its lock. */
  predicate Openable(s: System, d: Name) {
    IsWorkflowName(d) && !Has(DirOf(s, d), LOCK, Directory)
  }

  /** A Prepare of d can set its stamp at once. */
  predicate Direct(s: System, d: Name) {
    Openable(s, d) && !Has(DirOf(s, d), USED, Directory)
  }

  /** The lock of d is a file, or will be once a Prepare makes it. */
  predicate LockIsFile(s: System, d: Name) {
    IsWorkflowName(d) && (LOCK in DirOf(s, d) ==> Has(DirOf(s, d), LOCK, RegularFile))
  }

  /** A sweep can judge d by its cache, and another workflow can be prepared to run that sweep. */
  ghost predicate Freeable(s: System, d: Name) {
    && LockIsFile(s, d) && Has(DirOf(s, d), CACHE, Directory)
    && exists e :: e != d && Direct(s, e)
  }

  /** The cache of d, as the run started with it, has aged past the limit. */
  predicate Aged(s0: System, s: System, d: Name) {
    && LockIsFile(s0, d) && Has(DirOf(s0, d), CACHE, Directory)
    && s.clock - DirOf(s0, d)[CACHE].mtime > MAX_CACHE_AGE
  }

  /** Before the stamp, or on the way out. */
  predicate Early(pc: Pc) {
    pc == Idle || pc == WaitLock || pc == Stamping || pc == Renaming || pc == Closing
  }

  // ----- what a step cannot do -----

  predicate SameEntry(d: Dir, d': Dir, n: string) {
    (n in d' <==> n in d) && (n in d ==> d'[n] == d[n])
  }

  /** Only building, working and moving to trash concern the cache. */
  lemma RestSparesCache(s: System, x: Process, a: Action, d: Dir)
    requires ProcessOk(s, x) && Enabled(s, x, a) && !a.RenameStamp? && !a.MoveItem? && !a.MakeItem? && !a.Work?
    ensures SameEntry(d, NextDir(s, x, a, d), CACHE)
  {
    NamesApart();
    hide ItemName, IsStampTemp, IsTrash, Complete, Expired, Unused, Sweepable, HasTrash, Stale, IsWorkflowName;
  }

  /** The process's own directory keeps its stamp entry and cache while it is early, whatever it does. */
  lemma EarlySpares(s: System, p: Pid, a: Action, s': System, d: Name)
    requires ProcessOk(s, ProcOf(s, p)) && Next(s, p, a, s') && !a.RenameStamp?
    requires ProcOf(s, p).own == d ==> Early(ProcOf(s, p).pc)
    requires ProcOf(s, p).pc == Moving && ProcOf(s, p).entry == d ==> ProcOf(s, p).todo == []
    ensures SameEntry(DirOf(s, d), DirOf(s', d), USED) && SameEntry(DirOf(s, d), DirOf(s', d), CACHE)
  {
    var x := ProcOf(s, p);
    DirsAfter(s, p, a, s', d);
    hide Next, ProcessOk, NextDir, DirOf, ItemName;
    if WorksInDir(a) && Workplace(x, a) == d && !a.MoveItem? {
      assert !a.MakeItem? && !a.Work? by { hide IsWorkflowName, Complete, HasTrash, Stale, Lists, Has; }
      RestSparesStamp(s, x, a, DirOf(s, d));
      RestSparesCache(s, x, a, DirOf(s, d));
    }
  }

  // ----- blocked until aged -----

  /** Nothing has got past the directory under the stamp's name. */
  ghost predicate Blocked(s0: System, s: System, d: Name) {
    Held(s0, s, d) && forall p :: Halted(ProcOf(s, p), d)
  }

  /** The directory keeps the entry, the cache and the lock file it started with, and no stamp was set in it. */
  predicate Held(s0: System, s: System, d: Name) {
    && Has(DirOf(s, d), USED, Directory) && SameEntry(DirOf(s0, d), DirOf(s, d), CACHE)
    && (LOCK in DirOf(s0, d) ==> Same(s0, s, d, LOCK))
    && d !in s.lastStamp
  }

  predicate Halted(x: Process, d: Name) {
    (x.own == d ==> Early(x.pc)) && (x.pc == Moving && x.entry == d ==> x.todo == [])
  }

  lemma StartBlocked(s0: System, d: Name)
    requires Init(s0) && Has(DirOf(s0, d), USED, Directory)
    ensures Blocked(s0, s0, d)
  {
    assert forall p :: ProcOf(s0, p) == NOT_RUNNING;
  }

  lemma StaysHalted(s: System, x: Process, a: Action, d: Name)
    requires Halted(x, d) && Enabled(s, x, a) && !a.Rejudge? && (a.RenameStamp? ==> x.own != d)
    ensures Halted(NextProcess(s, x, a), d)
  {
    hide IsWorkflowName, Has, DirOf, HasTrash, Stale, Lists, Complete, Sweepable, ItemName;
  }

  /** A sweep finds something to move only where the cache has aged. */
  lemma RejudgeFindsAged(s0: System, s: System, p: Pid, s': System, d: Name)
    requires ProcessOk(s, ProcOf(s, p)) && Next(s, p, Rejudge, s') && Blocked(s0, s, d)
    ensures Halted(NextProcess(s, ProcOf(s, p), Rejudge), d) || Aged(s0, s', d)
  {
    assert Halted(ProcOf(s, p), d);
    hide ItemName, IsStampTemp, IsWorkflowName, Complete, Expired, Unused, NextDirs, NextStamps, MoveLocks;
  }

  lemma RenameElsewhere(s: System, p: Pid, s': System, d: Name)
    requires Next(s, p, RenameStamp, s') && Has(DirOf(s, d), USED, Directory)
    ensures ProcOf(s, p).own != d
    ensures DirOf(s', d) == DirOf(s, d) && (d in s'.lastStamp ==> d in s.lastStamp)
  {
    hide ItemName, MoveLocks, NextProcess;
  }

  lemma MoverHalted(s0: System, s: System, p: Pid, a: Action, s': System, d: Name)
    requires ProcessOk(s, ProcOf(s, p)) && Next(s, p, a, s') && Blocked(s0, s, d)
    ensures Halted(NextProcess(s, ProcOf(s, p), a), d) || Aged(s0, s', d)
  {
    if a.Rejudge? {
      RejudgeFindsAged(s0, s, p, s', d);
    } else {
      assert Halted(ProcOf(s, p), d);
      if a.RenameStamp? {
        RenameElsewhere(s, p, s', d);
      }
      hide ProcessOk, Halted, NextProcess, Enabled;
      StaysHalted(s, ProcOf(s, p), a, d);
    }
  }

  lemma StaysHeld(s0: System, s: System, p: Pid, a: Action, s': System, d: Name)
    requires ProcessOk(s, ProcOf(s, p)) && Next(s, p, a, s') && Held(s0, s, d) && Halted(ProcOf(s, p), d)
    ensures Held(s0, s', d)
  {
    hide ProcessOk, ItemName, Next, Early;
    if LOCK in DirOf(s, d) {
      LockStaysFile(s, p, a, s', d);
    }
    if a.RenameStamp? {
      RenameElsewhere(s, p, s', d);
    } else {
      EarlySpares(s, p, a, s', d);
      NoStamp(s, p, a, s');
    }
  }

  lemma NoStamp(s: System, p: Pid, a: Action, s': System)
    requires Next(s, p, a, s') && !a.RenameStamp?
    ensures s'.lastStamp == s.lastStamp
  {
    hide Enabled, NextDirs, NextProcess, MoveLocks;
  }

  lemma ProcAfter(s: System, p: Pid, a: Action, s': System, q: Pid)
    requires Next(s, p, a, s')
    ensures ProcOf(s', q) == if q == p then NextProcess(s, ProcOf(s, p), a) else ProcOf(s, q)
  {
    hide Enabled, NextDirs, NextProcess, NextStamps, MoveLocks;
  }

  lemma StepKeepsBlocked(s0: System, s: System, p: Pid, a: Action, s': System, d: Name)
    requires Inv(s) && Next(s, p, a, s') && Blocked(s0, s, d)
    ensures Blocked(s0, s', d) || Aged(s0, s', d)
  {
    hide ProcessOk, Halted, Aged, LocksMatch, StampsOk, Held, Next, NextProcess, ProcOf;
    assert ProcessOk(s, ProcOf(s, p)) && Halted(ProcOf(s, p), d);
    MoverHalted(s0, s, p, a, s', d);
    StaysHeld(s0, s, p, a, s', d);
    forall q
      ensures Halted(ProcOf(s', q), d) || Aged(s0, s', d)
    {
      assert Halted(ProcOf(s, q), d);
      ProcAfter(s, p, a, s', q);
    }
  }

  /**
   Where a run starts with a directory under the stamp's name, no Prepare of
   that workflow gets past its stamp, and the directory stays, until the
   cache it started with has aged past the limit.
   */
  lemma {:induction false} StampWaitsForAge(states: seq<System>, j: nat, d: Name)
    requires Run(states) && j < |states| && Has(DirOf(states[0], d), USED, Directory)
    ensures Blocked(states[0], states[j], d) || Aged(states[0], states[j], d)
  {
    if j == 0 {
      StartBlocked(states[0], d);
    } else {
      StampWaitsForAge(states, j - 1, d);
      RunKeepsInv(states, j - 1);
      assert Steps(states[j - 1], states[j - 1 + 1]);
      hide Inv, Next, Run, Blocked;
      var p, a :| Next(states[j - 1], p, a, states[j]);
      if Aged(states[0], states[j - 1], d) {
        ClockRises(states[j - 1], p, a, states[j]);
      } else {
        StepKeepsBlocked(states[0], states[j - 1], p, a, states[j], d);
      }
    }
  }

  lemma ClockRises(s: System, p: Pid, a: Action, s': System)
    requires Next(s, p, a, s')
    ensures s'.clock >= s.clock
  {
    hide Enabled, NextDirs, NextProcess, NextStamps, MoveLocks;
  }

  // ----- when nobody can start -----

  /** Where no workflow at all can set its stamp at once, none ever does. */
  ghost predicate Stalled(s: System) {
    && (forall e :: !Direct(s, e))
    && (forall p :: Early(ProcOf(s, p).pc) && Opened(s, ProcOf(s, p)))
    && s.lastStamp == map[]
  }

  /** Whoever has its lock could take it. */
  predicate Opened(s: System, x: Process) {
    HoldsOwn(x.pc) ==> Openable(s, x.own)
  }

  lemma StaysEarly(s: System, x: Process, a: Action)
    requires Early(x.pc) && Enabled(s, x, a) && !a.RenameStamp?
    ensures Early(NextProcess(s, x, a).pc)
    ensures HoldsOwn(NextProcess(s, x, a).pc) ==> NextProcess(s, x, a).own == x.own && (HoldsOwn(x.pc) || a.TakeOwn?)
  {
    hide IsWorkflowName, Has, DirOf, HasTrash, Stale, Lists, Complete, Sweepable, ItemName;
  }

  /** A lock file that was not there is made as a file. */
  lemma NewLockIsFile(s: System, x: Process, a: Action, d: Dir)
    requires ProcessOk(s, x) && Enabled(s, x, a) && WorksInDir(a) && LOCK !in d
    ensures !Has(NextDir(s, x, a, d), LOCK, Directory)
  {
    NamesApart();
    hide ItemName, IsStampTemp, IsTrash, Complete, Expired, Unused, Sweepable, HasTrash, Stale, IsWorkflowName;
  }

  lemma LockKindStays(s: System, p: Pid, a: Action, s': System, d: Name)
    requires ProcessOk(s, ProcOf(s, p)) && Next(s, p, a, s')
    ensures Openable(s', d) <==> Openable(s, d)
  {
    hide Next, ProcessOk, ItemName, IsWorkflowName, NextDir, Enabled, Workplace, WorksInDir, DirOf;
    if LOCK in DirOf(s, d) {
      LockStaysFile(s, p, a, s', d);
    } else {
      DirsAfter(s, p, a, s', d);
      if WorksInDir(a) && Workplace(ProcOf(s, p), a) == d {
        NewLockIsFile(s, ProcOf(s, p), a, DirOf(s, d));
      }
    }
  }

  /** Short of renaming a stamp, an early process leaves every directory as open to a stamp as it was. */
  lemma EarlyKeepsDirect(s: System, p: Pid, a: Action, s': System, d: Name)
    requires ProcessOk(s, ProcOf(s, p)) && Next(s, p, a, s') && !a.RenameStamp? && Early(ProcOf(s, p).pc)
    ensures Direct(s', d) <==> Direct(s, d)
  {
    LockKindStays(s, p, a, s', d);
    hide Openable, ProcessOk;
    assert !a.MoveItem? by { hide IsWorkflowName, Complete, HasTrash, Stale, Lists, Has, DirOf; }
    hide Next, NextDir, Enabled, Workplace, WorksInDir, DirOf, ItemName, Early;
    DirsAfter(s, p, a, s', d);
    RestSparesStamp(s, ProcOf(s, p), a, DirOf(s, d));
  }

  lemma NobodyRenames(s: System, p: Pid)
    requires Stalled(s)
    ensures !Enabled(s, ProcOf(s, p), RenameStamp)
  {
    var x := ProcOf(s, p);
    assert Opened(s, x) && !Direct(s, x.own);
  }

  lemma StepKeepsStalled(s: System, p: Pid, a: Action, s': System)
    requires Inv(s) && Next(s, p, a, s') && Stalled(s)
    ensures Stalled(s')
  {
    var x := ProcOf(s, p);
    assert ProcessOk(s, x) && Early(x.pc) && Opened(s, x);
    NobodyRenames(s, p);
    hide ProcessOk, Direct, Openable, Inv, NextDirs, MoveLocks, NextProcess, Early, Enabled;
    StaysEarly(s, x, a);
    NoStamp(s, p, a, s');
    forall e
      ensures !Direct(s', e)
    {
      EarlyKeepsDirect(s, p, a, s', e);
    }
    forall q
      ensures Early(ProcOf(s', q).pc) && Opened(s', ProcOf(s', q))
    {
      var y := ProcOf(s', q);
      assert y == if q == p then NextProcess(s, x, a) else ProcOf(s, q);
      assert Early(ProcOf(s, q).pc) && Opened(s, ProcOf(s, q));
      LockKindStays(s, p, a, s', y.own);
      if a.TakeOwn? {
        TakenIsOpen(s, p);
      }
    }
  }

  lemma TakenIsOpen(s: System, p: Pid)
    requires ProcessOk(s, ProcOf(s, p)) && Enabled(s, ProcOf(s, p), TakeOwn)
    ensures Openable(s, ProcOf(s, p).own)
  {
  }

  lemma {:induction false} RunStalls(states: seq<System>, j: nat)
    requires Run(states) && j < |states| && forall e :: !Direct(states[0], e)
    ensures Stalled(states[j])
  {
    if j == 0 {
      assert forall p :: ProcOf(states[0], p) == NOT_RUNNING;
    } else {
      RunStalls(states, j - 1);
      RunKeepsInv(states, j - 1);
      assert Steps(states[j - 1], states[j - 1 + 1]);
      hide Inv, Next, Run, Stalled;
      var p, a :| Next(states[j - 1], p, a, states[j]);
      StepKeepsStalled(states[j - 1], p, a, states[j]);
    }
  }

  // ----- stamps need a lock -----

  /** Locks are taken, and stamps set, only where the lock file was no obstacle to begin with. */
  ghost predicate StampsOpen(s0: System, s: System) {
    && (forall d :: Openable(s, d) <==> Openable(s0, d))
    && (forall p :: Opened(s0, ProcOf(s, p)))
    && (forall d | d in s.lastStamp :: Openable(s0, d))
  }

  lemma OpenedAfter(s0: System, s: System, p: Pid, a: Action)
    requires ProcessOk(s, ProcOf(s, p)) && Enabled(s, ProcOf(s, p), a) && StampsOpen(s0, s)
    ensures Opened(s0, NextProcess(s, ProcOf(s, p), a))
  {
    assert Opened(s0, ProcOf(s, p));
    if a.TakeOwn? {
      TakenIsOpen(s, p);
    }
    hide IsWorkflowName, Has, DirOf, HasTrash, Stale, Lists, Complete, Sweepable, ItemName, ProcessOk, Openable;
  }

  lemma StepKeepsOpen(s0: System, s: System, p: Pid, a: Action, s': System)
    requires Inv(s) && Next(s, p, a, s') && StampsOpen(s0, s)
    ensures StampsOpen(s0, s')
  {
    var x := ProcOf(s, p);
    assert ProcessOk(s, x) && Opened(s0, x);
    OpenedAfter(s0, s, p, a);
    assert a.RenameStamp? ==> x.pc == Renaming;
    hide ProcessOk, Openable, Inv, NextDirs, MoveLocks, NextProcess, Enabled, ItemName;
    forall d
      ensures Openable(s', d) <==> Openable(s0, d)
    {
      LockKindStays(s, p, a, s', d);
    }
    forall q
      ensures Opened(s0, ProcOf(s', q))
    {
      assert ProcOf(s', q) == if q == p then NextProcess(s, x, a) else ProcOf(s, q);
      assert Opened(s0, ProcOf(s, q));
    }
  }

  lemma {:induction false} RunStampsOpen(states: seq<System>, j: nat)
    requires Run(states) && j < |states|
    ensures StampsOpen(states[0], states[j])
  {
    if j == 0 {
      assert forall p :: ProcOf(states[0], p) == NOT_RUNNING;
    } else {
      RunStampsOpen(states, j - 1);
      RunKeepsInv(states, j - 1);
      assert Steps(states[j - 1], states[j - 1 + 1]);
      hide Inv, Next, Run, StampsOpen;
      var p, a :| Next(states[j - 1], p, a, states[j]);
      StepKeepsOpen(states[0], states[j - 1], p, a, states[j]);
    }
  }

  /** What a stamp takes: nothing in its way to begin with, or a cache to be judged by and another workflow to do it. */
  lemma StampNeeds(states: seq<System>, j: nat, d: Name)
    requires Run(states) && j < |states| && d in states[j].lastStamp
    ensures Direct(states[0], d) || Freeable(states[0], d)
  {
    var s0 := states[0];
    RunStampsOpen(states, j);
    if !Direct(s0, d) {
      StampWaitsForAge(states, j, d);
      if forall e :: !Direct(s0, e) {
        RunStalls(states, j);
      }
    }
  }

  // ----- runs by hand -----

  /** The state after a step of the one process these runs need. */
  function Act(s: System, a: Action): System {
    var x := ProcOf(s, 0);
    System(NextDirs(s, x, a), MoveLocks(s.locks, 0, MoveOf(x, a)), s.procs[0 := NextProcess(s, x, a)],
           s.clock + (if a.Tick? then a.elapsed else 0), NextStamps(s, x, a))
  }

  ghost predicate Reach(s0: System, s: System) {
    exists states :: Run(states) && states[0] == s0 && states[|states| - 1] == s
  }

  lemma ReachStart(s0: System)
    requires Init(s0)
    ensures Reach(s0, s0)
  {
    assert Run([s0]);
  }

  lemma ReachStep(s0: System, s: System, a: Action) returns (s': System)
    requires Reach(s0, s) && Enabled(s, ProcOf(s, 0), a)
    ensures Reach(s0, s') && s' == Act(s, a)
  {
    s' := Act(s, a);
    assert Next(s, 0, a, s');
    hide Next, Act, Run;
    var states :| Run(states) && states[0] == s0 && states[|states| - 1] == s;
    RunExtends(states, 0, a, s');
    assert (states + [s'])[0] == s0;
  }

  lemma RunExtends(states: seq<System>, p: Pid, a: Action, s': System)
    requires Run(states) && Next(states[|states| - 1], p, a, s')
    ensures Run(states + [s'])
  {
    hide Next, Init;
    var longer := states + [s'];
    forall i | 0 <= i < |longer| - 1
      ensures Steps(longer[i], longer[i + 1])
    {
      if i < |states| - 1 {
        assert Steps(states[i], states[i + 1]);
      }
    }
  }

  /** What a step leaves behind, one thing at a time. */
  lemma ActFacts(s: System, a: Action, d: Name)
    ensures ProcOf(Act(s, a), 0) == NextProcess(s, ProcOf(s, 0), a)
    ensures DirOf(Act(s, a), d) ==
            if WorksInDir(a) && Workplace(ProcOf(s, 0), a) == d then NextDir(s, ProcOf(s, 0), a, DirOf(s, d))
            else DirOf(s, d)
    ensures Act(s, a).locks == MoveLocks(s.locks, 0, MoveOf(ProcOf(s, 0), a))
    ensures Act(s, a).lastStamp == NextStamps(s, ProcOf(s, 0), a)
    ensures Act(s, a).clock == s.clock + (if a.Tick? then a.elapsed else 0)
  {
    hide NextDir, NextProcess, MoveLocks, MoveOf, NextStamps;
  }

  /** Process 0 is at rest and no lock is held. */
  predicate AtRest(s: System) {
    ProcOf(s, 0) == NOT_RUNNING && s.locks == map[]
  }

  /** A step by hand, with what it leaves behind in two directories. */
  lemma Step(s0: System, s: System, a: Action, d: Name, o: Name) returns (s': System)
    requires Reach(s0, s) && Enabled(s, ProcOf(s, 0), a)
    ensures Reach(s0, s') && ProcOf(s', 0) == NextProcess(s, ProcOf(s, 0), a)
    ensures forall e | e == d || e == o ::
              DirOf(s', e) ==
              if WorksInDir(a) && Workplace(ProcOf(s, 0), a) == e then NextDir(s, ProcOf(s, 0), a, DirOf(s, e))
              else DirOf(s, e)
    ensures s'.locks == MoveLocks(s.locks, 0, MoveOf(ProcOf(s, 0), a))
    ensures s'.lastStamp == NextStamps(s, ProcOf(s, 0), a)
    ensures s'.clock == s.clock + (if a.Tick? then a.elapsed else 0)
  {
    hide Enabled, NextDir, NextProcess, MoveLocks, MoveOf, NextStamps, Act, DirOf, Reach, Workplace, WorksInDir;
    s' := ReachStep(s0, s, a);
    ActFacts(s, a, d);
    ActFacts(s, a, o);
  }

  /** A Prepare that crashes once it has made the lock file. */
  lemma MakesLock(s0: System, s: System, d: Name, o: Name) returns (s': System)
    requires Reach(s0, s) && AtRest(s) && LockIsFile(s, d) && o != d
    ensures Reach(s0, s') && AtRest(s') && Has(DirOf(s', d), LOCK, RegularFile)
    ensures SameEntry(DirOf(s, d), DirOf(s', d), USED) && SameEntry(DirOf(s, d), DirOf(s', d), CACHE)
    ensures DirOf(s', o) == DirOf(s, o)
  {
    NamesApart();
    hide Reach, ItemName, IsWorkflowName, DirOf;
    var s1 := Step(s0, s, Start(d), d, o);
    var s2 := Step(s0, s1, CreateLock, d, o);
    s' := Step(s0, s2, Crash, d, o);
  }

  lemma {:induction false} LongerThanAll(names: set<string>) returns (n: nat)
    ensures forall x | x in names :: |x| < n
    decreases names
  {
    n := 0;
    if names != {} {
      var y :| y in names;
      var m := LongerThanAll(names - {y});
      n := if m > |y| then m else |y| + 1;
    }
  }

  lemma FreshSuffix(d: Dir) returns (suffix: string)
    ensures STAMP_TEMP + suffix !in d
  {
    var n := LongerThanAll(d.Keys);
    suffix := seq(n, _ => '0');
    assert |STAMP_TEMP + suffix| >= n;
  }

  /** A Prepare up to its lock. */
  lemma Locks(s0: System, s: System, d: Name, o: Name) returns (s': System)
    requires Reach(s0, s) && AtRest(s) && Direct(s, d) && o != d
    ensures Reach(s0, s') && ProcOf(s', 0).pc == Stamping && ProcOf(s', 0).own == d && s'.locks == map[d := 0]
    ensures !Has(DirOf(s', d), USED, Directory) && DirOf(s', o) == DirOf(s, o)
  {
    NamesApart();
    hide Reach, ItemName, IsWorkflowName, DirOf, IsStampTemp, IsTrash;
    var s1 := Step(s0, s, Start(d), d, o);
    var s2 := Step(s0, s1, CreateLock, d, o);
    s' := Step(s0, s2, TakeOwn, d, o);
  }

  /** A Prepare up to its stamp. */
  lemma Stamps(s0: System, s: System, d: Name, o: Name) returns (s': System)
    requires Reach(s0, s) && AtRest(s) && Direct(s, d) && o != d
    ensures Reach(s0, s') && ProcOf(s', 0).pc == Stamped && ProcOf(s', 0).own == d && s'.locks == map[d := 0]
    ensures d in s'.lastStamp && DirOf(s', o) == DirOf(s, o)
  {
    hide Reach, Direct, Has, DirOf;
    var s1 := Locks(s0, s, d, o);
    var s2 := WritesStamp(s0, s1, d, o);
    s' := Step(s0, s2, RenameStamp, d, o);
  }

  lemma WritesStamp(s0: System, s: System, d: Name, o: Name) returns (s': System)
    requires Reach(s0, s) && ProcOf(s, 0).pc == Stamping && ProcOf(s, 0).own == d && o != d
    requires !Has(DirOf(s, d), USED, Directory)
    ensures Reach(s0, s') && ProcOf(s', 0).pc == Renaming && ProcOf(s', 0).own == d && s'.locks == s.locks
    ensures ProcOf(s', 0).temp in DirOf(s', d) && !Has(DirOf(s', d), USED, Directory) && DirOf(s', o) == DirOf(s, o)
  {
    NamesApart();
    hide Reach, ItemName, IsWorkflowName, DirOf, IsStampTemp, IsTrash;
    var suffix := FreshSuffix(DirOf(s, d));
    s' := Step(s0, s, WriteStamp(suffix), d, o);
  }

  /** What a sweep needs of d: its lock file, the directory in the way, and a cache to be judged by. */
  predicate Obstructed(s: System, d: Name) {
    && IsWorkflowName(d) && Has(DirOf(s, d), LOCK, RegularFile)
    && Has(DirOf(s, d), USED, Directory) && Has(DirOf(s, d), CACHE, Directory)
  }

  /** Some time later a sweep begins, and finds d stale. */
  lemma Ages(s0: System, s: System, own: Name, d: Name) returns (s': System)
    requires Reach(s0, s) && ProcOf(s, 0).pc == Stamped && ProcOf(s, 0).own == own && s.locks == map[own := 0]
    requires Obstructed(s, d)
    ensures Reach(s0, s') && DirOf(s', d) == DirOf(s, d) && s'.locks == s.locks
    ensures ProcOf(s', 0).pc == Sweeping && ProcOf(s', 0).own == own && Stale(DirOf(s', d), ProcOf(s', 0).now)
  {
    var wait := WaitFor(DirOf(s, d), s.clock);
    hide Reach, ItemName, IsWorkflowName, DirOf, Has, Stale, IsTrash;
    var s1 := Step(s0, s, Tick(wait), d, d);
    s' := Step(s0, s1, BeginSweep, d, d);
  }

  /** How long it takes for the cache to age past the limit. */
  lemma WaitFor(d: Dir, clock: Time) returns (wait: nat)
    requires Has(d, USED, Directory) && Has(d, CACHE, Directory)
    ensures Stale(d, clock + wait)
  {
    hide ItemName;
    var age := clock - d[CACHE].mtime;
    wait := if age > MAX_CACHE_AGE then 0 else MAX_CACHE_AGE + 1 - age;
  }

  /** The sweep takes the lock of d and has all of its items to move. */
  lemma Judges(s0: System, s: System, own: Name, d: Name) returns (s': System)
    requires Reach(s0, s) && ProcOf(s, 0).pc == Sweeping && ProcOf(s, 0).own == own && s.locks == map[own := 0]
    requires Obstructed(s, d) && own != d && Stale(DirOf(s, d), ProcOf(s, 0).now)
    ensures Reach(s0, s') && DirOf(s', d) == DirOf(s, d)
    ensures ProcOf(s', 0).pc == Moving && ProcOf(s', 0).entry == d && ProcOf(s', 0).todo == SWEPT_ITEMS
    ensures s'.locks == map[own := 0, d := 0]
  {
    hide Reach, IsWorkflowName, DirOf, Stale, Has;
    var s1 := Step(s0, s, Judge(d), d, d);
    var s2 := Step(s0, s1, TryEntry, d, d);
    s' := Step(s0, s2, Rejudge, d, d);
  }

  /** A move that fails leaves the item for good and goes on with the next. */
  lemma Skips(s0: System, s: System, d: Name) returns (s': System)
    requires Reach(s0, s) && ProcOf(s, 0).pc == Moving && ProcOf(s, 0).entry == d && ProcOf(s, 0).todo != []
    ensures Reach(s0, s') && DirOf(s', d) == DirOf(s, d) && s'.locks == s.locks
    ensures ProcOf(s', 0) == ProcOf(s, 0).(todo := ProcOf(s, 0).todo[1..])
  {
    hide Reach, ItemName, DirOf;
    s' := Step(s0, s, MoveItem("", false), d, d);
  }

  /** A sweep moves the directory out of the stamp's way, and crashes. */
  lemma Frees(s0: System, s: System, own: Name, d: Name) returns (s': System)
    requires Reach(s0, s) && ProcOf(s, 0).pc == Stamped && ProcOf(s, 0).own == own && s.locks == map[own := 0]
    requires Obstructed(s, d) && own != d
    ensures Reach(s0, s') && AtRest(s') && Direct(s', d)
  {
    var aged := Ages(s0, s, own, d);
    var s1 := Judges(s0, aged, own, d);
    hide Reach, Obstructed;
    var s2 := Skips(s0, s1, d);
    var s3 := Skips(s0, s2, d);
    var s4 := Skips(s0, s3, d);
    var s5 := Skips(s0, s4, d);
    assert ProcOf(s5, 0).todo == [Used];
    s' := MovesStamp(s0, s5, own, d);
  }

  lemma MovesStamp(s0: System, s: System, own: Name, d: Name) returns (s': System)
    requires Reach(s0, s) && ProcOf(s, 0).pc == Moving && ProcOf(s, 0).entry == d && ProcOf(s, 0).todo == [Used]
    requires Obstructed(s, d) && s.locks == map[own := 0, d := 0]
    ensures Reach(s0, s') && AtRest(s') && Direct(s', d)
  {
    MovedAway(DirOf(s, d));
    hide Reach, IsWorkflowName, DirOf, Has, Renamed, ItemName, Direct, AtRest, NextProcess;
    var s1 := Step(s0, s, MoveItem("", true), d, d);
    assert DirOf(s1, d) == Renamed(DirOf(s, d), USED, TRASH + "") && s1.locks == s.locks;
    s' := Crashes(s0, s1, d);
    assert Direct(s', d) by { DirectIs(s', d); }
  }

  lemma DirectIs(s: System, d: Name)
    requires IsWorkflowName(d) && !Has(DirOf(s, d), USED, Directory) && !Has(DirOf(s, d), LOCK, Directory)
    ensures Direct(s, d)
  {
  }

  lemma Crashes(s0: System, s: System, d: Name) returns (s': System)
    requires Reach(s0, s) && forall l | l in s.locks :: s.locks[l] == 0
    ensures Reach(s0, s') && AtRest(s') && DirOf(s', d) == DirOf(s, d)
  {
    hide Reach, IsWorkflowName, DirOf, ItemName;
    s' := Step(s0, s, Crash, d, d);
  }

  lemma MovedAway(d: Dir)
    requires Has(d, USED, Directory) && Has(d, LOCK, RegularFile)
    ensures var d' := Renamed(d, USED, TRASH + ""); !Has(d', USED, Directory) && !Has(d', LOCK, Directory)
    ensures USED in d && !Has(d, USED, Link)
  {
    NamesApart();
    assert IsTrash(TRASH + "");
    hide ItemName, IsTrash, IsStampTemp;
  }

  // ----- the exact condition -----

  /** Some run from s0 sets a stamp in d. */
  ghost predicate Stampable(s0: System, d: Name) {
    exists s :: Reach(s0, s) && d in s.lastStamp
  }

  lemma FreedIsStampable(s0: System, d: Name)
    requires Init(s0) && Freeable(s0, d) && Has(DirOf(s0, d), USED, Directory)
    ensures Stampable(s0, d)
  {
    var e :| e != d && Direct(s0, e);
    ReachStart(s0);
    assert AtRest(s0);
    hide Reach, Direct, Init;
    var s1 := MakesLock(s0, s0, d, e);
    assert Direct(s1, e) by { SameDirect(s0, s1, e); }
    var s2 := Stamps(s0, s1, e, d);
    var s3 := Frees(s0, s2, e, d);
    var s4 := Stamps(s0, s3, d, e);
    assert Reach(s0, s4) && d in s4.lastStamp;
  }

  lemma SameDirect(s: System, s': System, e: Name)
    requires DirOf(s', e) == DirOf(s, e)
    ensures Direct(s', e) <==> Direct(s, e)
  {
  }

  lemma DirectIsStampable(s0: System, d: Name)
    requires Init(s0) && Direct(s0, d)
    ensures Stampable(s0, d)
  {
    ReachStart(s0);
    assert AtRest(s0);
    hide Reach, Direct, Init;
    var s := Stamps(s0, s0, d, "");
    assert Reach(s0, s) && d in s.lastStamp;
  }

  /**
   From directories that hold anything, a Prepare of d can get past its stamp
   exactly when no directory is in the way of its lock or its stamp, or when
   one is under the stamp's name but the lock is a file, the cache a
   directory to be judged by, and another workflow can be prepared at once.
   */
  lemma StampableExactlyWhen(s0: System, d: Name)
    requires Init(s0)
    ensures Stampable(s0, d) <==> Direct(s0, d) || (Has(DirOf(s0, d), USED, Directory) && Freeable(s0, d))
  {
    if Stampable(s0, d) {
      var s :| Reach(s0, s) && d in s.lastStamp;
      var states :| Run(states) && states[0] == s0 && states[|states| - 1] == s;
      StampNeeds(states, |states| - 1, d);
    }
    if Direct(s0, d) {
      DirectIsStampable(s0, d);
    } else if Has(DirOf(s0, d), USED, Directory) && Freeable(s0, d) {
      FreedIsStampable(s0, d);
    }
  }

  // ----- a stuck directory and a freed one -----

  const WORKFLOW := "0000000000000000"

  function Alone(d: Dir): System {
    System(map[WORKFLOW := d], map[], map[], 0, map[])
  }

  /** A directory under the stamp's name and no cache: no Prepare of the workflow ever gets past its stamp. */
  lemma StuckWithoutCache()
    ensures Init(Alone(map[USED := Entry(Directory, 0)]))
    ensures !Stampable(Alone(map[USED := Entry(Directory, 0)]), WORKFLOW)
  {
    NamesApart();
    StampableExactlyWhen(Alone(map[USED := Entry(Directory, 0)]), WORKFLOW);
    hide ItemName, Stampable;
  }

  /** The same with a cache beside it: once that has aged, another workflow's sweep lets a Prepare succeed again. */
  lemma FreedByCache()
    ensures var s0 := Alone(map[USED := Entry(Directory, 0), CACHE := Entry(Directory, 0)]);
            Init(s0) && !Direct(s0, WORKFLOW) && Stampable(s0, WORKFLOW)
  {
    NamesApart();
    var s0 := Alone(map[USED := Entry(Directory, 0), CACHE := Entry(Directory, 0)]);
    var other := "1111111111111111";
    assert other[0] != WORKFLOW[0];
    assert IsWorkflowName(other) && IsWorkflowName(WORKFLOW);
    StampableExactlyWhen(s0, WORKFLOW);
    hide ItemName, Stampable, IsWorkflowName;
    assert DirOf(s0, other) == map[];
    assert Direct(s0, other);
  }
}
