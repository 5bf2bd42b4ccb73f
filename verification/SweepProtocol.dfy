/**
 The cache sweep against live checkouts: Prepare and Close of
 internal/scratch/scratch.go and sweep of internal/scratch/sweep.go as a
 program-counter step system over the workflow directories of one scratch
 root. A directory is whatever names it holds, Counterpoint's or not; what a
 step may move or remove is decided by name and by what kind of entry the
 name stands for. A process may give up or crash anywhere; a crash releases
 its locks.
 */
module SweepProtocol {
  import opened Text
  import opened LockTable

  type Name = string
  type Time = int

  /** MaxCacheAge in nanoseconds: 72 hours. */
  const MAX_CACHE_AGE: int := 72 * 3600 * 1_000_000_000

  // ----- names -----

  const LOCK := "lock"
  const TRASH := "trash-"
  const STAMP_TEMP := "used.tmp-"

  /** What Counterpoint keeps in a workflow directory besides its lock file and trash. */
  datatype Item = Cache | Checkout | Tmp | Hooks | Used

  function ItemName(i: Item): string {
    match i
    case Cache => "cache"
    case Checkout => "checkout"
    case Tmp => "tmp"
    case Hooks => "hooks"
    case Used => "used"
  }

  /** The order in which the sweep moves a stale directory's items to trash. */
  const SWEPT_ITEMS := [Cache, Checkout, Tmp, Hooks, Used]

  predicate HasPrefix(n: string, prefix: string) {
    |prefix| <= |n| && n[..|prefix|] == prefix
  }

  predicate IsTrash(n: string) {
    HasPrefix(n, TRASH)
  }

  predicate IsStampTemp(n: string) {
    HasPrefix(n, STAMP_TEMP)
  }

  predicate IsItem(n: string) {
    exists i: Item :: n == ItemName(i)
  }

  /** workflowNamePattern: sixteen hexadecimal digits. */
  predicate IsWorkflowName(n: Name) {
    |n| == 16 && forall i | 0 <= i < |n| :: '0' <= n[i] <= '9' || 'a' <= n[i] <= 'f'
  }

  lemma NotPrefix(n: string, prefix: string, k: nat)
    requires k < |prefix| && (k >= |n| || n[k] != prefix[k])
    ensures !HasPrefix(n, prefix)
  {
    if |prefix| <= |n| {
      assert n[..|prefix|][k] == n[k];
    }
  }

  /** No two of Counterpoint's names run into each other. */
  lemma NamesApart()
    ensures forall i, j :: ItemName(i) == ItemName(j) ==> i == j
    ensures forall i :: ItemName(i) != LOCK && !IsTrash(ItemName(i)) && !IsStampTemp(ItemName(i))
    ensures !IsTrash(LOCK) && !IsStampTemp(LOCK)
    ensures forall suffix :: IsTrash(TRASH + suffix) && IsStampTemp(STAMP_TEMP + suffix)
    ensures forall n | IsStampTemp(n) :: !IsTrash(n)
  {
    forall i
      ensures ItemName(i) != LOCK && !IsTrash(ItemName(i)) && !IsStampTemp(ItemName(i))
    {
      NotPrefix(ItemName(i), TRASH, 1);
      NotPrefix(ItemName(i), STAMP_TEMP, 4);
      assert ItemName(i)[0] != 'l';
    }
    NotPrefix(LOCK, TRASH, 0);
    NotPrefix(LOCK, STAMP_TEMP, 0);
    forall n | IsStampTemp(n)
      ensures !IsTrash(n)
    {
      assert n[0] == n[..|STAMP_TEMP|][0];
      NotPrefix(n, TRASH, 0);
    }
  }

  // ----- directories -----

  datatype Kind = RegularFile | Directory | Link | Other

  datatype Entry = Entry(kind: Kind, mtime: Time)

  type Dir = map<string, Entry>

  predicate Has(d: Dir, n: string, kind: Kind) {
    n in d && d[n].kind == kind
  }

  predicate HasTrash(d: Dir) {
    exists n | n in d :: IsTrash(n)
  }

  /** readEntry's last use: the stamp's time when the stamp is a regular file, else the cache directory's. */
  function LastUse(d: Dir): Option<Time> {
    if Has(d, ItemName(Used), RegularFile) then Some(d[ItemName(Used)].mtime)
    else if Has(d, ItemName(Cache), Directory) then Some(d[ItemName(Cache)].mtime)
    else None
  }

  predicate Stale(d: Dir, now: Time) {
    LastUse(d).Some? && now - LastUse(d).value > MAX_CACHE_AGE
  }

  /** renameat within a directory; whatever had the new name is replaced. */
  function Renamed(d: Dir, from: string, to: string): Dir {
    if from in d then (d - {from})[to := d[from]] else d
  }

  /** removeOwned: a link is refused and left alone. */
  function Removed(d: Dir, n: string): Dir {
    if Has(d, n, Link) then d else d - {n}
  }

  // ----- processes -----

  datatype Pc =
    | Idle
    | WaitLock
    | Stamping
    | Renaming
    | Stamped
    | Sweeping
    | Trying
    | Rejudging
    | Moving
    | Listing
    | Trashing
    | Building
    | Ready
    | Closing

  /**
   temp is the stamp file written and not yet renamed, now the sweep's clock,
   entry the directory being judged, todo the items still to move out of it,
   names what its listing still has to go through.
   */
  datatype Process = Process(
    pc: Pc, own: Name, temp: string, now: Time, entry: Name, todo: seq<Item>, names: seq<string>)

  const NOT_RUNNING := Process(Idle, "", "", 0, "", [], [])

  /** lastStamp is an observer: the time of the last stamp a Prepare set in each directory, whatever became of it. */
  datatype System = System(
    dirs: map<Name, Dir>, locks: map<Name, Pid>, procs: map<Pid, Process>, clock: Time, lastStamp: map<Name, Time>)

  function ProcOf(s: System, p: Pid): Process {
    if p in s.procs then s.procs[p] else NOT_RUNNING
  }

  /** What a root entry holds; nothing when there is no such directory. */
  function DirOf(s: System, d: Name): Dir {
    if d in s.dirs then s.dirs[d] else map[]
  }

  predicate HoldsOwn(pc: Pc) {
    pc != Idle && pc != WaitLock
  }

  predicate HoldsEntry(pc: Pc) {
    pc == Rejudging || pc == Moving || pc == Listing || pc == Trashing
  }

  predicate HasEntry(pc: Pc) {
    pc == Trying || HoldsEntry(pc)
  }

  /** The scratch locks a program counter stands for. */
  predicate Holds(x: Process, d: Name) {
    (HoldsOwn(x.pc) && d == x.own) || (HoldsEntry(x.pc) && d == x.entry)
  }

  // ----- steps -----

  /** A suffix is what the source draws at random; renamed and gone say whether the system call took effect. */
  datatype Action =
    | Start(own: Name)
    | CreateLock
    | TakeOwn
    | WriteStamp(suffix: string)
    | RenameStamp
    | DropStamp
    | BeginSweep
    | Judge(entry: Name)
    | TryEntry
    | SkipEntry
    | Rejudge
    | MoveItem(suffix: string, renamed: bool)
    | EndMoves
    | ListEntries(names: seq<string>)
    | RemoveNext(gone: bool)
    | DropEntry
    | EndSweep
    | ClearItem(item: Item)
    | MakeItem(item: Item)
    | FinishBuild
    | Work(item: Item)
    | BeginClose
    | DropOwn
    | GiveUp
    | Crash
    | Tick(elapsed: nat)

  /** What Prepare clears and Close removes. */
  predicate Disposable(i: Item) {
    i == Checkout || i == Tmp || i == Hooks
  }

  /** A prepared checkout has all four of its directories. */
  predicate Complete(d: Dir) {
    forall i | i in {Cache, Checkout, Tmp, Hooks} :: Has(d, ItemName(i), Directory)
  }

  /** A directory the sweep may look into: another workflow's, with a lock file of its own. */
  predicate Sweepable(s: System, own: Name, e: Name) {
    e != own && IsWorkflowName(e) && Has(DirOf(s, e), LOCK, RegularFile)
  }

  predicate Lists(names: seq<string>, d: Dir) {
    (forall n | n in names :: n in d) && (forall n | n in d :: n in names)
  }

  predicate Enabled(s: System, x: Process, a: Action) {
    match a
    case Start(own) => x.pc == Idle && IsWorkflowName(own)
    case CreateLock => x.pc == WaitLock
    case TakeOwn => x.pc == WaitLock && LOCK in DirOf(s, x.own) && !Has(DirOf(s, x.own), LOCK, Directory)
        && x.own !in s.locks
    case WriteStamp(suffix) => x.pc == Stamping && STAMP_TEMP + suffix !in DirOf(s, x.own)
    case RenameStamp => x.pc == Renaming && !Has(DirOf(s, x.own), ItemName(Used), Directory)
    case DropStamp => x.pc == Renaming
    case BeginSweep => x.pc == Stamped
    case Judge(e) => x.pc == Sweeping && Sweepable(s, x.own, e) && (HasTrash(DirOf(s, e)) || Stale(DirOf(s, e), x.now))
    case TryEntry => x.pc == Trying && x.entry !in s.locks
    case SkipEntry => x.pc == Trying
    case Rejudge => x.pc == Rejudging
    case MoveItem(_, _) => x.pc == Moving && x.todo != []
    case EndMoves => x.pc == Moving && x.todo == []
    case ListEntries(names) => x.pc == Listing && Lists(names, DirOf(s, x.entry))
    case RemoveNext(_) => x.pc == Trashing && x.names != []
    case DropEntry => x.pc == Rejudging || x.pc == Listing || x.pc == Trashing
    case EndSweep => x.pc == Sweeping
    case ClearItem(i) => (x.pc == Building || x.pc == Closing) && Disposable(i)
    case MakeItem(i) => x.pc == Building && i != Used
    case FinishBuild => x.pc == Building && Complete(DirOf(s, x.own))
    case Work(i) => x.pc == Ready && i != Used && i != Hooks
    case BeginClose => x.pc == Ready
    case DropOwn => x.pc == Closing
    case GiveUp =>
      x.pc == WaitLock || x.pc == Stamping || x.pc == Renaming || x.pc == Stamped || x.pc == Sweeping
          || x.pc == Building
    case Crash => true
    case Tick(_) => true
  }

  function NextProcess(s: System, x: Process, a: Action): Process {
    match a
    case Start(own) => NOT_RUNNING.(pc := WaitLock, own := own)
    case CreateLock => x
    case TakeOwn => x.(pc := Stamping)
    case WriteStamp(suffix) => x.(pc := Renaming, temp := STAMP_TEMP + suffix)
    case RenameStamp => x.(pc := Stamped)
    case DropStamp => x.(pc := Closing)
    case BeginSweep => x.(pc := Sweeping, now := s.clock)
    case Judge(e) => x.(pc := Trying, entry := e)
    case TryEntry => x.(pc := Rejudging)
    case SkipEntry => x.(pc := Sweeping)
    case Rejudge => x.(pc := Moving, todo := if Stale(DirOf(s, x.entry), x.now) then SWEPT_ITEMS else [])
    case MoveItem(_, _) => if x.todo == [] then x else x.(todo := x.todo[1..])
    case EndMoves => x.(pc := Listing)
    case ListEntries(names) => x.(pc := Trashing, names := names)
    case RemoveNext(_) => if x.names == [] then x else x.(names := x.names[1..])
    case DropEntry => x.(pc := Sweeping)
    case EndSweep => x.(pc := Building)
    case ClearItem(_) => x
    case MakeItem(_) => x
    case FinishBuild => x.(pc := Ready)
    case Work(_) => x
    case BeginClose => x.(pc := Closing)
    case DropOwn => NOT_RUNNING
    case GiveUp => if x.pc == WaitLock then NOT_RUNNING else x.(pc := Closing)
    case Crash => NOT_RUNNING
    case Tick(_) => x
  }

  function MoveOf(x: Process, a: Action): LockMove<Name> {
    match a
    case TakeOwn => Take(x.own)
    case TryEntry => Take(x.entry)
    case DropEntry => Give(x.entry)
    case DropOwn => Give(x.own)
    case Crash => GiveAll
    case _ => Keep
  }

  /** The live item the action moves to trash, if it moves one: linked items stay. */
  function MovedItem(s: System, x: Process, a: Action): Option<Item> {
    if a.MoveItem? && a.renamed && x.pc == Moving && x.todo != []
       && ItemName(x.todo[0]) in DirOf(s, x.entry) && !Has(DirOf(s, x.entry), ItemName(x.todo[0]), Link)
    then Some(x.todo[0]) else None
  }

  /** The directory an action works in. */
  function Workplace(x: Process, a: Action): Name {
    match a
    case Start(own) => own
    case MoveItem(_, _) => x.entry
    case RemoveNext(_) => x.entry
    case _ => x.own
  }

  /** What the action makes of the directory it works in. */
  function NextDir(s: System, x: Process, a: Action, d: Dir): Dir {
    match a
    case CreateLock => if LOCK in d then d else d[LOCK := Entry(RegularFile, s.clock)]
    case WriteStamp(suffix) => d[STAMP_TEMP + suffix := Entry(RegularFile, s.clock)]
    case RenameStamp => Renamed(d, x.temp, ItemName(Used))
    case DropStamp => d - {x.temp}
    case MoveItem(suffix, _) =>
      (match MovedItem(s, x, a)
       case Some(i) => Renamed(d, ItemName(i), TRASH + suffix)
       case None => d)
    case RemoveNext(gone) => if x.names != [] && IsTrash(x.names[0]) && gone then d - {x.names[0]} else d
    case ClearItem(i) => Removed(d, ItemName(i))
    case MakeItem(i) => if ItemName(i) in d then d else d[ItemName(i) := Entry(Directory, s.clock)]
    case Work(i) => if ItemName(i) in d then d[ItemName(i) := d[ItemName(i)].(mtime := s.clock)] else d
    case _ => d
  }

  predicate WorksInDir(a: Action) {
    || a.Start? || a.CreateLock? || a.WriteStamp? || a.RenameStamp? || a.DropStamp? || a.MoveItem? || a.RemoveNext?
    || a.ClearItem? || a.MakeItem? || a.Work?
  }

  function NextDirs(s: System, x: Process, a: Action): map<Name, Dir> {
    if !WorksInDir(a) then s.dirs
    else s.dirs[Workplace(x, a) := NextDir(s, x, a, DirOf(s, Workplace(x, a)))]
  }

  function NextStamps(s: System, x: Process, a: Action): map<Name, Time> {
    if a.RenameStamp? && x.temp in DirOf(s, x.own) then s.lastStamp[x.own := DirOf(s, x.own)[x.temp].mtime]
    else s.lastStamp
  }

  predicate Next(s: System, p: Pid, a: Action, s': System) {
    var x := ProcOf(s, p);
    && Enabled(s, x, a)
    && s' == System(
               NextDirs(s, x, a),
               MoveLocks(s.locks, p, MoveOf(x, a)),
               s.procs[p := NextProcess(s, x, a)],
               s.clock + (if a.Tick? then a.elapsed else 0),
               NextStamps(s, x, a))
  }

  /** Nothing runs yet; the directories may already hold anything, links and strangers' entries included. */
  ghost predicate Init(s: System) {
    s.locks == map[] && s.procs == map[] && s.lastStamp == map[]
  }

  ghost predicate Steps(s: System, s': System) {
    exists p, a :: Next(s, p, a, s')
  }

  ghost predicate Run(states: seq<System>) {
    && states != [] && Init(states[0])
    && forall i | 0 <= i < |states| - 1 :: Steps(states[i], states[i + 1])
  }

  // ----- invariants -----

  ghost predicate LocksMatch(s: System) {
    forall d, p :: Owns(s.locks, d, p) <==> Holds(ProcOf(s, p), d)
  }

  /** The workflow was last prepared longer than MaxCacheAge ago. */
  predicate Expired(s: System, d: Name) {
    d in s.lastStamp ==> s.clock - s.lastStamp[d] > MAX_CACHE_AGE
  }

  /** The stamp of the last Prepare is in place, a regular file with its time. */
  predicate StampInPlace(s: System, d: Name) {
    && d in s.lastStamp && Has(DirOf(s, d), ItemName(Used), RegularFile)
    && DirOf(s, d)[ItemName(Used)].mtime == s.lastStamp[d]
  }

  ghost predicate StampsOk(s: System) {
    forall d :: StampInPlace(s, d) || Expired(s, d)
  }

  /** What a process knows at each program counter. */
  predicate ProcessOk(s: System, x: Process) {
    && (x.pc != Idle ==> IsWorkflowName(x.own) && x.own in s.dirs)
    && (HoldsOwn(x.pc) ==> LOCK in DirOf(s, x.own))
    && (x.pc == Renaming ==> IsStampTemp(x.temp) && Has(DirOf(s, x.own), x.temp, RegularFile))
    && (HasEntry(x.pc) ==> Sweepable(s, x.own, x.entry))
    && (x.pc == Sweeping || HasEntry(x.pc) ==> x.now <= s.clock)
    && (x.pc == Moving && x.todo != [] ==> Expired(s, x.entry) && Unused(DirOf(s, x.entry), x.now))
    && (x.pc == Ready ==> Complete(DirOf(s, x.own)))
  }

  /** The directory's stamp, if it has one, is more than MaxCacheAge before the sweep's clock. */
  predicate Unused(d: Dir, now: Time) {
    Has(d, ItemName(Used), RegularFile) ==> now - d[ItemName(Used)].mtime > MAX_CACHE_AGE
  }

  ghost predicate ProcessesOk(s: System) {
    forall p :: ProcessOk(s, ProcOf(s, p))
  }

  ghost predicate Inv(s: System) {
    LocksMatch(s) && StampsOk(s) && ProcessesOk(s)
  }

  /** The new program counter stands for the old locks, less those given, plus those taken. */
  ghost predicate MoveMatches(x: Process, x': Process, move: LockMove<Name>) {
    && (move.Give? ==> Holds(x, move.l))
    && forall d :: Holds(x', d) <==> HasAfter(move, d, Holds(x, d))
  }

  lemma StepMoveMatches(s: System, x: Process, a: Action)
    requires HasEntry(x.pc) ==> x.entry != x.own
    requires Enabled(s, x, a)
    ensures MoveMatches(x, NextProcess(s, x, a), MoveOf(x, a))
  {
    hide Stale, Complete, HasTrash, Has, Lists, Sweepable, IsWorkflowName, ItemName, DirOf;
  }

  lemma StepTakesFree(s: System, x: Process, a: Action)
    requires Enabled(s, x, a)
    ensures MoveOf(x, a).Take? ==> MoveOf(x, a).l !in s.locks
  {
    hide Stale, Complete, HasTrash, Has, Lists, Sweepable, IsWorkflowName, ItemName, DirOf;
  }

  lemma EntryIsOther(s: System, x: Process)
    requires ProcessOk(s, x)
    ensures HasEntry(x.pc) ==> x.entry != x.own
  {
  }

  lemma StepKeepsLocks(s: System, p: Pid, a: Action, s': System)
    requires LocksMatch(s) && ProcessesOk(s) && Next(s, p, a, s')
    ensures LocksMatch(s')
  {
    hide Holds, NextProcess, MoveOf, Enabled, NextDirs, NextStamps, ProcessOk, MoveLocks, Owns, HasAfter;
    var x := ProcOf(s, p);
    assert ProcessOk(s, x);
    EntryIsOther(s, x);
    StepMoveMatches(s, x, a);
    StepTakesFree(s, x, a);
    forall d, q
      ensures Owns(s'.locks, d, q) <==> Holds(ProcOf(s', q), d)
    {
      MoveChangesOwn(s.locks, p, MoveOf(x, a), d, q);
      assert ProcOf(s', q) == if q == p then NextProcess(s, x, a) else ProcOf(s, q);
    }
  }

  lemma OthersDoNotHold(s: System, p: Pid, q: Pid, d: Name)
    requires LocksMatch(s) && p != q && Holds(ProcOf(s, q), d)
    ensures !Holds(ProcOf(s, p), d)
  {
    assert Owns(s.locks, d, q) <==> Holds(ProcOf(s, q), d);
    assert Owns(s.locks, d, p) <==> Holds(ProcOf(s, p), d);
  }

  // ----- what the names protect -----

  /**
   The entries a step may take away or replace: trash whatever it is, the
   stamp when it is renewed, and otherwise only Counterpoint's own items and
   temporary stamps, when they are not links.
   */
  predicate Exposed(n: string, kind: Kind) {
    IsTrash(n) || n == ItemName(Used) || ((IsItem(n) || IsStampTemp(n)) && kind != Link)
  }

  /** A step leaves every entry alone that its name and kind do not expose. */
  lemma StepSpares(s: System, x: Process, a: Action, n: string)
    requires ProcessOk(s, x) && Enabled(s, x, a) && WorksInDir(a)
    requires n in DirOf(s, Workplace(x, a)) && !Exposed(n, DirOf(s, Workplace(x, a))[n].kind)
    ensures var d := DirOf(s, Workplace(x, a)); var d' := NextDir(s, x, a, d); n in d' && d'[n] == d[n]
  {
    NamesApart();
    hide ItemName, IsTrash, IsStampTemp, Stale, HasTrash, IsWorkflowName, Expired, Unused;
  }

  /** A step changes one directory at most. */
  lemma DirsAfter(s: System, p: Pid, a: Action, s': System, d: Name)
    requires Next(s, p, a, s')
    ensures d in s.dirs ==> d in s'.dirs
    ensures DirOf(s', d) ==
            if WorksInDir(a) && Workplace(ProcOf(s, p), a) == d then NextDir(s, ProcOf(s, p), a, DirOf(s, d))
            else DirOf(s, d)
    ensures s'.clock >= s.clock && s'.lastStamp == NextStamps(s, ProcOf(s, p), a)
    ensures Enabled(s, ProcOf(s, p), a)
  {
    hide Enabled, NextDir, NextProcess, MoveLocks, NextStamps, Workplace, WorksInDir;
  }

  /** The only work done in a directory without its lock is to create it and its lock file. */
  lemma WorksLocked(s: System, x: Process, a: Action)
    requires Enabled(s, x, a) && WorksInDir(a)
    ensures Holds(x, Workplace(x, a)) || a.Start? || a.CreateLock?
  {
    hide DirOf, Has, IsWorkflowName, Complete, ItemName, HasTrash, Stale, Lists;
  }

  /** Except for the lock file, a directory changes only at the hands of the holder of its lock. */
  lemma OnlyHolderChanges(s: System, p: Pid, a: Action, s': System, d: Name)
    requires Next(s, p, a, s')
    ensures d in s.dirs ==> d in s'.dirs
    ensures !Holds(ProcOf(s, p), d) ==>
              DirOf(s', d) == DirOf(s, d)
              || (LOCK !in DirOf(s, d) && DirOf(s', d) == DirOf(s, d)[LOCK := Entry(RegularFile, s.clock)])
  {
    hide Next, Enabled, WorksInDir, Workplace, DirOf, Holds;
    DirsAfter(s, p, a, s', d);
    if WorksInDir(a) && Workplace(ProcOf(s, p), a) == d {
      WorksLocked(s, ProcOf(s, p), a);
    }
  }

  /** What a process knows concerns its own directory, the entry it judges, and that one's stamp. */
  lemma KnownElsewhere(s: System, s': System, y: Process)
    requires ProcessOk(s, y) && s'.clock >= s.clock
    requires y.pc != Idle ==> y.own in s'.dirs
    requires HoldsOwn(y.pc) ==> DirOf(s', y.own) == DirOf(s, y.own)
    requires HasEntry(y.pc) ==> Has(DirOf(s', y.entry), LOCK, RegularFile)
    requires HoldsEntry(y.pc) ==> DirOf(s', y.entry) == DirOf(s, y.entry)
    requires HoldsEntry(y.pc) ==> (y.entry in s'.lastStamp <==> y.entry in s.lastStamp)
    requires HoldsEntry(y.pc) && y.entry in s.lastStamp ==> s'.lastStamp[y.entry] == s.lastStamp[y.entry]
    ensures ProcessOk(s', y)
  {
    hide Complete, IsWorkflowName, IsStampTemp, Unused, DirOf, Has;
  }

  /** A step of p leaves what another process knows true. */
  lemma StepKeepsOther(s: System, p: Pid, a: Action, s': System, q: Pid)
    requires Inv(s) && Next(s, p, a, s') && q != p
    ensures ProcessOk(s', ProcOf(s', q))
  {
    var x, y := ProcOf(s, p), ProcOf(s, q);
    assert ProcessOk(s, x) && ProcessOk(s, y);
    assert ProcOf(s', q) == y && s'.clock >= s.clock;
    hide Next, IsWorkflowName, IsStampTemp, Complete, Unused, Expired, StampInPlace;
    if y.pc != Idle {
      OnlyHolderChanges(s, p, a, s', y.own);
    }
    if HasEntry(y.pc) {
      OnlyHolderChanges(s, p, a, s', y.entry);
      LockStaysFile(s, p, a, s', y.entry);
    }
    if HoldsOwn(y.pc) {
      OthersDoNotHold(s, p, q, y.own);
    }
    if HoldsEntry(y.pc) {
      OthersDoNotHold(s, p, q, y.entry);
      StampsElsewhere(s, p, a, s', y.entry);
    }
    hide Inv;
    KnownElsewhere(s, s', y);
  }

  /** Whoever acts, the lock file of a directory stays the entry it was. */
  lemma LockStaysFile(s: System, p: Pid, a: Action, s': System, d: Name)
    requires ProcessOk(s, ProcOf(s, p)) && Next(s, p, a, s') && LOCK in DirOf(s, d)
    ensures LOCK in DirOf(s', d) && DirOf(s', d)[LOCK] == DirOf(s, d)[LOCK]
  {
    hide Next, Enabled, NextDir, ItemName, IsTrash, IsStampTemp, ProcessOk, Workplace, WorksInDir;
    DirsAfter(s, p, a, s', d);
    if WorksInDir(a) && Workplace(ProcOf(s, p), a) == d {
      NamesApart();
      StepSpares(s, ProcOf(s, p), a, LOCK);
    }
  }

  lemma StampsElsewhere(s: System, p: Pid, a: Action, s': System, d: Name)
    requires Next(s, p, a, s') && !Holds(ProcOf(s, p), d)
    ensures d in s'.lastStamp <==> d in s.lastStamp
    ensures d in s.lastStamp ==> s'.lastStamp[d] == s.lastStamp[d]
  {
    hide NextDirs, NextProcess, MoveLocks;
  }

  // ----- what a step keeps -----

  lemma RejudgeKeepsSelf(s: System, p: Pid, s': System)
    requires ProcessOk(s, ProcOf(s, p)) && Next(s, p, Rejudge, s')
    requires StampInPlace(s, ProcOf(s, p).entry) || Expired(s, ProcOf(s, p).entry)
    ensures ProcessOk(s', ProcOf(s', p))
  {
    hide MoveLocks, Complete, ItemName, IsWorkflowName, IsStampTemp;
  }

  lemma MoveKeepsSelf(s: System, p: Pid, suffix: string, renamed: bool, s': System)
    requires ProcessOk(s, ProcOf(s, p)) && Next(s, p, MoveItem(suffix, renamed), s')
    ensures ProcessOk(s', ProcOf(s', p))
  {
    var x := ProcOf(s, p);
    LockStaysFile(s, p, MoveItem(suffix, renamed), s', x.entry);
    NamesApart();
    hide MoveLocks, Stale, Complete, ItemName, IsWorkflowName, IsStampTemp, IsTrash;
  }

  lemma EntryKeepsSelf(s: System, p: Pid, a: Action, s': System)
    requires ProcessOk(s, ProcOf(s, p)) && Next(s, p, a, s') && (a.Start? || a.CreateLock?)
    ensures ProcessOk(s', ProcOf(s', p))
  {
    var x := ProcOf(s, p);
    NamesApart();
    if LOCK in DirOf(s, Workplace(x, a)) {
      LockStaysFile(s, p, a, s', Workplace(x, a));
    }
    hide MoveLocks, Stale, MovedItem, ItemName, IsWorkflowName, IsStampTemp, IsTrash, Complete, Renamed, Removed;
  }

  lemma StampKeepsSelf(s: System, p: Pid, a: Action, s': System)
    requires ProcessOk(s, ProcOf(s, p)) && Next(s, p, a, s') && (a.WriteStamp? || a.RenameStamp? || a.DropStamp?)
    ensures ProcessOk(s', ProcOf(s', p))
  {
    var x := ProcOf(s, p);
    NamesApart();
    if LOCK in DirOf(s, Workplace(x, a)) {
      LockStaysFile(s, p, a, s', Workplace(x, a));
    }
    hide MoveLocks, Stale, MovedItem, ItemName, IsWorkflowName, IsStampTemp, IsTrash, Complete;
  }

  lemma TrashKeepsSelf(s: System, p: Pid, a: Action, s': System)
    requires ProcessOk(s, ProcOf(s, p)) && Next(s, p, a, s') && a.RemoveNext?
    ensures ProcessOk(s', ProcOf(s', p))
  {
    var x := ProcOf(s, p);
    NamesApart();
    if LOCK in DirOf(s, Workplace(x, a)) {
      LockStaysFile(s, p, a, s', Workplace(x, a));
    }
    hide MoveLocks, Stale, MovedItem, ItemName, IsWorkflowName, IsStampTemp, IsTrash, Complete, Renamed, Removed;
  }

  lemma WorkKeepsComplete(s: System, x: Process, a: Action, d: Dir)
    requires a.Work? && Complete(d)
    ensures Complete(NextDir(s, x, a, d))
  {
    NamesApart();
    hide ItemName;
  }

  /** Work in one's own directory that leaves its lock file and, once prepared, its directories. */
  lemma OwnWorkKnown(s: System, s': System, x: Process)
    requires ProcessOk(s, x) && x.own in s'.dirs && LOCK in DirOf(s', x.own)
    requires x.pc == Building || x.pc == Closing || (x.pc == Ready && Complete(DirOf(s', x.own)))
    ensures ProcessOk(s', x)
  {
    hide IsWorkflowName, Complete, DirOf;
  }

  lemma BuildKeepsSelf(s: System, p: Pid, a: Action, s': System)
    requires ProcessOk(s, ProcOf(s, p)) && Next(s, p, a, s') && (a.ClearItem? || a.MakeItem? || a.Work?)
    ensures ProcessOk(s', ProcOf(s', p))
  {
    var x := ProcOf(s, p);
    DirsAfter(s, p, a, s', x.own);
    assert ProcOf(s', p) == x && x.own in s'.dirs;
    LockStaysFile(s, p, a, s', x.own);
    hide Next, NextDir, DirOf, IsWorkflowName, IsStampTemp, Unused, Expired, Sweepable, Complete;
    if a.Work? {
      WorkKeepsComplete(s, x, a, DirOf(s, x.own));
    }
    OwnWorkKnown(s, s', x);
  }

  /** Where no directory and no stamp changed, what a process knows stays true as time passes. */
  lemma KnownStays(s: System, s': System, x: Process)
    requires ProcessOk(s, x) && s'.dirs == s.dirs && s'.lastStamp == s.lastStamp && s'.clock >= s.clock
    ensures ProcessOk(s', x)
  {
    hide Complete, IsWorkflowName, IsStampTemp, ItemName;
    assert forall d :: DirOf(s', d) == DirOf(s, d);
  }

  lemma RestKeepsSelf(s: System, p: Pid, a: Action, s': System)
    requires ProcessOk(s, ProcOf(s, p)) && Next(s, p, a, s') && !WorksInDir(a) && !a.Rejudge?
    ensures ProcessOk(s', ProcOf(s', p))
  {
    NextKnows(s, ProcOf(s, p), a);
    hide MoveLocks, NextProcess, ProcessOk, Enabled;
    KnownStays(s, s', NextProcess(s, ProcOf(s, p), a));
  }

  lemma NextKnows(s: System, x: Process, a: Action)
    requires ProcessOk(s, x) && Enabled(s, x, a) && !WorksInDir(a) && !a.Rejudge?
    ensures ProcessOk(s, NextProcess(s, x, a))
  {
    hide DirOf, Complete, IsWorkflowName, IsStampTemp, ItemName, HasTrash, Stale, Lists, Has, Expired, Unused,
         Sweepable;
  }

  lemma StepKeepsSelf(s: System, p: Pid, a: Action, s': System)
    requires Inv(s) && Next(s, p, a, s')
    ensures ProcessOk(s', ProcOf(s', p))
  {
    hide LocksMatch, ProcessOk, Next, StampInPlace, Expired;
    assert ProcessOk(s, ProcOf(s, p));
    match a
    case Rejudge => RejudgeKeepsSelf(s, p, s');
    case MoveItem(suffix, renamed) => MoveKeepsSelf(s, p, suffix, renamed, s');
    case _ =>
      if a.Start? || a.CreateLock? {
        EntryKeepsSelf(s, p, a, s');
      } else if a.WriteStamp? || a.RenameStamp? || a.DropStamp? {
        StampKeepsSelf(s, p, a, s');
      } else if a.RemoveNext? {
        TrashKeepsSelf(s, p, a, s');
      } else if a.ClearItem? || a.MakeItem? || a.Work? {
        BuildKeepsSelf(s, p, a, s');
      } else {
        RestKeepsSelf(s, p, a, s');
      }
  }

  /** As long as it is left alone a stamp stays as good as it was. */
  lemma StampSpared(s: System, s': System, d: Name)
    requires (StampInPlace(s, d) || Expired(s, d)) && s'.clock >= s.clock && s'.lastStamp == s.lastStamp
    requires ItemName(Used) in DirOf(s', d) <==> ItemName(Used) in DirOf(s, d)
    requires ItemName(Used) in DirOf(s, d) ==> DirOf(s', d)[ItemName(Used)] == DirOf(s, d)[ItemName(Used)]
    ensures StampInPlace(s', d) || Expired(s', d)
  {
  }

  /** Work elsewhere leaves a stamp as good as it was. */
  lemma ElsewhereKeepsStamp(s: System, p: Pid, a: Action, s': System, d: Name)
    requires Next(s, p, a, s') && !(WorksInDir(a) && Workplace(ProcOf(s, p), a) == d)
    requires StampInPlace(s, d) || Expired(s, d)
    ensures StampInPlace(s', d) || Expired(s', d)
  {
    DirsAfter(s, p, a, s', d);
    hide Next, Enabled, NextDir, DirOf;
  }

  /** A Prepare's own stamp is in place once renamed. */
  lemma RenewKeepsStamp(s: System, p: Pid, s': System)
    requires ProcessOk(s, ProcOf(s, p)) && Next(s, p, RenameStamp, s')
    ensures StampInPlace(s', ProcOf(s, p).own)
  {
    NamesApart();
    hide MoveLocks, NextProcess, ItemName, IsStampTemp, IsTrash, Complete;
  }

  /** The sweep moves out only stamps that have expired. */
  lemma SweepKeepsStamp(s: System, p: Pid, suffix: string, renamed: bool, s': System)
    requires ProcessOk(s, ProcOf(s, p)) && Next(s, p, MoveItem(suffix, renamed), s')
    ensures Expired(s', ProcOf(s, p).entry)
  {
    hide MoveLocks, NextProcess, NextDirs, Sweepable, Unused;
  }

  /** No other work in a directory concerns its stamp. */
  lemma RestSparesStamp(s: System, x: Process, a: Action, d: Dir)
    requires ProcessOk(s, x) && Enabled(s, x, a) && !a.RenameStamp? && !a.MoveItem?
    ensures var n := ItemName(Used); var d' := NextDir(s, x, a, d);
            (n in d' <==> n in d) && (n in d ==> d'[n] == d[n])
  {
    NamesApart();
    hide ItemName, IsStampTemp, IsTrash, Complete, Expired, Unused, Sweepable, HasTrash, Stale, IsWorkflowName;
  }

  lemma RestKeepsStamp(s: System, p: Pid, a: Action, s': System, d: Name)
    requires ProcessOk(s, ProcOf(s, p)) && Next(s, p, a, s') && !a.RenameStamp? && !a.MoveItem?
    requires StampInPlace(s, d) || Expired(s, d)
    ensures StampInPlace(s', d) || Expired(s', d)
  {
    hide Next, ProcessOk, Enabled, NextDir, ItemName, DirOf, Workplace, StampInPlace, Expired, WorksInDir;
    DirsAfter(s, p, a, s', d);
    RestSparesStamp(s, ProcOf(s, p), a, DirOf(s, d));
    StampSpared(s, s', d);
  }

  /** Work in a directory renews its stamp, moves it out once it has expired, or leaves it alone. */
  lemma WorkKeepsStamp(s: System, p: Pid, a: Action, s': System, d: Name)
    requires ProcessOk(s, ProcOf(s, p)) && Next(s, p, a, s') && WorksInDir(a) && d == Workplace(ProcOf(s, p), a)
    requires StampInPlace(s, d) || Expired(s, d)
    ensures StampInPlace(s', d) || Expired(s', d)
  {
    hide Next, ProcessOk, StampInPlace, Expired;
    match a
    case RenameStamp => RenewKeepsStamp(s, p, s');
    case MoveItem(suffix, renamed) => SweepKeepsStamp(s, p, suffix, renamed, s');
    case _ => RestKeepsStamp(s, p, a, s', d);
  }

  lemma StepKeepsStamp(s: System, p: Pid, a: Action, s': System, d: Name)
    requires Inv(s) && Next(s, p, a, s')
    ensures StampInPlace(s', d) || Expired(s', d)
  {
    hide ProcessOk, LocksMatch, StampInPlace, Expired, MoveLocks, NextProcess, NextDir, Enabled;
    var x := ProcOf(s, p);
    assert ProcessOk(s, x);
    if WorksInDir(a) && Workplace(x, a) == d {
      hide Next;
      WorkKeepsStamp(s, p, a, s', d);
    } else {
      hide Next;
      ElsewhereKeepsStamp(s, p, a, s', d);
    }
  }

  /** What every step of every process keeps. */
  lemma StepKeepsInv(s: System, p: Pid, a: Action, s': System)
    requires Inv(s) && Next(s, p, a, s')
    ensures Inv(s')
  {
    hide Next, ProcessOk, StampInPlace, Expired;
    StepKeepsLocks(s, p, a, s');
    forall q
      ensures ProcessOk(s', ProcOf(s', q))
    {
      if q == p {
        StepKeepsSelf(s, p, a, s');
      } else {
        StepKeepsOther(s, p, a, s', q);
      }
    }
    forall d
      ensures StampInPlace(s', d) || Expired(s', d)
    {
      StepKeepsStamp(s, p, a, s', d);
    }
  }

  lemma {:induction false} RunKeepsInv(states: seq<System>, i: nat)
    requires Run(states) && i < |states|
    ensures Inv(states[i])
  {
    if i == 0 {
      assert forall p :: ProcOf(states[0], p) == NOT_RUNNING;
    } else {
      RunKeepsInv(states, i - 1);
      assert Steps(states[i - 1], states[i - 1 + 1]);
      hide Inv, Next, Run;
      var p, a :| Next(states[i - 1], p, a, states[i]);
      StepKeepsInv(states[i - 1], p, a, states[i]);
    }
  }

  // ----- safety -----

  /**
   No live item is moved to trash while another process holds that
   workflow's scratch lock, nor while its stamp is within MaxCacheAge of the
   sweep's clock, nor before MaxCacheAge has passed since the workflow was
   last prepared; and the sweep never moves anything of its own workflow.
   */
  lemma MovesAreSafe(states: seq<System>, i: nat, p: Pid, a: Action)
    requires Run(states) && i < |states| && Enabled(states[i], ProcOf(states[i], p), a)
    requires MovedItem(states[i], ProcOf(states[i], p), a).Some?
    ensures var s := states[i]; var x := ProcOf(s, p); var d := x.entry;
            && d != x.own && Owns(s.locks, d, p)
            && (forall q | q != p :: !Holds(ProcOf(s, q), d))
            && Unused(DirOf(s, d), x.now)
            && (d in s.lastStamp ==> s.clock - s.lastStamp[d] > MAX_CACHE_AGE)
  {
    RunKeepsInv(states, i);
    hide Run, StampInPlace, ItemName, Unused;
    var s, x := states[i], ProcOf(states[i], p);
    assert ProcessOk(s, x);
    assert Holds(x, x.entry);
    forall q | q != p
      ensures !Holds(ProcOf(s, q), x.entry)
    {
      OthersDoNotHold(s, q, p, x.entry);
    }
  }

  /** A prepared checkout keeps all its directories until its own Close, whatever sweeps run meanwhile. */
  lemma PreparedCheckoutIsKept(states: seq<System>, i: nat, p: Pid)
    requires Run(states) && i < |states| && ProcOf(states[i], p).pc == Ready
    ensures var d := DirOf(states[i], ProcOf(states[i], p).own);
            forall n | n in {"cache", "checkout", "tmp", "hooks"} :: Has(d, n, Directory)
  {
    RunKeepsInv(states, i);
    assert ProcessOk(states[i], ProcOf(states[i], p));
    CompleteHasAll(DirOf(states[i], ProcOf(states[i], p).own));
    hide Run, Inv, Complete, DirOf;
  }

  lemma CompleteHasAll(d: Dir)
    requires Complete(d)
    ensures forall n | n in {"cache", "checkout", "tmp", "hooks"} :: Has(d, n, Directory)
  {
    hide Has;
    assert Has(d, ItemName(Cache), Directory) && Has(d, ItemName(Checkout), Directory);
    assert Has(d, ItemName(Tmp), Directory) && Has(d, ItemName(Hooks), Directory);
  }

  // ----- what stays in place -----

  /** The entry n of directory d is there, the same in both states. */
  predicate Same(s: System, s': System, d: Name, n: string) {
    n in DirOf(s, d) && n in DirOf(s', d) && DirOf(s', d)[n] == DirOf(s, d)[n]
  }

  /** An entry whose name and kind do not expose it stays the same through any run. */
  lemma {:induction false} UnexposedStays(states: seq<System>, i: nat, j: nat, d: Name, n: string)
    requires Run(states) && i <= j < |states| && n in DirOf(states[i], d) && !Exposed(n, DirOf(states[i], d)[n].kind)
    ensures Same(states[i], states[j], d, n)
    decreases j
  {
    if i < j {
      UnexposedStays(states, i, j - 1, d, n);
      RunKeepsInv(states, j - 1);
      assert Steps(states[j - 1], states[j - 1 + 1]);
      hide Run, Exposed;
      var p, a :| Next(states[j - 1], p, a, states[j]);
      StepKeepsUnexposed(states[j - 1], p, a, states[j], d, n);
    }
  }

  lemma StepKeepsUnexposed(s: System, p: Pid, a: Action, s': System, d: Name, n: string)
    requires Inv(s) && Next(s, p, a, s') && n in DirOf(s, d) && !Exposed(n, DirOf(s, d)[n].kind)
    ensures Same(s, s', d, n)
  {
    hide Next, Enabled, NextDir, Exposed, ProcessOk, Workplace, WorksInDir, LocksMatch, StampsOk;
    assert ProcessOk(s, ProcOf(s, p));
    DirsAfter(s, p, a, s', d);
    if WorksInDir(a) && Workplace(ProcOf(s, p), a) == d {
      StepSpares(s, ProcOf(s, p), a, n);
    }
  }

  /** A lock file, once there, is never moved, removed or replaced, so locking it stays locking the same file. */
  lemma LockFilesStay(states: seq<System>, i: nat, j: nat, d: Name)
    requires Run(states) && i <= j < |states| && LOCK in DirOf(states[i], d)
    ensures Same(states[i], states[j], d, LOCK)
  {
    hide Run, Same;
    NamesApart();
    UnexposedStays(states, i, j, d, LOCK);
  }

  /**
   A link stays where it is, a linked cache, checkout, temp or hooks
   directory included; only trash is removed as what it is, and a linked
   stamp replaced by the next one.
   */
  lemma LinksStay(states: seq<System>, i: nat, j: nat, d: Name, n: string)
    requires Run(states) && i <= j < |states| && Has(DirOf(states[i], d), n, Link)
    requires !IsTrash(n) && n != ItemName(Used)
    ensures Same(states[i], states[j], d, n)
  {
    hide Run, Same;
    UnexposedStays(states, i, j, d, n);
  }

  /** Entries under names that are not Counterpoint's are never touched. */
  lemma StrangersStay(states: seq<System>, i: nat, j: nat, d: Name, n: string)
    requires Run(states) && i <= j < |states| && n in DirOf(states[i], d)
    requires !IsItem(n) && !IsTrash(n) && !IsStampTemp(n)
    ensures Same(states[i], states[j], d, n)
  {
    hide Run, Same;
    assert IsItem(ItemName(Used));
    UnexposedStays(states, i, j, d, n);
  }

  /** Nor is anything in a directory whose name Prepare could not have given it. */
  lemma {:induction false} OtherDirectoriesStay(states: seq<System>, i: nat, j: nat, d: Name)
    requires Run(states) && i <= j < |states| && !IsWorkflowName(d)
    ensures DirOf(states[j], d) == DirOf(states[i], d)
    decreases j
  {
    if i < j {
      OtherDirectoriesStay(states, i, j - 1, d);
      RunKeepsInv(states, j - 1);
      assert Steps(states[j - 1], states[j - 1 + 1]);
      hide Run, IsWorkflowName;
      var p, a :| Next(states[j - 1], p, a, states[j]);
      StepKeepsOtherDirectory(states[j - 1], p, a, states[j], d);
    }
  }

  lemma StepKeepsOtherDirectory(s: System, p: Pid, a: Action, s': System, d: Name)
    requires Inv(s) && Next(s, p, a, s') && !IsWorkflowName(d)
    ensures DirOf(s', d) == DirOf(s, d)
  {
    hide Next, IsWorkflowName, NextDir, Enabled, ProcessOk, LocksMatch, StampsOk, Workplace, WorksInDir, NextStamps;
    var x := ProcOf(s, p);
    assert ProcessOk(s, x);
    DirsAfter(s, p, a, s', d);
    if WorksInDir(a) {
      WorksUnderWorkflowName(s, x, a);
    }
  }

  lemma WorksUnderWorkflowName(s: System, x: Process, a: Action)
    requires ProcessOk(s, x) && Enabled(s, x, a) && WorksInDir(a)
    ensures IsWorkflowName(Workplace(x, a))
  {
    hide IsWorkflowName, Expired, Unused, Complete, HasTrash, Stale;
  }
}
