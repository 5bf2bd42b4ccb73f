/**
 Many review processes against one state file: review of
 internal/review/review.go as a program-counter step system over the locks
 of internal/state/lock.go. A process may give up wherever the source can
 return an error and may crash anywhere; a crash releases its locks. Lock
 names are an arbitrary function of the workflow key, since the source
 truncates a hash to make them; so are the hash of a request's stream and
 the text that bytes stand for.
 */
module ReviewProtocol {
  import opened Text
  import opened LockTable
  import opened Ledger
  import opened LedgerEncoding
  import opened StateFile
  import opened Eviction
  import opened Completion
  import opened SavedRounds
  import opened RequestStream


  /** The lock name of a key, the hash of a stream, and the text of bytes. */
  datatype Names = Names(lockOf: string -> nat, hash: Hash, text: Bytes -> string)

  datatype LockId = WorkflowLock(id: nat) | ScratchLock(id: nat) | StateLock

  /** The request with its target as it resolves, and the key of its workflow. */
  datatype Job = Job(key: string, request: Request)

  const NO_REQUEST := Request([], [], [], [], [], false)

  predicate JobOk(names: Names, job: Job) {
    && job.key == names.text(job.request.Key()) && HoldableRequest(job.request)
    && IsObjectId(names.text(job.request.commit)) && IsObjectId(names.text(job.request.base))
  }

  /** The request hash, which the replay check and the finished round share. */
  function HashOf(names: Names, job: Job): string {
    names.hash(Stream(job.request))
  }

  datatype Pc =
    | Idle
    | WaitWorkflow
    | WaitLoad
    | Loading
    | Validating
    | WaitScratch
    | Sweeping
    | InTurn
    | WaitSave
    | Reconciling
    | Writing
    | ClosingScratch
    | Closing

  /**
   copy is the record loaded at the start, tried the scratch lock the sweep
   holds besides its own, turn what the reviewer's turn gave, done the
   finished round, memory the state about to be saved; each is meaningful from the step that sets it on.
   */
  datatype Process = Process(
    pc: Pc, job: Job, copy: Copy, tried: Option<nat>, turn: Turn, done: Workflow, memory: Workflows)

  const NO_WORKFLOW := Workflow("", "", "", "", 0, "", [], None, [])
  const NO_TURN := Turn("", "", "", "", "", [], None)
  const NOT_RUNNING := Process(
    Idle, Job("", NO_REQUEST), Copy(false, NO_WORKFLOW), None, NO_TURN, NO_WORKFLOW, map[])

  /**
   saves and made are observers: for each key, every record that ever
   replaced the file, oldest first, and the request and the turn it was made of.
   */
  datatype System = System(
    procs: map<Pid, Process>, locks: map<LockId, Pid>, file: FileContent, saves: map<string, seq<Workflow>>,
    made: map<string, seq<Made>>)

  function ProcOf(s: System, p: Pid): Process {
    if p in s.procs then s.procs[p] else NOT_RUNNING
  }

  // ----- locks -----

  predicate HoldsWorkflow(pc: Pc) {
    pc != Idle && pc != WaitWorkflow
  }

  predicate HoldsState(pc: Pc) {
    pc == Loading || pc == Reconciling || pc == Writing
  }

  predicate HoldsScratch(pc: Pc, build: bool) {
    || pc == Sweeping || pc == ClosingScratch
    || (build && (pc == InTurn || pc == WaitSave || pc == Reconciling || pc == Writing))
  }

  /** Which locks a process has; the workflow lock and its own scratch lock share a name. */
  datatype Standing = Standing(workflow: bool, state: bool, scratch: bool, tried: Option<nat>, name: nat)

  const NO_LOCKS := Standing(false, false, false, None, 0)

  /** The locks a program counter stands for. */
  function StandingOf(names: Names, x: Process): Standing {
    Standing(HoldsWorkflow(x.pc), HoldsState(x.pc), HoldsScratch(x.pc, x.job.request.build), x.tried,
             if HoldsWorkflow(x.pc) then names.lockOf(x.job.key) else 0)
  }

  predicate HoldsAs(t: Standing, l: LockId) {
    match l
    case WorkflowLock(id) => t.workflow && id == t.name
    case StateLock => t.state
    case ScratchLock(id) => (t.scratch && id == t.name) || t.tried == Some(id)
  }

  predicate Holds(names: Names, x: Process, l: LockId) {
    HoldsAs(StandingOf(names, x), l)
  }

  /** The lock a process is blocked on. The sweep only tries locks, so it never appears here. */
  function Wanted(names: Names, x: Process): Option<LockId> {
    match x.pc
    case WaitWorkflow => Some(WorkflowLock(names.lockOf(x.job.key)))
    case WaitLoad => Some(StateLock)
    case WaitScratch => Some(ScratchLock(names.lockOf(x.job.key)))
    case WaitSave => Some(StateLock)
    case _ => None
  }

  // ----- steps -----

  /** What a finished turn and its validated target supply. */
  datatype Turn = Turn(
    threadId: string, commit: string, base: string, hash: string, review: string, warnings: seq<string>,
        usage: Option<Usage>)

  /**
   The guarantees of the thread, target and usage boundaries: a resumed thread
   keeps its id, and the round is the job's.
   */
  predicate TurnValid(names: Names, job: Job, c: Copy, t: Turn) {
    && t.threadId != "" && (c.known ==> t.threadId == c.before.threadId)
    && t.commit == names.text(job.request.commit) && t.base == names.text(job.request.base)
        && t.hash == HashOf(names, job)
    && IsObjectId(t.commit) && IsObjectId(t.base) && t.review != "" && UsageValid(t.usage)
  }

  /** What a saved round was made of. */
  datatype Made = Made(request: Request, turn: Turn)

  function DoneOf(c: Copy, t: Turn): Workflow
    requires NextRound(c) <= MAX_INT
  {
    Workflow(t.threadId, t.commit, t.base, t.hash, NextRound(c), t.review, t.warnings, t.usage, [])
  }

  datatype Action =
    | Start(job: Job)
    | TakeWorkflow
    | TakeStateToLoad
    | ReadRecord
    | Refuse
    | Answer
    | Proceed
    | TakeScratch
    | TryOther(id: nat)
    | DropOther
    | EndSweep
    | FinishTurn(turn: Turn)
    | TakeStateToSave
    | Reread
    | Write(saved: Workflows)
    | GiveUp
    | DropScratch
    | DropWorkflow
    | Crash

  /** Where the deferred releases start: with the scratch lock when it is held. */
  function ClosingPc(pc: Pc, build: bool): Pc {
    if HoldsScratch(pc, build) then ClosingScratch else Closing
  }

  function Abandon(x: Process): Process {
    x.(pc := ClosingPc(x.pc, x.job.request.build), tried := None)
  }

  /** What saveCompleted makes of the file as it finds it. */
  function Reconciled(file: FileContent, x: Process): Reconciliation {
    match Decoded(file)
    case LoadFailed(_) => Changed
    case Loaded(m) => Reconcile(m, x.job.key, x.copy, RecordOf(x.copy.before), x.done)
  }

  /** When a process may take an action. */
  ghost predicate Enabled(names: Names, s: System, x: Process, a: Action) {
    match a
    case Start(job) => x.pc == Idle && JobOk(names, job)
    case TakeWorkflow => x.pc == WaitWorkflow && WorkflowLock(names.lockOf(x.job.key)) !in s.locks
    case TakeStateToLoad => x.pc == WaitLoad && StateLock !in s.locks
    case ReadRecord => x.pc == Loading
    case Refuse => x.pc == Validating && StartDefectOf(x.copy).Some?
    case Answer => x.pc == Validating && StartDefectOf(x.copy).None? && Replay(x.copy, HashOf(names, x.job)).Some?
    case Proceed => x.pc == Validating && StartDefectOf(x.copy).None? && Replay(x.copy, HashOf(names, x.job)).None?
    case TakeScratch => x.pc == WaitScratch && ScratchLock(names.lockOf(x.job.key)) !in s.locks
    case TryOther(id) => x.pc == Sweeping && x.tried.None? && id != names.lockOf(x.job.key)
        && ScratchLock(id) !in s.locks
    case DropOther => x.pc == Sweeping && x.tried.Some?
    case EndSweep => x.pc == Sweeping && x.tried.None?
    case FinishTurn(turn) => x.pc == InTurn && NextRound(x.copy) <= MAX_INT && TurnValid(names, x.job, x.copy, turn)
    case TakeStateToSave => x.pc == WaitSave && StateLock !in s.locks
    case Reread => x.pc == Reconciling
    case Write(saved) => x.pc == Writing && EvictedFrom(x.memory, saved) && EncodedSize(saved) <= MAX_STATE_FILE_SIZE
    case GiveUp => x.pc != Idle && x.pc != ClosingScratch && x.pc != Closing
    case DropScratch => x.pc == ClosingScratch
    case DropWorkflow => x.pc == Closing
    case Crash => true
  }

  /** The process after the action. */
  function NextProcess(file: FileContent, x: Process, a: Action): Process {
    match a
    case Start(job) => NOT_RUNNING.(pc := WaitWorkflow, job := job)
    case TakeWorkflow => x.(pc := WaitLoad)
    case TakeStateToLoad => x.(pc := Loading)
    case ReadRecord =>
      (match Decoded(file)
       case Loaded(m) => x.(pc := Validating, copy := CopyOf(m, x.job.key))
       case LoadFailed(_) => Abandon(x))
    case Refuse => Abandon(x)
    case Answer => Abandon(x)
    case Proceed => x.(pc := if x.job.request.build then WaitScratch else InTurn)
    case TakeScratch => x.(pc := Sweeping)
    case TryOther(id) => x.(tried := Some(id))
    case DropOther => x.(tried := None)
    case EndSweep => x.(pc := InTurn)
    case FinishTurn(turn) =>
      if NextRound(x.copy) <= MAX_INT then x.(pc := WaitSave, turn := turn, done := DoneOf(x.copy, turn)) else x
    case TakeStateToSave => x.(pc := Reconciling)
    case Reread =>
      (match Reconciled(file, x)
       case Ready(memory) => x.(pc := Writing, memory := memory)
       case _ => Abandon(x))
    case Write(_) => Abandon(x)
    case GiveUp => if x.pc == WaitWorkflow then NOT_RUNNING else Abandon(x)
    case DropScratch => x.(pc := Closing)
    case DropWorkflow => NOT_RUNNING
    case Crash => NOT_RUNNING
  }

  /** The locks the action takes or gives back; an error return gives back the state lock or the tried lock first. */
  function MoveOf(names: Names, file: FileContent, x: Process, a: Action): LockMove<LockId> {
    match a
    case TakeWorkflow => Take(WorkflowLock(names.lockOf(x.job.key)))
    case TakeStateToLoad => Take(StateLock)
    case TakeStateToSave => Take(StateLock)
    case TakeScratch => Take(ScratchLock(names.lockOf(x.job.key)))
    case TryOther(id) => Take(ScratchLock(id))
    case ReadRecord => Give(StateLock)
    case Reread => if Reconciled(file, x).Ready? then Keep else Give(StateLock)
    case Write(_) => Give(StateLock)
    case DropOther => Give(ScratchLock(x.tried.GetOr(0)))
    case DropScratch => Give(ScratchLock(names.lockOf(x.job.key)))
    case DropWorkflow => Give(WorkflowLock(names.lockOf(x.job.key)))
    case GiveUp =>
      if HoldsState(x.pc) then Give(StateLock) else if x.tried.Some? then Give(ScratchLock(x.tried.value)) else Keep
    case Crash => GiveAll
    case _ => Keep
  }

  /** Only the write of a save touches the file; it replaces the whole of it at once. */
  ghost function NextFile(file: FileContent, a: Action): FileContent {
    if a.Write? then Encoded(a.saved) else file
  }

  function SavesOf(saves: map<string, seq<Workflow>>, key: string): seq<Workflow> {
    if key in saves then saves[key] else []
  }

  function NextSaves(saves: map<string, seq<Workflow>>, x: Process, a: Action): map<string, seq<Workflow>> {
    if a.Write? then saves[x.job.key := SavesOf(saves, x.job.key) + [x.done]] else saves
  }

  function MadeOf(made: map<string, seq<Made>>, key: string): seq<Made> {
    if key in made then made[key] else []
  }

  function NextMade(made: map<string, seq<Made>>, x: Process, a: Action): map<string, seq<Made>> {
    if a.Write? then made[x.job.key := MadeOf(made, x.job.key) + [Made(x.job.request, x.turn)]] else made
  }

  ghost predicate Next(names: Names, s: System, p: Pid, a: Action, s': System) {
    var x := ProcOf(s, p);
    && Enabled(names, s, x, a)
    && s' == System(s.procs[p := NextProcess(s.file, x, a)], MoveLocks(s.locks, p, MoveOf(names, s.file, x, a)),
                    NextFile(s.file, a), NextSaves(s.saves, x, a), NextMade(s.made, x, a))
  }

  ghost predicate Init(s: System) {
    s == System(map[], map[], Absent, map[], map[])
  }

  ghost predicate Steps(names: Names, s: System, s': System) {
    exists p, a :: Next(names, s, p, a, s')
  }

  /** A run: each state follows the one before by some process taking some action. */
  ghost predicate Run(names: Names, states: seq<System>) {
    && states != [] && Init(states[0])
    && forall i | 0 <= i < |states| - 1 :: Steps(names, states[i], states[i + 1])
  }

  // ----- lock ownership -----

  /** A process holds exactly the locks its program counter says. */
  ghost predicate LocksMatch(names: Names, s: System) {
    forall l, p :: Owns(s.locks, l, p) <==> Holds(names, ProcOf(s, p), l)
  }

  /** Only build reviews reach the scratch directory, and the sweep never tries its own scratch lock. */
  predicate SweepOk(names: Names, x: Process) {
    && (x.pc == WaitScratch || x.pc == Sweeping ==> x.job.request.build)
    && (x.tried.Some? ==> x.pc == Sweeping && x.tried.value != names.lockOf(x.job.key))
  }

  ghost predicate SweepsOk(names: Names, s: System) {
    forall p :: SweepOk(names, ProcOf(s, p))
  }

  /** The new program counter stands for the old locks, less those given, plus those taken. */
  ghost predicate MoveMatches(names: Names, x: Process, x': Process, move: LockMove<LockId>) {
    && (move.Give? ==> Holds(names, x, move.l))
    && forall l :: Holds(names, x', l) <==> HasAfter(move, l, Holds(names, x, l))
  }

  /** A step's effect on the locks a process has. */
  predicate Moves(t: Standing, t': Standing, move: LockMove<LockId>) {
    match move
    case Keep => t' == t
    case Take(l) =>
      (match l
       case WorkflowLock(id) => t == NO_LOCKS && t' == t.(workflow := true, name := id)
       case StateLock => t' == t.(state := true)
       case ScratchLock(id) =>
         || (id == t.name && t' == t.(scratch := true))
         || (t.tried.None? && t' == t.(tried := Some(id))))
    case Give(l) =>
      (match l
       case WorkflowLock(id) => t == NO_LOCKS.(workflow := true, name := id) && t' == NO_LOCKS
       case StateLock => t.state && t' == t.(state := false)
       case ScratchLock(id) =>
         || (t.scratch && id == t.name && t.tried != Some(id) && t' == t.(scratch := false))
         || (t.tried == Some(id) && id != t.name && t' == t.(tried := None)))
    case GiveAll => t' == NO_LOCKS
  }

  lemma MovesMatch(names: Names, x: Process, x': Process, move: LockMove<LockId>)
    requires Moves(StandingOf(names, x), StandingOf(names, x'), move)
    ensures MoveMatches(names, x, x', move)
  {
    hide StandingOf;
  }

  lemma KeepMoves(names: Names, s: System, x: Process, a: Action)
    requires SweepOk(names, x) && Enabled(names, s, x, a) && MoveOf(names, s.file, x, a).Keep?
    ensures Moves(StandingOf(names, x), StandingOf(names, NextProcess(s.file, x, a)), MoveOf(names, s.file, x, a))
  {
    hide Decoded, Reconcile, StartDefectOf, EncodedSize, EvictedFrom, Replay, TurnValid, DoneOf, CopyOf, HashOf, JobOk,
         RecordOf;
  }

  lemma TakeMoves(names: Names, s: System, x: Process, a: Action)
    requires SweepOk(names, x) && Enabled(names, s, x, a) && MoveOf(names, s.file, x, a).Take?
    ensures Moves(StandingOf(names, x), StandingOf(names, NextProcess(s.file, x, a)), MoveOf(names, s.file, x, a))
  {
    hide Decoded, Reconcile, StartDefectOf, EncodedSize, EvictedFrom, Replay, TurnValid, DoneOf, CopyOf, HashOf, JobOk,
         RecordOf;
  }

  lemma GiveUpMoves(names: Names, s: System, x: Process, a: Action)
    requires SweepOk(names, x) && Enabled(names, s, x, a) && MoveOf(names, s.file, x, a).Give? && a.GiveUp?
    ensures Moves(StandingOf(names, x), StandingOf(names, NextProcess(s.file, x, a)), MoveOf(names, s.file, x, a))
  {
    hide Decoded, Reconcile, StartDefectOf, EncodedSize, EvictedFrom, Replay, TurnValid, DoneOf, CopyOf, HashOf, JobOk,
         RecordOf;
  }

  lemma DropMoves(names: Names, s: System, x: Process, a: Action)
    requires SweepOk(names, x) && Enabled(names, s, x, a) && MoveOf(names, s.file, x, a).Give?
    requires a.DropOther? || a.DropScratch? || a.DropWorkflow?
    ensures Moves(StandingOf(names, x), StandingOf(names, NextProcess(s.file, x, a)), MoveOf(names, s.file, x, a))
  {
    hide Decoded, Reconcile, StartDefectOf, EncodedSize, EvictedFrom, Replay, TurnValid, DoneOf, CopyOf, HashOf, JobOk,
         RecordOf;
  }

  lemma SettleMoves(names: Names, s: System, x: Process, a: Action)
    requires SweepOk(names, x) && Enabled(names, s, x, a) && MoveOf(names, s.file, x, a).Give?
    requires a.ReadRecord? || a.Reread? || a.Write?
    ensures Moves(StandingOf(names, x), StandingOf(names, NextProcess(s.file, x, a)), MoveOf(names, s.file, x, a))
  {
    hide Decoded, Reconcile, StartDefectOf, EncodedSize, EvictedFrom, Replay, TurnValid, DoneOf, CopyOf, HashOf, JobOk,
         RecordOf;
  }

  lemma GiveMoves(names: Names, s: System, x: Process, a: Action)
    requires SweepOk(names, x) && Enabled(names, s, x, a) && MoveOf(names, s.file, x, a).Give?
    ensures Moves(StandingOf(names, x), StandingOf(names, NextProcess(s.file, x, a)), MoveOf(names, s.file, x, a))
  {
    hide Enabled, SweepOk, NextProcess, StandingOf, Moves;
    if a.GiveUp? {
      GiveUpMoves(names, s, x, a);
    } else if a.DropOther? || a.DropScratch? || a.DropWorkflow? {
      DropMoves(names, s, x, a);
    } else {
      SettleMoves(names, s, x, a);
    }
  }

  lemma StepMoves(names: Names, s: System, x: Process, a: Action)
    requires SweepOk(names, x) && Enabled(names, s, x, a)
    ensures Moves(StandingOf(names, x), StandingOf(names, NextProcess(s.file, x, a)), MoveOf(names, s.file, x, a))
  {
    hide Enabled, SweepOk;
    match MoveOf(names, s.file, x, a) {
      case Keep => KeepMoves(names, s, x, a);
      case Take(_) => TakeMoves(names, s, x, a);
      case Give(_) => GiveMoves(names, s, x, a);
      case GiveAll => assert a == Crash;
    }
  }

  lemma StepMoveMatches(names: Names, s: System, x: Process, a: Action)
    requires SweepOk(names, x) && Enabled(names, s, x, a)
    ensures MoveMatches(names, x, NextProcess(s.file, x, a), MoveOf(names, s.file, x, a))
  {
    hide Moves, SweepOk, Enabled, NextProcess, MoveOf, StandingOf, MoveMatches;
    StepMoves(names, s, x, a);
    MovesMatch(names, x, NextProcess(s.file, x, a), MoveOf(names, s.file, x, a));
  }

  lemma StepTakesFree(names: Names, s: System, x: Process, a: Action)
    requires SweepOk(names, x) && Enabled(names, s, x, a)
    ensures MoveOf(names, s.file, x, a).Take? ==> MoveOf(names, s.file, x, a).l !in s.locks
    ensures SweepOk(names, NextProcess(s.file, x, a))
  {
    hide Decoded, Reconcile, StartDefectOf, EncodedSize, EvictedFrom, Replay, TurnValid, DoneOf, CopyOf, HashOf, JobOk,
         RecordOf;
  }

  lemma MoveKeepsLocks(names: Names, s: System, s': System, p: Pid, x': Process, move: LockMove<LockId>)
    requires LocksMatch(names, s) && MoveMatches(names, ProcOf(s, p), x', move)
    requires move.Take? ==> move.l !in s.locks
    requires s'.procs == s.procs[p := x'] && s'.locks == MoveLocks(s.locks, p, move)
    ensures LocksMatch(names, s')
  {
    hide Holds, MoveLocks, Owns, HasAfter;
    forall l, q
      ensures Owns(s'.locks, l, q) <==> Holds(names, ProcOf(s', q), l)
    {
      MoveChangesOwn(s.locks, p, move, l, q);
      assert Owns(s.locks, l, q) <==> Holds(names, ProcOf(s, q), l);
      assert Owns(s.locks, l, p) <==> Holds(names, ProcOf(s, p), l);
      assert ProcOf(s', q) == if q == p then x' else ProcOf(s, q);
    }
  }

  lemma StepKeepsLocks(names: Names, s: System, p: Pid, a: Action, s': System)
    requires LocksMatch(names, s) && SweepsOk(names, s) && Next(names, s, p, a, s')
    ensures LocksMatch(names, s') && SweepsOk(names, s')
  {
    var x := ProcOf(s, p);
    assert SweepOk(names, x);
    StepTakesFree(names, s, ProcOf(s, p), a);
    StepMoveMatches(names, s, x, a);
    var x' := NextProcess(s.file, x, a);
    var move := MoveOf(names, s.file, x, a);
    hide Holds, NextProcess, MoveOf, Enabled, SweepOk, NextFile, NextSaves, MoveLocks, LocksMatch, MoveMatches;
    MoveKeepsLocks(names, s, s', p, x', move);
    forall q
      ensures SweepOk(names, ProcOf(s', q))
    {
      assert ProcOf(s', q) == if q == p then x' else ProcOf(s, q);
      assert SweepOk(names, ProcOf(s, q));
    }
  }

  // ----- the ledger -----

  ghost predicate AllMatch(m: Workflows, saves: map<string, seq<Workflow>>) {
    m.Keys == saves.Keys && forall k | k in m :: RecordMatches(m[k], saves[k])
  }

  /** The file parses, is within its bound, and holds a matching record for exactly the keys ever saved. */
  ghost predicate LedgerOk(file: FileContent, saves: map<string, seq<Workflow>>) {
    && Decoded(file).Loaded?
    && var m := Decoded(file).workflows;
       && (file == Absent || file == Encoded(m))
       && AllMatch(m, saves)
  }

  /** The record copied at the start of a review is the one on record, history apart. */
  predicate CopyOk(saves: map<string, seq<Workflow>>, key: string, c: Copy) {
    && c.known == (key in saves)
    && (c.known ==> RecordMatches(c.before, saves[key]))
  }

  /** A finished round continues the saves of its key. */
  predicate DoneOk(saves: map<string, seq<Workflow>>, key: string, done: Workflow) {
    SavesOk(SavesOf(saves, key) + [done])
  }

  predicate HasCopy(pc: Pc) {
    pc == Validating || pc == WaitScratch || pc == Sweeping || pc == InTurn || pc == WaitSave || pc == Reconciling
        || pc == Writing
  }

  predicate HasDone(pc: Pc) {
    pc == WaitSave || pc == Reconciling || pc == Writing
  }

  /** What a process knows at each program counter. */
  ghost predicate ProcessOk(file: FileContent, saves: map<string, seq<Workflow>>, x: Process) {
    && (HasCopy(x.pc) ==> CopyOk(saves, x.job.key, x.copy))
    && (HasCopy(x.pc) && x.pc != Validating ==> NextRound(x.copy) <= MAX_INT)
    && (HasDone(x.pc) ==> DoneOk(saves, x.job.key, x.done))
    && (x.pc == Writing ==> Reconciled(file, x) == Ready(x.memory))
  }

  ghost predicate ProcessesOk(s: System) {
    forall p :: ProcessOk(s.file, s.saves, ProcOf(s, p))
  }

  ghost predicate Inv(names: Names, s: System) {
    LocksMatch(names, s) && SweepsOk(names, s) && LedgerOk(s.file, s.saves) && ProcessesOk(s)
  }

  /**
   The reconciliation before a save never refuses: the copy is still
   current, the stored history is sound, whatever other reviews saved or
   evicted since.
   */
  lemma ReconciliationSucceeds(s: System, x: Process)
    requires LedgerOk(s.file, s.saves) && ProcessOk(s.file, s.saves, x) && HasDone(x.pc)
    ensures Reconciled(s.file, x).Ready?
    ensures var m := Decoded(s.file).workflows; var memory := Reconciled(s.file, x).workflows; var key := x.job.key;
            && memory.Keys == m.Keys + {key}
            && (forall k | k in m && k != key :: memory[k] == m[k])
            && RecordMatches(memory[key], SavesOf(s.saves, key) + [x.done])
            && (key in m ==> memory[key].FirstRetained() >= m[key].FirstRetained())
  {
    hide EncodedSize, SavesOk, Retained, RecordMatches, InvalidHistory, RecordOf;
    var m := Decoded(s.file).workflows;
    var key := x.job.key;
    if x.copy.known {
      NextRecord(x.copy.before, m[key], s.saves[key], x.done);
    } else {
      assert SavesOf(s.saves, key) + [x.done] == [x.done];
      FirstRecord(x.done);
    }
  }

  lemma FinishedRoundExtends(names: Names, saves: map<string, seq<Workflow>>, job: Job, c: Copy, t: Turn)
    requires CopyOk(saves, job.key, c) && NextRound(c) <= MAX_INT && TurnValid(names, job, c, t)
    ensures DoneOk(saves, job.key, DoneOf(c, t))
  {
    var done := DoneOf(c, t);
    if c.known {
      MatchingRecordIsSound(c.before, saves[job.key]);
    }
    assert IncompleteWorkflowField(done) == None;
  }

  lemma CopyOfOk(file: FileContent, saves: map<string, seq<Workflow>>, key: string)
    requires LedgerOk(file, saves)
    ensures CopyOk(saves, key, CopyOf(Decoded(file).workflows, key))
  {
    hide RecordMatches, EncodedSize;
  }

  lemma ReadKeepsOwn(s: System, x: Process)
    requires LedgerOk(s.file, s.saves) && x.pc == Loading
    ensures ProcessOk(s.file, s.saves, NextProcess(s.file, x, ReadRecord))
  {
    CopyOfOk(s.file, s.saves, x.job.key);
    hide EncodedSize, CopyOk, CopyOf, RecordMatches;
  }

  lemma ProceedKeepsOwn(s: System, x: Process)
    requires ProcessOk(s.file, s.saves, x) && x.pc == Validating && StartDefectOf(x.copy).None?
    ensures ProcessOk(s.file, s.saves, NextProcess(s.file, x, Proceed))
  {
    hide EncodedSize, CopyOk, IncompleteWorkflowField, InvalidHistory;
  }

  lemma FinishKeepsOwn(names: Names, s: System, x: Process, turn: Turn)
    requires ProcessOk(s.file, s.saves, x) && x.pc == InTurn && TurnValid(names, x.job, x.copy, turn)
    ensures ProcessOk(s.file, s.saves, NextProcess(s.file, x, FinishTurn(turn)))
  {
    FinishedRoundExtends(names, s.saves, x.job, x.copy, turn);
    hide EncodedSize, CopyOk, DoneOk, DoneOf;
  }

  lemma RereadKeepsOwn(s: System, x: Process)
    requires ProcessOk(s.file, s.saves, x) && x.pc == Reconciling
    ensures ProcessOk(s.file, s.saves, NextProcess(s.file, x, Reread))
  {
    hide EncodedSize, CopyOk, DoneOk, Reconcile, Decoded;
  }

  lemma RestKeepsOwn(names: Names, s: System, x: Process, a: Action)
    requires ProcessOk(s.file, s.saves, x) && Enabled(names, s, x, a)
    requires !a.ReadRecord? && !a.Proceed? && !a.FinishTurn? && !a.Reread?
    ensures ProcessOk(s.file, s.saves, NextProcess(s.file, x, a))
  {
    hide EncodedSize, CopyOk, DoneOk, TurnValid, DoneOf, Replay, EvictedFrom, Reconciled, Decoded, CopyOf, HashOf,
         JobOk;
    hide StartDefectOf, NextRound;
  }

  /** Any step but the write of a save leaves its process knowing what its new program counter promises. */
  lemma StepKeepsOwn(names: Names, s: System, x: Process, a: Action)
    requires LedgerOk(s.file, s.saves) && ProcessOk(s.file, s.saves, x) && Enabled(names, s, x, a)
    ensures ProcessOk(s.file, s.saves, NextProcess(s.file, x, a))
  {
    hide LedgerOk, ProcessOk, NextProcess, TurnValid, StartDefectOf, Replay, EvictedFrom, EncodedSize, JobOk, HashOf;
    match a
    case ReadRecord => ReadKeepsOwn(s, x);
    case Proceed => ProceedKeepsOwn(s, x);
    case FinishTurn(turn) => FinishKeepsOwn(names, s, x, turn);
    case Reread => RereadKeepsOwn(s, x);
    case _ => RestKeepsOwn(names, s, x, a);
  }

  /** Eviction keeps every record matching. */
  lemma EvictedRecordsMatch(memory: Workflows, saved: Workflows, saves: map<string, seq<Workflow>>)
    requires AllMatch(memory, saves) && EvictedFrom(memory, saved)
    ensures AllMatch(saved, saves)
  {
    hide RecordMatches;
    forall k | k in saved
      ensures RecordMatches(saved[k], saves[k])
    {
      MatchingRecordEvicted(memory[k], saved[k], saves[k]);
    }
  }

  /** The file a save leaves matches the extended saves. */
  lemma WriteKeepsLedger(s: System, x: Process, saved: Workflows)
    requires LedgerOk(s.file, s.saves) && ProcessOk(s.file, s.saves, x) && x.pc == Writing
    requires EvictedFrom(x.memory, saved) && EncodedSize(saved) <= MAX_STATE_FILE_SIZE
    ensures LedgerOk(Encoded(saved), NextSaves(s.saves, x, Write(saved)))
  {
    hide EncodedSize, RecordMatches, Reconcile, CopyOk, DoneOk, EvictedFrom;
    ReconciliationSucceeds(s, x);
    SavedFileLoads(saved);
    EvictedRecordsMatch(x.memory, saved, NextSaves(s.saves, x, Write(saved)));
  }

  /** A process that has copied a record of another key is untouched by a save. */
  lemma WriteKeepsOthers(s: System, x: Process, y: Process, saved: Workflows)
    requires ProcessOk(s.file, s.saves, y)
    requires HasCopy(y.pc) ==> y.job.key != x.job.key
    requires y.pc != Writing
    ensures ProcessOk(Encoded(saved), NextSaves(s.saves, x, Write(saved)), y)
  {
    hide EncodedSize, RecordMatches, Reconcile, SavesOk;
  }

  /** Two processes past their workflow lock work on different keys. */
  lemma DifferentKeys(names: Names, s: System, p: Pid, q: Pid)
    requires LocksMatch(names, s) && p != q
    requires HoldsWorkflow(ProcOf(s, p).pc) && HoldsWorkflow(ProcOf(s, q).pc)
    ensures ProcOf(s, p).job.key != ProcOf(s, q).job.key
  {
    var l := WorkflowLock(names.lockOf(ProcOf(s, p).job.key));
    assert Holds(names, ProcOf(s, p), l) <==> Owns(s.locks, l, p);
    assert Holds(names, ProcOf(s, q), l) <==> Owns(s.locks, l, q);
  }

  lemma StateLockExcludes(names: Names, s: System, p: Pid, q: Pid)
    requires LocksMatch(names, s) && p != q && HoldsState(ProcOf(s, p).pc)
    ensures !HoldsState(ProcOf(s, q).pc)
  {
    assert Holds(names, ProcOf(s, p), StateLock) <==> Owns(s.locks, StateLock, p);
    assert Holds(names, ProcOf(s, q), StateLock) <==> Owns(s.locks, StateLock, q);
  }

  lemma StepKeepsLedger(names: Names, s: System, p: Pid, a: Action, s': System)
    requires Inv(names, s) && Next(names, s, p, a, s')
    ensures LedgerOk(s'.file, s'.saves)
  {
    var x := ProcOf(s, p);
    assert ProcessOk(s.file, s.saves, x);
    if a.Write? {
      WriteKeepsLedger(s, x, a.saved);
    }
    hide EncodedSize, LedgerOk, ProcessOk, NextProcess, MoveOf;
  }

  lemma StepKeepsSelf(names: Names, s: System, x: Process, a: Action)
    requires LedgerOk(s.file, s.saves) && ProcessOk(s.file, s.saves, x) && Enabled(names, s, x, a)
    ensures ProcessOk(NextFile(s.file, a), NextSaves(s.saves, x, a), NextProcess(s.file, x, a))
  {
    if a.Write? {
      hide ProcessOk, LedgerOk, Enabled, NextFile, NextSaves;
      assert NextProcess(s.file, x, a) == Abandon(x);
      hide NextProcess;
      AbandonedIsOk(NextFile(s.file, a), NextSaves(s.saves, x, a), x);
    } else {
      hide EncodedSize, LedgerOk, ProcessOk, NextProcess, Enabled, Encoded;
      StepKeepsOwn(names, s, x, a);
    }
  }

  lemma AbandonedIsOk(file: FileContent, saves: map<string, seq<Workflow>>, x: Process)
    ensures ProcessOk(file, saves, Abandon(x))
  {
    hide CopyOk, DoneOk, Reconciled;
  }

  lemma StepKeepsOther(names: Names, s: System, p: Pid, a: Action, q: Pid)
    requires Inv(names, s) && Enabled(names, s, ProcOf(s, p), a) && q != p
    ensures ProcessOk(NextFile(s.file, a), NextSaves(s.saves, ProcOf(s, p), a), ProcOf(s, q))
  {
    hide EncodedSize, ProcessOk, LedgerOk, StartDefectOf, Replay, TurnValid, EvictedFrom;
    var x, y := ProcOf(s, p), ProcOf(s, q);
    assert ProcessOk(s.file, s.saves, y);
    if a.Write? {
      if HasCopy(y.pc) {
        DifferentKeys(names, s, p, q);
      }
      StateLockExcludes(names, s, p, q);
      WriteKeepsOthers(s, x, y, a.saved);
    }
  }

  lemma StepKeepsProcesses(names: Names, s: System, p: Pid, a: Action, s': System)
    requires Inv(names, s) && Next(names, s, p, a, s')
    ensures ProcessesOk(s')
  {
    hide ProcessOk, NextProcess, Enabled, LedgerOk, MoveOf, MoveLocks, NextFile, NextSaves;
    var x := ProcOf(s, p);
    var x' := NextProcess(s.file, x, a);
    assert ProcessOk(s.file, s.saves, x);
    StepKeepsSelf(names, s, x, a);
    forall q
      ensures ProcessOk(s'.file, s'.saves, ProcOf(s', q))
    {
      if q == p {
        assert ProcOf(s', q) == x';
      } else {
        assert ProcOf(s', q) == ProcOf(s, q);
        StepKeepsOther(names, s, p, a, q);
      }
    }
  }

  /** What every step of every process keeps. */
  lemma StepKeepsInv(names: Names, s: System, p: Pid, a: Action, s': System)
    requires Inv(names, s) && Next(names, s, p, a, s')
    ensures Inv(names, s')
  {
    StepKeepsLocks(names, s, p, a, s');
    StepKeepsLedger(names, s, p, a, s');
    StepKeepsProcesses(names, s, p, a, s');
  }

  // ----- the requests and turns behind the saves -----

  /** The record is of the request's commit and base, and holds what the turn gave. */
  ghost predicate IsOf(names: Names, w: Workflow, m: Made) {
    && w.lastCommit == names.text(m.request.commit) && w.lastBase == names.text(m.request.base)
    && w.lastRequestHash == names.hash(Stream(m.request)) && HoldableRequest(m.request)
    && w.threadId == m.turn.threadId && w.lastReview == m.turn.review
    && w.lastWarnings == m.turn.warnings && w.lastUsage == m.turn.usage
  }

  /** Each record is of what is in its place. */
  ghost predicate Carries(names: Names, ws: seq<Workflow>, ms: seq<Made>) {
    |ms| == |ws| && forall i | 0 <= i < |ws| :: IsOf(names, ws[i], ms[i])
  }

  ghost predicate MadeOk(names: Names, saves: map<string, seq<Workflow>>, made: map<string, seq<Made>>) {
    made.Keys == saves.Keys && forall k | k in saves :: Carries(names, saves[k], made[k])
  }

  /** A running review's job is well formed, and its finished round is of that job and its turn. */
  ghost predicate RequestOk(names: Names, x: Process) {
    && (x.pc != Idle ==> JobOk(names, x.job))
    && (HasDone(x.pc) ==> IsOf(names, x.done, Made(x.job.request, x.turn)))
  }

  ghost predicate RequestsOk(names: Names, s: System) {
    MadeOk(names, s.saves, s.made) && forall p :: RequestOk(names, ProcOf(s, p))
  }

  lemma FinishedRecords(names: Names, job: Job, c: Copy, t: Turn)
    requires JobOk(names, job) && NextRound(c) <= MAX_INT && TurnValid(names, job, c, t)
    ensures IsOf(names, DoneOf(c, t), Made(job.request, t))
  {
    hide Stream, HoldableRequest, IsObjectId;
  }

  /** Short of finishing a turn, a process keeps its job, and has a finished round only if it had the same before. */
  lemma RoundCarriedOver(names: Names, s: System, x: Process, a: Action)
    requires Enabled(names, s, x, a) && !a.FinishTurn?
    ensures var x' := NextProcess(s.file, x, a);
            && (x'.pc != Idle ==> if a.Start? then JobOk(names, x'.job) else x.pc != Idle && x'.job == x.job)
            && (HasDone(x'.pc) ==> HasDone(x.pc) && x'.job == x.job && x'.done == x.done && x'.turn == x.turn)
  {
    hide EncodedSize, EvictedFrom, StartDefectOf, Replay, Decoded, Reconciled, CopyOf, JobOk, HashOf;
  }

  lemma StepKeepsRequest(names: Names, s: System, x: Process, a: Action)
    requires RequestOk(names, x) && Enabled(names, s, x, a)
    ensures RequestOk(names, NextProcess(s.file, x, a))
  {
    if a.FinishTurn? {
      FinishedRecords(names, x.job, x.copy, a.turn);
    } else {
      RoundCarriedOver(names, s, x, a);
      hide Enabled, NextProcess;
    }
    hide IsOf, JobOk, TurnValid, DoneOf;
  }

  lemma CarriesAppend(names: Names, ws: seq<Workflow>, ms: seq<Made>, w: Workflow, m: Made)
    requires Carries(names, ws, ms) && IsOf(names, w, m)
    ensures Carries(names, ws + [w], ms + [m])
  {
    hide IsOf;
  }

  lemma WriteKeepsMade(names: Names, s: System, x: Process, saved: Workflows)
    requires MadeOk(names, s.saves, s.made) && RequestOk(names, x) && x.pc == Writing
    ensures MadeOk(names, NextSaves(s.saves, x, Write(saved)), NextMade(s.made, x, Write(saved)))
  {
    var k := x.job.key;
    assert Carries(names, SavesOf(s.saves, k), MadeOf(s.made, k));
    CarriesAppend(names, SavesOf(s.saves, k), MadeOf(s.made, k), x.done, Made(x.job.request, x.turn));
    hide Carries, JobOk, IsOf;
  }

  lemma StepKeepsRequests(names: Names, s: System, p: Pid, a: Action, s': System)
    requires RequestsOk(names, s) && Next(names, s, p, a, s')
    ensures RequestsOk(names, s')
  {
    hide RequestOk, MadeOk, NextProcess, MoveLocks, MoveOf;
    var x := ProcOf(s, p);
    assert RequestOk(names, x);
    StepKeepsRequest(names, s, x, a);
    if a.Write? {
      WriteKeepsMade(names, s, x, a.saved);
    }
    hide Enabled;
    forall q
      ensures RequestOk(names, ProcOf(s', q))
    {
      assert ProcOf(s', q) == if q == p then NextProcess(s.file, x, a) else ProcOf(s, q);
      assert RequestOk(names, ProcOf(s, q));
    }
  }
}
