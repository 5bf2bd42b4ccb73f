/**
 What holds over every run of the review protocol, from an empty file, in
 any interleaving of any number of reviews with crashes anywhere.
 */
module ReviewTheorems {
  import opened Text
  import opened LockTable
  import opened Ledger
  import opened LedgerEncoding
  import opened StateFile
  import opened Eviction
  import opened Completion
  import opened SavedRounds
  import opened ReviewProtocol
  import opened RequestStream
  import Quotation

  function Stored(s: System): Workflows {
    match Decoded(s.file)
    case Loaded(m) => m
    case LoadFailed(_) => map[]
  }

  lemma InitInv(names: Names, s: System)
    requires Init(s)
    ensures Inv(names, s)
  {
    hide EncodedSize;
    assert Decoded(s.file) == Loaded(map[]);
    forall p
      ensures ProcOf(s, p) == NOT_RUNNING
    {
    }
  }

  lemma StepsKeepInv(names: Names, s: System, s': System)
    requires Inv(names, s) && Steps(names, s, s')
    ensures Inv(names, s')
  {
    var p, a :| Next(names, s, p, a, s');
    StepKeepsInv(names, s, p, a, s');
  }

  lemma {:induction false} RunKeepsInv(names: Names, states: seq<System>, i: nat)
    requires Run(names, states) && i < |states|
    ensures Inv(names, states[i])
  {
    if i == 0 {
      InitInv(names, states[0]);
    } else {
      RunKeepsInv(names, states, i - 1);
      assert Steps(names, states[i - 1], states[i - 1 + 1]);
      StepsKeepInv(names, states[i - 1], states[i]);
    }
  }

  // ----- the ledger -----

  /**
   In every reachable state each stored record is its key's last completed
   round, its round number counts the rounds saved for the key, its thread
   is the one the first round started, and it passes every check made of a
   stored record.
   */
  lemma StoredRecordsAreTheSavedRounds(names: Names, states: seq<System>, i: nat, key: string)
    requires Run(names, states) && i < |states|
    ensures var s := states[i];
            && (key in Stored(s) <==> key in s.saves)
            && (key in Stored(s) ==>
                  var w := Stored(s)[key]; var saves := s.saves[key];
                  TellsTheSavedRounds(w, saves) && Complete(w) && InvalidHistory(w) == None)
  {
    RunKeepsInv(names, states, i);
    hide EncodedSize, ProcessesOk, LocksMatch, SweepsOk, RecordMatches, TellsTheSavedRounds, InvalidHistory;
    var s := states[i];
    if key in Stored(s) {
      MatchingRecordIsSound(Stored(s)[key], s.saves[key]);
      MatchingRecordTells(Stored(s)[key], s.saves[key]);
    }
  }

  /** The reconciliation before the final save never refuses a finished review. */
  lemma ReconciliationNeverRefuses(names: Names, states: seq<System>, i: nat, p: Pid)
    requires Run(names, states) && i < |states| && ProcOf(states[i], p).pc == Reconciling
    ensures Decoded(states[i].file).Loaded?
    ensures Reconciled(states[i].file, ProcOf(states[i], p)).Ready?
  {
    RunKeepsInv(names, states, i);
    hide EncodedSize, LocksMatch, SweepsOk, RecordMatches;
    assert ProcessOk(states[i].file, states[i].saves, ProcOf(states[i], p));
    ReconciliationSucceeds(states[i], ProcOf(states[i], p));
  }

  /** The check of a stored record at the start of a review can only fail on an exhausted round counter. */
  lemma StartRefusesOnlyExhaustedRounds(names: Names, states: seq<System>, i: nat, p: Pid)
    requires Run(names, states) && i < |states| && ProcOf(states[i], p).pc == Validating
    ensures var c := ProcOf(states[i], p).copy;
            StartDefectOf(c).Some? <==> c.known && c.before.round == MAX_INT
  {
    RunKeepsInv(names, states, i);
    hide EncodedSize, LocksMatch, SweepsOk, RecordMatches, InvalidHistory;
    var x := ProcOf(states[i], p);
    assert ProcessOk(states[i].file, states[i].saves, x);
    if x.copy.known {
      MatchingRecordIsSound(x.copy.before, states[i].saves[x.job.key]);
    }
  }

  /** A finished review's reconciliation holds clean histories only, its own and every other key's. */
  lemma ReconciledIsClean(names: Names, states: seq<System>, i: nat, p: Pid)
    requires Run(names, states) && i < |states| && HasDone(ProcOf(states[i], p).pc)
    ensures Decoded(states[i].file).Loaded? && Reconciled(states[i].file, ProcOf(states[i], p)).Ready?
    ensures AllClean(Reconciled(states[i].file, ProcOf(states[i], p)).workflows)
  {
    RunKeepsInv(names, states, i);
    var s, x := states[i], ProcOf(states[i], p);
    assert ProcessOk(s.file, s.saves, x);
    ReconciliationSucceeds(s, x);
    var memory := Reconciled(s.file, x).workflows;
    hide EncodedSize, RecordMatches, LocksMatch, SweepsOk, ProcessesOk, Reconciled, Run;
    forall k, j | k in memory && 0 <= j < |memory[k].history|
      ensures CleanRecord(memory[k].history[j])
    {
      MatchingRecordIsSound(memory[k], if k == x.job.key then SavesOf(s.saves, k) + [x.done] else s.saves[k]);
    }
  }

  /** Every history a save may evict from is clean: the premise under which batched eviction equals the naive policy. */
  lemma SavesStartClean(names: Names, states: seq<System>, i: nat, p: Pid)
    requires Run(names, states) && i < |states| && ProcOf(states[i], p).pc == Writing
    ensures AllClean(ProcOf(states[i], p).memory)
  {
    hide AllClean, Reconciled;
    ReconciledIsClean(names, states, i, p);
    RunKeepsInv(names, states, i);
    hide Run, LocksMatch, SweepsOk, LedgerOk, CopyOk, DoneOk;
    assert ProcessOk(states[i].file, states[i].saves, ProcOf(states[i], p));
  }

  lemma DoneIsNextRound(names: Names, states: seq<System>, i: nat, p: Pid)
    requires Run(names, states) && i < |states| && HasDone(ProcOf(states[i], p).pc)
    ensures ProcOf(states[i], p).done.round == NextRound(ProcOf(states[i], p).copy)
  {
    RunKeepsInv(names, states, i);
    var s, x := states[i], ProcOf(states[i], p);
    hide EncodedSize, LocksMatch, SweepsOk, LedgerOk, Reconciled, RecordMatches, Run;
    assert ProcessOk(s.file, s.saves, x);
    var all := SavesOf(s.saves, x.job.key) + [x.done];
    assert all[|all| - 1] == x.done;
    if x.copy.known {
      MatchingRecordIsSound(x.copy.before, s.saves[x.job.key]);
    }
  }

  /** The copy a review works from stays that of its key's last saved round. */
  lemma KnownCopyMatches(names: Names, states: seq<System>, i: nat, p: Pid)
    requires Run(names, states) && i < |states|
    requires HasCopy(ProcOf(states[i], p).pc) && ProcOf(states[i], p).copy.known
    ensures var key := ProcOf(states[i], p).job.key;
            key in states[i].saves && RecordMatches(ProcOf(states[i], p).copy.before, states[i].saves[key])
  {
    RunKeepsInv(names, states, i);
    hide EncodedSize, LocksMatch, SweepsOk, LedgerOk, RecordMatches;
    assert ProcessOk(states[i].file, states[i].saves, ProcOf(states[i], p));
  }

  /**
   Once the start checks have passed, the prompt accounts for every earlier
   round exactly once, and each verdict it quotes is the one that round saved.
   */
  lemma PromptQuotesTheSavedRounds(names: Names, states: seq<System>, i: nat, p: Pid)
    requires Run(names, states) && i < |states|
    requires HasCopy(ProcOf(states[i], p).pc) && ProcOf(states[i], p).copy.known
    ensures var w := ProcOf(states[i], p).copy.before; var key := ProcOf(states[i], p).job.key;
            && key in states[i].saves && w.round == |states[i].saves[key]|
            && PromptAccountsForEveryRound(w) && QuotesTheSavedRounds(w, states[i].saves[key])
  {
    hide Run, RecordMatches, PromptAccountsForEveryRound, QuotesTheSavedRounds;
    KnownCopyMatches(names, states, i, p);
    MatchingRecordQuotes(ProcOf(states[i], p).copy.before, states[i].saves[ProcOf(states[i], p).job.key]);
  }

  // ----- over time -----

  /** The saves of a key only grow, and its first retained round only rises. */
  ghost predicate LaterThan(s: System, s': System, key: string) {
    key in Stored(s) ==>
      && key in Stored(s')
      && Stored(s')[key].FirstRetained() >= Stored(s)[key].FirstRetained()
      && key in s.saves && key in s'.saves && s.saves[key] <= s'.saves[key]
  }

  lemma EvictionRaisesFirst(w: Workflow, v: Workflow)
    requires v.Completed() == w.Completed() && |v.history| <= |w.history|
    ensures v.FirstRetained() >= w.FirstRetained()
  {
    CompletedAgrees(v, w);
  }

  lemma WriteIsLater(s: System, x: Process, saved: Workflows, key: string)
    requires LedgerOk(s.file, s.saves) && ProcessOk(s.file, s.saves, x) && x.pc == Writing
    requires EvictedFrom(x.memory, saved) && key in Stored(s)
    ensures key in saved && saved[key].FirstRetained() >= Stored(s)[key].FirstRetained()
  {
    hide EncodedSize, RecordMatches, Reconcile;
    ReconciliationSucceeds(s, x);
    EvictionRaisesFirst(x.memory[key], saved[key]);
  }

  lemma StepIsLater(names: Names, s: System, p: Pid, a: Action, s': System, key: string)
    requires Inv(names, s) && Next(names, s, p, a, s')
    ensures LaterThan(s, s', key)
  {
    hide EncodedSize, NextProcess, MoveOf, RecordMatches, LocksMatch, SweepsOk, ProcessOk, EvictedFrom, Encoded;
    var x := ProcOf(s, p);
    assert ProcessOk(s.file, s.saves, x);
    if a.Write? && key in Stored(s) {
      WriteIsLater(s, x, a.saved, key);
      SavedFileLoads(a.saved);
      assert Stored(s') == a.saved;
    }
  }

  /**
   No resurrection: over any run the first retained round of a key never
   decreases, so a record once dropped, by its own rounds or by another
   review's eviction, never comes back; and no saved round is ever rewritten.
   */
  lemma {:induction false} NoResurrection(names: Names, states: seq<System>, i: nat, j: nat, key: string)
    requires Run(names, states) && i <= j < |states|
    ensures LaterThan(states[i], states[j], key)
    decreases j
  {
    hide Run, LaterThan;
    if i == j {
      RunKeepsInv(names, states, i);
      StoredHasSaves(names, states[i], key);
    } else {
      NoResurrection(names, states, i, j - 1, key);
      NextIsLater(names, states, j - 1, key);
      LaterTransitive(states[i], states[j - 1], states[j], key);
    }
  }

  lemma NextIsLater(names: Names, states: seq<System>, i: nat, key: string)
    requires Run(names, states) && i + 1 < |states|
    ensures LaterThan(states[i], states[i + 1], key)
  {
    assert Steps(names, states[i], states[i + 1]);
    RunKeepsInv(names, states, i);
    hide Run, Inv, Next, LaterThan;
    var p, a :| Next(names, states[i], p, a, states[i + 1]);
    StepIsLater(names, states[i], p, a, states[i + 1], key);
  }

  lemma StoredHasSaves(names: Names, s: System, key: string)
    requires Inv(names, s)
    ensures LaterThan(s, s, key)
  {
    hide EncodedSize, RecordMatches, LocksMatch, SweepsOk, ProcessesOk;
  }

  lemma LaterTransitive(a: System, b: System, c: System, key: string)
    requires LaterThan(a, b, key) && LaterThan(b, c, key)
    ensures LaterThan(a, c, key)
  {
    hide Stored;
  }

  // ----- exclusion and deadlock -----

  /** At most one review of a workflow runs a turn or reaches its save at a time. */
  lemma OneReviewPerWorkflow(names: Names, states: seq<System>, i: nat, p: Pid, q: Pid)
    requires Run(names, states) && i < |states| && p != q
    requires HasCopy(ProcOf(states[i], p).pc) && HasCopy(ProcOf(states[i], q).pc)
    ensures ProcOf(states[i], p).job.key != ProcOf(states[i], q).job.key
  {
    RunKeepsInv(names, states, i);
    DifferentKeys(names, states[i], p, q);
  }

  /** p is blocked on a lock q holds. */
  ghost predicate WaitsFor(names: Names, s: System, p: Pid, q: Pid) {
    var l := Wanted(names, ProcOf(s, p));
    l.Some? && Owns(s.locks, l.value, q)
  }

  function Rank(l: LockId): nat {
    match l
    case WorkflowLock(_) => 0
    case ScratchLock(_) => 1
    case StateLock => 2
  }

  /** The lock order: whoever holds a lock waits only for a later one. */
  lemma WaitsRise(names: Names, s: System, p: Pid, q: Pid)
    requires Inv(names, s) && WaitsFor(names, s, p, q) && Wanted(names, ProcOf(s, q)).Some?
    ensures Rank(Wanted(names, ProcOf(s, p)).value) < Rank(Wanted(names, ProcOf(s, q)).value)
  {
    hide LedgerOk, ProcessesOk;
    var l := Wanted(names, ProcOf(s, p)).value;
    assert Owns(s.locks, l, q) && Holds(names, ProcOf(s, q), l);
    assert SweepOk(names, ProcOf(s, q));
  }

  ghost predicate WaitPath(names: Names, s: System, path: seq<Pid>) {
    |path| >= 2 && forall i | 0 <= i < |path| - 1 :: WaitsFor(names, s, path[i], path[i + 1])
  }

  lemma {:induction false} WaitPathRises(names: Names, s: System, path: seq<Pid>, i: nat)
    requires Inv(names, s) && WaitPath(names, s, path) && i < |path| - 1
    ensures Wanted(names, ProcOf(s, path[i])).Some? && Rank(Wanted(names, ProcOf(s, path[i])).value) >= i
  {
    assert WaitsFor(names, s, path[i], path[i + 1]);
    if i > 0 {
      WaitPathRises(names, s, path, i - 1);
      assert WaitsFor(names, s, path[i - 1], path[i - 1 + 1]);
      WaitsRise(names, s, path[i - 1], path[i]);
    }
  }

  /** The wait-for graph of every reachable state is acyclic, and no chain of waits is longer than three. */
  lemma NoDeadlock(names: Names, states: seq<System>, i: nat, path: seq<Pid>)
    requires Run(names, states) && i < |states| && WaitPath(names, states[i], path)
    ensures path[0] != path[|path| - 1] && |path| <= 4
  {
    var s := states[i];
    RunKeepsInv(names, states, i);
    WaitPathRises(names, s, path, |path| - 2);
    CycleImpossible(names, s, path);
  }

  /** Going round a cycle would raise the rank of the first wait above itself. */
  lemma CycleImpossible(names: Names, s: System, path: seq<Pid>)
    requires Inv(names, s) && WaitPath(names, s, path)
    ensures path[0] != path[|path| - 1]
  {
    RankAlong(names, s, path, |path| - 2);
    var last := |path| - 2;
    assert WaitsFor(names, s, path[last], path[last + 1]);
    assert WaitsFor(names, s, path[0], path[0 + 1]);
    if path[0] == path[|path| - 1] {
      WaitsRise(names, s, path[last], path[last + 1]);
    }
  }

  lemma {:induction false} RankAlong(names: Names, s: System, path: seq<Pid>, i: nat)
    requires Inv(names, s) && WaitPath(names, s, path) && i < |path| - 1
    ensures Wanted(names, ProcOf(s, path[0])).Some? && Wanted(names, ProcOf(s, path[i])).Some?
    ensures Rank(Wanted(names, ProcOf(s, path[0])).value) <= Rank(Wanted(names, ProcOf(s, path[i])).value)
  {
    assert WaitsFor(names, s, path[0], path[0 + 1]);
    assert WaitsFor(names, s, path[i], path[i + 1]);
    if i > 0 {
      RankAlong(names, s, path, i - 1);
      assert WaitsFor(names, s, path[i - 1], path[i - 1 + 1]);
      WaitsRise(names, s, path[i - 1], path[i]);
    }
  }

  ghost predicate Blocked(names: Names, s: System, p: Pid) {
    var l := Wanted(names, ProcOf(s, p));
    l.Some? && l.value in s.locks
  }

  lemma {:induction false} FollowWaits(names: Names, s: System, p: Pid) returns (q: Pid)
    requires Inv(names, s) && ProcOf(s, p).pc != Idle
    ensures ProcOf(s, q).pc != Idle && !Blocked(names, s, q)
    decreases if Wanted(names, ProcOf(s, p)).Some? then 3 - Rank(Wanted(names, ProcOf(s, p)).value) else 0
  {
    hide LedgerOk, ProcessesOk;
    q := p;
    if Blocked(names, s, p) {
      var l := Wanted(names, ProcOf(s, p)).value;
      var r := s.locks[l];
      assert Owns(s.locks, l, r) && Holds(names, ProcOf(s, r), l);
      assert SweepOk(names, ProcOf(s, r));
      if Wanted(names, ProcOf(s, r)).Some? {
        WaitsRise(names, s, p, r);
      }
      q := FollowWaits(names, s, r);
    }
  }

  /** A turn the reviewer could return to the process. */
  function SomeTurn(names: Names, job: Job, c: Copy): Turn {
    Turn(if c.known then c.before.threadId else "t", names.text(job.request.commit), names.text(job.request.base),
         HashOf(names, job), "r", [], None)
  }

  lemma SomeTurnValid(names: Names, saves: map<string, seq<Workflow>>, job: Job, c: Copy)
    requires CopyOk(saves, job.key, c) && JobOk(names, job)
    ensures TurnValid(names, job, c, SomeTurn(names, job, c))
  {
    if c.known {
      MatchingRecordIsSound(c.before, saves[job.key]);
    }
  }

  /**
   A write is possible exactly when the ledger fits without any history, and
   then it can be of the naive policy's state.
   */
  lemma WriteEnabledWhen(names: Names, s: System, x: Process)
    requires x.pc == Writing
    ensures (exists saved :: Enabled(names, s, x, Write(saved))) <==>
            EncodedSize(WithoutHistory(x.memory)) <= MAX_STATE_FILE_SIZE
    ensures EncodedSize(WithoutHistory(x.memory)) <= MAX_STATE_FILE_SIZE ==>
              Enabled(names, s, x, Write(NaiveEvict(x.memory)))
  {
    hide EncodedSize, NaiveEvict, EvictedFrom, WithoutHistory;
    NaiveEvictResult(x.memory);
    NaiveFitsExactlyWhen(x.memory);
    if saved :| Enabled(names, s, x, Write(saved)) {
      FitsOnlyIfNaiveFits(x.memory, saved);
    }
    if EncodedSize(NaiveEvict(x.memory)) <= MAX_STATE_FILE_SIZE {
      assert Enabled(names, s, x, Write(NaiveEvict(x.memory)));
    }
  }

  /** An action an unblocked process can take without giving up, unless it is to write what no eviction makes fit. */
  ghost function NextAction(names: Names, x: Process): Action {
    match x.pc
    case Idle => Start(x.job)
    case WaitWorkflow => TakeWorkflow
    case WaitLoad => TakeStateToLoad
    case Loading => ReadRecord
    case Validating =>
      if StartDefectOf(x.copy).Some? then Refuse
      else if Replay(x.copy, HashOf(names, x.job)).Some? then Answer
      else Proceed
    case WaitScratch => TakeScratch
    case Sweeping => if x.tried.Some? then DropOther else EndSweep
    case InTurn => FinishTurn(SomeTurn(names, x.job, x.copy))
    case WaitSave => TakeStateToSave
    case Reconciling => Reread
    case Writing =>
      if EncodedSize(WithoutHistory(x.memory)) <= MAX_STATE_FILE_SIZE then Write(NaiveEvict(x.memory)) else GiveUp
    case ClosingScratch => DropScratch
    case Closing => DropWorkflow
  }

  lemma NextActionEnabled(names: Names, s: System, x: Process)
    requires x.pc != Idle && JobOk(names, x.job)
    requires x.pc == InTurn ==> CopyOk(s.saves, x.job.key, x.copy) && NextRound(x.copy) <= MAX_INT
    requires Wanted(names, x).Some? ==> Wanted(names, x).value !in s.locks
    ensures Enabled(names, s, x, NextAction(names, x))
  {
    hide EncodedSize, TurnValid, StartDefectOf, EvictedFrom, NaiveEvict, SomeTurn, Replay, HashOf, JobOk;
    if x.pc == InTurn {
      SomeTurnValid(names, s.saves, x.job, x.copy);
    }
    if x.pc == Writing {
      WriteEnabledWhen(names, s, x);
    }
  }

  /** The two actions that do not go on, and when they are taken. */
  lemma NextActionGoesOn(names: Names, s: System, x: Process)
    requires x.pc != Idle
    ensures var a := NextAction(names, x);
            && !a.Crash? && !a.Start?
            && (a.Refuse? ==> x.pc == Validating && StartDefectOf(x.copy).Some?)
            && (a.GiveUp? ==> x.pc == Writing && forall saved :: !Enabled(names, s, x, Write(saved)))
  {
    hide EncodedSize, StartDefectOf, NaiveEvict, WithoutHistory, SomeTurn, Replay, HashOf, Enabled;
    if x.pc == Writing {
      WriteEnabledWhen(names, s, x);
    }
  }

  /**
   Progress without timeouts: as long as any review runs, some running review
   is not blocked, and it has a step to take that is neither a crash nor an
   error return, unless its round cannot be counted any further or it is to
   write a ledger no eviction makes fit.
   */
  lemma SomeoneCanProceed(names: Names, states: seq<System>, i: nat, p: Pid) returns (q: Pid, a: Action)
    requires Run(names, states) && i < |states| && ProcOf(states[i], p).pc != Idle
    ensures ProcOf(states[i], q).pc != Idle && !a.Crash? && !a.Start?
    ensures Enabled(names, states[i], ProcOf(states[i], q), a)
    ensures a.Refuse? ==> ProcOf(states[i], q).copy.known && ProcOf(states[i], q).copy.before.round == MAX_INT
    ensures a.GiveUp? ==>
              ProcOf(states[i], q).pc == Writing
              && forall saved :: !Enabled(names, states[i], ProcOf(states[i], q), Write(saved))
  {
    hide Run, Inv, StartDefectOf, CopyOk, DoneOk, Reconciled, SomeTurn, Replay, JobOk, EncodedSize, NaiveEvict, Enabled;
    hide WithoutHistory, HashOf, NextAction;
    RunKeepsInv(names, states, i);
    var s := states[i];
    q := FollowWaits(names, s, p);
    var x := ProcOf(s, q);
    ProcessKnows(names, states, i, q);
    NextActionEnabled(names, s, x);
    NextActionGoesOn(names, s, x);
    a := NextAction(names, x);
    if a.Refuse? {
      StartRefusesOnlyExhaustedRounds(names, states, i, q);
    }
  }

  // ----- whose review is replayed -----

  lemma {:induction false} RunKeepsRequests(names: Names, states: seq<System>, i: nat)
    requires Run(names, states) && i < |states|
    ensures RequestsOk(names, states[i])
  {
    if i == 0 {
      assert forall p :: ProcOf(states[0], p) == NOT_RUNNING;
    } else {
      RunKeepsRequests(names, states, i - 1);
      assert Steps(names, states[i - 1], states[i - 1 + 1]);
      hide RequestsOk, Next, Run;
      var p, a :| Next(names, states[i - 1], p, a, states[i]);
      StepKeepsRequests(names, states[i - 1], p, a, states[i]);
    }
  }

  /**
   Under a hash without collisions, a review in any run is answered from the
   record exactly when the last review saved for its workflow was made for
   the very same request, and the answer is what that review's turn gave.
   */
  lemma AnsweredExactlyWhenAskedLast(names: Names, states: seq<System>, i: nat, p: Pid)
    requires Run(names, states) && i < |states| && CollisionFree(names.hash)
    requires ProcOf(states[i], p).pc == Validating && StartDefectOf(ProcOf(states[i], p).copy).None?
    ensures var s, x := states[i], ProcOf(states[i], p); var ms := MadeOf(s.made, x.job.key);
            && (Enabled(names, s, x, Answer) <==> ms != [] && ms[|ms| - 1].request == x.job.request)
            && (Enabled(names, s, x, Answer) ==>
                  x.copy.before.round == |ms| && GivenBy(x.copy.before, ms[|ms| - 1].turn))
  {
    hide StartDefectOf, Replay, HashOf, Run, Carries, GivenBy, IsObjectId, RecordMatches;
    ProcessKnows(names, states, i, p);
    SavesCarryRequests(names, states, i, ProcOf(states[i], p).job.key);
    var x := ProcOf(states[i], p);
    hide ProcessOk;
    CopyAnswers(names, x.copy, x.job, SavesOf(states[i].saves, x.job.key), MadeOf(states[i].made, x.job.key));
  }

  /** What the invariants say of one process. */
  lemma ProcessKnows(names: Names, states: seq<System>, i: nat, p: Pid)
    requires Run(names, states) && i < |states|
    ensures ProcessOk(states[i].file, states[i].saves, ProcOf(states[i], p)) && RequestOk(names, ProcOf(states[i], p))
    ensures HasCopy(ProcOf(states[i], p).pc) ==>
            CopyOk(states[i].saves, ProcOf(states[i], p).job.key, ProcOf(states[i], p).copy)
  {
    RunKeepsInv(names, states, i);
    RunKeepsRequests(names, states, i);
    hide Run, RequestOk, MadeOk, LocksMatch, SweepsOk, LedgerOk, CopyOk, DoneOk;
    assert ProcessOk(states[i].file, states[i].saves, ProcOf(states[i], p)) && RequestOk(names, ProcOf(states[i], p));
  }

  lemma SavesCarryRequests(names: Names, states: seq<System>, i: nat, key: string)
    requires Run(names, states) && i < |states|
    ensures Carries(names, SavesOf(states[i].saves, key), MadeOf(states[i].made, key))
    ensures key in states[i].saves ==> states[i].saves[key] == SavesOf(states[i].saves, key)
  {
    RunKeepsRequests(names, states, i);
    hide Run, RequestOk;
  }

  /** For one copy: it answers exactly the request its last save was made for, with what that save's turn gave. */
  lemma CopyAnswers(names: Names, c: Copy, job: Job, saves: seq<Workflow>, ms: seq<Made>)
    requires CollisionFree(names.hash) && HoldableRequest(job.request) && Carries(names, saves, ms)
    requires if c.known then RecordMatches(c.before, saves) else saves == []
    ensures Replay(c, HashOf(names, job)).Some? <==> ms != [] && ms[|ms| - 1].request == job.request
    ensures Replay(c, HashOf(names, job)).Some? ==> c.before.round == |ms| && GivenBy(c.before, ms[|ms| - 1].turn)
  {
    hide RecordMatches, Stream, HoldableRequest;
    if c.known {
      LastSaveIsCopied(names, c.before, saves, ms);
      hide Replay, Carries;
      ReplayAnswersOnlyTheSameRequest(names.hash, c, ms[|ms| - 1].request, job.request);
    }
  }

  /** The record holds what the turn gave. */
  predicate GivenBy(w: Workflow, t: Turn) {
    w.threadId == t.threadId && w.lastReview == t.review && w.lastWarnings == t.warnings && w.lastUsage == t.usage
  }

  lemma LastSaveIsCopied(names: Names, w: Workflow, saves: seq<Workflow>, ms: seq<Made>)
    requires RecordMatches(w, saves) && Carries(names, saves, ms)
    ensures ms != [] && w.round == |ms| && IsOf(names, w, ms[|ms| - 1])
  {
    MatchingRecordIsSound(w, saves);
    CompletedAgrees(w, saves[|saves| - 1]);
    assert IsOf(names, saves[|saves| - 1], ms[|ms| - 1]);
    assert w == w.Completed().(history := w.history) && w.Completed() == saves[|saves| - 1];
    hide Stream, HoldableRequest, SavesOk, CleanHistory;
  }

  // ----- what the records are of -----

  /**
   In every run each saved round is of the commit and base of the request it
   was made for, and holds the thread, review, warnings and usage its turn
   gave: the record that replaced the file, not only one that looks complete.
   */
  lemma SavedRoundsAreOfTheirTurns(names: Names, states: seq<System>, i: nat, key: string, j: nat)
    requires Run(names, states) && i < |states| && key in states[i].saves && j < |states[i].saves[key]|
    ensures key in states[i].made && |states[i].made[key]| == |states[i].saves[key]|
    ensures var w, r, t := states[i].saves[key][j], states[i].made[key][j].request, states[i].made[key][j].turn;
            && w.lastCommit == names.text(r.commit) && w.lastBase == names.text(r.base)
            && w.lastRequestHash == names.hash(Stream(r))
            && GivenBy(w, t)
  {
    RunKeepsRequests(names, states, i);
    hide Run, RequestOk, Stream;
    assert Carries(names, states[i].saves[key], states[i].made[key]);
    assert IsOf(names, states[i].saves[key][j], states[i].made[key][j]);
  }

  /**
   An entry of the prompt's history is of the round's request, and holds its
   verdict unless that is too large to keep.
   */
  ghost predicate EntryOf(names: Names, e: HistoryRecord, m: Made) {
    && e.commit == names.text(m.request.commit) && e.base == names.text(m.request.base) && e.usage == m.turn.usage
    && if ByteLen(m.turn.review) > MAX_HISTORY_RECORD_BYTES then e.review == "" && e.omitted == OMITTED_TOO_LARGE
       else e.review == m.turn.review && e.omitted == ""
  }

  lemma RecordIsEntry(names: Names, w: Workflow, m: Made)
    requires IsOf(names, w, m)
    ensures EntryOf(names, RecordOf(w), m)
  {
    hide Stream, HoldableRequest, ByteLen;
  }

  /** A workflow's prompt omits the first rounds by count and has an entry of each other one, in order. */
  ghost predicate HistoryIsOf(names: Names, wf: Workflow, ms: seq<Made>) {
    var h := PromptHistory(wf);
    && OmittedRounds(wf) + |h| == |ms|
    && forall j | 0 <= j < |h| ::
         h[j].round == OmittedRounds(wf) + 1 + j && 1 <= h[j].round <= |ms| && EntryOf(names, h[j], ms[h[j].round - 1])
  }

  /** The prompt's history of round n is of the n-th request asked and the n-th turn taken. */
  lemma PromptIsOfTheTurns(names: Names, states: seq<System>, i: nat, p: Pid)
    requires Run(names, states) && i < |states|
    requires HasCopy(ProcOf(states[i], p).pc) && ProcOf(states[i], p).copy.known
    ensures var x := ProcOf(states[i], p); HistoryIsOf(names, x.copy.before, MadeOf(states[i].made, x.job.key))
  {
    var wf, key := ProcOf(states[i], p).copy.before, ProcOf(states[i], p).job.key;
    hide Run, HasCopy, PromptAccountsForEveryRound, QuotesTheSavedRounds, Carries, HistoryIsOf;
    PromptQuotesTheSavedRounds(names, states, i, p);
    SavesCarryRequests(names, states, i, key);
    hide ProcOf, MadeOf;
    HistoryIsOfTheTurns(names, wf, states[i].saves[key], MadeOf(states[i].made, key));
  }

  lemma HistoryIsOfTheTurns(names: Names, wf: Workflow, saves: seq<Workflow>, ms: seq<Made>)
    requires PromptAccountsForEveryRound(wf) && QuotesTheSavedRounds(wf, saves) && wf.round == |saves|
    requires Carries(names, saves, ms)
    ensures HistoryIsOf(names, wf, ms)
  {
    hide PromptHistory, OmittedRounds, RecordOf, EntryOf, IsOf;
    var h := PromptHistory(wf);
    forall j | 0 <= j < |h|
      ensures 1 <= h[j].round <= |ms| && EntryOf(names, h[j], ms[h[j].round - 1])
    {
      assert h[j] == RecordOf(saves[h[j].round - 1]);
      RecordIsEntry(names, saves[h[j].round - 1], ms[h[j].round - 1]);
    }
  }

  /** What is read from a prompt is of the round's request, and its verdict that of the turn less trailing newlines. */
  ghost predicate ReadOf(names: Names, found: Quotation.Recovered, m: Made) {
    && found.commit == names.text(m.request.commit) && found.base == names.text(m.request.base)
    && if ByteLen(m.turn.review) > MAX_HISTORY_RECORD_BYTES then found.verdict.None?
       else found.verdict.Some? && Quotation.LessNewlines(m.turn.review, found.verdict.value)
  }

  lemma EntryIsRead(names: Names, found: Quotation.Recovered, e: HistoryRecord, m: Made)
    requires Quotation.Tells(found, e) && EntryOf(names, e, m) && m.turn.review != ""
    ensures ReadOf(names, found, m)
  {
    hide Quotation.LessNewlines, ByteLen;
  }

  /**
   From the turns to the prompt and back: in every run, what a prompt quotes
   of the earlier rounds reads back, whatever the verdicts contain, as one
   round after another up to the last, each with the commit and base asked
   for and the verdict its turn gave, of which only trailing newlines may be
   missing, or without one where that is too large to keep.
   */
  lemma PromptReadsBackTheTurns(
    names: Names, states: seq<System>, i: nat, p: Pid, w: Quotation.Wording, digests: Quotation.Digests, rest: string)
    requires Run(names, states) && i < |states|
    requires HasCopy(ProcOf(states[i], p).pc) && ProcOf(states[i], p).copy.known
    requires w.Valid() && Quotation.DigestsOk(digests)
    requires Quotation.Starts(rest, "\n") && !Quotation.Starts(rest, Quotation.ROUND)
    ensures var wf := ProcOf(states[i], p).copy.before;
            forall j | 0 <= j < |PromptHistory(wf)| :: PromptHistory(wf)[j].round >= 0
    ensures var wf := ProcOf(states[i], p).copy.before; var ms := MadeOf(states[i].made, ProcOf(states[i], p).job.key);
            var read := Quotation.ReadHistory(Quotation.HistoryText(w, digests, PromptHistory(wf)) + rest);
            && read.rest == rest && OmittedRounds(wf) >= 0 && OmittedRounds(wf) + |read.rounds| == |ms|
            && forall j | 0 <= j < |read.rounds| ::
                 read.rounds[j].round == OmittedRounds(wf) + 1 + j
                 && ReadOf(names, read.rounds[j], ms[OmittedRounds(wf) + j])
  {
    hide Run, RecordMatches, Quotation.Wording.Valid, Quotation.DigestsOk, Quotation.ReadHistory, Quotation.HistoryText;
    hide Quotation.Starts, PromptHistory, OmittedRounds, HasCopy, HistoryIsOf, ReadOf;
    var wf, key := ProcOf(states[i], p).copy.before, ProcOf(states[i], p).job.key;
    KnownCopyMatches(names, states, i, p);
    TurnsHaveReviews(names, states, i, key);
    PromptIsOfTheTurns(names, states, i, p);
    HistoryReadsAsTheTurns(names, wf, states[i].saves[key], MadeOf(states[i].made, key), w, digests, rest);
  }

  lemma HistoryReadsAsTheTurns(
    names: Names, wf: Workflow, saves: seq<Workflow>, ms: seq<Made>, w: Quotation.Wording, digests: Quotation.Digests,
    rest: string)
    requires RecordMatches(wf, saves) && HistoryIsOf(names, wf, ms)
    requires forall j | 0 <= j < |ms| :: ms[j].turn.review != ""
    requires w.Valid() && Quotation.DigestsOk(digests)
    requires Quotation.Starts(rest, "\n") && !Quotation.Starts(rest, Quotation.ROUND)
    ensures forall j | 0 <= j < |PromptHistory(wf)| :: PromptHistory(wf)[j].round >= 0
    ensures var read := Quotation.ReadHistory(Quotation.HistoryText(w, digests, PromptHistory(wf)) + rest);
            && read.rest == rest && OmittedRounds(wf) >= 0 && OmittedRounds(wf) + |read.rounds| == |ms|
            && forall j | 0 <= j < |read.rounds| ::
                 read.rounds[j].round == OmittedRounds(wf) + 1 + j
                 && ReadOf(names, read.rounds[j], ms[OmittedRounds(wf) + j])
  {
    hide RecordMatches, Quotation.Wording.Valid, Quotation.DigestsOk, Quotation.ReadHistory, Quotation.HistoryText;
    hide Quotation.Starts, Quotation.Tells, PromptHistory, OmittedRounds, EntryOf, ReadOf, Complete, CleanHistory,
         InvalidHistory;
    MatchingRecordIsSound(wf, saves);
    Quotation.PromptReadsBack(w, digests, wf, rest);
    assert OmittedRounds(wf) >= 0 by { assert PromptHistory(wf)[0].round >= 1; }
    var read := Quotation.ReadHistory(Quotation.HistoryText(w, digests, PromptHistory(wf)) + rest);
    forall j | 0 <= j < |read.rounds|
      ensures ReadOf(names, read.rounds[j], ms[OmittedRounds(wf) + j])
    {
      EntryIsRead(names, read.rounds[j], PromptHistory(wf)[j], ms[OmittedRounds(wf) + j]);
    }
  }

  /** No turn without a review was ever saved. */
  lemma TurnsHaveReviews(names: Names, states: seq<System>, i: nat, key: string)
    requires Run(names, states) && i < |states| && key in states[i].saves
    ensures forall j | 0 <= j < |MadeOf(states[i].made, key)| :: MadeOf(states[i].made, key)[j].turn.review != ""
  {
    RunKeepsInv(names, states, i);
    SavesCarryRequests(names, states, i, key);
    hide Run, EncodedSize, ProcessesOk, LocksMatch, SweepsOk;
    var saves := states[i].saves[key];
    assert RecordMatches(Decoded(states[i].file).workflows[key], saves);
    SavedReviews(names, saves, MadeOf(states[i].made, key));
  }

  lemma SavedReviews(names: Names, saves: seq<Workflow>, ms: seq<Made>)
    requires SavesOk(saves) && Carries(names, saves, ms)
    ensures forall j | 0 <= j < |ms| :: ms[j].turn.review != ""
  {
    hide Stream, HoldableRequest;
    forall j | 0 <= j < |ms|
      ensures ms[j].turn.review != ""
    {
      assert Complete(saves[j]) && IsOf(names, saves[j], ms[j]);
    }
  }

  // ----- the protocol's write and the code's save -----

  /**
   saveEvictingHistory, run under the state lock by a reconciled process, is
   one write step of the protocol or no write at all, whatever the fault and
   however long the context lives.
   */
  lemma SaveIsOneWriteOrNone(names: Names, s: System, x: Process, fault: Fault, polls: Polls)
    requires x.pc == Writing
    ensures var after := FileAfter(true, s.file, x.memory, fault, polls);
            || after == s.file
            || exists saved :: Enabled(names, s, x, Write(saved)) && after == NextFile(s.file, Write(saved))
  {
    hide EncodedSize, Settle, EvictedFrom;
    SettleIsSound(x.memory, polls);
    var end := Settle(x.memory, polls);
    if end.Fits? {
      assert Enabled(names, s, x, Write(end.state));
    }
  }

  /**
   In every run the save of a reconciled review reports success exactly when
   nothing fails on the disk, the naive eviction policy reaches a state that
   fits, and the context lets by as many evictions as that takes; the file
   then holds that state.
   */
  lemma SavesSucceedExactlyWhen(names: Names, states: seq<System>, i: nat, p: Pid, fault: Fault, polls: Polls)
    requires Run(names, states) && i < |states| && ProcOf(states[i], p).pc == Writing
    ensures var memory := ProcOf(states[i], p).memory;
            var after := FileAfter(true, states[i].file, memory, fault, polls);
            && (SaveOutcome(true, memory, fault, polls) == None <==> fault == NoFault && WillFit(memory, polls))
            && (SaveOutcome(true, memory, fault, polls) == None ==> after == Encoded(NaiveEvict(memory)))
  {
    var memory := ProcOf(states[i], p).memory;
    SavesStartClean(names, states, i, p);
    hide EncodedSize, NaiveEvict, AllClean, WellEstimated, Settle, Run, WillFit;
    CleanIsWellEstimated(memory);
    SettleFitsExactlyWhen(memory, polls);
  }

  /**
   In every run the whole of a final save, from the file as its state lock
   finds it, fails and yet leaves the finished review recorded exactly when
   the lock is taken, the naive eviction policy reaches a state that fits
   within the context's life, and the sync of the directory is what fails.
   */
  lemma ReviewsFailButRecordWhen(
    names: Names, states: seq<System>, i: nat, p: Pid, locked: bool, fault: Fault, polls: Polls)
    requires Run(names, states) && i < |states| && ProcOf(states[i], p).pc == Reconciling
    ensures var s, x := states[i], ProcOf(states[i], p);
            var a := Attempt(locked, s.file, x.job.key, x.copy, RecordOf(x.copy.before), x.done, fault, polls);
            && Reconciled(s.file, x).Ready?
            && (a.Outcome().Some? && NewlyRecorded(a) <==>
                  locked && WillFit(Reconciled(s.file, x).workflows, polls) && fault == DirectorySync)
  {
    var s, x := states[i], ProcOf(states[i], p);
    var a := Attempt(locked, s.file, x.job.key, x.copy, RecordOf(x.copy.before), x.done, fault, polls);
    hide Run, EncodedSize, NaiveEvict, AllClean, Settle, WillFit, NewlyRecorded;
    ReconciledIsClean(names, states, i, p);
    DoneIsNextRound(names, states, i, p);
    FailsButRecordsWhen(a);
    if locked {
      FittingWhenClean(a);
    }
  }
}
