/**
 The two ends of a review's work on the state file (loadWorkflow, the checks
 at the start of review, replay, and saveCompleted in
 internal/review/review.go).
 */
module Completion {
  import opened Text
  import opened Json
  import opened Ledger
  import opened LedgerEncoding
  import opened StateFile
  import opened Eviction

  /** One workflow's record as copied under the state lock: before is meaningful only when known. */
  datatype Copy = Copy(known: bool, before: Workflow)

  function CopyOf(m: Workflows, key: string): Copy {
    if key in m then Copy(true, m[key]) else Copy(false, Workflow("", "", "", "", 0, "", [], None, []))
  }

  datatype LoadedCopy = CopyFailed(error: LoadError) | CopyLoaded(copy: Copy)

  method LoadWorkflow(store: Store, key: string) returns (r: LoadedCopy)
    modifies store
    ensures store.loaded == r.CopyLoaded?
    ensures match Decoded(store.disk.content)
            case Loaded(m) => r == CopyLoaded(CopyOf(m, key))
            case LoadFailed(error) => r == CopyFailed(error)
  {
    var loaded := store.Load();
    match loaded
    case LoadFailed(error) =>
      r := CopyFailed(error);
    case Loaded(m) =>
      r := CopyLoaded(CopyOf(m, key));
  }

  datatype StartDefect = Incomplete(field: MissingField) | BadHistory(defect: HistoryDefect) | RoundExhausted

  /** What a review refuses in a stored record before it does anything else with it. */
  function StartDefectOf(c: Copy): Option<StartDefect> {
    if !c.known then None
    else if IncompleteWorkflowField(c.before).Some? then Some(Incomplete(IncompleteWorkflowField(c.before).value))
    else if InvalidHistory(c.before).Some? then Some(BadHistory(InvalidHistory(c.before).value))
    else if c.before.round >= MAX_INT then Some(RoundExhausted)
    else None
  }

  /** A review starts only from no record, or from a complete one with a sound history and a round after it. */
  lemma StartsExactlyWhen(c: Copy)
    ensures StartDefectOf(c) == None <==>
            (c.known ==> Complete(c.before) && InvalidHistory(c.before) == None && c.before.round < 9223372036854775807)
  {
  }

  /** replay: the stored review answers a request with the stored hash. */
  function Replay(c: Copy, hash: string): Option<Workflow> {
    if !c.known || hash == "" || c.before.lastRequestHash != hash then None else Some(c.before)
  }

  /** The round a new turn is for. */
  function NextRound(c: Copy): int {
    (if c.known then c.before.round else 0) + 1
  }

  datatype Reconciliation = Changed | HistoryBroken(defect: HistoryDefect) | Ready(workflows: Workflows)

  /**
   The reconciliation of saveCompleted: current is the state just re-read.
   The replay fields must be those of the copy; the history is rebuilt from
   the fresh record, whatever another review evicted from it meanwhile.
   */
  function Reconcile(
    current: Workflows, key: string, c: Copy, previous: HistoryRecord, done: Workflow): Reconciliation
  {
    if (key in current) != c.known || (c.known && !current[key].SameReplayFields(c.before)) then Changed
    else if !c.known then Ready(current[key := done])
    else if InvalidHistory(current[key]).Some? then HistoryBroken(InvalidHistory(current[key]).value)
    else Ready(current[key := done.(history := Retained(current[key].history, previous, done.lastReview))])
  }

  datatype CompletionError =
    | LockUnavailable
    | CannotLoad(error: LoadError)
    | NotReconciled(why: Reconciliation)
    | NotSaved(cause: EvictError)

  /**
   What saveCompleted is called with and what befalls it: whether the lock
   comes in time, what the file holds, the disk's fault, the context's life.
   */
  datatype Attempt = Attempt(
    locked: bool, file: FileContent, key: string, copy: Copy, previous: HistoryRecord, done: Workflow,
    fault: Fault, polls: Polls)
  {
    function Reconciled(): Reconciliation
      requires Decoded(file).Loaded?
    {
      Reconcile(Decoded(file).workflows, key, copy, previous, done)
    }

    /** The call gets as far as saving. */
    predicate ReachesSave() {
      locked && Decoded(file).Loaded? && Reconciled().Ready?
    }

    ghost function Outcome(): Option<CompletionError> {
      if !locked then Some(LockUnavailable)
      else if Decoded(file).LoadFailed? then Some(CannotLoad(Decoded(file).error))
      else if !Reconciled().Ready? then Some(NotReconciled(Reconciled()))
      else
        match SaveOutcome(true, Reconciled().workflows, fault, polls)
        case None => None
        case Some(cause) => Some(NotSaved(cause))
    }

    ghost function After(): FileContent {
      if ReachesSave() then FileAfter(true, file, Reconciled().workflows, fault, polls) else file
    }

    /** The last state tried is one that fits. */
    ghost predicate Fitting() {
      ReachesSave() && Settle(Reconciled().workflows, polls).Fits?
    }
  }

  /** saveCompleted, from the acquisition of the state lock on. */
  method SaveCompleted(
    store: Store, key: string, c: Copy, previous: HistoryRecord, done: Workflow,
    locked: bool, fault: Fault, polls: Polls)
    returns (e: Option<CompletionError>)
    modifies store, store.disk
    ensures var a := Attempt(locked, old(store.disk.content), key, c, previous, done, fault, polls);
            e == a.Outcome() && store.disk.content == a.After()
  {
    hide EncodedSize, Settle;
    if !locked {
      return Some(LockUnavailable);
    }
    var loaded := store.Load();
    if loaded.LoadFailed? {
      return Some(CannotLoad(loaded.error));
    }
    var st := new State(loaded.workflows);
    var mine := st.Get(key);
    if mine.Some? != c.known || (c.known && !mine.value.SameReplayFields(c.before)) {
      return Some(NotReconciled(Changed));
    }
    var record := done;
    if c.known {
      var bad := InvalidHistory(mine.value);
      if bad.Some? {
        return Some(NotReconciled(HistoryBroken(bad.value)));
      }
      var h := RetainHistory(mine.value.history, previous, done.lastReview);
      record := done.(history := h);
    }
    st.Put(key, record);
    assert Reconcile(loaded.workflows, key, c, previous, done) == Ready(st.workflows);
    var end := SaveEvictingHistory(store, st, fault, polls);
    e := if end.None? then None else Some(NotSaved(end.value));
  }

  /**
   A reconciliation succeeds exactly when the record for the key is as it was
   copied, but for its usage and its history, and that history is sound; or
   when there was none then and there is none now.
   */
  lemma ReconciledExactlyWhen(
    current: Workflows, key: string, c: Copy, previous: HistoryRecord, done: Workflow)
    ensures Reconcile(current, key, c, previous, done).Ready? <==>
            if c.known then
              && key in current && InvalidHistory(current[key]) == None
              && current[key] == c.before.(lastUsage := current[key].lastUsage, history := current[key].history)
            else key !in current
  {
    hide InvalidHistory, Retained;
  }

  // ----- what an error tells of the file -----

  /** A file that is off limits is never replaced, and the call says so. */
  lemma OffLimitsStays(a: Attempt)
    requires OffLimits(a.file)
    ensures a.After() == a.file && a.Outcome().Some?
    ensures a.locked ==> a.Outcome().value.CannotLoad?
  {
    LoadsExactlyWhen(a.file);
  }

  /** The file loads, and holds the round's record for its key. */
  predicate Records(file: FileContent, key: string, done: Workflow) {
    && Decoded(file).Loaded?
    && key in Decoded(file).workflows && Decoded(file).workflows[key].Completed() == done.Completed()
  }

  /** The call brings the new record to the file. */
  ghost predicate NewlyRecorded(a: Attempt) {
    !Records(a.file, a.key, a.done) && Records(a.After(), a.key, a.done)
  }

  /** A record that passes reconciliation is of a round the file does not have yet. */
  lemma ReconciledIsNew(a: Attempt)
    requires a.done.round == NextRound(a.copy) && a.ReachesSave()
    ensures !Records(a.file, a.key, a.done)
  {
    var m := Decoded(a.file).workflows;
    if a.key in m {
      assert m[a.key].Completed().round == a.copy.before.round;
    }
  }

  /** The new record reaches the file exactly when a state that fits is written and its rename takes effect. */
  lemma RecordedWhen(a: Attempt)
    requires a.done.round == NextRound(a.copy)
    ensures NewlyRecorded(a) <==> a.Fitting() && a.fault != BeforeRename
  {
    hide EncodedSize, Settle;
    if a.ReachesSave() {
      ReconciledIsNew(a);
    }
    if a.Fitting() && a.fault != BeforeRename {
      var m := a.Reconciled().workflows;
      SettleIsSound(m, a.polls);
      SavedFileLoads(Settle(m, a.polls).state);
    }
  }

  /** Success is exactly a fault-free save of a state that fits; it leaves the record in the file. */
  lemma SucceedsWhen(a: Attempt)
    ensures a.Outcome() == None <==> a.Fitting() && a.fault == NoFault
    ensures a.Outcome() == None ==> Records(a.After(), a.key, a.done)
  {
    hide EncodedSize, Settle;
    if a.Fitting() {
      var m := a.Reconciled().workflows;
      SettleIsSound(m, a.polls);
      SavedFileLoads(Settle(m, a.polls).state);
    }
  }

  /**
   An error does not mean the review went unsaved: the call fails and yet the
   new record is in the file exactly when the lock was taken, the load and
   the reconciliation succeeded, the last state tried fits, and the one
   thing to fail was the sync of the directory.
   */
  lemma FailsButRecordsWhen(a: Attempt)
    requires a.done.round == NextRound(a.copy)
    ensures a.Outcome().Some? && NewlyRecorded(a) <==> a.Fitting() && a.fault == DirectorySync
  {
    hide EncodedSize, Settle, NewlyRecorded;
    RecordedWhen(a);
    SucceedsWhen(a);
  }

  /**
   A save refused as too large tells the size the ledger has without any
   history, for the loop has given up all there was; the file stays.
   */
  lemma TooLargeTellsTheBareSize(a: Attempt, size: nat, limit: nat)
    requires a.Outcome() == Some(NotSaved(SaveFailed(TooLarge(size, limit))))
    ensures a.After() == a.file && a.ReachesSave()
    ensures size == EncodedSize(WithoutHistory(a.Reconciled().workflows)) > limit == 16 * 1024 * 1024
  {
    hide EncodedSize, Settle;
    var m := a.Reconciled().workflows;
    SettleIsSound(m, a.polls);
    var v := Settle(m, a.polls).state;
    forall k | k in m
      ensures v[k] == m[k].Completed()
    {
      assert v[k].history == [];
      assert v[k].Completed() == m[k].Completed();
    }
    assert v == WithoutHistory(m);
  }

  /** A save is cancelled only by the end of its context, and the file stays. */
  lemma CancelledByContext(a: Attempt)
    requires a.Outcome() == Some(NotSaved(Cancelled))
    ensures a.After() == a.file && a.ReachesSave() && a.polls.Some?
  {
    hide EncodedSize, Settle;
    SettleIsSound(a.Reconciled().workflows, a.polls);
  }

  /** With clean histories, whether the last state tried fits can be told before the call. */
  lemma FittingWhenClean(a: Attempt)
    requires a.ReachesSave() && AllClean(a.Reconciled().workflows)
    ensures a.Fitting() <==> WillFit(a.Reconciled().workflows, a.polls)
    ensures a.Fitting() && a.fault != BeforeRename ==> a.After() == Encoded(NaiveEvict(a.Reconciled().workflows))
  {
    hide EncodedSize, Settle, AllClean, WellEstimated, WillFit;
    CleanIsWellEstimated(a.Reconciled().workflows);
    SettleFitsExactlyWhen(a.Reconciled().workflows, a.polls);
  }

  // ----- one such call -----

  function ZeroId(): string {
    seq(40, _ => '0')
  }

  const SMALL_RECORD := Workflow("t", ZeroId(), ZeroId(), "h", 1, "r", [], None, [])

  lemma SmallRecordNames()
    ensures QuotedSize(THREAD_ID) == 11 && QuotedSize(LAST_COMMIT) == 13 && QuotedSize(LAST_BASE) == 11
    ensures QuotedSize(LAST_REQUEST_HASH) == 19 && QuotedSize(ROUND) == 7 && QuotedSize(LAST_REVIEW) == 13
  {
    PlainSize(THREAD_ID);
    PlainSize(LAST_COMMIT);
    PlainSize(LAST_BASE);
    PlainSize(LAST_REQUEST_HASH);
    PlainSize(ROUND);
    PlainSize(LAST_REVIEW);
  }

  lemma SmallRecordTexts()
    ensures QuotedSize("t") == 3 && QuotedSize("h") == 3 && QuotedSize("r") == 3 && QuotedSize(ZeroId()) == 42
  {
    PlainSize("t");
    PlainSize("h");
    PlainSize("r");
    PlainSize(ZeroId());
  }

  lemma StrFieldSize(name: string, text: string)
    ensures FieldSize(Field(name, Str(text)), 2) == 10 + QuotedSize(name) + QuotedSize(text)
    ensures FieldSize(Field(name, Number(1)), 2) == 11 + QuotedSize(name)
  {
  }

  lemma SmallFieldSizes()
    ensures FieldSize(Field(THREAD_ID, Str("t")), 2) <= 70 && FieldSize(Field(LAST_COMMIT, Str(ZeroId())), 2) <= 70
    ensures FieldSize(Field(LAST_BASE, Str(ZeroId())), 2) <= 70
            && FieldSize(Field(LAST_REQUEST_HASH, Str("h")), 2) <= 70
    ensures FieldSize(Field(ROUND, Number(1)), 2) <= 70 && FieldSize(Field(LAST_REVIEW, Str("r")), 2) <= 70
  {
    SmallRecordNames();
    SmallRecordTexts();
    hide QuotedSize, ZeroId, FieldSize;
    StrFieldSize(THREAD_ID, "t");
    StrFieldSize(LAST_COMMIT, ZeroId());
    StrFieldSize(LAST_BASE, ZeroId());
    StrFieldSize(LAST_REQUEST_HASH, "h");
    StrFieldSize(ROUND, "");
    StrFieldSize(LAST_REVIEW, "r");
  }

  predicate Slight(f: Field) {
    FieldSize(f, 2) <= 70
  }

  lemma {:induction false} SlightFields(fs: seq<Field>)
    requires forall i | 0 <= i < |fs| :: Slight(fs[i])
    ensures FieldsSize(fs, 2) <= 70 * |fs|
  {
    hide FieldSize;
    if fs != [] {
      SlightFields(fs[1..]);
      FieldsSizePeel(fs, 2);
      assert Slight(fs[0]);
    }
  }

  lemma SmallRecordIsSlight()
    ensures |CompletedFields(SMALL_RECORD)| == 6
    ensures forall i | 0 <= i < 6 :: Slight(CompletedFields(SMALL_RECORD)[i])
  {
    SmallFieldSizes();
    hide FieldSize, ZeroId;
  }

  lemma SmallRecordSize(key: string)
    ensures EntrySize(key, SMALL_RECORD) <= 438 + QuotedSize(key)
  {
    SmallRecordIsSlight();
    hide CompletedFields, Slight, FieldsSize, EntrySize, ZeroId, QuotedSize;
    SlightFields(CompletedFields(SMALL_RECORD));
    EntrySizeSplit(key, SMALL_RECORD);
    assert HistoryFieldSize([]) == 0 by { assert HistoryField([]) == []; NoFields(); }
  }

  lemma NoFields()
    ensures FieldsSize([], 2) == 0
  {
  }

  lemma SmallLedgerFits()
    ensures EncodedSize(map["w" := SMALL_RECORD]) <= MAX_STATE_FILE_SIZE
  {
    var m: Workflows := map["w" := SMALL_RECORD];
    EntriesSizeRemove(m, "w");
    assert m - {"w"} == map[];
    PlainSize("w");
    SmallRecordSize("w");
    hide QuotedSize, EntrySize, CompletedFields, ZeroId;
  }

  /** A first review, saved to a ledger that does not exist yet, when only the sync of the directory fails. */
  const SYNC_FAILURE := Attempt(
    true, Absent, "w", Copy(false, SMALL_RECORD), RecordOf(SMALL_RECORD), SMALL_RECORD, DirectorySync, None)

  lemma SyncFailureRecords()
    ensures SYNC_FAILURE.Outcome() == Some(NotSaved(SaveFailed(WriteFailed)))
    ensures SYNC_FAILURE.After() == Encoded(map["w" := SMALL_RECORD])
    ensures NewlyRecorded(SYNC_FAILURE)
  {
    var m: Workflows := map["w" := SMALL_RECORD];
    SmallLedgerFits();
    hide EncodedSize, InvalidHistory, Retained, ZeroId;
    assert SYNC_FAILURE.Reconciled() == Ready(m);
    assert Settle(m, None) == Fits(m);
    SavedFileLoads(m);
  }
}
