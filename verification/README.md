# Counterpoint: a verified model

Counterpoint runs review rounds for branches. Many of its processes share one
JSON state file, the review ledger, and one scratch directory; each talks to
a model through a child process. This project models the parts whose
correctness depends on every interleaving, every input or every stored
history, and proves what they keep.

* **The ledger** (`Ledger`, `LedgerEncoding`, `Json`, `JsonReader`, `LedgerReader`,
  `StateFile`). Workflow records, the retained history and its validator; the indented
  JSON encoder with a size function proved equal to the bytes written; a reader of
  JSON by RFC 8259, strings by its section 7, that recovers from the written file the
  ledger it was written from; the store with its loaded flag and size bound.
* **Eviction under size pressure** (`EvictionHeap`, `Eviction`, `EstimateLimits`). The
  binary heap on an array, the batched nested loop, and the policy it refines: encode
  after every single eviction, stop at the first fit. For exactly which records the
  estimate carries that far.
* **The review protocol** (`Completion`, `SavedRounds`, `ReviewProtocol`,
  `ReviewTheorems`). Any number of reviews as a step system over the workflow,
  scratch and state locks, with crashes and error returns everywhere. Starting
  from an empty file, each stored record is the last completed round of its key,
  reconciliation never refuses, dropped records never come back, and waits never
  form a cycle. Lock names are an arbitrary function of the key, and hashes one of the bytes.
* **The prompt's quotations** (`Quotation`). The search for markers, and a reader
  that recovers every verdict of the history section from the prompt text.
  Together with the protocol: what a prompt quotes reads back as what the turns of the
  earlier rounds delivered, for the commits they were asked about.
* **Scratch space** (`SweepProtocol`, `SweepPass`, `CheckoutRuns`, `StampRuns`,
  `TreeRemoval`). Prepare, Close and the sweep as a step system over directories that may
  hold anything under any name; what one Prepare builds, one Close clears and one pass
  over a stale directory leaves; when a Prepare gets past its stamp; and the recursive
  removal over a tree with links and devices.
* **The app-server client** (`TurnWatcher`, `TurnTranscript`, `CallMultiplexer`,
  `CallReplies`, `Connection`). The notification state machine of a turn, and what its
  outcome is, told from the events alone; the table of pending calls shared by one
  reader and any number of callers, and where in the run each call's outcome comes
  from. Replies are matched by id, as in section 5 of the JSON-RPC 2.0 specification.
* **The server's input** (`McpServer`). The bounded line reader against a one-pass
  specification, and the silence guard.
* **The request identity** (`RequestStream`). The bytes that are hashed, and their
  decoder; with the protocol, whose review a request is answered with.

`Text` holds byte lengths and string order, `LockTable` the lock table both protocols share. Code that updates fields or arrays in
place is a class or a method over an array, proved against functions; protocols
are step systems over values.

Three results are not what one might expect of the code or its comments:

* A save that reports failure may have been recorded. When only the sync of the
  directory fails, the rename has already taken effect. `FailsButRecordsWhen` gives
  the exact condition for every call, `ReviewsFailButRecordWhen` for every run, and
  `SyncFailureRecords` one such call.
* `historyRecordBytes` is documented as an upper bound on what evicting a record
  frees. It is not one for every record the file can hold, since the code validates
  only the history of its own key before evicting from all of them.
  `EstimateNeededExactly` says for which records it is: those that besides their
  review take no more than the allowance. `LongCommitBreaksEstimate` is a record for
  which it is not, and `TrapOverEvicts` shows what each such record leads to: an
  eviction from a file that already fits. Where every estimate holds the loop keeps to
  the naive policy (`SettleIsNaive`); clean records satisfy it, and
  `ReconciledIsClean` shows that in every run from an empty file all are clean. What
  holds of every ledger is `SettleIsSound`.
* The comment on the stamp says that an existing entry of any kind is replaced. A
  rename onto a directory fails, so a directory under the stamp's name stops a Prepare
  at its stamp. `StampableExactlyWhen` gives the condition for getting past it in some
  run: a cache directory beside it, a lock file, and another workflow that can be
  prepared and will sweep it away once the cache has aged. `StuckWithoutCache` is a
  directory no run gets past, `FreedByCache` one that some run does, and
  `StampWaitsForAge` bounds every run.

## Model

| member | source | states |
|---|---|---|
| Text.BeforeTotal | internal/review/review.go:768-773 | the tie order on keys is total and antisymmetric, so the largest candidate is unique |
| Text.BeforeExactlyWhen | internal/review/review.go:768-773 | one key comes before another when it is a proper prefix of it or smaller where they first differ |
| Json.RenderSize | internal/state/state.go:244-248 | the size function counts exactly the bytes the indented encoder writes, at any depth; what those bytes say is settled by `JsonReader` |
| Json.EscapedAtMostSixfold | internal/review/review.go:699-718 | a text encodes to between its UTF-8 length and six times that length |
| JsonReader.StringReadsBack | internal/state/state.go:244-248 | any text is recovered from the string written for it, and the reader stops at the closing quote |
| JsonReader.TextIsHarmless | internal/state/state.go:244-248 | between the quotes there is no byte below 0x20, none of `<`, `>` and `&`, and no U+2028 or U+2029 |
| JsonReader.CharForm | internal/state/state.go:244-248 | the quote, the backslash and the five control characters with a short form are written in it, and every character without a harmful byte in its UTF-8 form is written as that form |
| JsonReader.ValueReadsBack | internal/state/state.go:244-248 | every value, at any depth and with whatever follows it, is recovered by a reader of JSON that stops where the value ends |
| Ledger.SumHistoryBytes | internal/state/history.go:133-139 | the loop totals the injected bytes of all records |
| Ledger.BoundsInFigures | internal/state/history.go:10-28 | the bounds of a history: two records, and 48 KiB of verdicts together with the newest one, which counts unless it is over 24 KiB |
| Ledger.TrimFrontLongest | internal/state/history.go:119-131 | trimming keeps the longest suffix within both the count and the byte bound: every longer suffix breaks one of them |
| Ledger.RetainHistory | internal/state/history.go:119-131 | the result is that longest suffix of the history and the previous record, and an empty list is never sliced |
| Ledger.RetainedKeepsPrevious | internal/state/history.go:10-21 | the just superseded record always survives its own rollover, because per-record caps fit the aggregate cap |
| Ledger.InvalidHistoryNone | internal/state/history.go:147-183 | the validator accepts exactly the bounded, contiguous runs of complete records that end just before the newest round |
| Ledger.CompleteExactlyWhen | internal/review/review.go:785-801 | a stored record is complete exactly when thread, hash and review are nonempty, the round is positive, and both ids are 40 or 64 lower-case hexadecimal digits |
| Ledger.RecordOfIsClean | internal/state/history.go:103-111 | the history record of a complete workflow has full ids and exactly one of review and omission |
| Ledger.CleanHistorySuffix | internal/review/review.go:654-663 | dropping records from the front keeps a history acceptable |
| Ledger.RolloverIsClean | internal/review/review.go:595-606 | a completed round leaves a clean, nonempty history whose first round is not below the earlier one |
| Ledger.CleanPromptAccounts | internal/review/review.go:367-372 | omitted rounds and quoted records together count every earlier round once, in order |
| LedgerEncoding.EncodedSizeCounts | internal/state/state.go:244-255 | the measured size is the length of the encoded file, whatever order its keys are written in, and that file is one that reads back as the ledger (`LedgerReader.EncodedIsTheFile`) |
| LedgerEncoding.MeasureState | internal/state/state.go:244-255 | measuring entry by entry yields the size of the whole file |
| LedgerEncoding.CleanRecordSize | internal/review/review.go:699-705 | all of a clean record but its quoted review fits in 914 bytes of its place in the file, with any round and all twelve counters |
| LedgerEncoding.EvictionFrees | internal/review/review.go:707-711 | the bytes an eviction takes out of the file are exactly the record's place in it, and the history field with the last one |
| LedgerEncoding.CleanEstimateBounds | internal/review/review.go:699-711 | a clean record takes no more besides its review than the allowance |
| LedgerEncoding.EvictionFreesAtMostEstimate | internal/review/review.go:699-718 | evicting a clean record frees something, and never more than its estimate, the last record and the dropped history field included |
| LedgerReader.RecordReadsBack | internal/state/history.go:82-94 | each field of a history record is recovered under its own name |
| LedgerReader.WorkflowReadsBack | internal/state/state.go:83-98 | each field of a workflow is recovered under its own name |
| LedgerReader.FileReadsBack | internal/state/state.go:208-255 | the encoded file, its keys in any order, reads back as version 2 of the very ledger, key by key and field by field |
| LedgerReader.RecordNames | internal/state/history.go:82-94 | the same of a history record: review, omission and usage are left out when empty |
| LedgerReader.WorkflowNames | internal/state/state.go:83-98 | a workflow is written under the names of the struct tags in their order, without warnings, usage or history when it has none |
| LedgerReader.UsageNames | internal/state/history.go:32-47 | a usage is written with all of its figures, zeros included |
| LedgerReader.EncodedIsTheFile | internal/state/state.go:208-255 | what the store takes a saved file for is what its bytes hold: their number is the measured size, and they decode to the ledger |
| EvictionHeap.SiftDownHeap | internal/review/review.go:758-775 | sinking one item restores the heap order, keeps the items and leaves the positions before it alone |
| EvictionHeap.RootAbove | internal/review/review.go:749-754 | the root of a heap comes before every other item in the plan's order |
| EvictionHeap.Down | internal/review/review.go:758-775 | the array loop does what the recursive sift-down says and touches nothing past the heap |
| EvictionHeap.Swap | internal/review/review.go:774 | two items change places and the heap holds the same items |
| EvictionHeap.PoppedHeap | internal/review/review.go:760-762 | a pop leaves a heap of the same items less the root |
| EvictionHeap.ShrunkHeap | internal/review/review.go:758-765 | after a shrink the heap holds the same candidates, the top one smaller or gone |
| EvictionHeap.HistoryEstimatePositive | internal/review/review.go:760 | no bytes left is the same as no records left |
| EvictionHeap.EstimateHistory | internal/review/review.go:737-740 | the loop totals the estimates of all records |
| EvictionHeap.CollectCandidates | internal/review/review.go:731-745 | one candidate for each workflow with history, with the sum of its records' estimates |
| EvictionHeap.EvictionPlan.constructor | internal/review/review.go:731-745 | a new plan is a heap of exactly the candidates of a rescan |
| EvictionHeap.EvictionPlan.Init | internal/review/review.go:743 | any list of candidates becomes a heap of the same candidates |
| EvictionHeap.EvictionPlan.Largest | internal/review/review.go:749-754 | a candidate no other one precedes, and none exactly when the plan is empty |
| EvictionHeap.EvictionPlan.Pop | internal/review/review.go:776-781 | the root leaves and the others are rearranged as the value-level pop says |
| EvictionHeap.EvictionPlan.ShrinkItems | internal/review/review.go:758-765 | the array follows the value-level shrink |
| EvictionHeap.EvictionPlan.Shrink | internal/review/review.go:758-765 | only the top candidate changes: its bytes fall, or it leaves the plan |
| StateFile.SavedFileLoads | internal/state/state.go:249-255 | a load refuses a saved ledger for its size exactly when a save would have refused it: the two bounds agree |
| StateFile.LoadsExactlyWhen | internal/state/state.go:208-230 | a file loads exactly when it is missing, or readable, within 16 MiB, parses and is of version 1 or 2 |
| StateFile.State.Put | internal/state/state.go:129-134 | the key's record is replaced and no other key changes |
| StateFile.Disk.WriteAtomic | internal/state/state.go:291-324 | the file is replaced whole exactly when the rename takes effect, and the write succeeds exactly when nothing fails; an error leaves open which file is there |
| StateFile.Store.Load | internal/state/state.go:208-230 | the store is armed for saving only by a successful load; a missing file is an empty ledger |
| StateFile.Store.Save | internal/state/state.go:235-266 | the outcome and the file afterwards, for every state, loaded flag and disk fault: no refused or oversized state reaches the disk |
| Eviction.NaiveEvictResult | internal/review/review.go:612-668 | the naive policy changes nothing but histories, each to a suffix, and stops only at a fit or with no history anywhere |
| Eviction.LargestExactlyWhen | internal/review/review.go:768-773 | evicted from next is the one workflow whose history is estimated larger than every other, or as large and under a smaller key |
| Eviction.CandidatesAfterDrop | internal/review/review.go:654-663 | a rescan after one eviction differs only in that workflow's candidate, as the incremental plan assumes |
| Eviction.TopIsLargest | internal/review/review.go:749-754 | the top of a plan in step with the state is the workflow a rescan would choose |
| Eviction.SettleIsSound | internal/review/review.go:627-668 | for every ledger, clean or not, the loop gives up only history, each to a suffix, and ends with a state that fits, with no history anywhere, or cancelled |
| Eviction.SettleIsNaive | internal/review/review.go:618-668 | where every record's estimate bounds what its eviction frees, no record goes from a state that fits, the state saved is the naive policy's, and a save is attempted exactly when that one fits and the context lasts for its evictions |
| Eviction.CleanIsWellEstimated | internal/review/review.go:707-711 | in a ledger of clean records every estimate holds |
| Eviction.PathReachesNaive | internal/review/review.go:639-664 | a state met on the naive path leads on to the same end |
| Eviction.EvictedIsSmaller | internal/review/review.go:654-663 | evicting any records never makes the file larger |
| Eviction.FitsOnlyIfNaiveFits | internal/review/review.go:609-616 | if any eviction at all makes the ledger fit, the naive policy does, so no completed review is refused that could be saved |
| Eviction.NaiveFitsExactlyWhen | internal/review/review.go:627-668 | the naive policy reaches a fit exactly when the ledger without any history fits |
| Eviction.SettleFitsExactlyWhen | internal/review/review.go:627-668 | where the estimates hold, a state that fits is reached exactly when the ledger without any history fits and the context lasts for the evictions it takes |
| Eviction.EvictFrom | internal/review/review.go:654-663 | one eviction keeps plan and state in step, and returns the estimate of the dropped record |
| Eviction.EvictNext | internal/review/review.go:649-665 | the heap plan evicts the very record a rescan of all histories would, and finds none exactly when there is no history |
| Eviction.EvictPass | internal/review/review.go:646-666 | a pass follows the rescanning specification step for step, uses up one context check a record, and either shrinks the file, finds no history, or is cancelled |
| Eviction.SaveEvictingHistory | internal/review/review.go:627-668 | terminates; for every ledger, disk fault and life of the context, its error, the state in memory and the file are exactly those of the loop that rescans for every record |
| EstimateLimits.EstimateNeededExactly | internal/review/review.go:707-711 | a record's estimate bounds what its eviction frees exactly when no ledger, otherwise well estimated, loses a record from a state that fits on its account |
| EstimateLimits.TrapOverEvicts | internal/review/review.go:618-621 | for any record whose estimate falls short, a ledger from which the loop evicts although the file already fits |
| EstimateLimits.LongCommitBreaksEstimate | internal/review/review.go:707-711 | one such record: a commit of two thousand digits |
| Completion.LoadWorkflow | internal/review/review.go:554-570 | the copy is the key's record in the file as loaded, without changing it |
| Completion.StartsExactlyWhen | internal/review/review.go:304-324 | a review starts only where there is no record, or a complete one with a sound history and a round after it |
| Completion.SaveCompleted | internal/review/review.go:581-607 | for every file, copy, lock outcome, disk fault and life of the context, the exact outcome and the exact file |
| Completion.ReconciledExactlyWhen | internal/review/review.go:584-607 | the reconciliation succeeds exactly when the key had no record and has none, or its record is the one copied but for usage and history and that history is sound |
| Completion.OffLimitsStays | internal/state/state.go:171-177 | a file that is unreadable, too large, does not parse or has another version is never replaced, and the call fails at its load |
| Completion.ReconciledIsNew | internal/review/review.go:595-606 | a round that passes reconciliation is not yet in the file |
| Completion.RecordedWhen | internal/review/review.go:581-607 | the new record reaches the file exactly when the lock, the load and the reconciliation succeed, the last state tried fits and the rename takes effect |
| Completion.SucceedsWhen | internal/review/review.go:581-607 | the call succeeds exactly when it gets as far as a state that fits and nothing fails on the disk; the record is then in the file |
| Completion.FailsButRecordsWhen | internal/state/state.go:316-319 | the call fails and the new record is in the file nevertheless, exactly when lock, load and reconciliation succeed, the last state tried fits, and the sync of the directory is what fails |
| Completion.FittingWhenClean | internal/review/review.go:604-607 | with clean histories, whether a state that fits is tried can be told before the call: the ledger has to fit without any history, and the context to last |
| Completion.CancelledByContext | internal/review/review.go:647-649 | a save is cancelled only by the end of its context, and leaves the file alone |
| Completion.TooLargeTellsTheBareSize | internal/review/review.go:646-655 | for any ledger, a save refused as too large names the size the ledger has without any history, and leaves the file alone |
| Completion.SyncFailureRecords | internal/state/state.go:316-337 | one such call: a first review on an empty ledger is reported unsaved and is in the file |
| SavedRounds.MatchingRecordIsSound | internal/review/review.go:304-318 | a record that matches its saved rounds passes every check made of a stored record |
| SavedRounds.MatchingRecordTells | internal/review/review.go:504-514 | such a record's round counts the saved rounds, on one thread, and each history record is that of its own round |
| SavedRounds.MatchingRecordQuotes | internal/review/review.go:367-372 | such a record's prompt accounts for each round once, with the verdict that round saved |
| SavedRounds.MatchingRecordEvicted | internal/review/review.go:654-663 | eviction by another review keeps a record matching |
| SavedRounds.NextRecord | internal/review/review.go:595-606 | rolling over a record that others evicted from meanwhile still matches the rounds saved, and brings nothing back |
| LockTable.MoveChangesOwn | internal/state/lock.go:39-125 | taking a free lock or giving back one's own changes what that process has and nothing else |
| ReviewProtocol.StepMoveMatches | internal/review/review.go:281-301 | every step takes and releases just the locks its program counter stands for |
| ReviewProtocol.StepKeepsLocks | internal/state/lock.go:49-121 | the lock table is always what the program counters say, so no lock has two holders |
| ReviewProtocol.ReconciliationSucceeds | internal/review/review.go:581-606 | with the invariant, the re-read record agrees with the copy, other keys are carried over, and the new record matches one more saved round |
| ReviewProtocol.WriteKeepsLedger | internal/review/review.go:604-607 | a write, evictions included, leaves every key's record matching its saved rounds |
| ReviewProtocol.DifferentKeys | internal/state/state.go:196-204 | reviews past their workflow lock have different keys, whether or not lock names collide |
| ReviewProtocol.StateLockExcludes | internal/review/review.go:536-570 | no two processes are inside the state lock |
| ReviewProtocol.StepKeepsInv | internal/review/review.go:281-301 | every step of every process, crashes included, keeps the invariant |
| ReviewProtocol.StepKeepsRequests | internal/review/review.go:326-337 | every step keeps each saved round that of the request and the turn it was made for: hash, commit, base, thread, review, warnings and usage |
| ReviewTheorems.RunKeepsInv | internal/review/review.go:256-524 | the invariant holds at every state of every run from an empty file |
| ReviewTheorems.StoredRecordsAreTheSavedRounds | internal/review/review.go:504-514 | in every reachable state each key's record is its last saved round, its round their number, its thread the first one, its history clean; what each saved round holds is `SavedRoundsAreOfTheirTurns` |
| ReviewTheorems.SavedRoundsAreOfTheirTurns | internal/review/review.go:504-513 | in every run the n-th save of a key has the commit, base and hash of the n-th request made for it and the thread, review, warnings and usage of the turn that answered |
| ReviewTheorems.ReconciliationNeverRefuses | internal/review/review.go:581-606 | no finished review is ever refused at its final reconciliation |
| ReviewTheorems.StartRefusesOnlyExhaustedRounds | internal/review/review.go:304-324 | the check of the stored record fails exactly at the last representable round |
| ReviewTheorems.SavesStartClean | internal/review/review.go:604-668 | every history a save may evict from is clean, other keys' included |
| ReviewTheorems.ReconciledIsClean | internal/review/review.go:595-606 | what a finished review is about to save holds clean histories only |
| ReviewTheorems.PromptQuotesTheSavedRounds | internal/review/review.go:367-372 | every prompt accounts for each earlier round once and quotes the verdict it saved, after any evictions |
| ReviewTheorems.PromptIsOfTheTurns | internal/review/review.go:367-372 | in every run the entry of a round in the prompt is that of the request and the turn made for that round |
| ReviewTheorems.PromptReadsBackTheTurns | internal/review/prompt.go:147-172 | in every reachable state the quoted history parses back, round by round, to the number, commit and base of the request made for that round and to the verdict of its turn less trailing newlines, or to its omission exactly when it is over the cap |
| ReviewTheorems.NoResurrection | internal/state/history.go:119-131 | over any stretch of any run a key's first retained round never falls and no saved round is rewritten |
| ReviewTheorems.OneReviewPerWorkflow | internal/review/review.go:273-291 | two reviews never hold a copy of the same workflow at once |
| ReviewTheorems.WaitsRise | internal/review/review.go:536-570 | a holder of a lock waits only for a lock later in the order |
| ReviewTheorems.NoDeadlock | internal/review/review.go:281-301 | in every reachable state no chain of waits closes on itself or is longer than three |
| ReviewTheorems.SomeoneCanProceed | internal/review/review.go:281-301 | while any review runs, some running one has a step to take without a timeout; it is an error return only at the last representable round, or to write a ledger that no eviction makes fit |
| ReviewTheorems.WriteEnabledWhen | internal/review/review.go:604-668 | a reconciled review can be written exactly when the ledger fits without any history |
| ReviewTheorems.AnsweredExactlyWhenAskedLast | internal/review/review.go:326-344 | under a hash without collisions, in every run a review is answered from the record exactly when the last review saved for its workflow was made for the very same request, and with the thread, review, warnings and usage of that turn |
| ReviewTheorems.SaveIsOneWriteOrNone | internal/review/review.go:627-668 | whatever fails, the code's save is one write step of the protocol or leaves the file alone |
| ReviewTheorems.SavesSucceedExactlyWhen | internal/review/review.go:627-668 | in every run a save succeeds exactly when the disk does not fail and the naive policy reaches a fit within the context's life; the file is then that one |
| ReviewTheorems.ReviewsFailButRecordWhen | internal/review/review.go:581-607 | in every run a final save fails with its review recorded exactly when the lock is taken, the naive policy reaches a fit in time, and the sync of the directory fails |
| SweepProtocol.StepKeepsLocks | internal/scratch/sweep.go:214-226 | scratch locks are exclusive, tried ones included |
| SweepProtocol.NamesApart | internal/scratch/scratch.go:31-41 | no two of the names run into each other: items, lock, trash and temporary stamps are told apart by name alone |
| SweepProtocol.StepSpares | internal/scratch/scratch.go:248-265 | no step moves, removes or replaces an entry that its name and kind do not expose |
| SweepProtocol.OnlyHolderChanges | internal/scratch/sweep.go:214-254 | but for the creation of its lock file, a directory changes only at the hands of the holder of its lock |
| SweepProtocol.StepKeepsStamp | internal/scratch/sweep.go:58-78 | wherever a Prepare has stamped, its stamp is in place, a regular file with its time, or that Prepare is longer ago than the limit, whatever the directory held before |
| SweepProtocol.StepKeepsInv | internal/scratch/sweep.go:168-254 | every step of a prepare, close or sweep keeps the invariant |
| SweepProtocol.MovesAreSafe | internal/scratch/sweep.go:228-254 | an item is moved to trash only under that directory's lock held by the sweep alone, with no stamp within the limit of the sweep's clock and the last Prepare past it too |
| SweepProtocol.PreparedCheckoutIsKept | internal/scratch/scratch.go:191-215 | a prepared checkout has its directories cache, checkout, tmp and hooks until its own Close, whatever sweeps run meanwhile |
| CheckoutRuns.AfterIsNext | internal/scratch/scratch.go:191-243 | the steps these two are made of are steps of the sweep protocol, so its invariants hold along them |
| CheckoutRuns.PreparesExactlyWhen | internal/scratch/scratch.go:191-215 | a Prepare past its sweep succeeds without a fault exactly when nothing it clears is a link and nothing but a directory stands for its cache; it then has new checkout, hooks and temp directories, the cache it had or a new one, and has touched nothing else |
| CheckoutRuns.CloseClears | internal/scratch/scratch.go:226-243 | a Close without a fault leaves nothing under checkout, tmp and hooks but links, touches nothing else, and gives the lock back |
| SweepProtocol.LockFilesStay | internal/scratch/sweep.go:235-271 | a lock file stays the same entry through any run: it has none of the five moved names, the three removed names or the trash prefix |
| SweepProtocol.LinksStay | internal/scratch/sweep.go:241-246 | a link under any name but the stamp's or trash stays the same entry, a linked cache, checkout, temp or hooks directory included |
| SweepProtocol.StrangersStay | internal/scratch/sweep.go:256-264 | entries under names that are not Counterpoint's are never touched |
| SweepProtocol.OtherDirectoriesStay | internal/scratch/sweep.go:103-111 | nothing changes in a root directory whose name is not sixteen hexadecimal digits |
| SweepPass.PassLeavesOnlyLinks | internal/scratch/sweep.go:228-272 | whatever others do meanwhile, a pass without a fault leaves no trash, and of a stale directory's five items only those that are links |
| SweepPass.StaleExactlyWhen | internal/scratch/sweep.go:125-163 | a directory is stale when its stamp, if a regular file, and otherwise its cache directory is older than 72 hours |
| StampRuns.StampWaitsForAge | internal/scratch/sweep.go:54-78 | where a run starts with a directory under the stamp's name, it stays, and no Prepare of the workflow gets past its stamp, until the cache the run started with has aged past the limit |
| StampRuns.StampNeeds | internal/scratch/sweep.go:73-76 | a stamp is set in any run only where nothing was in its way, or where a cache to be judged by and another workflow to sweep were there from the start |
| StampRuns.FreedIsStampable | internal/scratch/sweep.go:235-253 | where they were, some run sweeps the directory away and lets a Prepare set its stamp |
| StampRuns.StampableExactlyWhen | internal/scratch/sweep.go:54-78 | from directories that hold anything, the exact condition for a Prepare to get past its stamp in some run |
| StampRuns.StuckWithoutCache | internal/scratch/sweep.go:73-76 | a directory under the stamp's name with no cache beside it: no run ever gets past it |
| StampRuns.FreedByCache | internal/scratch/sweep.go:149-158 | the same with a cache beside it: blocked at first, and freed in some run |
| TreeRemoval.FileSystem.RemoveTree | internal/scratch/sweep.go:282-341 | terminates; only nodes of the subtree above other devices go; success means all gone, or itself a directory on another device and untouched; without faults it fails exactly when another device lies inside |
| TreeRemoval.FileSystem.RemoveChildren | internal/scratch/sweep.go:325-335 | the loop clears the entries it has done and leaves the rest untouched |
| TreeRemoval.FileSystem.RemoveDirectory | internal/scratch/sweep.go:336-340 | a directory with entries is never removed |
| TreeRemoval.FileSystem.Unlink | internal/scratch/sweep.go:282-300 | only the named entry can go, and a link's target stays |
| TreeRemoval.FileSystem.ListNames | internal/scratch/sweep.go:345-358 | the names are exactly the directory's entries |
| TreeRemoval.ChildRemoved | internal/scratch/sweep.go:325-335 | clearing one entry is progress on its directory and disturbs no sibling |
| TreeRemoval.ClearedOutcome | internal/scratch/sweep.go:325-340 | a directory whose entries are all dealt with and gone held nothing on another device, and its removal clears the subtree |
| TreeRemoval.DirectoryRemoved | internal/scratch/sweep.go:336-340 | a directory's removal ends as promised both ways: gone with everything below it, or, without faults, kept exactly because of a directory on another device |
| TurnWatcher.Watcher.SetTurnId | internal/appserver/client.go:570-578 | an established turn id stays, and a different one is reported |
| TurnWatcher.Watcher.Handle | internal/appserver/client.go:588-692 | each notification changes the watcher as the value-level step says; what the steps of a stream come to is `TurnTranscript.OutcomeIsTheTurnsOwn` |
| TurnWatcher.Watcher.HandleUsage | internal/appserver/client.go:623-669 | a report is counted and judged whether or not the turn has finished, and touches nothing else |
| TurnWatcher.Watcher.Finish | internal/appserver/client.go:674-690 | the matching completion freezes the outcome and closes done |
| TurnWatcher.Watcher.AppendToDeltas | internal/appserver/client.go:694-703 | text that would pass the bound is refused whole and the overflow remembered |
| TurnWatcher.Watcher.AppendToMessages | internal/appserver/client.go:694-703 | the same for messages, leaving deltas alone |
| TurnWatcher.Watcher.SetReviewFrom | internal/appserver/client.go:681-688 | the loop takes the last nonempty review of a completed turn's items |
| TurnTranscript.OutcomeIsTheTurnsOwn | internal/appserver/client.go:580-692 | for any stream the turn id is the first one established, and of the events under this thread and id from then on: the review is the text of the last review item before the first completion or, where that is empty, the last nonempty one in it; status and error are that completion's; the last error is that of the last failure before it not to be retried; done closes once, with it; and the texts collected are all the messages and all the deltas before it unless one is over the bound |
| TurnTranscript.TurnIdNeverChanges | internal/appserver/client.go:570-578 | once set, the turn id is the same after any further notifications |
| TurnTranscript.TextIsNeverTruncated | internal/appserver/client.go:743-757 | the text is that review, or all messages, or all deltas, each measured without a bound; it is refused as too large exactly when there is no review text and one of the two is over the bound |
| TurnTranscript.OverflowsExactlyWhen | internal/appserver/client.go:694-703 | collected text overflows exactly when all of the messages, or all of the deltas, are over the bound |
| TurnTranscript.EveryReportIsCounted | internal/appserver/client.go:623-669 | every usage report is counted once: unattributed are those that name another thread or turn than the one then known, bad those that do not parse, lack an id or are the turn's own with bad counters, accepted the rest; the sample is the first four unattributed ones |
| TurnTranscript.LastAcceptedReportStands | internal/appserver/client.go:662-668 | the turn's usage is that of the last report that is valid, names this thread and comes after the turn it names was established, even one after the completion |
| TurnTranscript.NoUsageWithoutReport | internal/appserver/client.go:662-668 | without any such report there is no usage |
| TurnTranscript.CountersAreABreakdown | internal/appserver/wire.go:252-302 | counters are taken exactly as a breakdown without a negative figure, each from its own field, of which only the cache writes may be absent, for zero |
| TurnTranscript.ReportIsAUsage | internal/appserver/wire.go:244-246 | a report is taken as a usage exactly when its last and its total counters are taken as those of the usage |
| TurnWatcher.AwaitTurn | internal/appserver/client.go:475-495 | a turn finished by the time of the recheck wins over a closed connection and a cancelled caller, even one that finishes after the select |
| CallMultiplexer.StepKeepsInv | internal/appserver/conn.go:210-303 | every step of callers, reader and writer keeps the invariant |
| CallMultiplexer.IdsStay | internal/appserver/conn.go:267-272 | a call's id is the next number at its first step and never changes |
| CallMultiplexer.OtherCallsAlone | internal/appserver/conn.go:267-303 | a call's own steps leave every other call and its claim to an answer alone |
| CallMultiplexer.OneAnswerEach | internal/appserver/conn.go:224-263 | each channel gets at most one envelope or one close, never both, and a reply only of its own id; that the envelope is the one read is `CallReplies.OutcomesComeFromTheRun` |
| CallMultiplexer.NoCallIsLost | internal/appserver/conn.go:267-303 | for a call still waiting exactly one of table, reader, buffer and close stands for its answer |
| CallMultiplexer.ReaderNeverBlocks | internal/appserver/conn.go:224-263 | the reader's send never blocks and neither its send nor its close panics |
| CallMultiplexer.FirstErrorStands | internal/appserver/conn.go:191-196 | the first recorded exit error is the one at the end of any run |
| CallMultiplexer.BrokenCallsReportTheFirstError | internal/appserver/conn.go:255-303 | a call woken by the connection's end reports that error, never the generic one |
| CallMultiplexer.CallsAreShort | internal/appserver/conn.go:267-303 | no call takes more than five steps, whatever the others do |
| CallMultiplexer.EveryCallReturns | internal/appserver/conn.go:267-303 | after shutdown every call, even one registered later, returns by steps of its own |
| CallMultiplexer.ShutdownReachesClosed | internal/appserver/conn.go:247-263 | a shutdown under way needs one reader step for each taken call and one more, and never stalls |
| CallReplies.OutcomesComeFromTheRun | internal/appserver/conn.go:210-303 | in every run a reply buffered or returned is a message the reader took off the stream, body and all, after the call had registered; a broken or unsendable call returns the first error recorded before it looked |
| CallReplies.ExitErrorIsTheFirst | internal/appserver/conn.go:191-253 | in every run the exit error is the first one reported, by a termination or the end of the stream |
| CallReplies.NothingLeftBehind | internal/appserver/conn.go:267-303 | a call that returned with a reply, gave up or could not send is out of the table, so a late reply to it is ignored |
| Connection.WarningsStayBounded | internal/appserver/conn.go:459-468 | however many arrive, at most 32 warnings of at most 8 KiB are kept, in order, and the others are all counted |
| Connection.OmitsOnlyBeyondBounds | internal/appserver/conn.go:459-468 | nothing is omitted exactly when all warnings are within both bounds, and then all are kept |
| Connection.KeptExactlyWhenItFits | internal/appserver/conn.go:459-468 | a warning is kept exactly when it fits beside those kept before it, also after one that did not |
| Connection.Connection.Register | internal/appserver/conn.go:267-272 | the call gets an id never in the table and a channel of its own |
| Connection.Connection.Take | internal/appserver/conn.go:230-237 | the call under the id leaves the table, and its channel is empty, open and out of every other reader's reach |
| Connection.ReplyChannel.Send | internal/appserver/conn.go:238 | the envelope is in the channel, where the send neither blocks nor panics |
| Connection.Connection.Dispatch | internal/appserver/conn.go:224-238 | only the channel registered under the reply's id gets it, and leaves the table |
| Connection.Connection.Forget | internal/appserver/conn.go:274-278 | a call that gives up leaves the table and takes no other entry with it |
| Connection.Connection.Terminate | internal/appserver/conn.go:191-196 | the reason is recorded only if none was |
| Connection.Connection.Shutdown | internal/appserver/conn.go:247-263 | every pending channel is closed and none gets an envelope; an earlier error stands |
| Connection.Connection.RecordWarning | internal/appserver/conn.go:459-468 | the stored warnings follow the value-level bound |
| Connection.Connection.TakeWarnings | internal/appserver/conn.go:472-483 | all kept warnings and one marker when some were omitted, and a clean slate |
| McpServer.LinesRejoin | internal/mcpserver/server.go:283-314 | a stream is its complete lines followed by its unterminated rest |
| McpServer.LinesAreWhole | internal/mcpserver/server.go:283-314 | each line ends at its only newline and the rest has none |
| McpServer.Source.ReadSlice | internal/mcpserver/server.go:287-297 | a slice is the first line, or a newline-free piece of it, and nothing is skipped |
| McpServer.DeliversTheLongestAcceptablePrefix | internal/mcpserver/server.go:263-314 | delivered are the non-blank lines of the longest prefix of lines within the limit and blank or valid; the next line decides the error, or the unterminated rest: too large, the failure of the stream, the end when blank, and otherwise a framing error |
| McpServer.BoundedLineReader.PhysicalLine | internal/mcpserver/server.go:285-305 | slices of any sizes put together are the first line, or its error |
| McpServer.BoundedLineReader.NextLine | internal/mcpserver/server.go:283-314 | the next non-blank line of the one-pass answer, or its error |
| McpServer.BoundedLineReader.Read | internal/mcpserver/server.go:263-278 | a read takes its bytes off the front of the one-pass answer, makes progress, and repeats an error for ever |
| McpServer.BoundedLineReader.ReadAll | internal/mcpserver/server.go:263-278 | for any internal buffer and any read lengths, the bytes are a prefix of the one-pass answer, all of it by the time of its error |
| McpServer.WatchCall | internal/mcpserver/server.go:166-222 | the call is ended at the first reading at the ceiling past the previous baseline, once, and otherwise not at all; progress counts up from one |
| Quotation.TagLength | internal/review/prompt.go:186-197 | the shortest tag that frees both markers exists and is no longer than 16 or the text |
| Quotation.Delimiters | internal/review/prompt.go:179-198 | terminates with markers that do not occur in the text, of bounded length, the same for the same text |
| Quotation.FindMarker | internal/review/prompt.go:112-116 | a one-line marker that is not in the text is first found right after it, not astride the boundary |
| Quotation.QuotingRoundTrips | internal/review/prompt.go:112-116 | the text between the opening line and the first closing marker is exactly the quoted text, up to its boundary |
| Quotation.AnnouncesItsMarkers | internal/review/prompt.go:167-169 | the line before a quotation names the very markers it stands between |
| Quotation.TrimIsLessNewlines | internal/review/prompt.go:167 | the quoted text is the verdict less its trailing newlines: nothing else is cut and none is left |
| Quotation.WriteRound | internal/review/prompt.go:162-170 | one round is written as its verdict is: quoted between markers free in it, or as not retained |
| Quotation.WriteHistory | internal/review/prompt.go:162-170 | the rounds are written one after another, oldest first, each with markers free in its own verdict |
| Quotation.DecimalRoundTrips | internal/review/prompt.go:164-169 | a round number is recovered from its digits |
| Quotation.HistoryReadsBack | internal/review/prompt.go:147-172 | any sequence of rounds is recovered from the text written for it: number, commit, base, and the verdict less its trailing newlines, whatever the verdicts contain |
| Quotation.PromptReadsBack | internal/review/prompt.go:147-172 | of a clean workflow the reader recovers each round not disclosed by count, once and in order, with its verdict less trailing newlines |
| RequestStream.BigEndianReads | internal/state/request.go:48-49 | a length prefix reads back as the length it was written for |
| RequestStream.FeedHash | internal/state/request.go:41-54 | the loop feeds the hasher the stream of prefixed fields |
| RequestStream.KeyTellsTheBranch | internal/state/request.go:28-31 | requests whose branch refs hold no colon share a workflow key exactly when repository and branch are the same |
| RequestStream.StreamReadsBack | internal/state/request.go:38-54 | a request is recovered from its stream, the build flag included |
| RequestStream.StreamIsCanonical | internal/state/request.go:38-54 | a stream that decodes is the stream of what it decodes to |
| RequestStream.StreamIsInjective | internal/state/request.go:38-40 | two requests share a stream only if they are equal |
| RequestStream.ReplayAnswersOnlyTheSameRequest | internal/review/review.go:529-534 | under a hash without collisions a stored review answers its own request and no other |

## Left out

- Hashing and random suffixes: uninterpreted. The replay result takes a collision-free hash as a premise.
- The decoder of the Go library: a file's content is its size and what it decodes to, which for a file that was saved is what the reader of `LedgerReader` makes of its bytes. That reader knows the escapes the encoder writes; pairs of surrogate escapes, fractions and exponents, which it does not write, are not read.
- Invalid UTF-8: texts are sequences of Unicode scalar values, so the encoder's replacement of invalid bytes does not occur.
- The replacement estimator a caller may set in place of `historyRecordBytes`: the plan uses `historyRecordBytes` itself.
- A premise on time in `SweepProtocol`: the wall clock does not run backwards, so a sweep's clock is never ahead of a later stamp's.
- Lock files: a scratch lock is taken to be one for each directory, also where the lock entry is a link that `AcquireLock` follows. `AcquireLock` and `TryLockFile` are blocking and trying steps. Their file opening, retries, link counts and inode checks, and the waits' length, are not modelled; a wait that times out is an error return.
- Foreign processes: every process follows the lock protocol, and nothing else changes the state file, the scratch directories during a run or the tree being removed. What a scratch directory holds when the run starts is arbitrary; entries of the scratch root that are not directories are left out, since every step passes them by. The removal's handling of entries replaced under it is therefore absent.
- Device detection in `removeTree`: a directory carries its device; the system calls that tell it are not modelled beyond failing.
- Git, process spawning, pipes, timers, the MCP SDK, the tool schema, logging, the command line and configuration: plumbing around these algorithms. Target validation and the turn itself supply a commit, a base, a thread id, a nonempty review and usage; a job carries its target as it resolves.
- The wording of prompts: the fixed words of a round's line are parameters that hold no newline and do not start with a hexadecimal digit; the rest of the prompt is not modelled.
- The client's own idle timeout: the guard takes its baseline after a send returns, so the code does not decide which fires first.
- Which of several ready events a call's select takes: any may win; only `awaitTurn` looks again.
- Identifier overflow in the call table: ids are unbounded, where the code counts in 64 bits.
- Reply bodies, decoding of results, notification subscriptions and requests from the app-server: a reply is an id with an opaque body.
- ReviewProtocol.StepKeepsInv: the step that writes names any state reachable by eviction from the reconciled one, since which records go is settled by the single-process save.
- RequestStream.StreamReadsBack: fields are shorter than 2^63 bytes, as every Go string is.
- Connection.Connection.Dispatch: it composes `Take` and `Send` without anything in between; their interleaving with other callers is what CallMultiplexer models.
