/**
 How far the estimate of historyRecordBytes in internal/review/review.go
 carries: for exactly which records the batched eviction keeps to the naive
 policy, whatever ledger they are in.
 */
module EstimateLimits {
  import opened Text
  import opened Json
  import opened Ledger
  import opened LedgerEncoding
  import opened EvictionHeap
  import opened Eviction
  import opened Completion

  /** With a context that is never cancelled, some record goes from a state that fits. */
  ghost predicate OverEvicts(m: Workflows) {
    !OnNaivePath(m, Settle(m, None).state)
  }

  /** Every record of the ledger is r or one whose estimate holds. */
  ghost predicate OnlyDoubts(m: Workflows, r: HistoryRecord) {
    forall k, i | k in m && 0 <= i < |m[k].history| :: m[k].history[i] == r || EstimateBounds(m[k].history[i])
  }

  // ----- a ledger of any size -----

  function Pad(n: nat): string {
    seq(n, _ => '0')
  }

  const REMNANT := HistoryRecord(1, ZeroId(), ZeroId(), "", OMITTED_TOO_LARGE, None)

  /** One workflow with a review of n bytes and no history, and one with a small history. */
  function Rest(n: nat): Workflows {
    map["a" := SMALL_RECORD.(lastReview := Pad(n)), "b" := SMALL_RECORD.(history := [REMNANT])]
  }

  /** The same with r as the only record of the first one's history. */
  function Trap(r: HistoryRecord, n: nat): Workflows {
    Rest(n)["a" := Rest(n)["a"].(history := [r])]
  }

  lemma PadSize(n: nat)
    ensures QuotedSize(Pad(n)) == n + 2
  {
    PlainSize(Pad(n));
  }

  lemma ReviewFieldSize(fs: seq<Field>, text: string)
    requires fs != [] && fs[|fs| - 1] == Field(LAST_REVIEW, Str(text))
    ensures FieldsSize(fs, 2) == FieldsSize(fs[..|fs| - 1], 2) + 10 + QuotedSize(LAST_REVIEW) + QuotedSize(text)
  {
    hide FieldSize, FieldsSize;
    var f := Field(LAST_REVIEW, Str(text));
    assert fs == fs[..|fs| - 1] + [f];
    FieldsSizeConcat(fs[..|fs| - 1], [f], 2);
    SingleFieldSize(f, 2);
    StrFieldSize(LAST_REVIEW, text);
  }

  lemma CompletedFieldsOf(text: string)
    ensures var fs := CompletedFields(SMALL_RECORD.(lastReview := text));
            fs[|fs| - 1] == Field(LAST_REVIEW, Str(text))
            && fs[..|fs| - 1] == CompletedFields(SMALL_RECORD)[..|CompletedFields(SMALL_RECORD)| - 1]
  {
    hide ZeroId;
  }

  lemma ReviewSize(text: string)
    ensures FieldsSize(CompletedFields(SMALL_RECORD.(lastReview := text)), 2) + QuotedSize("r")
            == FieldsSize(CompletedFields(SMALL_RECORD), 2) + QuotedSize(text)
  {
    CompletedFieldsOf(text);
    CompletedFieldsOf("r");
    assert SMALL_RECORD.(lastReview := "r") == SMALL_RECORD;
    hide CompletedFields, QuotedSize, ZeroId, FieldsSize;
    ReviewFieldSize(CompletedFields(SMALL_RECORD.(lastReview := text)), text);
    ReviewFieldSize(CompletedFields(SMALL_RECORD), "r");
  }

  /** A longer review makes the entry longer by just as much. */
  lemma EntryPads(key: string, n: nat)
    ensures EntrySize(key, SMALL_RECORD.(lastReview := Pad(n))) == EntrySize(key, SMALL_RECORD) + n - 1
  {
    PadSize(n);
    PlainSize("r");
    hide CompletedFields, QuotedSize, EntrySize, ZeroId, FieldsSize, Pad, HistoryFieldSize;
    ReviewSize(Pad(n));
    EntrySizeSplit(key, SMALL_RECORD.(lastReview := Pad(n)));
    EntrySizeSplit(key, SMALL_RECORD);
  }

  lemma RestEntries(n: nat)
    ensures EncodedSize(Rest(n)) ==
            40 + EntrySize("a", SMALL_RECORD.(lastReview := Pad(n)))
                + EntrySize("b", SMALL_RECORD.(history := [REMNANT]))
  {
    hide EntrySize, ZeroId, Pad;
    var m := Rest(n);
    EntriesSizeRemove(m, "a");
    EntriesSizeRemove(m - {"a"}, "b");
    assert m - {"a"} - {"b"} == map[];
    assert m != map[];
  }

  lemma RemnantIsClean()
    ensures CleanRecord(REMNANT) && HistoryRecordBytes(REMNANT) == 1026
  {
    PlainSize("");
  }

  lemma RemnantEntrySize()
    ensures EntrySize("b", SMALL_RECORD.(history := [REMNANT])) <= 2000
  {
    RemnantIsClean();
    CleanRecordSize(REMNANT);
    PlainSize("");
    PlainSize("b");
    SmallRecordSize("b");
    hide EntrySize, QuotedSize, ZeroId, CompletedFields, Size, CleanRecord;
    EntrySizeSplit("b", SMALL_RECORD);
    EntrySizeSplit("b", SMALL_RECORD.(history := [REMNANT]));
    assert SMALL_RECORD.(history := [REMNANT]).Completed() == SMALL_RECORD;
    CompletedFieldsIgnoreHistory([REMNANT]);
    HistoryFieldFront([REMNANT]);
    assert [REMNANT][1..] == [];
  }

  lemma CompletedFieldsIgnoreHistory(h: seq<HistoryRecord>)
    ensures CompletedFields(SMALL_RECORD.(history := h)) == CompletedFields(SMALL_RECORD)
  {
  }

  /** How large the padding has to be for the rest to fill the file to its limit. */
  lemma FullRest() returns (n: nat)
    ensures EncodedSize(Rest(n)) == MAX_STATE_FILE_SIZE
  {
    RemnantEntrySize();
    SmallRecordSize("a");
    PlainSize("a");
    hide EntrySize, QuotedSize, ZeroId, Pad, EncodedSize;
    n := MAX_STATE_FILE_SIZE - 40 - EntrySize("b", SMALL_RECORD.(history := [REMNANT])) - EntrySize("a", SMALL_RECORD)
        + 1;
    EntryPads("a", n);
    RestEntries(n);
  }

  // ----- the trap -----

  lemma TrapLargest(r: HistoryRecord, n: nat)
    ensures var m := Trap(r, n);
            HasHistory(m) && LargestKey(m) == "a" && EvictOldest(m) == Rest(n)
                && OldestEstimate(m) == HistoryRecordBytes(r)
  {
    hide ZeroId, Pad, Settle, EncodedSize;
    var m := Trap(r, n);
    RemnantIsClean();
    assert m["a"].history == [r] && m["b"].history == [REMNANT];
    assert CandidateOf(m, "a") == Candidate("a", HistoryRecordBytes(r)) by { OneRecordEstimate(r); }
    assert CandidateOf(m, "b") == Candidate("b", 1026) by { OneRecordEstimate(REMNANT); }
    assert IsLargest(m, "a");
    LargestUnique(m, "a", LargestKey(m));
    assert [r][1..] == [] && DropOldest(m["a"]) == Rest(n)["a"];
    assert m["a" := Rest(n)["a"]] == Rest(n);
  }

  lemma OneRecordEstimate(r: HistoryRecord)
    ensures HistoryEstimate([r]) == HistoryRecordBytes(r)
  {
    assert [r][1..] == [];
  }

  /** In the rest only the small history can go. */
  lemma RestLargest(n: nat)
    ensures HasHistory(Rest(n)) && "b" in EvictOldest(Rest(n)) && EvictOldest(Rest(n))["b"].history == []
  {
    hide ZeroId, Pad;
    var m := Rest(n);
    assert m["b"].history == [REMNANT] && m["a"].history == [];
    assert LargestKey(m) == "b";
  }

  /** When the estimate falls short of the overshoot the pass goes on, even from a state that already fits. */
  lemma PassGoesOn(m: Workflows)
    requires HasHistory(m) && HasHistory(EvictOldest(m)) && EncodedSize(EvictOldest(m)) <= MAX_STATE_FILE_SIZE
    requires OldestEstimate(m) < EncodedSize(m) - MAX_STATE_FILE_SIZE
    ensures EvictedFrom(EvictOldest(EvictOldest(m)), Settle(m, None).state)
  {
    hide EncodedSize, EvictOldest, OldestEstimate;
    var over, freed, rest := EncodedSize(m) - MAX_STATE_FILE_SIZE, OldestEstimate(m), EvictOldest(m);
    assert Settle(m, None) == Pass(m, over, 0, false, None);
    hide Settle, Pass, EvictedFrom;
    PassStep(m, over, 0, false, None);
    PassStep(rest, over, freed, true, None);
    PassIsSound(EvictOldest(rest), over, freed + OldestEstimate(rest), true, None);
  }

  lemma TrapFallsShort(r: HistoryRecord, n: nat)
    requires !EstimateBounds(r) && EncodedSize(Rest(n)) == MAX_STATE_FILE_SIZE
    ensures HasHistory(Trap(r, n)) && OldestEstimate(Trap(r, n)) < EncodedSize(Trap(r, n)) - MAX_STATE_FILE_SIZE
  {
    var m := Trap(r, n);
    TrapLargest(r, n);
    assert m["a"].history == [r] && m["a" := DropOldest(m["a"])] == Rest(n);
    EvictionFrees(m, "a");
    hide EncodedSize, Pad, ZeroId, HistoryRecordBytes, Size, LargestKey, OldestEstimate, Rest, Trap;
  }

  /** The pass over the trap goes on although the state already fits, because the estimate of r fell short. */
  lemma TrapOverEvicts(r: HistoryRecord, n: nat)
    requires !EstimateBounds(r) && EncodedSize(Rest(n)) == MAX_STATE_FILE_SIZE
    ensures OverEvicts(Trap(r, n))
  {
    var m := Trap(r, n);
    TrapLargest(r, n);
    RestLargest(n);
    TrapFallsShort(r, n);
    assert m["b"].history == [REMNANT] && Rest(n)["b"].history == [REMNANT];
    hide EncodedSize, EstimateBounds, EvictOldest, OldestEstimate, Rest, Trap, Settle, OnNaivePath, EvictedFrom;
    PassGoesOn(m);
    OffThePath(m, Rest(n), EvictOldest(Rest(n)), Settle(m, None).state);
  }

  /** A state without the small history is not on the naive path, which ends before giving it up. */
  lemma OffThePath(m: Workflows, rest: Workflows, next: Workflows, v: Workflows)
    requires HasHistory(m) && EvictOldest(m) == rest && EncodedSize(rest) <= MAX_STATE_FILE_SIZE
    requires "b" in m && m["b"].history != [] && "b" in rest && rest["b"].history != []
    requires "b" in next && next["b"].history == [] && EvictedFrom(next, v)
    ensures !OnNaivePath(m, v)
  {
    hide EncodedSize, LargestKey;
    assert v["b"].history == [];
    assert !OnNaivePath(rest, v);
  }

  /**
   The estimate of a record bounds what its eviction frees exactly when no
   ledger, whatever else well-estimated it holds, loses a record from a
   state that fits on its account.
   */
  lemma EstimateNeededExactly(r: HistoryRecord)
    ensures EstimateBounds(r) <==> forall m :: OnlyDoubts(m, r) ==> !OverEvicts(m)
  {
    if EstimateBounds(r) {
      forall m | OnlyDoubts(m, r)
        ensures !OverEvicts(m)
      {
        hide EstimateBounds, Settle, OnNaivePath;
        SettleIsNaive(m, None);
      }
    } else {
      var n := FullRest();
      TrapOverEvicts(r, n);
      TrapDoubts(r, n);
      hide EstimateBounds, OverEvicts, OnlyDoubts, Trap;
    }
  }

  lemma TrapDoubts(r: HistoryRecord, n: nat)
    ensures OnlyDoubts(Trap(r, n), r)
  {
    RemnantIsClean();
    CleanEstimateBounds(REMNANT);
    hide EstimateBounds, ZeroId, Pad;
  }

  // ----- one such record -----

  /** A commit of two thousand digits, which only the history of the workflow under review is checked for. */
  const LONG_COMMIT := HistoryRecord(1, Pad(2000), ZeroId(), "r", "", None)

  lemma LongCommitBreaksEstimate()
    ensures !EstimateBounds(LONG_COMMIT) && !CleanRecord(LONG_COMMIT)
    ensures exists m :: OnlyDoubts(m, LONG_COMMIT) && OverEvicts(m)
  {
    LongCommitSize();
    assert |LONG_COMMIT.commit| == 2000;
    hide EstimateBounds, OverEvicts, OnlyDoubts;
    EstimateNeededExactly(LONG_COMMIT);
  }

  lemma LongCommitSize()
    ensures !EstimateBounds(LONG_COMMIT)
  {
    PlainSize("r");
    PadSize(2000);
    LongCommitFields(RecordFields(LONG_COMMIT));
    hide QuotedSize, Pad, ZeroId, RecordFields, FieldsSize;
    assert Size(RecordJson(LONG_COMMIT), 4) == FieldsSize(RecordFields(LONG_COMMIT), 4) + 10;
  }

  lemma LongCommitFields(fs: seq<Field>)
    requires |fs| >= 2 && fs[1] == Field(COMMIT, Str(Pad(2000)))
    ensures FieldsSize(fs, 4) >= 2000
  {
    PadSize(2000);
    hide QuotedSize, Pad, FieldsSize;
    FieldsSizePeel(fs, 4);
    FieldsSizePeel(fs[1..], 4);
  }
}
