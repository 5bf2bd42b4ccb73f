/**
 What the stored record of a workflow means in terms of the rounds that were
 saved for it.
 */
module SavedRounds {
  import opened Text
  import opened Ledger

  /** The completed records of one key, in order: rounds 1, 2, 3, ... on one thread. */
  predicate SavesOk(saves: seq<Workflow>) {
    && saves != []
    && forall i | 0 <= i < |saves| ::
         && saves[i].round == i + 1 && saves[i].history == []
         && Complete(saves[i]) && UsageValid(saves[i].lastUsage)
         && saves[i].threadId == saves[0].threadId
  }

  /**
   The stored record is the last completed one, and each history record is
   what the completed round of its number leaves behind: nothing is
   invented, reordered, or taken from another round.
   */
  predicate RecordMatches(w: Workflow, saves: seq<Workflow>) {
    && SavesOk(saves)
    && w.Completed() == saves[|saves| - 1]
    && WithinBounds(w.history, w.lastReview)
    && HistoryMatches(w.history, saves)
  }

  /** h is what the rounds just before the last one leave behind. */
  predicate HistoryMatches(h: seq<HistoryRecord>, saves: seq<Workflow>) {
    && |h| < |saves|
    && forall i | 0 <= i < |h| :: h[i] == RecordOf(saves[|saves| - 1 - |h| + i])
  }

  lemma SuffixMatches(h: seq<HistoryRecord>, k: nat, saves: seq<Workflow>)
    requires HistoryMatches(h, saves) && k <= |h|
    ensures HistoryMatches(h[k..], saves)
  {
    hide RecordOf;
  }

  /** With one more round saved, the last one's record follows on the history. */
  lemma ExtendedMatches(h: seq<HistoryRecord>, saves: seq<Workflow>, done: Workflow)
    requires HistoryMatches(h, saves)
    ensures HistoryMatches(h + [RecordOf(saves[|saves| - 1])], saves + [done])
  {
    hide RecordOf;
  }

  /** Equal completed records agree on every field but the history. */
  lemma CompletedAgrees(a: Workflow, b: Workflow)
    requires a.Completed() == b.Completed()
    ensures a.SameReplayFields(b) && a.lastUsage == b.lastUsage && RecordOf(a) == RecordOf(b)
    ensures Complete(a) == Complete(b)
  {
    assert a == a.Completed().(history := a.history);
    assert b == b.Completed().(history := b.history);
  }

  lemma LastSaveHasNoHistory(saves: seq<Workflow>)
    requires SavesOk(saves)
    ensures saves[|saves| - 1].history == []
  {
  }

  /** A record that matches its saves passes every check the source makes of a stored record. */
  lemma MatchingRecordIsSound(w: Workflow, saves: seq<Workflow>)
    requires RecordMatches(w, saves)
    ensures Complete(w) && CleanHistory(w) && InvalidHistory(w) == None
    ensures w.round == |saves| && w.threadId == saves[0].threadId
  {
    CompletedAgrees(w, saves[|saves| - 1]);
    forall i | 0 <= i < |w.history|
      ensures CleanRecord(w.history[i]) && w.history[i].round == w.round - |w.history| + i
    {
      RecordOfIsClean(saves[|saves| - 1 - |w.history| + i]);
    }
    InvalidHistoryNone(w);
  }

  /** What a stored record says, in terms of the rounds saved for its key. */
  predicate TellsTheSavedRounds(w: Workflow, saves: seq<Workflow>) {
    && w.round == |saves| >= 1
    && w.Completed() == saves[|saves| - 1]
    && (forall j | 0 <= j < |saves| :: saves[j].threadId == w.threadId && saves[j].round == j + 1)
    && (forall j | 0 <= j < |w.history| ::
          w.history[j].round == w.round - |w.history| + j >= 1
              && w.history[j] == RecordOf(saves[w.history[j].round - 1]))
  }

  lemma MatchingRecordTells(w: Workflow, saves: seq<Workflow>)
    requires RecordMatches(w, saves)
    ensures TellsTheSavedRounds(w, saves)
  {
    hide Complete, WithinBounds, CleanRecord;
    MatchingRecordIsSound(w, saves);
  }

  /** Each verdict the next prompt quotes is the one its round saved. */
  predicate QuotesTheSavedRounds(w: Workflow, saves: seq<Workflow>) {
    forall j | 0 <= j < |PromptHistory(w)| ::
      1 <= PromptHistory(w)[j].round <= |saves| && PromptHistory(w)[j] == RecordOf(saves[PromptHistory(w)[j].round - 1])
  }

  lemma MatchingRecordQuotes(w: Workflow, saves: seq<Workflow>)
    requires RecordMatches(w, saves)
    ensures w.round == |saves| && PromptAccountsForEveryRound(w) && QuotesTheSavedRounds(w, saves)
  {
    hide Complete, WithinBounds, CleanRecord, SavesOk, RecordOf;
    MatchingRecordIsSound(w, saves);
    MatchingRecordTells(w, saves);
    CompletedAgrees(w, saves[|saves| - 1]);
    CleanPromptAccounts(w);
    forall j | 0 <= j < |PromptHistory(w)|
      ensures 1 <= PromptHistory(w)[j].round <= |saves|
              && PromptHistory(w)[j] == RecordOf(saves[PromptHistory(w)[j].round - 1])
    {
      if j < |w.history| {
        assert PromptHistory(w)[j] == w.history[j];
      }
    }
  }

  lemma EvictedStaysClean(w: Workflow, v: Workflow, saves: seq<Workflow>)
    requires RecordMatches(w, saves)
    requires v.Completed() == w.Completed() && |v.history| <= |w.history|
    requires v.history == w.history[|w.history| - |v.history|..]
    ensures CleanHistory(v) && WithinBounds(v.history, v.lastReview)
  {
    hide RecordMatches, WithinBounds, CleanRecord;
    MatchingRecordIsSound(w, saves);
    CleanHistorySuffix(w, |w.history| - |v.history|);
    assert v == w.Completed().(history := v.history);
  }

  /** Eviction from the front keeps a record matching. */
  lemma MatchingRecordEvicted(w: Workflow, v: Workflow, saves: seq<Workflow>)
    requires RecordMatches(w, saves)
    requires v.Completed() == w.Completed() && |v.history| <= |w.history|
    requires v.history == w.history[|w.history| - |v.history|..]
    ensures RecordMatches(v, saves)
  {
    EvictedStaysClean(w, v, saves);
    SuffixMatches(w.history, |w.history| - |v.history|, saves);
    hide SavesOk, HistoryMatches, CleanHistory, WithinBounds;
  }

  lemma RolloverStaysClean(w: Workflow, saves: seq<Workflow>, done: Workflow)
    requires RecordMatches(w, saves) && SavesOk(saves + [done])
    ensures var v := done.(history := Retained(w.history, RecordOf(w), done.lastReview));
            && CleanHistory(v) && WithinBounds(v.history, v.lastReview)
            && v.FirstRetained() >= w.FirstRetained() && v.Completed() == done
  {
    var saves' := saves + [done];
    assert saves'[|saves|] == done;
    LastSaveHasNoHistory(saves');
    assert done.Completed() == done;
    hide RecordMatches, WithinBounds, CleanRecord, Retained, Complete;
    MatchingRecordIsSound(w, saves);
    RolloverIsClean(w, done);
  }

  lemma RetainedIsSuffix(history: seq<HistoryRecord>, previous: HistoryRecord, newestReview: string)
    ensures var all, h := history + [previous], Retained(history, previous, newestReview);
            |h| <= |all| && h == all[|all| - |h|..]
  {
    TrimFrontLongest(history + [previous], newestReview);
  }

  lemma RolledHistoryMatches(w: Workflow, saves: seq<Workflow>, done: Workflow)
    requires RecordMatches(w, saves)
    ensures HistoryMatches(Retained(w.history, RecordOf(w), done.lastReview), saves + [done])
  {
    CompletedAgrees(w, saves[|saves| - 1]);
    hide SavesOk, RecordOf, WithinBounds, Retained, HistoryMatches, Complete;
    var all := w.history + [RecordOf(w)];
    ExtendedMatches(w.history, saves, done);
    RetainedIsSuffix(w.history, RecordOf(w), done.lastReview);
    SuffixMatches(all, |all| - |Retained(w.history, RecordOf(w), done.lastReview)|, saves + [done]);
  }

  /** A completed round, rolled over the record as it is at save time, matches the extended saves. */
  lemma RolloverMatches(w: Workflow, saves: seq<Workflow>, done: Workflow)
    requires RecordMatches(w, saves) && SavesOk(saves + [done])
    ensures var v := done.(history := Retained(w.history, RecordOf(w), done.lastReview));
            RecordMatches(v, saves + [done]) && v.FirstRetained() >= w.FirstRetained()
  {
    hide SavesOk, RecordOf, WithinBounds, CleanHistory, Retained, HistoryMatches;
    RolloverStaysClean(w, saves, done);
    RolledHistoryMatches(w, saves, done);
  }

  /** The record to save when a round on an earlier one completes: before is the copy, current the record re-read. */
  lemma NextRecord(before: Workflow, current: Workflow, saves: seq<Workflow>, done: Workflow)
    requires RecordMatches(before, saves) && RecordMatches(current, saves) && SavesOk(saves + [done])
    ensures current.SameReplayFields(before) && InvalidHistory(current) == None
    ensures var w := done.(history := Retained(current.history, RecordOf(before), done.lastReview));
            RecordMatches(w, saves + [done]) && w.FirstRetained() >= current.FirstRetained()
  {
    hide Retained, TrimFront;
    MatchingRecordIsSound(current, saves);
    CompletedAgrees(current, before);
    RolloverMatches(current, saves, done);
  }

  /** The record to save when a first round completes. */
  lemma FirstRecord(done: Workflow)
    requires SavesOk([done])
    ensures RecordMatches(done, [done])
  {
    assert [done][0] == done;
    assert done.Completed() == done;
  }
}
