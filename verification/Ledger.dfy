/**
 The workflow record and its review history (internal/state/history.go, the
 Workflow type of internal/state/state.go, and incompleteWorkflowField of
 internal/review/review.go).
 */
module Ledger {
  import opened Text

  const MAX_HISTORY_RECORDS := 2
  const MAX_HISTORY_RECORD_BYTES := 24 * 1024
  const MAX_HISTORY_BYTES := 48 * 1024
  const OMITTED_TOO_LARGE := "too-large"

  const MAX_INT := 0x7fff_ffff_ffff_ffff

  /** Go's int and int64 on the 64-bit platforms the program runs on. */
  type Int64 = x: int | -0x8000_0000_0000_0000 <= x <= 0x7fff_ffff_ffff_ffff

  datatype UsageBreakdown = UsageBreakdown(
    input: Int64, cached: Int64, cacheWrite: Int64, output: Int64, reasoning: Int64, total: Int64)
  {
    predicate NonNegative() {
      input >= 0 && cached >= 0 && cacheWrite >= 0 && output >= 0 && reasoning >= 0 && total >= 0
    }
  }

  datatype Usage = Usage(last: UsageBreakdown, total: UsageBreakdown)

  /** An absent usage is valid: absent means unknown. */
  predicate UsageValid(u: Option<Usage>) {
    u.Some? ==> u.value.last.NonNegative() && u.value.total.NonNegative()
  }

  datatype HistoryRecord = HistoryRecord(
    round: Int64, commit: string, base: string, review: string, omitted: string, usage: Option<Usage>)

  datatype Workflow = Workflow(
    threadId: string, lastCommit: string, lastBase: string, lastRequestHash: string, round: Int64,
    lastReview: string, lastWarnings: seq<string>, lastUsage: Option<Usage>, history: seq<HistoryRecord>)
  {
    /** Agreement on everything that records the completed review; history and usage are not part of it. */
    predicate SameReplayFields(o: Workflow) {
      && threadId == o.threadId && lastCommit == o.lastCommit && lastBase == o.lastBase
      && lastRequestHash == o.lastRequestHash && round == o.round && lastReview == o.lastReview
      && lastWarnings == o.lastWarnings
    }

    /** The record without its derived history. */
    function Completed(): Workflow {
      this.(history := [])
    }

    /** The earliest round a prompt can still quote, counting the newest review itself. */
    function FirstRetained(): int {
      round - |history|
    }
  }

  predicate IsHexDigit(c: char) {
    '0' <= c <= '9' || 'a' <= c <= 'f'
  }

  predicate IsObjectId(s: string) {
    (|s| == 40 || |s| == 64) && forall i | 0 <= i < |s| :: IsHexDigit(s[i])
  }

  // ----- records -----

  function NewHistoryRecord(
    round: Int64, commit: string, base: string, review: string, usage: Option<Usage>): HistoryRecord
  {
    if ByteLen(review) > MAX_HISTORY_RECORD_BYTES then HistoryRecord(round, commit, base, "", OMITTED_TOO_LARGE, usage)
    else HistoryRecord(round, commit, base, review, "", usage)
  }

  /** The record a completed round leaves behind when the next round supersedes it. */
  function RecordOf(w: Workflow): HistoryRecord {
    NewHistoryRecord(w.round, w.lastCommit, w.lastBase, w.lastReview, w.lastUsage)
  }

  /** Review text the newest review adds to the next prompt. */
  function NewestBytes(review: string): (n: nat)
    ensures n <= MAX_HISTORY_RECORD_BYTES
  {
    ByteLen(NewHistoryRecord(0, "", "", review, None).review)
  }

  function HistoryBytes(h: seq<HistoryRecord>): nat {
    if h == [] then 0 else ByteLen(h[0].review) + HistoryBytes(h[1..])
  }

  lemma {:induction false} HistoryBytesConcat(a: seq<HistoryRecord>, b: seq<HistoryRecord>)
    ensures HistoryBytes(a + b) == HistoryBytes(a) + HistoryBytes(b)
  {
    if a == [] {
      assert a + b == b;
    } else {
      assert (a + b)[1..] == a[1..] + b;
      HistoryBytesConcat(a[1..], b);
    }
  }

  method SumHistoryBytes(h: seq<HistoryRecord>) returns (n: nat)
    ensures n == HistoryBytes(h)
  {
    n := 0;
    for i := 0 to |h|
      invariant n == HistoryBytes(h[..i])
    {
      HistoryBytesConcat(h[..i], [h[i]]);
      assert h[..i + 1] == h[..i] + [h[i]];
      n := n + ByteLen(h[i].review);
    }
    assert h[..|h|] == h;
  }

  // ----- retention -----

  /** Both bounds: the count, and the bytes together with the newest review quoted beside the records. */
  predicate WithinBounds(h: seq<HistoryRecord>, newestReview: string) {
    |h| <= MAX_HISTORY_RECORDS && HistoryBytes(h) + NewestBytes(newestReview) <= MAX_HISTORY_BYTES
  }

  /** In figures: two records, and 48 KiB of verdicts with the newest one, which counts unless it is over 24 KiB. */
  lemma BoundsInFigures(h: seq<HistoryRecord>, newestReview: string)
    ensures var newest := if ByteLen(newestReview) <= 24_576 then ByteLen(newestReview) else 0;
            WithinBounds(h, newestReview) <==> |h| <= 2 && HistoryBytes(h) + newest <= 49_152
  {
  }

  /** r is the longest suffix of all that meets both bounds. */
  predicate LongestSuffixWithinBounds(all: seq<HistoryRecord>, r: seq<HistoryRecord>, newestReview: string) {
    && |r| <= |all|
    && r == all[|all| - |r|..]
    && WithinBounds(r, newestReview)
    && forall k | 0 <= k < |all| - |r| :: !WithinBounds(all[k..], newestReview)
  }

  /** RetainHistory: the records to persist when a round completes. */
  function Retained(history: seq<HistoryRecord>, previous: HistoryRecord, newestReview: string): seq<HistoryRecord> {
    TrimFront(history + [previous], newestReview)
  }

  function TrimFront(h: seq<HistoryRecord>, newestReview: string): seq<HistoryRecord> {
    if h == [] || WithinBounds(h, newestReview) then h else TrimFront(h[1..], newestReview)
  }

  lemma {:induction false} TrimFrontLongest(h: seq<HistoryRecord>, newestReview: string)
    ensures LongestSuffixWithinBounds(h, TrimFront(h, newestReview), newestReview)
  {
    if h != [] && !WithinBounds(h, newestReview) {
      TrimFrontLongest(h[1..], newestReview);
      var r := TrimFront(h[1..], newestReview);
      assert r == h[1..][|h[1..]| - |r|..] == h[|h| - |r|..];
      forall k | 0 <= k < |h| - |r|
        ensures !WithinBounds(h[k..], newestReview)
      {
        if k == 0 {
          assert h[0..] == h;
        } else {
          assert h[k..] == h[1..][k - 1..];
        }
      }
    }
  }

  /**
   RetainHistory as the source runs it. The loop never slices an empty list,
   because the newest review alone is within the aggregate bound.
   */
  method RetainHistory(history: seq<HistoryRecord>, previous: HistoryRecord, newestReview: string)
    returns (out: seq<HistoryRecord>)
    ensures LongestSuffixWithinBounds(history + [previous], out, newestReview)
    ensures out == Retained(history, previous, newestReview)
  {
    out := history + [previous];
    var newestBytes := ByteLen(NewHistoryRecord(0, "", "", newestReview, None).review);
    var n := SumHistoryBytes(out);
    while |out| > MAX_HISTORY_RECORDS || n + newestBytes > MAX_HISTORY_BYTES
      invariant n == HistoryBytes(out)
      invariant TrimFront(history + [previous], newestReview) == TrimFront(out, newestReview)
      decreases |out|
    {
      out := out[1..];
      n := SumHistoryBytes(out);
    }
    TrimFrontLongest(history + [previous], newestReview);
  }

  /** The verdict just superseded always survives: the per-record caps sum to the aggregate cap. */
  lemma RetainedKeepsPrevious(history: seq<HistoryRecord>, previous: HistoryRecord, newestReview: string)
    requires ByteLen(previous.review) <= MAX_HISTORY_RECORD_BYTES
    ensures var r := Retained(history, previous, newestReview); r != [] && r[|r| - 1] == previous
  {
    var all := history + [previous];
    var r := Retained(history, previous, newestReview);
    TrimFrontLongest(all, newestReview);
    assert all[|all| - 1..] == [previous];
    assert HistoryBytes([previous]) == ByteLen(previous.review) + HistoryBytes([]);
    assert WithinBounds(all[|all| - 1..], newestReview);
  }

  // ----- ledger invariants -----

  datatype HistoryDefect =
    | TooManyRecords
    | WrongRound(i: nat)
    | RoundBelowOne(i: nat)
    | InvalidCommit(i: nat)
    | InvalidBase(i: nat)
    | ReviewAndOmission(i: nat)
    | NeitherReviewNorOmission(i: nat)
    | UnknownOmission(i: nat)
    | ReviewTooLong(i: nat)
    | NegativeUsage(i: nat)
    | NegativeLastUsage
    | TooManyBytes

  function RecordDefect(w: Workflow, i: nat): Option<HistoryDefect>
    requires i < |w.history|
  {
    var r := w.history[i];
    var want := w.round - |w.history| + i;
    if r.round != want then Some(WrongRound(i))
    else if want < 1 then Some(RoundBelowOne(i))
    else if !IsObjectId(r.commit) then Some(InvalidCommit(i))
    else if !IsObjectId(r.base) then Some(InvalidBase(i))
    else if r.review != "" && r.omitted != "" then Some(ReviewAndOmission(i))
    else if r.review == "" && r.omitted == "" then Some(NeitherReviewNorOmission(i))
    else if r.omitted != "" && r.omitted != OMITTED_TOO_LARGE then Some(UnknownOmission(i))
    else if ByteLen(r.review) > MAX_HISTORY_RECORD_BYTES then Some(ReviewTooLong(i))
    else if !UsageValid(r.usage) then Some(NegativeUsage(i))
    else None
  }

  function RecordsDefect(w: Workflow, i: nat): Option<HistoryDefect>
    requires i <= |w.history|
    decreases |w.history| - i
  {
    if i == |w.history| then None
    else if RecordDefect(w, i).Some? then RecordDefect(w, i)
    else RecordsDefect(w, i + 1)
  }

  /** The first way the history violates the ledger's invariants. */
  function InvalidHistory(w: Workflow): Option<HistoryDefect> {
    if |w.history| > MAX_HISTORY_RECORDS then Some(TooManyRecords)
    else if RecordsDefect(w, 0).Some? then RecordsDefect(w, 0)
    else if !UsageValid(w.lastUsage) then Some(NegativeLastUsage)
    else if HistoryBytes(w.history) + NewestBytes(w.lastReview) > MAX_HISTORY_BYTES then Some(TooManyBytes)
    else None
  }

  /** A retained record on its own: ids in full, and exactly one of a bounded review and the fixed omission. */
  predicate CleanRecord(r: HistoryRecord) {
    && r.round >= 1
    && IsObjectId(r.commit) && IsObjectId(r.base)
    && (r.review != "" <==> r.omitted == "")
    && (r.omitted != "" ==> r.omitted == OMITTED_TOO_LARGE)
    && ByteLen(r.review) <= MAX_HISTORY_RECORD_BYTES
    && UsageValid(r.usage)
  }

  /**
   The invariants as the design states them: a bounded, contiguous run of clean
   records ending just before the newest round.
   */
  predicate CleanHistory(w: Workflow) {
    && WithinBounds(w.history, w.lastReview)
    && UsageValid(w.lastUsage)
    && forall i | 0 <= i < |w.history| ::
         CleanRecord(w.history[i]) && w.history[i].round == w.round - |w.history| + i
  }

  lemma {:induction false} RecordsDefectNone(w: Workflow, i: nat)
    requires i <= |w.history|
    ensures RecordsDefect(w, i) == None <==> forall j | i <= j < |w.history| :: RecordDefect(w, j) == None
    decreases |w.history| - i
  {
    if i < |w.history| {
      RecordsDefectNone(w, i + 1);
    }
  }

  /** The validator accepts exactly the clean histories. */
  lemma InvalidHistoryNone(w: Workflow)
    ensures InvalidHistory(w) == None <==> CleanHistory(w)
  {
    RecordsDefectNone(w, 0);
    forall j | 0 <= j < |w.history|
      ensures RecordDefect(w, j) == None <==>
              CleanRecord(w.history[j]) && w.history[j].round == w.round - |w.history| + j
    {
    }
  }

  datatype MissingField =
    MissingThreadId | MissingCommit | MissingBase | MissingRequestHash | MissingReview | MissingRound

  /** incompleteWorkflowField: the first missing invariant of a stored completed-review record. */
  function IncompleteWorkflowField(w: Workflow): Option<MissingField> {
    if w.threadId == "" then Some(MissingThreadId)
    else if !IsObjectId(w.lastCommit) then Some(MissingCommit)
    else if !IsObjectId(w.lastBase) then Some(MissingBase)
    else if w.lastRequestHash == "" then Some(MissingRequestHash)
    else if w.lastReview == "" then Some(MissingReview)
    else if w.round < 1 then Some(MissingRound)
    else None
  }

  predicate Complete(w: Workflow) {
    IncompleteWorkflowField(w) == None
  }

  /** A stored record is complete exactly when all of what a completed review leaves is there. */
  lemma CompleteExactlyWhen(w: Workflow)
    ensures Complete(w) <==>
            && |w.threadId| > 0 && |w.lastRequestHash| > 0 && |w.lastReview| > 0 && w.round > 0
            && |w.lastCommit| in {40, 64} && |w.lastBase| in {40, 64}
            && forall c | c in w.lastCommit + w.lastBase :: '0' <= c <= '9' || 'a' <= c <= 'f'
  {
    HexDigits(w.lastCommit, w.lastBase);
  }

  lemma HexDigits(a: string, b: string)
    ensures (forall c | c in a + b :: '0' <= c <= '9' || 'a' <= c <= 'f') <==>
            (forall i | 0 <= i < |a| :: IsHexDigit(a[i])) && forall i | 0 <= i < |b| :: IsHexDigit(b[i])
  {
    if forall c | c in a + b :: '0' <= c <= '9' || 'a' <= c <= 'f' {
      assert forall i | 0 <= i < |a| :: a[i] in a + b;
      assert forall i | 0 <= i < |b| :: b[i] in a + b;
    }
  }

  // ----- what keeps the invariants -----

  lemma RecordOfIsClean(w: Workflow)
    requires Complete(w) && UsageValid(w.lastUsage)
    ensures CleanRecord(RecordOf(w)) && RecordOf(w).round == w.round
  {
  }

  lemma {:induction false} HistoryBytesSuffix(h: seq<HistoryRecord>, k: nat)
    requires k <= |h|
    ensures HistoryBytes(h[k..]) <= HistoryBytes(h)
  {
    HistoryBytesConcat(h[..k], h[k..]);
    assert h == h[..k] + h[k..];
  }

  /** Dropping records from the front keeps a history clean. */
  lemma CleanHistorySuffix(w: Workflow, k: nat)
    requires CleanHistory(w) && k <= |w.history|
    ensures CleanHistory(w.(history := w.history[k..]))
  {
    HistoryBytesSuffix(w.history, k);
    var v := w.(history := w.history[k..]);
    forall i | 0 <= i < |v.history|
      ensures CleanRecord(v.history[i]) && v.history[i].round == v.round - |v.history| + i
    {
      assert v.history[i] == w.history[k + i];
    }
  }

  /**
   A round completing on a clean workflow leaves a clean one: the history
   rolls over the superseded round, stays a contiguous run ending just
   before the new round, and gives back no round already dropped.
   */
  lemma RolloverIsClean(current: Workflow, done: Workflow)
    requires Complete(current) && CleanHistory(current)
    requires current.round < MAX_INT && done.round == current.round + 1
    requires UsageValid(done.lastUsage)
    ensures var w := done.(history := Retained(current.history, RecordOf(current), done.lastReview));
            CleanHistory(w) && w.FirstRetained() >= current.FirstRetained() && w.history != []
  {
    var all := current.history + [RecordOf(current)];
    var h := Retained(current.history, RecordOf(current), done.lastReview);
    TrimFrontLongest(all, done.lastReview);
    RetainedKeepsPrevious(current.history, RecordOf(current), done.lastReview);
    RecordOfIsClean(current);
    forall i | 0 <= i < |h|
      ensures CleanRecord(h[i]) && h[i].round == done.round - |h| + i
    {
      assert h[i] == all[|all| - |h| + i];
    }
  }

  // ----- what a prompt quotes -----

  /** The records the next round's prompt quotes: the retained history and the newest review. */
  function PromptHistory(w: Workflow): (h: seq<HistoryRecord>)
    ensures |h| == |w.history| + 1
  {
    w.history + [RecordOf(w)]
  }

  /** Rounds disclosed by count only. */
  function OmittedRounds(w: Workflow): int {
    PromptHistory(w)[0].round - 1
  }

  /** Every earlier round is accounted for exactly once: by the count, or by one quoted record, in order. */
  predicate PromptAccountsForEveryRound(w: Workflow) {
    && OmittedRounds(w) >= 0
    && OmittedRounds(w) + |PromptHistory(w)| == w.round
    && forall i | 0 <= i < |PromptHistory(w)| :: PromptHistory(w)[i].round == OmittedRounds(w) + 1 + i
  }

  lemma CleanPromptAccounts(w: Workflow)
    requires w.round >= 1 && CleanHistory(w)
    ensures PromptAccountsForEveryRound(w)
  {
    assert forall i | 0 <= i < |w.history| :: PromptHistory(w)[i] == w.history[i];
  }
}
