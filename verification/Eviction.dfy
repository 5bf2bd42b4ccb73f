/**
 Saving under size pressure (saveCompleted and saveEvictingHistory of
 internal/review/review.go): the batched, heap-driven eviction loop, proved
 to leave exactly what evicting one record at a time and re-encoding after
 each would leave.
 */
module Eviction {
  import opened Text
  import opened Ledger
  import opened LedgerEncoding
  import opened EvictionHeap
  import opened StateFile

  // ----- the naive policy -----

  function CandidateOf(m: Workflows, k: string): Candidate
    requires k in m
  {
    Candidate(k, HistoryEstimate(m[k].history))
  }

  ghost predicate HasHistory(m: Workflows) {
    exists k | k in m :: m[k].history != []
  }

  /** k holds the most history bytes, ties to the smallest key. */
  ghost predicate IsLargest(m: Workflows, k: string) {
    && k in m && m[k].history != []
    && forall j | j in m && m[j].history != [] :: Above(CandidateOf(m, k), CandidateOf(m, j))
  }

  lemma LargestUnique(m: Workflows, j: string, k: string)
    requires IsLargest(m, j) && IsLargest(m, k)
    ensures j == k
  {
    AboveBothWays(CandidateOf(m, j), CandidateOf(m, k));
  }

  lemma {:induction false} LargestExists(m: Workflows)
    requires HasHistory(m)
    ensures exists k :: IsLargest(m, k)
    decreases |m|
  {
    var k :| k in m && m[k].history != [];
    BeforeTotal(k, k);
    var rest := m - {k};
    if HasHistory(rest) {
      LargestExists(rest);
      var j :| IsLargest(rest, j);
      if Above(CandidateOf(m, j), CandidateOf(m, k)) {
        assert forall i | i in m && m[i].history != [] :: i == k || (i in rest && rest[i] == m[i]);
        assert IsLargest(m, j);
      } else {
        LessIsAbove(CandidateOf(m, k), CandidateOf(m, j));
        forall i | i in m && m[i].history != []
          ensures Above(CandidateOf(m, k), CandidateOf(m, i))
        {
          if i != k {
            assert i in rest;
            AboveTransitive(CandidateOf(m, k), CandidateOf(m, j), CandidateOf(m, i));
          }
        }
        assert IsLargest(m, k);
      }
    } else {
      assert forall i | i in m && m[i].history != [] :: i == k || i in rest;
      assert IsLargest(m, k);
    }
  }

  ghost function LargestKey(m: Workflows): (k: string)
    requires HasHistory(m)
    ensures IsLargest(m, k)
  {
    LargestExists(m);
    var k :| IsLargest(m, k);
    k
  }

  /** Evicted from next is the one history larger than every other, or as large and under a smaller key. */
  lemma LargestExactlyWhen(m: Workflows, k: string)
    requires HasHistory(m)
    ensures k == LargestKey(m) <==>
            && k in m && m[k].history != []
            && forall j | j in m && j != k && m[j].history != [] ::
                 var mine, other := HistoryEstimate(m[k].history), HistoryEstimate(m[j].history);
                 other < mine || (other == mine && Before(k, j))
  {
    hide HistoryEstimate, Before;
    forall i, j | i in m && j in m && i != j
      ensures Above(CandidateOf(m, i), CandidateOf(m, j)) <==>
              var mine, other := HistoryEstimate(m[i].history), HistoryEstimate(m[j].history);
              other < mine || (other == mine && Before(i, j))
    {
      BeforeTotal(i, j);
    }
    if k in m {
      BeforeTotal(k, k);
      if IsLargest(m, k) {
        LargestUnique(m, k, LargestKey(m));
      }
    }
  }

  /** One eviction: the oldest record of the largest history goes. */
  ghost function EvictOldest(m: Workflows): Workflows
    requires HasHistory(m)
  {
    var k := LargestKey(m);
    m[k := DropOldest(m[k])]
  }

  lemma DropShrinks(m: Workflows, k: string)
    requires k in m && m[k].history != []
    ensures EncodedSize(m[k := DropOldest(m[k])]) < EncodedSize(m)
  {
    EntriesSizeUpdate(m, k, DropOldest(m[k]));
    EntrySizeSplit(k, m[k]);
    EntrySizeSplit(k, DropOldest(m[k]));
    HistoryFieldFront(m[k].history);
  }

  /** The policy without batches, heap or estimate: encode after every single eviction, stop at the first fit. */
  ghost function NaiveEvict(m: Workflows): Workflows
    decreases EncodedSize(m)
  {
    if EncodedSize(m) <= MAX_STATE_FILE_SIZE || !HasHistory(m) then m
    else
      DropShrinks(m, LargestKey(m));
      NaiveEvict(EvictOldest(m))
  }

  // ----- what eviction preserves -----

  /** after is before with some records gone from the front of some histories, and nothing else changed. */
  ghost predicate EvictedFrom(before: Workflows, after: Workflows) {
    && after.Keys == before.Keys
    && forall k | k in before ::
         && after[k].Completed() == before[k].Completed()
         && |after[k].history| <= |before[k].history|
         && after[k].history == before[k].history[|before[k].history| - |after[k].history|..]
  }

  lemma EvictedFromTransitive(a: Workflows, b: Workflows, c: Workflows)
    requires EvictedFrom(a, b) && EvictedFrom(b, c)
    ensures EvictedFrom(a, c)
  {
    forall k | k in a
      ensures c[k].history == a[k].history[|a[k].history| - |c[k].history|..]
    {
      assert b[k].Completed() == a[k].Completed();
    }
  }

  lemma EvictOldestEvicts(m: Workflows)
    requires HasHistory(m)
    ensures EvictedFrom(m, EvictOldest(m))
  {
    var k := LargestKey(m);
    assert DropOldest(m[k]).history == m[k].history[|m[k].history| - (|m[k].history| - 1)..];
  }

  ghost predicate AllClean(m: Workflows) {
    forall k, i | k in m && 0 <= i < |m[k].history| :: CleanRecord(m[k].history[i])
  }

  /** Every record's estimate bounds what its eviction frees. */
  ghost predicate WellEstimated(m: Workflows) {
    forall k, i | k in m && 0 <= i < |m[k].history| :: EstimateBounds(m[k].history[i])
  }

  lemma CleanIsWellEstimated(m: Workflows)
    requires AllClean(m)
    ensures WellEstimated(m)
  {
    forall k, i | k in m && 0 <= i < |m[k].history|
      ensures EstimateBounds(m[k].history[i])
    {
      CleanEstimateBounds(m[k].history[i]);
    }
  }

  lemma EvictOldestWellEstimated(m: Workflows)
    requires HasHistory(m) && WellEstimated(m)
    ensures WellEstimated(EvictOldest(m))
  {
    var j := LargestKey(m);
    var after := EvictOldest(m);
    forall k, i | k in after && 0 <= i < |after[k].history|
      ensures EstimateBounds(after[k].history[i])
    {
      if k == j {
        assert after[k].history[i] == m[k].history[i + 1];
      }
    }
  }

  /** The naive policy only ever drops history, and stops for no other reason than a fit or nothing left to drop. */
  lemma {:induction false} NaiveEvictResult(m: Workflows)
    ensures EvictedFrom(m, NaiveEvict(m))
    ensures EncodedSize(NaiveEvict(m)) <= MAX_STATE_FILE_SIZE || !HasHistory(NaiveEvict(m))
    decreases EncodedSize(m)
  {
    if EncodedSize(m) <= MAX_STATE_FILE_SIZE || !HasHistory(m) {
      assert forall k | k in m :: m[k].history == m[k].history[0..];
    } else {
      var next := EvictOldest(m);
      DropShrinks(m, LargestKey(m));
      EvictOldestEvicts(m);
      NaiveEvictResult(next);
      EvictedFromTransitive(m, next, NaiveEvict(next));
    }
  }

  // ----- the batches as values -----

  /** How many checks of the context still pass before it is found cancelled; None when it never is. */
  type Polls = Option<nat>

  function NextPoll(polls: Polls): Polls
    requires polls != Some(0)
  {
    if polls.Some? then Some(polls.value - 1) else None
  }

  /** How the loop ends: at a state that fits, with no history left to evict, or at a cancelled context. */
  datatype Settlement = Fits(state: Workflows) | NothingLeft(state: Workflows) | Interrupted(state: Workflows)

  /** The nested loop with a rescan for every record; m is about to be saved. */
  ghost function Settle(m: Workflows, polls: Polls): Settlement
    decreases EncodedSize(m), 1
  {
    if EncodedSize(m) <= MAX_STATE_FILE_SIZE then Fits(m)
    else Pass(m, EncodedSize(m) - MAX_STATE_FILE_SIZE, 0, false, polls)
  }

  /** Within a pass that is to free over bytes and by the estimate has freed some of them. */
  ghost function Pass(m: Workflows, over: int, freed: int, evicted: bool, polls: Polls): Settlement
    decreases EncodedSize(m), if evicted then 2 else 0
  {
    if evicted && freed >= over then Settle(m, polls)
    else if polls == Some(0) then Interrupted(m)
    else if !HasHistory(m) then (if evicted then Settle(m, NextPoll(polls)) else NothingLeft(m))
    else
      DropShrinks(m, LargestKey(m));
      Pass(EvictOldest(m), over, freed + OldestEstimate(m), true, NextPoll(polls))
  }

  /** The estimate for the record that goes next. */
  ghost function OldestEstimate(m: Workflows): nat
    requires HasHistory(m)
  {
    HistoryRecordBytes(m[LargestKey(m)].history[0])
  }

  /** What holds of any end, whatever the histories contain. */
  ghost predicate SoundEnd(m: Workflows, polls: Polls, end: Settlement) {
    && EvictedFrom(m, end.state)
    && (end.Fits? <==> EncodedSize(end.state) <= MAX_STATE_FILE_SIZE && !end.Interrupted?)
    && (end.NothingLeft? ==> !HasHistory(end.state))
    && (end.Interrupted? ==> polls.Some?)
  }

  /** A sound end after one more eviction is a sound end. */
  lemma SoundBefore(m: Workflows, polls: Polls, end: Settlement)
    requires HasHistory(m) && polls != Some(0) && SoundEnd(EvictOldest(m), NextPoll(polls), end)
    ensures SoundEnd(m, polls, end)
  {
    hide EncodedSize;
    EvictOldestEvicts(m);
    EvictedFromTransitive(m, EvictOldest(m), end.state);
  }

  lemma EvictedFromSelf(m: Workflows)
    ensures EvictedFrom(m, m)
  {
    assert forall k | k in m :: m[k].history == m[k].history[0..];
  }

  /**
   For every ledger: only history is given up, each to a suffix, and the loop
   ends with a state that fits, with no history left anywhere, or cancelled.
   */
  lemma {:induction false} SettleIsSound(m: Workflows, polls: Polls)
    ensures SoundEnd(m, polls, Settle(m, polls))
    decreases EncodedSize(m), 1
  {
    hide EncodedSize, EvictedFrom;
    EvictedFromSelf(m);
    if EncodedSize(m) > MAX_STATE_FILE_SIZE {
      PassIsSound(m, EncodedSize(m) - MAX_STATE_FILE_SIZE, 0, false, polls);
    }
  }

  lemma {:induction false} PassIsSound(m: Workflows, over: int, freed: int, evicted: bool, polls: Polls)
    requires !evicted ==> EncodedSize(m) > MAX_STATE_FILE_SIZE
    ensures SoundEnd(m, polls, Pass(m, over, freed, evicted, polls))
    decreases EncodedSize(m), if evicted then 2 else 0
  {
    hide EncodedSize, EvictedFrom;
    EvictedFromSelf(m);
    if evicted && freed >= over {
      SettleIsSound(m, polls);
    } else if polls != Some(0) {
      if HasHistory(m) {
        DropShrinks(m, LargestKey(m));
        PassIsSound(EvictOldest(m), over, freed + OldestEstimate(m), true, NextPoll(polls));
        SoundBefore(m, polls, Pass(m, over, freed, evicted, polls));
      } else if evicted {
        SettleIsSound(m, NextPoll(polls));
      }
    }
  }

  // ----- the batches against the naive policy -----

  /** The evictions of the naive policy. */
  ghost function NaiveSteps(m: Workflows): nat
    decreases EncodedSize(m)
  {
    if EncodedSize(m) <= MAX_STATE_FILE_SIZE || !HasHistory(m) then 0
    else
      DropShrinks(m, LargestKey(m));
      1 + NaiveSteps(EvictOldest(m))
  }

  /**
   v is reached from m by evicting the oldest record of the largest history,
   each time from a state that does not fit.
   */
  ghost predicate OnNaivePath(m: Workflows, v: Workflows)
    decreases EncodedSize(m)
  {
    v == m
    || (EncodedSize(m) > MAX_STATE_FILE_SIZE && HasHistory(m)
        && (DropShrinks(m, LargestKey(m)); OnNaivePath(EvictOldest(m), v)))
  }

  /** The context lets by as many evictions as the naive policy makes. */
  ghost predicate InTime(m: Workflows, polls: Polls) {
    polls.Some? ==> NaiveSteps(m) <= polls.value
  }

  ghost predicate NaiveEnd(m: Workflows, polls: Polls, end: Settlement) {
    && (end.Fits? <==> EncodedSize(NaiveEvict(m)) <= MAX_STATE_FILE_SIZE && InTime(m, polls))
    && (!end.Interrupted? ==> end.state == NaiveEvict(m))
    && OnNaivePath(m, end.state)
  }

  /**
   Where the estimates hold the batches are the naive policy: no record goes
   from a state that fits, the state saved is the naive one, and the save is
   attempted exactly when that one fits and the context lasts as long.
   */
  lemma {:induction false} SettleIsNaive(m: Workflows, polls: Polls)
    requires WellEstimated(m)
    ensures NaiveEnd(m, polls, Settle(m, polls))
    decreases EncodedSize(m), 1
  {
    hide EncodedSize, WellEstimated;
    if EncodedSize(m) > MAX_STATE_FILE_SIZE {
      PassIsNaive(m, EncodedSize(m) - MAX_STATE_FILE_SIZE, 0, false, polls);
    }
  }

  /** freed bounds what the state has shrunk by since the pass started, so a pass goes on only while it does not fit. */
  lemma {:induction false} PassIsNaive(m: Workflows, over: int, freed: int, evicted: bool, polls: Polls)
    requires WellEstimated(m) && over + MAX_STATE_FILE_SIZE <= EncodedSize(m) + freed
    requires !evicted ==> freed < over
    ensures NaiveEnd(m, polls, Pass(m, over, freed, evicted, polls))
    decreases EncodedSize(m), if evicted then 2 else 0
  {
    hide EncodedSize, WellEstimated;
    if evicted && freed >= over {
      SettleIsNaive(m, polls);
    } else if polls != Some(0) {
      if HasHistory(m) {
        DropShrinks(m, LargestKey(m));
        EvictOldestWellEstimated(m);
        OldestFreesAtMostEstimate(m);
        PassIsNaive(EvictOldest(m), over, freed + OldestEstimate(m), true, NextPoll(polls));
      } else if evicted {
        SettleIsNaive(m, NextPoll(polls));
      }
    }
  }

  lemma OldestFreesAtMostEstimate(m: Workflows)
    requires HasHistory(m) && WellEstimated(m)
    ensures EncodedSize(m) <= EncodedSize(EvictOldest(m)) + OldestEstimate(m)
  {
    EvictionFrees(m, LargestKey(m));
    assert EstimateBounds(m[LargestKey(m)].history[0]);
    hide EncodedSize, WellEstimated;
  }

  /** A state on the path of the naive policy is one it goes on from to the same end. */
  lemma {:induction false} PathReachesNaive(m: Workflows, v: Workflows)
    requires OnNaivePath(m, v)
    ensures NaiveEvict(v) == NaiveEvict(m) && NaiveSteps(v) <= NaiveSteps(m)
    decreases EncodedSize(m)
  {
    hide EncodedSize;
    if v != m {
      DropShrinks(m, LargestKey(m));
      PathReachesNaive(EvictOldest(m), v);
    }
  }

  // ----- what can be saved at all -----

  /** Evicting never makes the file larger. */
  lemma {:induction false} EvictedIsSmaller(m: Workflows, v: Workflows)
    requires EvictedFrom(m, v)
    ensures EncodedSize(v) <= EncodedSize(m)
    decreases EncodedSize(m)
  {
    if k :| k in m && |v[k].history| < |m[k].history| {
      DropShrinks(m, k);
      DroppedOnTheWay(m, v, k);
      EvictedIsSmaller(m[k := DropOldest(m[k])], v);
    } else {
      hide EncodedSize;
      forall k | k in m
        ensures v[k] == m[k]
      {
        assert v[k].Completed() == m[k].Completed();
      }
      assert v == m;
    }
  }

  lemma DroppedOnTheWay(m: Workflows, v: Workflows, k: string)
    requires EvictedFrom(m, v) && k in m && |v[k].history| < |m[k].history|
    ensures EvictedFrom(m[k := DropOldest(m[k])], v)
  {
    var h := m[k].history;
    assert h[1..][|h| - 1 - |v[k].history|..] == h[|h| - |v[k].history|..];
  }

  /** If any eviction at all makes the ledger fit, the naive policy does. */
  lemma FitsOnlyIfNaiveFits(m: Workflows, v: Workflows)
    requires EvictedFrom(m, v) && EncodedSize(v) <= MAX_STATE_FILE_SIZE
    ensures EncodedSize(NaiveEvict(m)) <= MAX_STATE_FILE_SIZE
  {
    NaiveEvictResult(m);
    hide EncodedSize, NaiveEvict;
    if !HasHistory(NaiveEvict(m)) {
      NoHistoryIsLeast(m, v, NaiveEvict(m));
      EvictedIsSmaller(v, NaiveEvict(m));
    }
  }

  lemma NoHistoryIsLeast(m: Workflows, v: Workflows, n: Workflows)
    requires EvictedFrom(m, v) && EvictedFrom(m, n) && !HasHistory(n)
    ensures EvictedFrom(v, n)
  {
    forall k | k in v
      ensures n[k].history == v[k].history[|v[k].history| - |n[k].history|..]
    {
      assert n[k].history == [];
    }
  }

  /** The ledger with every history given up. */
  function WithoutHistory(m: Workflows): Workflows {
    map k | k in m :: m[k].Completed()
  }

  lemma WithoutHistoryIsEvicted(m: Workflows)
    ensures EvictedFrom(m, WithoutHistory(m)) && !HasHistory(WithoutHistory(m))
  {
  }

  /**
   Whether the naive policy reaches a fit can be told without running it: the
   ledger without any history has to fit.
   */
  lemma NaiveFitsExactlyWhen(m: Workflows)
    ensures EncodedSize(NaiveEvict(m)) <= MAX_STATE_FILE_SIZE <==> EncodedSize(WithoutHistory(m)) <= MAX_STATE_FILE_SIZE
  {
    WithoutHistoryIsEvicted(m);
    NaiveEvictResult(m);
    hide EncodedSize, NaiveEvict, WithoutHistory;
    NoHistoryIsLeast(m, NaiveEvict(m), WithoutHistory(m));
    EvictedIsSmaller(NaiveEvict(m), WithoutHistory(m));
    if EncodedSize(WithoutHistory(m)) <= MAX_STATE_FILE_SIZE {
      FitsOnlyIfNaiveFits(m, WithoutHistory(m));
    }
  }

  /** The save can succeed: without any history the ledger fits, and the context lets by the evictions it takes. */
  ghost predicate WillFit(m: Workflows, polls: Polls) {
    EncodedSize(WithoutHistory(m)) <= MAX_STATE_FILE_SIZE && InTime(m, polls)
  }

  /** Where the estimates hold, a state that fits is reached and written exactly when this can be told before. */
  lemma SettleFitsExactlyWhen(m: Workflows, polls: Polls)
    requires WellEstimated(m)
    ensures Settle(m, polls).Fits? <==> WillFit(m, polls)
    ensures Settle(m, polls).Fits? ==> Settle(m, polls).state == NaiveEvict(m)
  {
    hide EncodedSize, WellEstimated, Settle, NaiveEvict, WithoutHistory, InTime, OnNaivePath;
    SettleIsNaive(m, polls);
    NaiveFitsExactlyWhen(m);
  }

  // ----- the loop -----

  lemma CandidatesAfterDrop(m: Workflows, k: string)
    requires k in m && m[k].history != []
    ensures var h := m[k].history;
            Candidates(m[k := DropOldest(m[k])]) ==
            Candidates(m) - {CandidateOf(m, k)}
            + (if HistoryEstimate(h) - HistoryRecordBytes(h[0]) <= 0 then {}
               else {Candidate(k, HistoryEstimate(h) - HistoryRecordBytes(h[0]))})
  {
    var h := m[k].history;
    var after := m[k := DropOldest(m[k])];
    HistoryEstimatePositive(h[1..]);
    assert HistoryEstimate(h) - HistoryRecordBytes(h[0]) == HistoryEstimate(h[1..]);
    forall c
      ensures c in Candidates(after) <==>
              (c in Candidates(m) && c.key != k) || (h[1..] != [] && c == CandidateOf(after, k))
    {
      InCandidates(m, c);
      InCandidates(after, c);
    }
    forall c | c in Candidates(m)
      ensures c.key == k <==> c == CandidateOf(m, k)
    {
      InCandidates(m, c);
    }
  }

  lemma InCandidates(m: Workflows, c: Candidate)
    ensures c in Candidates(m) <==> c.key in m && m[c.key].history != [] && c == CandidateOf(m, c.key)
  {
  }

  lemma NoCandidates(m: Workflows)
    ensures Candidates(m) == {} <==> !HasHistory(m)
  {
    if HasHistory(m) {
      var k :| k in m && m[k].history != [];
      assert CandidateOf(m, k) in Candidates(m);
    }
  }

  lemma TopIsLargest(m: Workflows, top: Candidate)
    requires top in Candidates(m) && forall c | c in Candidates(m) :: Above(top, c)
    ensures IsLargest(m, top.key) && top == CandidateOf(m, top.key)
  {
    forall j | j in m && m[j].history != []
      ensures Above(top, CandidateOf(m, j))
    {
      assert CandidateOf(m, j) in Candidates(m);
    }
  }

  /** One more eviction, as a step of the pass. */
  lemma PassStep(m: Workflows, over: int, freed: int, evicted: bool, polls: Polls)
    requires HasHistory(m) && polls != Some(0) && !(evicted && freed >= over)
    ensures EncodedSize(EvictOldest(m)) < EncodedSize(m)
    ensures Pass(m, over, freed, evicted, polls)
            == Pass(EvictOldest(m), over, freed + OldestEstimate(m), true, NextPoll(polls))
  {
    hide EncodedSize;
    DropShrinks(m, LargestKey(m));
  }

  /** How a pass ends where it does not go on. */
  lemma PassEnds(m: Workflows, over: int, freed: int, evicted: bool, polls: Polls)
    ensures evicted && freed >= over ==> Pass(m, over, freed, evicted, polls) == Settle(m, polls)
    ensures !(evicted && freed >= over) && polls == Some(0) ==> Pass(m, over, freed, evicted, polls) == Interrupted(m)
    ensures !(evicted && freed >= over) && polls != Some(0) && !HasHistory(m) ==>
              Pass(m, over, freed, evicted, polls) == if evicted then Settle(m, NextPoll(polls)) else NothingLeft(m)
  {
    hide EncodedSize;
  }

  datatype EvictError = SaveFailed(error: SaveError) | Cancelled

  /** plan is in step with the state it was built for. */
  ghost predicate InStep(plan: EvictionPlan, m: Workflows)
    reads plan, plan.items
  {
    plan.Valid() && plan.Contents() == Candidates(m)
  }

  /** The body of the inner loop once a candidate was found: one record goes, and the plan follows. */
  method EvictFrom(st: State, plan: EvictionPlan, k: string) returns (n: nat)
    requires InStep(plan, st.workflows) && plan.len > 0 && k == plan.items[0].key
    requires IsLargest(st.workflows, k) && plan.items[0] == CandidateOf(st.workflows, k)
    modifies st, plan, plan.items
    ensures InStep(plan, st.workflows)
    ensures n == HistoryRecordBytes(old(st.workflows)[k].history[0])
    ensures st.workflows == old(st.workflows)[k := DropOldest(old(st.workflows)[k])]
  {
    var wf := st.workflows[k];
    CandidatesAfterDrop(st.workflows, k);
    n := HistoryRecordBytes(wf.history[0]);
    wf := wf.(history := wf.history[1..]);
    st.Put(k, wf);
    plan.Shrink(n);
  }

  /**
   A round of the inner loop after the context check: the plan's largest
   candidate gives up its oldest record, if there is one.
   */
  method EvictNext(st: State, plan: EvictionPlan) returns (n: Option<nat>)
    requires InStep(plan, st.workflows)
    modifies st, plan, plan.items
    ensures InStep(plan, st.workflows)
    ensures n.Some? <==> HasHistory(old(st.workflows))
    ensures if n.Some? then
              st.workflows == EvictOldest(old(st.workflows)) && n.value == OldestEstimate(old(st.workflows))
            else st.workflows == old(st.workflows)
  {
    NoCandidates(st.workflows);
    var k := plan.Largest();
    if k.None? {
      return None;
    }
    TopIsLargest(st.workflows, plan.items[0]);
    LargestUnique(st.workflows, k.value, LargestKey(st.workflows));
    var estimate := EvictFrom(st, plan, k.value);
    return Some(estimate);
  }

  datatype PassEnd = SaveAgain | OutOfHistory | ContextEnded

  /**
   The inner loop: evict until the estimated bytes freed cover the overshoot
   of the state the pass started from, checking the context before each record.
   */
  method EvictPass(st: State, plan: EvictionPlan, over: nat, polls: Polls) returns (end: PassEnd, left: Polls)
    requires InStep(plan, st.workflows)
    requires over == EncodedSize(st.workflows) - MAX_STATE_FILE_SIZE && over > 0
    modifies st, plan, plan.items
    ensures InStep(plan, st.workflows)
    ensures var end' := Pass(old(st.workflows), over, 0, false, polls);
            match end
            case SaveAgain => end' == Settle(st.workflows, left)
                && EncodedSize(st.workflows) < EncodedSize(old(st.workflows))
            case OutOfHistory => end' == NothingLeft(st.workflows) && st.workflows == old(st.workflows)
            case ContextEnded => end' == Interrupted(st.workflows)
  {
    hide EncodedSize, Pass, Settle, HasHistory;
    ghost var start := st.workflows;
    left := polls;
    var freed := 0;
    var evicted := false;
    while !evicted || freed < over
      invariant InStep(plan, st.workflows)
      invariant Pass(st.workflows, over, freed, evicted, left) == Pass(start, over, 0, false, polls)
      invariant if evicted then EncodedSize(st.workflows) < EncodedSize(start) else st.workflows == start && freed == 0
      decreases EncodedSize(st.workflows)
    {
      PassEnds(st.workflows, over, freed, evicted, left);
      if left == Some(0) {
        return ContextEnded, left;
      }
      ghost var m := st.workflows;
      var n := EvictNext(st, plan);
      if n.None? {
        if evicted {
          left := NextPoll(left);
          return SaveAgain, left;
        }
        return OutOfHistory, left;
      }
      PassStep(m, over, freed, evicted, left);
      left := NextPoll(left);
      freed := freed + n.value;
      evicted := true;
    }
    PassEnds(st.workflows, over, freed, evicted, left);
    return SaveAgain, left;
  }

  /** What the caller is told. */
  ghost function SaveOutcome(loaded: bool, m: Workflows, fault: Fault, polls: Polls): Option<EvictError> {
    if !loaded then Some(SaveFailed(NotLoaded))
    else
      match Settle(m, polls)
      case Fits(_) => if fault == NoFault then None else Some(SaveFailed(WriteFailed))
      case NothingLeft(v) => Some(SaveFailed(TooLarge(EncodedSize(v), MAX_STATE_FILE_SIZE)))
      case Interrupted(_) => Some(Cancelled)
  }

  /** What is on disk afterwards. */
  ghost function FileAfter(loaded: bool, before: FileContent, m: Workflows, fault: Fault, polls: Polls): FileContent {
    if loaded && Settle(m, polls).Fits? && fault != BeforeRename then Encoded(Settle(m, polls).state) else before
  }

  /**
   saveEvictingHistory: it terminates, and with the disk's fault and the
   life of the context given, its error, the state it leaves in memory and
   the file it leaves on disk are those of the loop with a rescan for every
   record.
   */
  method SaveEvictingHistory(store: Store, st: State, fault: Fault, polls: Polls) returns (e: Option<EvictError>)
    modifies st, store.disk
    ensures e == SaveOutcome(store.loaded, old(st.workflows), fault, polls)
    ensures st.workflows == if store.loaded then Settle(old(st.workflows), polls).state else old(st.workflows)
    ensures store.disk.content == FileAfter(store.loaded, old(store.disk.content), old(st.workflows), fault, polls)
  {
    hide EncodedSize, Pass;
    ghost var start := st.workflows;
    var left := polls;
    var plan: EvictionPlan? := null;
    while true
      invariant plan != null ==> InStep(plan, st.workflows) && fresh(plan) && fresh(plan.items)
      invariant store.disk.content == old(store.disk.content)
      invariant if store.loaded then Settle(st.workflows, left) == Settle(start, polls) else st.workflows == start
      decreases EncodedSize(st.workflows)
    {
      var err := store.Save(st, fault);
      if err.None? {
        return None;
      }
      if !err.value.TooLarge? {
        return Some(SaveFailed(err.value));
      }
      if plan == null {
        plan := new EvictionPlan(st.workflows);
      }
      var end;
      end, left := EvictPass(st, plan, err.value.size - err.value.limit, left);
      match end
      case ContextEnded => return Some(Cancelled);
      case OutOfHistory => return Some(SaveFailed(err.value));
      case SaveAgain =>
    }
  }
}
