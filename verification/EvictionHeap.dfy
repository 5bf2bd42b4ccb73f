/**
 The eviction plan of internal/review/review.go: a binary heap of the
 workflows that still have history, largest first, ties by key, kept in
 place on an array the way container/heap does.
 */
module EvictionHeap {
  import opened Text
  import opened Ledger
  import opened LedgerEncoding

  datatype Candidate = Candidate(key: string, bytes: int)

  /** The plan's Less: x is to be evicted from before y. */
  predicate Less(x: Candidate, y: Candidate) {
    if x.bytes != y.bytes then x.bytes > y.bytes else Before(x.key, y.key)
  }

  /** x may stand above y in the heap. */
  predicate Above(x: Candidate, y: Candidate) {
    !Less(y, x)
  }

  lemma AboveTransitive(x: Candidate, y: Candidate, z: Candidate)
    requires Above(x, y) && Above(y, z)
    ensures Above(x, z)
  {
    BeforeTotal(x.key, y.key);
    BeforeTotal(y.key, z.key);
    BeforeTotal(x.key, z.key);
    if Before(x.key, y.key) && Before(y.key, z.key) {
      BeforeTransitive(x.key, y.key, z.key);
    }
  }

  lemma LessIsAbove(x: Candidate, y: Candidate)
    requires Less(x, y)
    ensures Above(x, y)
  {
    BeforeTotal(x.key, y.key);
  }

  lemma AboveBothWays(x: Candidate, y: Candidate)
    requires Above(x, y) && Above(y, x)
    ensures x == y
  {
    BeforeTotal(x.key, y.key);
  }

  // ----- heap order on sequences -----

  predicate ChildrenBelow(s: seq<Candidate>, top: Candidate, i: nat) {
    && (2 * i + 1 < |s| ==> Above(top, s[2 * i + 1]))
    && (2 * i + 2 < |s| ==> Above(top, s[2 * i + 2]))
  }

  predicate NodeOrdered(s: seq<Candidate>, i: nat)
    requires i < |s|
  {
    ChildrenBelow(s, s[i], i)
  }

  predicate HeapFrom(s: seq<Candidate>, lo: nat) {
    forall i | lo <= i < |s| :: NodeOrdered(s, i)
  }

  predicate ChildOf(j: nat, i: nat) {
    j == 2 * i + 1 || j == 2 * i + 2
  }

  /** Heap order from lo on, except that the candidate at i may be too small for its place. */
  predicate HeapExceptAt(s: seq<Candidate>, lo: nat, i: nat) {
    && (forall k: nat | lo <= k < |s| && k != i :: NodeOrdered(s, k))
    && (forall k: nat | lo <= k < |s| && ChildOf(i, k) :: ChildrenBelow(s, s[k], i))
  }

  predicate DistinctKeys(s: seq<Candidate>) {
    forall i, j | 0 <= i < j < |s| :: s[i].key != s[j].key
  }

  function Swapped(s: seq<Candidate>, i: nat, j: nat): (t: seq<Candidate>)
    requires i < |s| && j < |s|
    ensures |t| == |s| && multiset(t) == multiset(s)
  {
    s[i := s[j]][j := s[i]]
  }

  lemma SwappedDistinct(s: seq<Candidate>, i: nat, j: nat)
    requires i < |s| && j < |s| && DistinctKeys(s)
    ensures DistinctKeys(Swapped(s, i, j))
  {
  }

  /** One step of down: the greater child changes places with the misplaced candidate. */
  lemma SwapDown(s: seq<Candidate>, lo: nat, i: nat, j: nat)
    requires lo <= i < |s| && j < |s| && ChildOf(j, i)
    requires HeapExceptAt(s, lo, i)
    requires forall c: nat | c < |s| && ChildOf(c, i) :: Above(s[j], s[c])
    requires Less(s[j], s[i])
    ensures HeapExceptAt(Swapped(s, i, j), lo, j)
  {
    var t := Swapped(s, i, j);
    LessIsAbove(s[j], s[i]);
    forall k: nat | lo <= k < |s| && k != j
      ensures NodeOrdered(t, k)
    {
      if k == i {
        assert forall c: nat | c < |s| && ChildOf(c, i) && c != j :: t[c] == s[c];
        assert ChildOf(2 * i + 1, i) && ChildOf(2 * i + 2, i);
      } else {
        assert NodeOrdered(s, k);
        assert t[k] == s[k];
        if ChildOf(i, k) {
          assert ChildrenBelow(s, s[k], i);
        }
      }
    }
    assert NodeOrdered(s, j);
    assert ChildrenBelow(t, t[i], j);
  }

  lemma HeapExceptDone(s: seq<Candidate>, lo: nat, i: nat)
    requires lo <= i < |s| && HeapExceptAt(s, lo, i) && NodeOrdered(s, i)
    ensures HeapFrom(s, lo)
  {
  }

  /** The root of a heap stands above every candidate. */
  lemma {:induction false} RootAbove(s: seq<Candidate>, j: nat)
    requires HeapFrom(s, 0) && j < |s|
    ensures Above(s[0], s[j])
    decreases j
  {
    if j == 0 {
      BeforeTotal(s[0].key, s[0].key);
    } else {
      var parent := (j - 1) / 2;
      RootAbove(s, parent);
      assert NodeOrdered(s, parent) && ChildOf(j, parent);
      AboveTransitive(s[0], s[parent], s[j]);
    }
  }

  lemma ChildrenBelowChosen(s: seq<Candidate>, i: nat, j: nat)
    requires i < |s| && j < |s|
    requires forall c: nat | c < |s| && ChildOf(c, i) :: Above(s[j], s[c])
    requires Above(s[i], s[j])
    ensures NodeOrdered(s, i)
  {
    forall c: nat | c < |s| && ChildOf(c, i)
      ensures Above(s[i], s[c])
    {
      AboveTransitive(s[i], s[j], s[c]);
    }
    assert ChildOf(2 * i + 1, i) && ChildOf(2 * i + 2, i);
  }

  /** The child down compares with: the right one only when it is strictly before the left. */
  function GreaterChild(s: seq<Candidate>, i: nat): (j: nat)
    requires 2 * i + 1 < |s|
    ensures j < |s| && ChildOf(j, i)
    ensures forall c: nat | c < |s| && ChildOf(c, i) :: Above(s[j], s[c])
  {
    BeforeTotal(s[2 * i + 1].key, s[2 * i + 1].key);
    if 2 * i + 2 < |s| && Less(s[2 * i + 2], s[2 * i + 1]) then
      LessIsAbove(s[2 * i + 2], s[2 * i + 1]);
      BeforeTotal(s[2 * i + 2].key, s[2 * i + 2].key);
      2 * i + 2
    else 2 * i + 1
  }

  /** What down does to the items of the heap. */
  function SiftDown(s: seq<Candidate>, i: nat): (t: seq<Candidate>)
    requires i < |s|
    ensures |t| == |s|
    decreases |s| - i
  {
    if 2 * i + 1 >= |s| then s
    else
      var j := GreaterChild(s, i);
      if !Less(s[j], s[i]) then s else SiftDown(Swapped(s, i, j), j)
  }

  /** What the loop of down does while the child goes above. */
  lemma SiftDownStep(s: seq<Candidate>, i: nat)
    requires 2 * i + 1 < |s| && Less(s[GreaterChild(s, i)], s[i])
    ensures SiftDown(s, i) == SiftDown(Swapped(s, i, GreaterChild(s, i)), GreaterChild(s, i))
  {
  }

  /** It stops where no child goes above. */
  lemma SiftDownStops(s: seq<Candidate>, i: nat)
    requires i < |s| && (2 * i + 1 < |s| ==> !Less(s[GreaterChild(s, i)], s[i]))
    ensures SiftDown(s, i) == s
  {
  }

  lemma GreaterChildIs(s: seq<Candidate>, i: nat, j: nat)
    requires 2 * i + 1 < |s|
    requires j == if 2 * i + 2 < |s| && Less(s[2 * i + 2], s[2 * i + 1]) then 2 * i + 2 else 2 * i + 1
    ensures j == GreaterChild(s, i)
  {
  }

  /** down restores the heap order it was called to restore, and only moves candidates around. */
  lemma {:induction false} SiftDownHeap(s: seq<Candidate>, lo: nat, i: nat)
    requires lo <= i < |s| && HeapExceptAt(s, lo, i) && DistinctKeys(s)
    ensures var t := SiftDown(s, i); HeapFrom(t, lo) && DistinctKeys(t) && multiset(t) == multiset(s)
    decreases |s| - i
  {
    if 2 * i + 1 >= |s| {
      HeapExceptDone(s, lo, i);
    } else {
      var j := GreaterChild(s, i);
      if !Less(s[j], s[i]) {
        ChildrenBelowChosen(s, i, j);
        HeapExceptDone(s, lo, i);
      } else {
        SwapDown(s, lo, i, j);
        SwappedDistinct(s, i, j);
        SiftDownHeap(Swapped(s, i, j), lo, j);
      }
    }
  }

  /** The plan's Swap. */
  method Swap(items: array<Candidate>, n: nat, i: nat, j: nat)
    requires i < n <= items.Length && j < n
    modifies items
    ensures items[..n] == Swapped(old(items[..n]), i, j)
    ensures items[n..] == old(items[n..])
  {
    items[i], items[j] := items[j], items[i];
  }

  /** container/heap's down on the first n items, starting at start. */
  method Down(items: array<Candidate>, n: nat, start: nat)
    requires start < n <= items.Length
    modifies items
    ensures items[..n] == SiftDown(old(items[..n]), start)
    ensures items[n..] == old(items[n..])
  {
    hide SiftDown, GreaterChild, Less, Swapped;
    var i := start;
    while true
      invariant start <= i < n
      invariant SiftDown(items[..n], i) == SiftDown(old(items[..n]), start)
      invariant items[n..] == old(items[n..])
      decreases n - i
    {
      ghost var s := items[..n];
      var j := 2 * i + 1;
      if j >= n {
        SiftDownStops(s, i);
        break;
      }
      if j + 1 < n && Less(items[j + 1], items[j]) {
        j := j + 1;
      }
      GreaterChildIs(s, i, j);
      if !Less(items[j], items[i]) {
        SiftDownStops(s, i);
        break;
      }
      SiftDownStep(s, i);
      Swap(items, n, i, j);
      i := j;
    }
  }

  /** The items once heap.Pop has moved the last one to the root and cut off the old root. */
  function LastToFront(s: seq<Candidate>): seq<Candidate>
    requires s != []
  {
    if |s| == 1 then [] else [s[|s| - 1]] + s[1..|s| - 1]
  }

  lemma LastToFrontItems(s: seq<Candidate>)
    requires s != []
    ensures multiset(LastToFront(s)) == multiset(s[1..])
    ensures DistinctKeys(s) ==> DistinctKeys(LastToFront(s))
    ensures HeapFrom(s, 1) ==> HeapFrom(LastToFront(s), 1)
  {
    if |s| > 1 {
      var t := LastToFront(s);
      assert s[1..] == s[1..|s| - 1] + [s[|s| - 1]];
      assert forall k | 1 <= k < |t| :: t[k] == s[k];
      if HeapFrom(s, 1) {
        forall k: nat | 1 <= k < |t|
          ensures NodeOrdered(t, k)
        {
          assert NodeOrdered(s, k);
        }
      }
    }
  }

  /** What heap.Pop leaves. */
  function Popped(s: seq<Candidate>): seq<Candidate>
    requires s != []
  {
    var t := LastToFront(s);
    if t == [] then t else SiftDown(t, 0)
  }

  lemma PoppedHeap(s: seq<Candidate>)
    requires s != [] && HeapFrom(s, 1) && DistinctKeys(s)
    ensures HeapFrom(Popped(s), 0) && DistinctKeys(Popped(s)) && multiset(Popped(s)) == multiset(s[1..])
  {
    LastToFrontItems(s);
    if |s| > 1 {
      SiftDownHeap(LastToFront(s), 0, 0);
    }
  }

  /** The items with n bytes taken from the root's estimate. */
  function RootLess(s: seq<Candidate>, n: nat): seq<Candidate>
    requires s != []
  {
    [Candidate(s[0].key, s[0].bytes - n)] + s[1..]
  }

  lemma RootLessItems(s: seq<Candidate>, n: nat)
    requires s != [] && HeapFrom(s, 0) && DistinctKeys(s)
    ensures HeapFrom(RootLess(s, n), 1) && DistinctKeys(RootLess(s, n))
    ensures Elements(RootLess(s, n)) == Elements(s) - {s[0]} + {RootLess(s, n)[0]}
    ensures Elements(s[1..]) == Elements(s) - {s[0]}
  {
    var t := RootLess(s, n);
    forall k: nat | 1 <= k < |t|
      ensures NodeOrdered(t, k)
    {
      assert NodeOrdered(s, k);
    }
    ElementsTail(s);
    assert t[1..] == s[1..];
  }

  /** What shrink leaves when n bytes went from the root's history. */
  function Shrunk(s: seq<Candidate>, n: nat): seq<Candidate>
    requires s != []
  {
    if s[0].bytes - n <= 0 then Popped(RootLess(s, n)) else SiftDown(RootLess(s, n), 0)
  }

  lemma ShrunkHeap(s: seq<Candidate>, n: nat)
    requires s != [] && HeapFrom(s, 0) && DistinctKeys(s)
    ensures HeapFrom(Shrunk(s, n), 0) && DistinctKeys(Shrunk(s, n))
    ensures Elements(Shrunk(s, n)) ==
            Elements(s) - {s[0]} + (if s[0].bytes - n <= 0 then {} else {RootLess(s, n)[0]})
  {
    var t := RootLess(s, n);
    RootLessItems(s, n);
    if s[0].bytes - n <= 0 {
      PoppedHeap(t);
      assert t[1..] == s[1..];
      SameElements(Popped(t), s[1..]);
    } else {
      SiftDownHeap(t, 0, 0);
      SameElements(SiftDown(t, 0), t);
    }
  }

  // ----- candidates as a set -----

  ghost function Elements(s: seq<Candidate>): set<Candidate> {
    set c | c in s
  }

  lemma SameElements(a: seq<Candidate>, b: seq<Candidate>)
    requires multiset(a) == multiset(b)
    ensures Elements(a) == Elements(b)
  {
    forall c
      ensures c in a <==> c in b
    {
      assert c in a <==> c in multiset(a);
      assert c in b <==> c in multiset(b);
    }
  }

  lemma ElementsTail(s: seq<Candidate>)
    requires s != [] && DistinctKeys(s)
    ensures Elements(s[1..]) == Elements(s) - {s[0]}
  {
    forall c
      ensures c in s[1..] <==> c in s && c != s[0]
    {
      if c in s && c != s[0] {
        var j :| 0 <= j < |s| && s[j] == c;
        assert s[1..][j - 1] == c;
      }
    }
  }

  // ----- what the plan should hold -----

  /** Estimated bytes of a workflow's retained history. */
  function HistoryEstimate(h: seq<HistoryRecord>): nat {
    if h == [] then 0 else HistoryRecordBytes(h[0]) + HistoryEstimate(h[1..])
  }

  lemma {:induction false} HistoryEstimatePositive(h: seq<HistoryRecord>)
    ensures HistoryEstimate(h) == 0 <==> h == []
  {
  }

  /** The naive rescan: one candidate for each workflow that still has history. */
  function Candidates(m: Workflows): set<Candidate> {
    set k | k in m && m[k].history != [] :: Candidate(k, HistoryEstimate(m[k].history))
  }

  method EstimateHistory(h: seq<HistoryRecord>) returns (n: nat)
    ensures n == HistoryEstimate(h)
  {
    n := 0;
    var rest := h;
    while rest != []
      invariant n + HistoryEstimate(rest) == HistoryEstimate(h)
      decreases |rest|
    {
      n := n + HistoryRecordBytes(rest[0]);
      rest := rest[1..];
    }
  }

  method CollectCandidates(m: Workflows) returns (list: seq<Candidate>)
    ensures DistinctKeys(list) && forall c :: c in list <==> c in Candidates(m)
  {
    list := [];
    var rest := m.Keys;
    while rest != {}
      invariant rest <= m.Keys
      invariant DistinctKeys(list)
      invariant forall c :: c in list <==>
        c.key in m && c.key !in rest && m[c.key].history != [] && c.bytes == HistoryEstimate(m[c.key].history)
      decreases rest
    {
      var k :| k in rest;
      if m[k].history != [] {
        var n := EstimateHistory(m[k].history);
        list := list + [Candidate(k, n)];
      }
      rest := rest - {k};
    }
  }

  // ----- the plan -----

  class EvictionPlan {
    const items: array<Candidate>
    var len: nat

    ghost predicate Valid()
      reads this, items
    {
      len <= items.Length && HeapFrom(items[..len], 0) && DistinctKeys(items[..len])
    }

    ghost function Contents(): set<Candidate>
      requires Valid()
      reads this, items
    {
      Elements(items[..len])
    }

    /** newEvictionPlan: the candidates in any order, then heap.Init. */
    constructor (m: Workflows)
      ensures Valid() && fresh(this) && fresh(items)
      ensures Contents() == Candidates(m)
    {
      var list := CollectCandidates(m);
      items := new Candidate[|list|](i requires 0 <= i < |list| => list[i]);
      len := |list|;
      new;
      assert items[..len] == list;
      Init();
    }

    /** heap.Init. */
    method Init()
      requires len == items.Length && DistinctKeys(items[..len])
      modifies items
      ensures Valid() && Contents() == Elements(old(items[..len]))
    {
      var i := len / 2;
      while i > 0
        invariant 0 <= i <= len / 2
        invariant HeapFrom(items[..len], i) && DistinctKeys(items[..len])
        invariant multiset(items[..len]) == multiset(old(items[..len]))
      {
        i := i - 1;
        SiftDownHeap(items[..len], i, i);
        Down(items, len, i);
      }
      SameElements(items[..len], old(items[..len]));
    }

    /** The key with the most history bytes, or None when no history remains. */
    method Largest() returns (r: Option<string>)
      requires Valid()
      ensures r.None? <==> Contents() == {}
      ensures r.Some? ==> len > 0 && items[0] in Contents() && r.value == items[0].key
      ensures forall c | c in Contents() :: len > 0 && Above(items[0], c)
    {
      if len == 0 {
        return None;
      }
      r := Some(items[0].key);
      assert items[..len][0] in Contents();
      forall c | c in Contents()
        ensures Above(items[0], c)
      {
        var j :| 0 <= j < len && items[..len][j] == c;
        RootAbove(items[..len], j);
      }
    }

    /** heap.Pop: the root changes places with the last item, which sinks, and is cut off. */
    method Pop()
      requires 0 < len <= items.Length
      modifies this, items
      ensures len == old(len) - 1
      ensures items[..len] == Popped(old(items[..len]))
    {
      ghost var s := items[..len];
      var last := len - 1;
      items[0], items[last] := items[last], items[0];
      assert items[..last] == LastToFront(s);
      len := last;
      if last > 0 {
        Down(items, last, 0);
      }
    }

    /** The array work of shrink. */
    method ShrinkItems(n: nat)
      requires 0 < len <= items.Length
      modifies this, items
      ensures len <= items.Length
      ensures items[..len] == Shrunk(old(items[..len]), n)
    {
      ghost var s := items[..len];
      var left := items[0].bytes - n;
      items[0] := Candidate(items[0].key, left);
      assert items[..len] == RootLess(s, n);
      if left <= 0 {
        Pop();
      } else {
        Down(items, len, 0);
      }
    }

    /** n bytes left the largest candidate's history; it leaves the plan when nothing remains. */
    method Shrink(n: nat)
      requires Valid() && len > 0
      modifies this, items
      ensures Valid()
      ensures var top := old(items[0]); var left := top.bytes - n;
              Contents() == old(Contents()) - {top} + (if left <= 0 then {} else {Candidate(top.key, left)})
    {
      ShrunkHeap(items[..len], n);
      ShrinkItems(n);
    }
  }
}
