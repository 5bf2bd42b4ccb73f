/**
 What one sweep of a stale directory achieves (sweepEntry of
 internal/scratch/sweep.go): when none of its system calls fails, nothing
 is left of the directory's items but links, and no trash, whatever other
 processes do meanwhile.
 */
module SweepPass {
  import opened LockTable
  import opened SweepProtocol

  /** No rename and no removal fails, and the sweep neither leaves the directory nor dies. */
  predicate FaultFree(a: Action) {
    (a.MoveItem? ==> a.renamed) && (a.RemoveNext? ==> a.gone) && !a.DropEntry? && !a.Crash?
  }

  ghost predicate StepsFaultFree(s: System, s': System, p: Pid) {
    exists q, a :: Next(s, q, a, s') && (q == p ==> FaultFree(a))
  }

  /** The process p goes from re-judging a directory to the end of its trash without a fault. */
  ghost predicate Pass(states: seq<System>, p: Pid, i: nat, j: nat) {
    && Run(states) && i <= j < |states|
    && ProcOf(states[i], p).pc == Rejudging
    && (forall k | i <= k < j :: StepsFaultFree(states[k], states[k + 1], p))
    && ProcOf(states[j], p).pc == Trashing && ProcOf(states[j], p).names == []
  }

  /** Gone, or a link. */
  predicate OutOfTheWay(d: Dir, i: Item) {
    ItemName(i) in d ==> d[ItemName(i)].kind == Link
  }

  predicate AllOutOfTheWay(d: Dir, todo: seq<Item>) {
    forall i: Item | i !in todo :: OutOfTheWay(d, i)
  }

  predicate TrashListed(d: Dir, names: seq<string>) {
    forall n | n in d && IsTrash(n) :: n in names
  }

  /** How far the pass has come at each of its program counters. */
  predicate Cleaning(x: Process, d: Dir, entry: Name, now: Time, stale: bool) {
    && HoldsEntry(x.pc) && x.entry == entry && x.now == now
    && (stale && x.pc == Rejudging ==> Stale(d, now))
    && (stale && x.pc != Rejudging ==> AllOutOfTheWay(d, if x.pc == Moving then x.todo else []))
    && (x.pc == Trashing ==> TrashListed(d, x.names))
  }

  /** Everything starts out in the way, and all of it is on the list. */
  lemma AllListed(d: Dir)
    ensures AllOutOfTheWay(d, SWEPT_ITEMS)
  {
    assert forall i: Item :: i in SWEPT_ITEMS by {
      forall i: Item
        ensures i in SWEPT_ITEMS
      {
        match i
        case Cache => assert SWEPT_ITEMS[0] == i;
        case Checkout => assert SWEPT_ITEMS[1] == i;
        case Tmp => assert SWEPT_ITEMS[2] == i;
        case Hooks => assert SWEPT_ITEMS[3] == i;
        case Used => assert SWEPT_ITEMS[4] == i;
      }
    }
  }

  lemma MoveCleans(s: System, x: Process, suffix: string)
    requires x.pc == Moving && x.todo != [] && AllOutOfTheWay(DirOf(s, x.entry), x.todo)
    ensures var d := DirOf(s, x.entry);
            AllOutOfTheWay(NextDir(s, x, MoveItem(suffix, true), d), x.todo[1..])
  {
    NamesApart();
    hide ItemName, IsTrash, DirOf;
    var d := DirOf(s, x.entry);
    var d' := NextDir(s, x, MoveItem(suffix, true), d);
    forall i: Item | i !in x.todo[1..]
      ensures OutOfTheWay(d', i)
    {
      assert i in x.todo ==> i == x.todo[0];
      assert ItemName(i) != TRASH + suffix;
      assert i !in x.todo ==> OutOfTheWay(d, i);
    }
  }

  lemma RemoveCleans(s: System, x: Process, d: Dir)
    requires x.names != [] && TrashListed(d, x.names)
    ensures var d' := NextDir(s, x, RemoveNext(true), d); TrashListed(d', x.names[1..]) && d'.Items <= d.Items
  {
    hide IsTrash;
    var d' := NextDir(s, x, RemoveNext(true), d);
    forall n | n in d' && IsTrash(n)
      ensures n in x.names[1..]
    {
      assert n in x.names && n != x.names[0];
    }
  }

  lemma FewerOutOfTheWay(d: Dir, d': Dir, todo: seq<Item>)
    requires AllOutOfTheWay(d, todo) && d'.Items <= d.Items
    ensures AllOutOfTheWay(d', todo)
  {
    forall i: Item | i !in todo
      ensures OutOfTheWay(d', i)
    {
      assert OutOfTheWay(d, i);
      if ItemName(i) in d' {
        assert (ItemName(i), d'[ItemName(i)]) in d'.Items;
      }
    }
  }

  lemma StepCleans(s: System, x: Process, a: Action, now: Time, stale: bool)
    requires Enabled(s, x, a) && FaultFree(a) && Cleaning(x, DirOf(s, x.entry), x.entry, now, stale)
    ensures var d := DirOf(s, x.entry);
            var d' := if WorksInDir(a) && Workplace(x, a) == x.entry then NextDir(s, x, a, d) else d;
            Cleaning(NextProcess(s, x, a), d', x.entry, now, stale)
  {
    var d := DirOf(s, x.entry);
    hide Stale, AllOutOfTheWay, TrashListed, Lists, Has, HasTrash, Sweepable, Complete, IsWorkflowName;
    hide IsTrash, ItemName, DirOf;
    match a
    case Rejudge =>
      AllListed(d);
    case MoveItem(suffix, _) =>
      if stale {
        MoveCleans(s, x, suffix);
      }
    case ListEntries(names) =>
      ListsTrash(d, names);
    case RemoveNext(_) =>
      RemoveCleans(s, x, d);
      if stale {
        FewerOutOfTheWay(d, NextDir(s, x, a, d), []);
      }
    case EndMoves =>
    case _ =>
      hide NextDir;
  }

  /** The sweep's own steps. */
  lemma OwnStepCleans(s: System, p: Pid, a: Action, s': System, now: Time, stale: bool)
    requires Next(s, p, a, s') && FaultFree(a)
    requires var x := ProcOf(s, p); Cleaning(x, DirOf(s, x.entry), x.entry, now, stale)
    ensures var entry := ProcOf(s, p).entry; Cleaning(ProcOf(s', p), DirOf(s', entry), entry, now, stale)
  {
    var x := ProcOf(s, p);
    DirsAfter(s, p, a, s', x.entry);
    assert ProcOf(s', p) == NextProcess(s, x, a);
    hide Next, ProcOf, NextProcess, NextDir, WorksInDir, Workplace, DirOf, Cleaning, Enabled, FaultFree;
    StepCleans(s, x, a, now, stale);
  }

  lemma ListsTrash(d: Dir, names: seq<string>)
    requires Lists(names, d)
    ensures TrashListed(d, names)
  {
  }

  /** Nobody else gets at a directory under its lock. */
  lemma OtherStepSpares(s: System, q: Pid, a: Action, s': System, p: Pid)
    requires Inv(s) && Next(s, q, a, s') && q != p && HoldsEntry(ProcOf(s, p).pc)
    ensures ProcOf(s', p) == ProcOf(s, p) && DirOf(s', ProcOf(s, p).entry) == DirOf(s, ProcOf(s, p).entry)
  {
    var x := ProcOf(s, p);
    assert ProcessOk(s, x);
    OthersDoNotHold(s, q, p, x.entry);
    OnlyHolderChanges(s, q, a, s', x.entry);
    hide Enabled, NextDirs, NextStamps, MoveLocks, NextProcess, IsWorkflowName, Complete, Expired, Unused;
  }

  lemma {:induction false} PassCleans(states: seq<System>, p: Pid, i: nat, j: nat)
    requires Run(states) && i <= j < |states| && ProcOf(states[i], p).pc == Rejudging
    requires forall k | i <= k < j :: StepsFaultFree(states[k], states[k + 1], p)
    ensures var x := ProcOf(states[i], p); var d := DirOf(states[i], x.entry);
            Cleaning(ProcOf(states[j], p), DirOf(states[j], x.entry), x.entry, x.now, Stale(d, x.now))
    decreases j
  {
    hide Run, Stale, DirOf;
    var x := ProcOf(states[i], p);
    if i < j {
      PassCleans(states, p, i, j - 1);
      RunKeepsInv(states, j - 1);
      assert StepsFaultFree(states[j - 1], states[j - 1 + 1], p);
      hide Inv, ProcOf, Cleaning, StepsFaultFree;
      var stale := Stale(DirOf(states[i], x.entry), x.now);
      PassStep(states[j - 1], states[j], p, x.entry, x.now, stale);
    }
  }

  lemma PassStep(s: System, s': System, p: Pid, entry: Name, now: Time, stale: bool)
    requires Inv(s) && StepsFaultFree(s, s', p) && Cleaning(ProcOf(s, p), DirOf(s, entry), entry, now, stale)
    ensures Cleaning(ProcOf(s', p), DirOf(s', entry), entry, now, stale)
  {
    hide Inv, Next, ProcOf, Cleaning, DirOf;
    var q, a :| Next(s, q, a, s') && (q == p ==> FaultFree(a));
    CleaningHolds(ProcOf(s, p), DirOf(s, entry), entry, now, stale);
    if q == p {
      OwnStepCleans(s, p, a, s', now, stale);
    } else {
      OtherStepSpares(s, q, a, s', p);
    }
  }

  lemma CleaningHolds(x: Process, d: Dir, entry: Name, now: Time, stale: bool)
    requires Cleaning(x, d, entry, now, stale)
    ensures HoldsEntry(x.pc) && x.entry == entry
  {
  }

  /**
   A pass without a fault leaves no trash, the directory stale or not, and
   of a stale directory's items only those that are links.
   */
  lemma PassLeavesOnlyLinks(states: seq<System>, p: Pid, i: nat, j: nat)
    requires Pass(states, p, i, j)
    ensures var x := ProcOf(states[i], p); var before, after := DirOf(states[i], x.entry), DirOf(states[j], x.entry);
            && (forall n | n in after && |n| >= 6 :: n[..6] != "trash-")
            && (Stale(before, x.now) ==>
                  forall n | n in after && n in {"cache", "checkout", "tmp", "hooks", "used"} :: after[n].kind == Link)
  {
    PassCleans(states, p, i, j);
    var x := ProcOf(states[i], p);
    var after := DirOf(states[j], x.entry);
    NothingInTheWay(after);
    assert forall n | n in after :: !IsTrash(n);
    hide Run, Stale, DirOf, AllOutOfTheWay, StepsFaultFree;
  }

  lemma NothingInTheWay(d: Dir)
    ensures AllOutOfTheWay(d, []) ==>
              forall n | n in d && n in {"cache", "checkout", "tmp", "hooks", "used"} :: d[n].kind == Link
  {
    if AllOutOfTheWay(d, []) {
      assert OutOfTheWay(d, Cache) && OutOfTheWay(d, Checkout) && OutOfTheWay(d, Tmp);
      assert OutOfTheWay(d, Hooks) && OutOfTheWay(d, Used);
    }
  }

  /**
   A directory is stale when its last use is older than 72 hours: the time
   of its stamp if that is a regular file, whatever the cache's, and else
   the cache directory's.
   */
  lemma StaleExactlyWhen(d: Dir, now: Time)
    ensures Stale(d, now) <==>
            if Has(d, "used", RegularFile) then now - d["used"].mtime > 259_200_000_000_000
            else Has(d, "cache", Directory) && now - d["cache"].mtime > 259_200_000_000_000
  {
  }
}
