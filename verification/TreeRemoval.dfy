/**
 The recursive removal of internal/scratch/sweep.go: descriptor-relative,
 post-order, never following a link and never entering a directory on
 another device. The tree is a map from paths to nodes; every system call
 may fail, and the context may end before any entry.
 */
module TreeRemoval {

  type Path = seq<string>

  datatype Node = File | Link(target: Path) | Directory(device: nat)

  type Nodes = map<Path, Node>

  /** Every node but the root lies in a directory. */
  ghost predicate Tree(nodes: Nodes) {
    forall p | p in nodes && p != [] :: p[..|p| - 1] in nodes && nodes[p[..|p| - 1]].Directory?
  }

  ghost function Under(nodes: Nodes, path: Path): set<Path> {
    set p | p in nodes && path <= p
  }

  predicate Foreign(nodes: Nodes, base: nat, p: Path) {
    p in nodes && nodes[p].Directory? && nodes[p].device != base
  }

  ghost predicate ForeignBelow(nodes: Nodes, base: nat, path: Path) {
    exists p | p in nodes :: path < p && Foreign(nodes, base, p)
  }

  /** p lies in the named subtree, with no directory on another device from the top of it down to p. */
  ghost predicate Removable(nodes: Nodes, base: nat, path: Path, p: Path) {
    path <= p && forall k | |path| <= k <= |p| :: !Foreign(nodes, base, p[..k])
  }

  /** after is before with only removable nodes gone. */
  ghost predicate OnlyRemoved(before: Nodes, after: Nodes, base: nat, path: Path) {
    && (forall p | p in after :: p in before && after[p] == before[p])
    && (forall p | p in before && p !in after :: Removable(before, base, path, p))
  }

  lemma {:induction false} AncestorIn(nodes: Nodes, q: Path, p: Path)
    requires Tree(nodes) && q <= p && p in nodes
    ensures q in nodes && (q != p ==> nodes[q].Directory?)
    decreases |p|
  {
    if q != p {
      var parent := p[..|p| - 1];
      assert parent in nodes && nodes[parent].Directory?;
      AncestorIn(nodes, q, parent);
    }
  }

  /** What lies below path lies in or below one of its entries. */
  lemma ThroughChild(nodes: Nodes, path: Path, p: Path)
    requires Tree(nodes) && path < p && p in nodes
    ensures path + [p[|path|]] <= p && path + [p[|path|]] in nodes
  {
    assert path + [p[|path|]] == p[..|path| + 1];
    AncestorIn(nodes, p[..|path| + 1], p);
  }

  lemma UnderChildSmaller(nodes: Nodes, before: Nodes, path: Path, name: string)
    requires path in before && forall p | p in nodes :: p in before
    ensures |Under(nodes, path + [name])| < |Under(before, path)|
  {
    var inner, outer := Under(nodes, path + [name]), Under(before, path);
    assert inner <= outer - {path};
    assert path in outer;
    SubsetSize(inner, outer - {path});
  }

  lemma {:induction false} SubsetSize<T>(a: set<T>, b: set<T>)
    requires a <= b
    ensures |a| <= |b|
    decreases |a|
  {
    if a != {} {
      var x :| x in a;
      SubsetSize(a - {x}, b - {x});
    }
  }

  class FileSystem {
    var nodes: Nodes

    /** unlinkat without AT_REMOVEDIR, on something that is not a directory. */
    method Unlink(path: Path) returns (ok: bool)
      requires path in nodes && !nodes[path].Directory?
      modifies this
      ensures nodes == if ok then old(nodes) - {path} else old(nodes)
    {
      var fails: bool := *;
      if !fails {
        nodes := nodes - {path};
      }
      return !fails;
    }

    /** unlinkat with AT_REMOVEDIR: a directory that still has entries is never removed. */
    method RemoveDirectory(path: Path) returns (ok: bool, faulted: bool)
      requires path in nodes && nodes[path].Directory?
      modifies this
      ensures nodes == if ok then old(nodes) - {path} else old(nodes)
      ensures ok ==> !faulted && forall name :: path + [name] !in old(nodes)
      ensures !ok && !faulted ==> exists name :: path + [name] in old(nodes)
    {
      var empty := forall p | p in nodes :: |p| != |path| + 1 || p[..|path|] != path;
      if !empty {
        ghost var p :| p in nodes && |p| == |path| + 1 && p[..|path|] == path;
        assert p == path + [p[|path|]];
        return false, false;
      }
      var fails: bool := *;
      if !fails {
        nodes := nodes - {path};
      }
      forall name
        ensures path + [name] !in old(nodes)
      {
        assert (path + [name])[..|path|] == path;
      }
      return !fails, fails;
    }

    method ListNames(path: Path) returns (names: set<string>, ok: bool)
      ensures ok ==> forall name :: name in names <==> path + [name] in nodes
    {
      names := set p | p in nodes && |p| == |path| + 1 && p[..|path|] == path :: p[|path|];
      forall name
        ensures name in names <==> path + [name] in nodes
      {
        var q := path + [name];
        assert q[..|path|] == path && q[|path|] == name;
        assert forall p | p in nodes && |p| == |path| + 1 && p[..|path|] == path :: p == path + [p[|path|]];
      }
      ok := *;
    }

    /** removeTree. faulted reports whether a system call failed or the context ended. */
    method RemoveTree(path: Path, base: nat) returns (ok: bool, ghost faulted: bool)
      requires Tree(nodes)
      modifies this
      ensures Outcome(old(nodes), nodes, base, path, ok, faulted)
      decreases |Under(nodes, path)|
    {
      var cancelled: bool := *;
      var statFails: bool := *;
      if cancelled || statFails {
        return false, true;
      }
      if path !in nodes {
        NothingUnder(nodes, base, path);
        return true, false;
      }
      if !nodes[path].Directory? {
        LeafOnly(nodes, base, path);
        ok := Unlink(path);
        return ok, !ok;
      }
      var openFails: bool := *;
      if openFails {
        return false, true;
      }
      if nodes[path].device != base {
        return true, false;
      }
      var children, listed := ListNames(path);
      if !listed {
        return false, true;
      }
      ok, faulted := RemoveChildren(path, base, children);
      if ok {
        ghost var before, now := old(nodes), nodes;
        ok, faulted := RemoveDirectory(path);
        DirectoryRemoved(before, now, nodes, base, path, ok, faulted);
      }
    }

    /** The loop over a directory's entries; it stops at the first failure. */
    method RemoveChildren(path: Path, base: nat, children: set<string>) returns (ok: bool, ghost faulted: bool)
      requires Tree(nodes) && path in nodes && nodes[path] == Directory(base)
      requires forall name :: name in children <==> path + [name] in nodes
      modifies this
      ensures ok ==> !faulted && Partly(old(nodes), nodes, base, path, {})
      ensures !ok ==> Outcome(old(nodes), nodes, base, path, false, faulted)
      decreases |Under(nodes, path)|, 0
    {
      ghost var before := nodes;
      var todo := children;
      PartlyStart(before, base, path, children);
      while todo != {}
        invariant todo <= children
        invariant Partly(before, nodes, base, path, todo)
        decreases todo
      {
        var name :| name in todo;
        ghost var now := nodes;
        UnderChildSmaller(now, before, path, name);
        ok, faulted := RemoveTree(path + [name], base);
        if !ok {
          ChildFailed(before, now, nodes, base, path, todo, name, faulted);
          return;
        }
        ChildRemoved(before, now, nodes, base, path, todo, name);
        todo := todo - {name};
      }
      return true, false;
    }
  }

  /**
   How a removal ends. Whatever happens, only nodes of the subtree above any
   directory on another device are gone, so links are removed and never
   followed. Success means the name is gone with everything below it, or is
   itself a directory on another device and untouched. Without faults the
   removal fails exactly when such a directory lies inside the subtree.
   */
  ghost predicate Outcome(before: Nodes, after: Nodes, base: nat, path: Path, ok: bool, faulted: bool) {
    && Tree(after) && OnlyRemoved(before, after, base, path)
    && (ok ==> !faulted && after == if Foreign(before, base, path) then before else before - Under(before, path))
    && (!faulted ==> (ok <==> Foreign(before, base, path) || !ForeignBelow(before, base, path)))
  }

  /** What was at and below c is still there. */
  ghost predicate Intact(before: Nodes, now: Nodes, c: Path) {
    Under(now, c) == Under(before, c)
  }

  /**
   The entry c has been removed, with nothing on another device below it, or is
   itself on another device and intact.
   */
  ghost predicate Cleared(before: Nodes, now: Nodes, base: nat, c: Path) {
    if Foreign(before, base, c) then Intact(before, now, c)
    else Under(now, c) == {} && !ForeignBelow(before, base, c)
  }

  /** The state of the loop over path's entries: those named in todo are untouched, the others dealt with. */
  ghost predicate Partly(before: Nodes, now: Nodes, base: nat, path: Path, todo: set<string>) {
    && Tree(before) && Tree(now) && OnlyRemoved(before, now, base, path)
    && path in now && before[path] == Directory(base)
    && (forall name | name in todo :: Intact(before, now, path + [name]))
    && (forall name | name !in todo :: Cleared(before, now, base, path + [name]))
  }

  lemma NothingUnder(nodes: Nodes, base: nat, path: Path)
    requires Tree(nodes) && path !in nodes
    ensures Under(nodes, path) == {} && !ForeignBelow(nodes, base, path)
  {
    forall p | p in nodes && path <= p
      ensures false
    {
      AncestorIn(nodes, path, p);
    }
  }

  lemma LeafOnly(nodes: Nodes, base: nat, path: Path)
    requires Tree(nodes) && path in nodes && !nodes[path].Directory?
    ensures Under(nodes, path) == {path} && !ForeignBelow(nodes, base, path)
    ensures Tree(nodes - {path}) && OnlyRemoved(nodes, nodes - {path}, base, path)
  {
    forall p | p in nodes && path <= p
      ensures p == path
    {
      AncestorIn(nodes, path, p);
    }
    forall name
      ensures path + [name] !in nodes
    {
      assert path <= path + [name];
    }
    TreeWithout(nodes, path);
    assert path[..|path|] == path;
  }

  lemma PartlyStart(before: Nodes, base: nat, path: Path, children: set<string>)
    requires Tree(before) && path in before && before[path] == Directory(base)
    requires forall name :: name in children <==> path + [name] in before
    ensures Partly(before, before, base, path, children)
  {
    forall name | name !in children
      ensures Cleared(before, before, base, path + [name])
    {
      NothingUnder(before, base, path + [name]);
    }
  }

  /** Within an intact entry the tree is still the original one. */
  lemma SameBelow(before: Nodes, now: Nodes, base: nat, c: Path)
    requires Intact(before, now, c) && forall p | p in now :: p in before && now[p] == before[p]
    ensures forall p | c <= p :: Foreign(now, base, p) <==> Foreign(before, base, p)
    ensures ForeignBelow(now, base, c) <==> ForeignBelow(before, base, c)
  {
    forall p | c <= p
      ensures p in now <==> p in before
    {
      assert p in Under(now, c) <==> p in Under(before, c);
    }
  }

  lemma RemovedThroughChild(
    before: Nodes, now: Nodes, after: Nodes, base: nat, path: Path, todo: set<string>, name: string)
    requires Partly(before, now, base, path, todo) && name in todo
    requires OnlyRemoved(now, after, base, path + [name])
    ensures OnlyRemoved(before, after, base, path)
  {
    var c := path + [name];
    SameBelow(before, now, base, c);
    forall p | p in before && p !in after
      ensures Removable(before, base, path, p)
    {
      if p in now {
        assert Removable(now, base, c, p);
        forall k | |path| <= k <= |p|
          ensures !Foreign(before, base, p[..k])
        {
          if k == |path| {
            assert p[..k] == path;
          } else {
            assert c <= p[..k];
          }
        }
      }
    }
  }

  lemma ChildFailed(
    before: Nodes, now: Nodes, after: Nodes, base: nat, path: Path, todo: set<string>, name: string, faulted: bool)
    requires Partly(before, now, base, path, todo) && name in todo
    requires Outcome(now, after, base, path + [name], false, faulted)
    ensures Outcome(before, after, base, path, false, faulted)
  {
    SameBelow(before, now, base, path + [name]);
    RemovedThroughChild(before, now, after, base, path, todo, name);
    if !faulted {
      var p :| p in before && path + [name] < p && Foreign(before, base, p);
      assert path < p;
    }
  }

  /** What becomes of one entry leaves its siblings alone. */
  lemma SiblingKept(now: Nodes, after: Nodes, path: Path, name: string, other: string)
    requires after == now || after == now - Under(now, path + [name])
    requires other != name
    ensures Under(after, path + [other]) == Under(now, path + [other])
  {
    forall p | p in now && path + [other] <= p
      ensures !(path + [name] <= p)
    {
      assert p[|path|] == (path + [other])[|path|];
    }
  }

  /** A removal that reports success has cleared its entry. */
  lemma EntryCleared(before: Nodes, now: Nodes, after: Nodes, base: nat, c: Path)
    requires Intact(before, now, c) && forall p | p in now :: p in before && now[p] == before[p]
    requires Outcome(now, after, base, c, true, false)
    ensures Cleared(before, after, base, c)
  {
    SameBelow(before, now, base, c);
    hide Tree, OnlyRemoved;
  }

  lemma ChildRemoved(before: Nodes, now: Nodes, after: Nodes, base: nat, path: Path, todo: set<string>, name: string)
    requires Partly(before, now, base, path, todo) && name in todo
    requires Outcome(now, after, base, path + [name], true, false)
    ensures Partly(before, after, base, path, todo - {name})
  {
    var c := path + [name];
    RemovedThroughChild(before, now, after, base, path, todo, name);
    EntryCleared(before, now, after, base, c);
    assert path in after by { assert !(c <= path); }
    hide Foreign, ForeignBelow, Under, Tree, OnlyRemoved;
    forall other | other != name
      ensures other in todo ==> Intact(before, after, path + [other])
      ensures other !in todo ==> Cleared(before, after, base, path + [other])
    {
      SiblingKept(now, after, path, name, other);
    }
  }

  /** The end of a directory's removal, both when it goes and when something is left in it. */
  lemma DirectoryRemoved(before: Nodes, now: Nodes, after: Nodes, base: nat, path: Path, ok: bool, faulted: bool)
    requires Partly(before, now, base, path, {})
    requires after == if ok then now - {path} else now
    requires ok ==> !faulted && forall name :: path + [name] !in now
    requires !ok && !faulted ==> exists name :: path + [name] in now
    ensures Outcome(before, after, base, path, ok, faulted)
  {
    if ok {
      ClearedOutcome(before, now, base, path);
    } else if !faulted {
      var name :| path + [name] in now;
      LeftoverIsForeign(before, now, base, path, name);
    }
    hide Tree, OnlyRemoved, Intact, Cleared, Under;
  }

  /** An entry dealt with and still there is on another device. */
  lemma LeftoverIsForeign(before: Nodes, now: Nodes, base: nat, path: Path, name: string)
    requires Partly(before, now, base, path, {}) && path + [name] in now
    ensures ForeignBelow(before, base, path)
  {
    var c := path + [name];
    assert Cleared(before, now, base, c);
    assert c in Under(now, c) && path < c;
  }

  lemma ClearedOutcome(before: Nodes, now: Nodes, base: nat, path: Path)
    requires Partly(before, now, base, path, {}) && forall name :: path + [name] !in now
    ensures Outcome(before, now - {path}, base, path, true, false)
  {
    EmptyMeansCleared(before, now, base, path);
    TreeWithout(now, path);
    RootRemovable(before, now, base, path);
    WholeSubtreeGone(before, now, base, path);
    hide Tree, Removable, OnlyRemoved, Partly, Under;
  }

  lemma RootRemovable(before: Nodes, now: Nodes, base: nat, path: Path)
    requires OnlyRemoved(before, now, base, path) && path in before && before[path] == Directory(base)
    ensures OnlyRemoved(before, now - {path}, base, path)
  {
    assert path[..|path|] == path;
    assert Removable(before, base, path, path);
  }

  lemma WholeSubtreeGone(before: Nodes, now: Nodes, base: nat, path: Path)
    requires OnlyRemoved(before, now, base, path)
    requires forall p | p in before && path < p :: p !in now
    ensures now - {path} == before - Under(before, path)
  {
    var after := now - {path};
    forall p
      ensures p in after <==> p in before - Under(before, path)
    {
      assert path <= p <==> p == path || path < p;
      if p in before && !(path <= p) {
        assert !Removable(before, base, path, p);
      }
    }
    assert after == before - Under(before, path);
  }

  /** Once every entry is dealt with and none is left, nothing is left below path, and nothing foreign was there. */
  lemma EmptyMeansCleared(before: Nodes, now: Nodes, base: nat, path: Path)
    requires Partly(before, now, base, path, {}) && forall name :: path + [name] !in now
    ensures forall p | p in before && path < p :: p !in now && !Foreign(before, base, p)
  {
    forall p | p in before && path < p
      ensures p !in now && !Foreign(before, base, p)
    {
      ThroughChild(before, path, p);
      NothingLeft(before, now, base, path, p[|path|], p);
    }
  }

  lemma NothingLeft(before: Nodes, now: Nodes, base: nat, path: Path, name: string, p: Path)
    requires Partly(before, now, base, path, {}) && path + [name] !in now && path + [name] in before
    requires p in before && path + [name] <= p
    ensures p !in now && !Foreign(before, base, p)
  {
    var c := path + [name];
    assert Cleared(before, now, base, c);
    hide Tree, OnlyRemoved;
    assert c in Under(before, c) && c !in Under(now, c);
    assert p == c || c < p;
    assert p in now ==> p in Under(now, c);
  }

  lemma TreeWithout(nodes: Nodes, path: Path)
    requires Tree(nodes) && forall name :: path + [name] !in nodes
    ensures Tree(nodes - {path})
  {
    forall p | p in nodes - {path} && p != []
      ensures p[..|p| - 1] != path
    {
      assert p == p[..|p| - 1] + [p[|p| - 1]];
    }
  }
}
