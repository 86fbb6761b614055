/** The file system as an object that changes step by step.

    Every operation may fail for reasons outside the model (permissions, a full
    disk, a lost mount). The ghost counter `faults` counts these failures, so that
    a contract can say what happens if there are none and what happens anyway.
 */
module FileSystem {
  import opened Paths
  import opened Trees

  datatype Outcome = Done | Missing | Failed

  /** The ancestors of p and p itself. */
  function Upto(p: Path): (r: set<Path>)
    ensures forall a :: a in r <==> a <= p
  {
    var r := set i | 0 <= i <= |p| :: p[..i];
    assert forall a :: a <= p ==> a == p[..|a|];
    r
  }

  /** The tree after p and its missing ancestors have been made directories. */
  function WithDirs(t: Tree, p: Path): Tree {
    map q | q in t.Keys + Upto(p) :: if q in t then t[q] else Dir
  }

  /** Every node on the way to p that exists is a directory. */
  ghost predicate OpenWay(t: Tree, p: Path) {
    forall a :: a <= p && a in t ==> t[a].Dir?
  }

  /** The directories os.walk visits from top down: real directories only, without names in skip. */
  predicate Walked(t: Tree, top: Path, skip: string -> bool, p: Path) {
    && top <= p && IsDir(t, p)
    && forall i :: |top| <= i < |p| ==> !skip(p[i])
  }

  class Disk {
    var tree: Tree
    ghost var faults: nat

    ghost predicate Valid()
      reads this
    {
      WellFormed(tree)
    }

    constructor (t: Tree)
      requires WellFormed(t)
      ensures Valid() && tree == t && faults == 0
    {
      tree, faults := t, 0;
    }

    /** An operation may fail; a failure is counted. */
    method Works() returns (ok: bool)
      modifies `faults
      ensures ok ==> faults == old(faults)
      ensures !ok ==> faults == old(faults) + 1
    {
      ok := *;
      if !ok {
        faults := faults + 1;
      }
    }

    /** `os.unlink`. */
    method Unlink(p: Path) returns (r: Outcome)
      requires Valid()
      modifies this
      ensures Valid() && faults >= old(faults)
      ensures tree == if r.Done? then old(tree) - {p} else old(tree)
      ensures r.Missing? <==> p !in old(tree)
      ensures r.Done? ==> p in old(tree) && !old(tree)[p].Dir? && faults == old(faults)
      ensures p in old(tree) && !old(tree)[p].Dir? && faults == old(faults) ==> r.Done?
    {
      if p !in tree {
        return Missing;
      }
      if tree[p].Dir? {
        return Failed;
      }
      var ok := Works();
      if !ok {
        return Failed;
      }
      LeavesAreVacant(tree, p);
      WithoutLeaf(tree, p);
      tree := tree - {p};
      return Done;
    }

    /** `os.symlink`. */
    method Symlink(raw: string, p: Path) returns (ok: bool)
      requires Valid() && Normal(p)
      modifies this
      ensures Valid() && faults >= old(faults)
      ensures tree == if ok then old(tree)[p := Link(raw)] else old(tree)
      ensures ok ==> p !in old(tree) && p != [] && IsDir(old(tree), Parent(p)) && faults == old(faults)
      ensures p !in old(tree) && p != [] && IsDir(old(tree), Parent(p)) && faults == old(faults) ==> ok
    {
      if p in tree || p == [] || !IsDir(tree, Parent(p)) {
        return false;
      }
      ok := Works();
      if ok {
        WithNode(tree, p, Link(raw));
        tree := tree[p := Link(raw)];
      }
    }

    /** `os.replace` of a link over a link. */
    method Replace(src: Path, dst: Path) returns (ok: bool)
      requires Valid() && src != dst && IsLink(tree, src) && IsLink(tree, dst)
      modifies this
      ensures Valid() && faults >= old(faults)
      ensures tree == if ok then (old(tree) - {src})[dst := old(tree)[src]] else old(tree)
      ensures ok <==> faults == old(faults)
    {
      ok := Works();
      if ok {
        LeavesAreVacant(tree, src);
        WithoutLeaf(tree, src);
        assert dst in tree - {src};
        LeavesAreVacant(tree, dst);
        WithNode(tree - {src}, dst, tree[src]);
        tree := (tree - {src})[dst := tree[src]];
      }
    }

    /** `os.rmdir`: only an empty directory can be removed. */
    method Rmdir(p: Path) returns (ok: bool)
      requires Valid() && p != []
      modifies this
      ensures Valid() && faults >= old(faults)
      ensures tree == if ok then old(tree) - {p} else old(tree)
      ensures ok ==> IsDir(old(tree), p) && faults == old(faults)
      ensures IsDir(old(tree), p) && faults == old(faults) ==> (ok <==> Vacant(old(tree), p))
    {
      if !IsDir(tree, p) {
        return false;
      }
      var entries := ListDir(p);
      if entries != [] {
        assert entries[0] in entries && p < entries[0];
        return false;
      }
      EmptyMeansVacant(tree, p);
      ok := Works();
      if ok {
        WithoutLeaf(tree, p);
        tree := tree - {p};
      }
    }

    /** `Path.mkdir(parents=True, exist_ok=True)`. */
    method Mkdirs(p: Path) returns (ok: bool)
      requires Valid() && Normal(p)
      modifies this
      ensures Valid() && faults >= old(faults)
      ensures ok ==> tree == WithDirs(old(tree), p) && OpenWay(old(tree), p) && faults == old(faults)
      ensures OpenWay(old(tree), p) && faults == old(faults) ==> ok
      ensures forall q :: Same(old(tree), tree, q) || (q !in old(tree) && q <= p && IsDir(tree, q))
      decreases |p|
    {
      if p in tree {
        ok := tree[p].Dir?;
        if ok {
          AlreadyThere(tree, p);
        }
        return;
      }
      ghost var before := tree;
      ok := Mkdirs(Parent(p));
      if !ok {
        return;
      }
      assert OpenWay(before, p) by {
        forall a | a <= p && a in before ensures before[a].Dir? {
          assert a != p;
          assert a <= Parent(p);
        }
      }
      ok := Works();
      if ok {
        assert Parent(p) in Upto(Parent(p)) && p !in Upto(Parent(p));
        WithNode(tree, p, Dir);
        tree := tree[p := Dir];
        WithDirsStep(before, p);
      }
    }

    /** The entries of a directory, in arbitrary order. */
    method ListDir(p: Path) returns (entries: seq<Path>)
      requires Valid()
      ensures forall i, j :: 0 <= i < j < |entries| ==> entries[i] != entries[j]
      ensures forall q :: q in entries <==> q in tree && q != [] && Parent(q) == p
    {
      entries := Enumerate(set q | q in tree && q != [] && Parent(q) == p);
    }

    /** The directories `os.walk` visits from top, parents before children or the other way round, siblings in
        arbitrary order. */
    method Walk(top: Path, topDown: bool, skip: string -> bool) returns (dirs: seq<Path>)
      requires Valid()
      ensures forall i, j :: 0 <= i < j < |dirs| ==> dirs[i] != dirs[j]
      ensures forall p :: p in dirs <==> Walked(tree, top, skip, p)
      ensures forall i, j :: 0 <= i < j < |dirs| ==> InOrder(dirs[i], dirs[j], topDown)
    {
      var visited := set p | p in tree && Walked(tree, top, skip, p) :: p;
      dirs := Linearize(visited, topDown);
    }
  }

  lemma {:induction false} ChildOnTheWay(t: Tree, p: Path, q: Path)
    requires WellFormed(t) && q in t && p < q
    ensures exists c :: c in t && c != [] && Parent(c) == p
    decreases |q|
  {
    if Parent(q) != p {
      ChildOnTheWay(t, p, Parent(q));
    }
  }

  /** Nothing lies below p. */
  ghost predicate Vacant(t: Tree, p: Path) {
    forall q :: q in t ==> !(p < q)
  }

  lemma WithoutLeaf(t: Tree, p: Path)
    requires WellFormed(t) && p != [] && Vacant(t, p)
    ensures WellFormed(t - {p})
  {
    forall q | q in t - {p} && q != []
      ensures Normal(q) && IsDir(t - {p}, Parent(q))
    {
      assert Parent(q) < q;
    }
  }

  lemma WithNode(t: Tree, p: Path, node: Node)
    requires WellFormed(t) && p != [] && Normal(p) && IsDir(t, Parent(p)) && !IsDir(t, p)
    ensures WellFormed(t[p := node])
  {
    var u := t[p := node];
    forall q | q in u && q != []
      ensures Normal(q) && IsDir(u, Parent(q))
    {
      assert Parent(q) != p || q == p;
    }
  }

  lemma LeavesAreVacant(t: Tree, p: Path)
    requires WellFormed(t) && p in t && !t[p].Dir?
    ensures Vacant(t, p) && p != []
  {
    forall q | q in t && p < q ensures false {
      AncestorsAreDirs(t, q, p);
    }
  }

  lemma EmptyMeansVacant(t: Tree, p: Path)
    requires WellFormed(t)
    requires forall q :: q in t && q != [] ==> Parent(q) != p
    ensures Vacant(t, p)
  {
    forall q | q in t && p < q ensures false {
      ChildOnTheWay(t, p, q);
    }
  }

  lemma AlreadyThere(t: Tree, p: Path)
    requires WellFormed(t) && IsDir(t, p)
    ensures WithDirs(t, p) == t && OpenWay(t, p)
  {
    forall a | a <= p
      ensures a in t && t[a].Dir?
    {
      if a < p {
        AncestorsAreDirs(t, p, a);
      } else {
        assert a == p;
      }
    }
    assert WithDirs(t, p).Keys == t.Keys by {
      forall a | a in Upto(p) ensures a in t {}
    }
  }

  lemma WithDirsStep(t: Tree, p: Path)
    requires p != []
    ensures WithDirs(t, Parent(p))[p := if p in t then t[p] else Dir] == WithDirs(t, p)
  {
    forall q
      ensures q in Upto(p) <==> q == p || q in Upto(Parent(p))
    {
      if q <= p && q != p {
        assert q < p && q <= Parent(p);
      }
    }
  }

  /** The paths in some order. */
  method Enumerate(paths: set<Path>) returns (r: seq<Path>)
    ensures forall i, j :: 0 <= i < j < |r| ==> r[i] != r[j]
    ensures forall q :: q in r <==> q in paths
    ensures |r| == |paths|
  {
    var todo := paths;
    r := [];
    while todo != {}
      invariant todo <= paths && forall q :: q in paths <==> q in todo || q in r
      invariant forall q :: q in r ==> q !in todo
      invariant forall i, j :: 0 <= i < j < |r| ==> r[i] != r[j]
      invariant |r| + |todo| == |paths|
      decreases todo
    {
      var q :| q in todo;
      r := r + [q];
      todo := todo - {q};
    }
  }

  /** a may come before b. */
  predicate InOrder(a: Path, b: Path, topDown: bool) {
    if topDown then !(b < a) else !(a < b)
  }

  /** The paths in some order in which ancestors come first, or last. */
  method Linearize(paths: set<Path>, topDown: bool) returns (r: seq<Path>)
    ensures forall i, j :: 0 <= i < j < |r| ==> r[i] != r[j]
    ensures forall q :: q in r <==> q in paths
    ensures forall i, j :: 0 <= i < j < |r| ==> InOrder(r[i], r[j], topDown)
  {
    var todo := paths;
    r := [];
    while todo != {}
      invariant todo <= paths && forall q :: q in paths <==> q in todo || q in r
      invariant forall q :: q in r ==> q !in todo
      invariant forall i, j :: 0 <= i < j < |r| ==> r[i] != r[j]
      invariant forall i, j :: 0 <= i < j < |r| ==> InOrder(r[i], r[j], topDown)
      invariant forall i, q :: 0 <= i < |r| && q in todo ==> InOrder(r[i], q, topDown)
      decreases todo
    {
      FirstPath(todo, topDown);
      var p :| p in todo && forall q :: q in todo ==> InOrder(p, q, topDown);
      r := r + [p];
      todo := todo - {p};
    }
  }

  /** Among finitely many paths, one may come before all others. */
  lemma FirstPath(paths: set<Path>, topDown: bool)
    requires paths != {}
    ensures exists p :: p in paths && forall q :: q in paths ==> InOrder(p, q, topDown)
    decreases paths
  {
    var p :| p in paths;
    if r :| r in paths && !InOrder(p, r, topDown) {
      var closer := set q | q in paths && !InOrder(p, q, topDown);
      assert p !in closer && r in closer;
      FirstPath(closer, topDown);
      var first :| first in closer && forall q :: q in closer ==> InOrder(first, q, topDown);
      forall q | q in paths
        ensures InOrder(first, q, topDown)
      {
        if q in closer {
        } else if !InOrder(first, q, topDown) {
          assert q != first;
        }
      }
    }
  }
}
