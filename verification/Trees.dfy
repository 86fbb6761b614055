/** File trees, and how the kernel follows symbolic links through one. */
module Trees {
  import opened Paths

  datatype Option<+T> = None | Some(value: T)

  datatype Node =
    | Dir
    | File(size: nat, mtime: int)
    | Link(raw: string)

  /** The nodes of a file system by path; the root is the empty path. */
  type Tree = map<Path, Node>

  /** Every name is proper and every parent is a directory. */
  ghost predicate WellFormed(t: Tree) {
    && [] in t && t[[]].Dir?
    && forall p :: p in t && p != [] ==> Normal(p) && Parent(p) in t && t[Parent(p)].Dir?
  }

  predicate IsDir(t: Tree, p: Path) {
    p in t && t[p].Dir?
  }

  /** `Path.is_symlink`. */
  predicate IsLink(t: Tree, p: Path) {
    p in t && t[p].Link?
  }

  /** t and u hold the same node, or none, at p. */
  predicate Same(t: Tree, u: Tree, p: Path) {
    if p in t then p in u && t[p] == u[p] else p !in u
  }

  lemma {:induction false} AncestorsAreDirs(t: Tree, p: Path, a: Path)
    requires WellFormed(t) && p in t && a < p
    ensures a in t && t[a].Dir?
    decreases |p|
  {
    if a != Parent(p) {
      AncestorsAreDirs(t, Parent(p), a);
    }
  }

  /** Extensionality in terms of Same. */
  lemma SameEverywhere(t: Tree, u: Tree)
    requires forall p :: Same(t, u, p)
    ensures t == u
  {
    assert t.Keys == u.Keys by {
      forall p ensures p in t <==> p in u { assert Same(t, u, p); }
    }
    forall p | p in t ensures t[p] == u[p] { assert Same(t, u, p); }
  }

  // ---------------------------------------------------------------- following links

  /** How many links the kernel follows before it gives up. */
  const MAX_LINKS: nat := 40

  /** Where a link with text raw in directory dir starts from. */
  function LinkBase(dir: Path, raw: string): Path {
    if IsAbsolute(raw) then [] else dir
  }

  /** The node the kernel reaches from directory cur along the components todo, following at most budget links. */
  function Follow(t: Tree, cur: Path, todo: seq<string>, budget: nat): Option<Path>
    decreases budget, |todo|
  {
    if todo == [] then Some(cur)
    else if todo[0] == "" || todo[0] == "." then Follow(t, cur, todo[1..], budget)
    else if todo[0] == ".." then Follow(t, Parent(cur), todo[1..], budget)
    else
      var next := cur + [todo[0]];
      if next !in t then None
      else match t[next]
        case Dir => Follow(t, next, todo[1..], budget)
        case File(_, _) => if todo[1..] == [] then Some(next) else None
        case Link(raw) =>
          if budget == 0 then None
          else Follow(t, LinkBase(cur, raw), Split(raw) + todo[1..], budget - 1)
  }

  /** The paths looked up on the way. */
  function Touched(t: Tree, cur: Path, todo: seq<string>, budget: nat): set<Path>
    decreases budget, |todo|
  {
    if todo == [] then {}
    else if todo[0] == "" || todo[0] == "." then Touched(t, cur, todo[1..], budget)
    else if todo[0] == ".." then Touched(t, Parent(cur), todo[1..], budget)
    else
      var next := cur + [todo[0]];
      {next} +
      if next !in t then {}
      else match t[next]
        case Dir => Touched(t, next, todo[1..], budget)
        case File(_, _) => {}
        case Link(raw) =>
          if budget == 0 then {}
          else Touched(t, LinkBase(cur, raw), Split(raw) + todo[1..], budget - 1)
  }

  /** `Path.exists` of a directory entry: following it leads to a node. */
  predicate Live(t: Tree, p: Path) {
    p == [] || Follow(t, Parent(p), [Name(p)], MAX_LINKS).Some?
  }

  /** `Path.is_file` of a directory entry: following it leads to a regular file. */
  predicate IsFile(t: Tree, p: Path) {
    p != [] &&
    var end := Follow(t, Parent(p), [Name(p)], MAX_LINKS);
    end.Some? && end.value in t && t[end.value].File?
  }

  /** The paths looked up behind the link p itself. */
  function Behind(t: Tree, p: Path): set<Path>
    requires p != [] && IsLink(t, p)
  {
    Touched(t, LinkBase(Parent(p), t[p].raw), Split(t[p].raw), MAX_LINKS - 1)
  }

  lemma {:induction false} FollowFrame(t: Tree, u: Tree, cur: Path, todo: seq<string>, budget: nat)
    requires forall q :: q in Touched(t, cur, todo, budget) ==> Same(t, u, q)
    ensures Follow(u, cur, todo, budget) == Follow(t, cur, todo, budget)
    ensures Touched(u, cur, todo, budget) == Touched(t, cur, todo, budget)
    decreases budget, |todo|
  {
    if todo == [] {
    } else if todo[0] == "" || todo[0] == "." {
      FollowFrame(t, u, cur, todo[1..], budget);
    } else if todo[0] == ".." {
      FollowFrame(t, u, Parent(cur), todo[1..], budget);
    } else {
      var next := cur + [todo[0]];
      assert next in Touched(t, cur, todo, budget);
      assert Same(t, u, next);
      if next in t {
        match t[next]
        case Dir => FollowFrame(t, u, next, todo[1..], budget);
        case File(_, _) =>
        case Link(raw) =>
          if budget > 0 {
            FollowFrame(t, u, LinkBase(cur, raw), Split(raw) + todo[1..], budget - 1);
          }
      }
    }
  }

  /** What a tree leads to, a larger tree leads to as well. */
  lemma {:induction false} FollowGrows(t: Tree, u: Tree, cur: Path, todo: seq<string>, budget: nat)
    requires forall q :: q in t ==> Same(t, u, q)
    requires Follow(t, cur, todo, budget).Some?
    ensures Follow(u, cur, todo, budget) == Follow(t, cur, todo, budget)
    decreases budget, |todo|
  {
    if todo == [] {
    } else if todo[0] == "" || todo[0] == "." {
      FollowGrows(t, u, cur, todo[1..], budget);
    } else if todo[0] == ".." {
      FollowGrows(t, u, Parent(cur), todo[1..], budget);
    } else {
      var next := cur + [todo[0]];
      match t[next]
      case Dir => FollowGrows(t, u, next, todo[1..], budget);
      case File(_, _) =>
      case Link(raw) => FollowGrows(t, u, LinkBase(cur, raw), Split(raw) + todo[1..], budget - 1);
    }
  }

  /** A walk that arrives also arrives at every intermediate point. */
  lemma {:induction false} FollowPrefix(t: Tree, cur: Path, todo: seq<string>, rest: seq<string>, budget: nat)
    requires Follow(t, cur, todo + rest, budget).Some?
    ensures Follow(t, cur, todo, budget).Some?
    decreases budget, |todo|
  {
    if todo != [] {
      assert (todo + rest)[1..] == todo[1..] + rest;
      if todo[0] == "" || todo[0] == "." {
        FollowPrefix(t, cur, todo[1..], rest, budget);
      } else if todo[0] == ".." {
        FollowPrefix(t, Parent(cur), todo[1..], rest, budget);
      } else {
        var next := cur + [todo[0]];
        match t[next]
        case Dir => FollowPrefix(t, next, todo[1..], rest, budget);
        case File(_, _) =>
        case Link(raw) =>
          assert Split(raw) + (todo[1..] + rest) == Split(raw) + todo[1..] + rest;
          FollowPrefix(t, LinkBase(cur, raw), Split(raw) + todo[1..], rest, budget - 1);
      }
    }
  }

  lemma {:induction false} FollowBudget(t: Tree, cur: Path, todo: seq<string>, budget: nat, more: nat)
    requires budget <= more && Follow(t, cur, todo, budget).Some?
    ensures Follow(t, cur, todo, more).Some?
    decreases budget, |todo|
  {
    if todo == [] {
    } else if todo[0] == "" || todo[0] == "." {
      FollowBudget(t, cur, todo[1..], budget, more);
    } else if todo[0] == ".." {
      FollowBudget(t, Parent(cur), todo[1..], budget, more);
    } else {
      var next := cur + [todo[0]];
      match t[next]
      case Dir => FollowBudget(t, next, todo[1..], budget, more);
      case File(_, _) =>
      case Link(raw) => FollowBudget(t, LinkBase(cur, raw), Split(raw) + todo[1..], budget - 1, more - 1);
    }
  }

  /** Following a directory entry looks up the entry and, if it is a link, what lies behind it. */
  lemma EntryTouches(t: Tree, p: Path)
    requires p != [] && ProperName(Name(p))
    ensures Touched(t, Parent(p), [Name(p)], MAX_LINKS) == {p} + if IsLink(t, p) then Behind(t, p) else {}
    ensures Follow(t, Parent(p), [Name(p)], MAX_LINKS) ==
            if p !in t then None
            else if t[p].Link? then Follow(t, LinkBase(Parent(p), t[p].raw), Split(t[p].raw), MAX_LINKS - 1)
            else Some(p)
  {
    var todo := [Name(p)];
    assert Parent(p) + [Name(p)] == p;
    assert todo[1..] == [];
    if IsLink(t, p) {
      assert Split(t[p].raw) + [] == Split(t[p].raw);
    } else if IsDir(t, p) {
      assert Follow(t, p, [], MAX_LINKS) == Some(p);
      assert Touched(t, p, [], MAX_LINKS) == {};
    }
  }

  /** Liveness of an entry depends on the entry and on what lies behind it only. */
  lemma LiveFrame(t: Tree, u: Tree, p: Path)
    requires p != [] && ProperName(Name(p)) && Same(t, u, p)
    requires IsLink(t, p) ==> forall q :: q in Behind(t, p) ==> Same(t, u, q)
    ensures Live(u, p) == Live(t, p)
    ensures IsLink(t, p) ==> Behind(u, p) == Behind(t, p)
  {
    EntryTouches(t, p);
    EntryTouches(u, p);
    if IsLink(t, p) {
      FollowFrame(t, u, LinkBase(Parent(p), t[p].raw), Split(t[p].raw), MAX_LINKS - 1);
    }
  }

  /** A walk that ends at a file has looked that file up. */
  lemma {:induction false} EndsTouched(t: Tree, cur: Path, todo: seq<string>, budget: nat)
    requires Follow(t, cur, todo, budget).Some?
    ensures var end := Follow(t, cur, todo, budget).value;
            end in t && t[end].File? ==> end in Touched(t, cur, todo, budget) || end <= cur
    decreases budget, |todo|
  {
    if todo == [] {
    } else if todo[0] == "" || todo[0] == "." {
      EndsTouched(t, cur, todo[1..], budget);
    } else if todo[0] == ".." {
      EndsTouched(t, Parent(cur), todo[1..], budget);
    } else {
      var next := cur + [todo[0]];
      match t[next]
      case Dir =>
        EndsTouched(t, next, todo[1..], budget);
        var end := Follow(t, cur, todo, budget).value;
        assert end <= next && end != next ==> end <= cur;
      case File(_, _) =>
      case Link(raw) => EndsTouched(t, LinkBase(cur, raw), Split(raw) + todo[1..], budget - 1);
    }
  }

  /** A link leads to a regular file only if it looks that file up. */
  lemma LinkFileTouched(t: Tree, p: Path)
    requires WellFormed(t) && p != [] && IsLink(t, p)
    requires IsFile(t, p)
    ensures Follow(t, Parent(p), [Name(p)], MAX_LINKS).value in Behind(t, p)
  {
    EntryTouches(t, p);
    var base, todo := LinkBase(Parent(p), t[p].raw), Split(t[p].raw);
    EndsTouched(t, base, todo, MAX_LINKS - 1);
    var end := Follow(t, base, todo, MAX_LINKS - 1).value;
    if end <= base {
      AncestorsAreDirs(t, p, end);
    }
  }

  /** Whether an entry is a regular file depends on the entry and on what lies behind it only. */
  lemma IsFileFrame(t: Tree, u: Tree, p: Path)
    requires WellFormed(t) && WellFormed(u) && p != [] && p in t && Same(t, u, p)
    requires IsLink(t, p) ==> forall q :: q in Behind(t, p) ==> Same(t, u, q)
    ensures IsFile(u, p) == IsFile(t, p)
  {
    EntryTouches(t, p);
    EntryTouches(u, p);
    if IsLink(t, p) {
      FollowFrame(t, u, LinkBase(Parent(p), t[p].raw), Split(t[p].raw), MAX_LINKS - 1);
      if IsFile(t, p) {
        LinkFileTouched(t, p);
      }
      if IsFile(u, p) {
        LinkFileTouched(u, p);
      }
    }
  }

  // ---------------------------------------------------------------- removing broken links

  /** A walk that arrives passes only through links that lead somewhere. */
  lemma {:induction false} PassedLinksAreLive(t: Tree, cur: Path, todo: seq<string>, budget: nat, b: Path)
    requires budget <= MAX_LINKS
    requires Follow(t, cur, todo, budget).Some?
    requires b in Touched(t, cur, todo, budget) && IsLink(t, b)
    ensures Live(t, b)
    decreases budget, |todo|
  {
    if todo[0] == "" || todo[0] == "." {
      PassedLinksAreLive(t, cur, todo[1..], budget, b);
    } else if todo[0] == ".." {
      PassedLinksAreLive(t, Parent(cur), todo[1..], budget, b);
    } else {
      var next := cur + [todo[0]];
      match t[next]
      case Dir => PassedLinksAreLive(t, next, todo[1..], budget, b);
      case File(_, _) =>
      case Link(raw) =>
        var base := LinkBase(cur, raw);
        if b == next {
          FollowPrefix(t, base, Split(raw), todo[1..], budget - 1);
          FollowBudget(t, base, Split(raw), budget - 1, MAX_LINKS - 1);
          assert Parent(next) == cur && Name(next) == todo[0];
          EntryStep(t, next);
        } else {
          PassedLinksAreLive(t, base, Split(raw) + todo[1..], budget - 1, b);
        }
    }
  }

  lemma EntryStep(t: Tree, p: Path)
    requires p != [] && IsLink(t, p)
    requires Name(p) != "" && Name(p) != "." && Name(p) != ".."
    ensures Live(t, p) == Follow(t, LinkBase(Parent(p), t[p].raw), Split(t[p].raw), MAX_LINKS - 1).Some?
  {
    var todo := [Name(p)];
    assert Parent(p) + [Name(p)] == p;
    assert Split(t[p].raw) + todo[1..] == Split(t[p].raw);
  }

  /** Removing broken links changes the liveness of no other entry. */
  lemma BrokenLinksDoNotMatter(t: Tree, gone: set<Path>, p: Path)
    requires forall b :: b in gone ==> IsLink(t, b) && !Live(t, b)
    requires p !in gone
    ensures Live(t - gone, p) == Live(t, p)
  {
    if p != [] {
      var todo := [Name(p)];
      if Live(t, p) {
        forall q | q in Touched(t, Parent(p), todo, MAX_LINKS)
          ensures Same(t, t - gone, q)
        {
          if IsLink(t, q) {
            PassedLinksAreLive(t, Parent(p), todo, MAX_LINKS, q);
          }
        }
        FollowFrame(t, t - gone, Parent(p), todo, MAX_LINKS);
      } else if Live(t - gone, p) {
        FollowGrows(t - gone, t, Parent(p), todo, MAX_LINKS);
      }
    }
  }
}
