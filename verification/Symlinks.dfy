/** Making, judging and removing the links of one output directory. */
module Symlinks {
  import opened Paths
  import opened Trees
  import opened Reconcile
  import opened Replacements
  import opened FileSystem

  datatype Ensured = Changed | Unchanged | Error

  datatype Reason = Stale | Unwanted

  datatype Removal = Removal(link: Path, reason: Reason)

  datatype RemovalPlan = RemovalPlan(removals: seq<Removal>, existing: nat)

  // ---------------------------------------------------------------- what an operation may do, faults or not

  /** Making one link changes the link itself, its temporary name and missing directories above it, nothing else;
      only a link is ever replaced. */
  ghost predicate LinkStepAt(t: Tree, u: Tree, dest: Path, raw: string, p: Path)
    requires dest != []
  {
    || Same(t, u, p)
    || (p == dest && (p in t ==> t[p].Link?) && p in u && u[p] == Link(raw))
    || (p == TmpOf(dest) && (p in t ==> !t[p].Dir?) && (p in u ==> u[p] == Link(raw)))
    || (p !in t && p < dest && IsDir(u, p))
  }

  ghost predicate LinkStep(t: Tree, u: Tree, dest: Path, raw: string)
    requires dest != []
  {
    forall p :: LinkStepAt(t, u, dest, raw, p)
  }

  /** Removing changes the given links and takes away directories below the output, nothing else. */
  ghost predicate RemovalStepAt(t: Tree, u: Tree, output: Path, links: set<Path>, p: Path) {
    || Same(t, u, p)
    || (p !in u && p in links && IsLink(t, p))
    || (p !in u && Below(p, output) && IsDir(t, p))
  }

  ghost predicate RemovalStep(t: Tree, u: Tree, output: Path, links: set<Path>) {
    forall p :: RemovalStepAt(t, u, output, links, p)
  }

  /** Removing links and then directories. */
  lemma RemovalSteps(t: Tree, gone: set<Path>, u: Tree, output: Path, links: set<Path>)
    requires gone <= links && forall p :: p in gone ==> IsLink(t, p)
    requires RemovalStep(t - gone, u, output, {})
    ensures RemovalStep(t, u, output, links)
  {
    forall p
      ensures RemovalStepAt(t, u, output, links, p)
    {
      assert RemovalStepAt(t - gone, u, output, {}, p);
    }
  }

  /** Removing links and then directories loses these links and no others. */
  lemma OnlyGoneAreLost(t: Tree, gone: set<Path>, u: Tree, output: Path)
    requires (forall p :: p in gone ==> IsLink(t, p)) && RemovalStep(t - gone, u, output, {})
    ensures LostLinks(t, u) == gone
  {
    forall p
      ensures p in LostLinks(t, u) <==> p in gone
    {
      assert RemovalStepAt(t - gone, u, output, {}, p);
    }
  }

  lemma NoStep(t: Tree, dest: Path, raw: string)
    requires dest != []
    ensures LinkStep(t, t, dest, raw)
  {
    forall p
      ensures LinkStepAt(t, t, dest, raw, p)
    {}
  }

  /** The states a replacement can stop in. */
  lemma ReplacementSteps(t: Tree, u: Tree, dest: Path, raw: string)
    requires dest != [] && IsLink(t, dest) && !IsDir(t, TmpOf(dest)) && TmpOf(dest) != dest
    requires || u == t - {TmpOf(dest)}
             || u == (t - {TmpOf(dest)})[TmpOf(dest) := Link(raw)]
             || u == (t - {TmpOf(dest)})[dest := Link(raw)]
    ensures LinkStep(t, u, dest, raw)
  {
    forall p
      ensures LinkStepAt(t, u, dest, raw, p)
    {}
  }

  /** The states the making of a new link can stop in. */
  lemma CreationSteps(t: Tree, mid: Tree, u: Tree, dest: Path, raw: string)
    requires dest != [] && dest !in t
    requires forall q :: Same(t, mid, q) || (q !in t && q <= Parent(dest) && IsDir(mid, q))
    requires u == mid || u == mid[dest := Link(raw)]
    ensures LinkStep(t, u, dest, raw)
  {
    forall p
      ensures LinkStepAt(t, u, dest, raw, p)
    {
      if p != dest && !Same(t, mid, p) {
        assert p <= Parent(dest);
        assert p < dest;
      }
    }
  }

  /** The links that are gone. */
  function LostLinks(t: Tree, u: Tree): set<Path> {
    set p | p in t && t[p].Link? && p !in u
  }

  /** The link has been made between t and u. */
  /** The text leads from dest to source, and is absolute exactly if the mode is. */
  predicate TextFits(source: Path, dest: Path, relative: bool, raw: string) {
    Normal(source) ==>
      (IsAbsolute(raw) <==> !relative) && ResolveLinkTarget(dest, raw) == Target(false, source)
  }

  lemma TextHolds(source: Path, dest: Path, relative: bool)
    requires Normal(dest)
    ensures TextFits(source, dest, relative, LinkTarget(source, dest, relative))
  {
    if Normal(source) {
      TextTellsMode(source, dest, relative);
      LinkRoundTrip(source, dest, relative);
    }
  }

  predicate NewlyLinked(t: Tree, u: Tree, dest: Path, raw: string) {
    !(dest in t && t[dest] == Link(raw)) && dest in u && u[dest] == Link(raw)
  }

  ghost predicate Distinct(s: seq<Path>) {
    forall i, j :: 0 <= i < j < |s| ==> s[i] != s[j]
  }

  ghost predicate Judged(t: Tree, link: Path, broken: set<Path>) {
    IsLink(t, link) && (link in broken <==> !Live(t, link))
  }

  /** broken are the broken ones of the links. */
  ghost predicate AllJudged(t: Tree, links: seq<Path>, broken: set<Path>) {
    (forall p :: p in links ==> Judged(t, p, broken)) && forall p :: p in broken ==> p in links
  }

  function LinksOf(removals: seq<Removal>): set<Path> {
    set r | r in removals :: r.link
  }

  function LinkSeq(removals: seq<Removal>): seq<Path> {
    seq(|removals|, i requires 0 <= i < |removals| => removals[i].link)
  }

  lemma TmpIsProper(dest: Path)
    requires dest != [] && Normal(dest)
    ensures Normal(TmpOf(dest)) && TmpOf(dest) != dest && TmpOf(dest) != [] && Parent(TmpOf(dest)) == Parent(dest)
  {
    var name := Name(dest);
    assert ProperName(name);
    assert |TmpName(name)| > |name| && |TmpName(name)| > 2;
    assert '/' !in TMP_SUFFIX;
  }

  /** Replacing a link that stands where it should. */
  lemma ReplacedIsAdded(t: Tree, dest: Path, raw: string)
    requires WellFormed(t) && dest != [] && IsLink(t, dest)
    ensures AddLinks(t, map[dest := raw]) == t[dest := Link(raw)]
  {
    var u, v := AddLinks(t, map[dest := raw]), t[dest := Link(raw)];
    forall p
      ensures Same(u, v, p)
    {
      if p in Ancestors({dest}) {
        AncestorsAreDirs(t, dest, p);
      }
    }
    SameEverywhere(u, v);
  }

  /** A new link below new directories. */
  lemma NewIsAdded(t: Tree, dest: Path, raw: string)
    requires dest != []
    ensures AddLinks(t, map[dest := raw]) == WithDirs(t, Parent(dest))[dest := Link(raw)]
  {
    forall q
      ensures q in Upto(Parent(dest)) <==> q in Ancestors({dest})
    {
      assert q < dest <==> q <= Parent(dest);
    }
  }

  /** What is taken away to make one link: its temporary name, if a link is replaced. */
  lemma UsedForOne(t: Tree, dest: Path, raw: string)
    requires dest != []
    ensures Used(t, map[dest := raw]) ==
            if TmpOf(dest) in t && dest in t && t[dest] != Link(raw) then {TmpOf(dest)} else {}
  {
    TmpAndBack(dest);
    UsedIsItsTmp(t, dest, raw);
    assert TmpOf(dest) in Used(t, map[dest := raw]) <==> TmpOf(dest) in t && Replaced(t, map[dest := raw], dest);
  }

  /** A link that is not in the way and one that stands: nothing is taken away. */
  lemma OneNewLink(t: Tree, dest: Path, raw: string)
    requires dest != [] && (dest in t ==> t[dest] == Link(raw))
    ensures LinkedOver(t, map[dest := raw]) == AddLinks(t, map[dest := raw])
  {
    UsedForOne(t, dest, raw);
    assert t - {} == t;
  }

  /** Replacing a link takes away what is at its temporary name. */
  lemma OneReplaced(t: Tree, dest: Path, raw: string)
    requires WellFormed(t) && dest != [] && TmpOf(dest) != dest && IsLink(t, dest) && t[dest] != Link(raw)
    requires !IsDir(t, TmpOf(dest))
    ensures LinkedOver(t, map[dest := raw]) == (t - {TmpOf(dest)})[dest := Link(raw)]
  {
    UsedForOne(t, dest, raw);
    if TmpOf(dest) in t {
      LeavesAreVacant(t, TmpOf(dest));
      WithoutLeaf(t, TmpOf(dest));
    } else {
      assert t - {} == t == t - {TmpOf(dest)};
    }
    ReplacedIsAdded(t - {TmpOf(dest)}, dest, raw);
  }

  lemma LinkableForOne(t: Tree, dest: Path, raw: string)
    requires dest != []
    ensures Linkable(t, map[dest := raw]) ==>
              !IsDir(t, TmpOf(dest)) && (dest in t ==> t[dest].Link?) && forall a :: a < dest && a in t ==> t[a].Dir?
  {
    if Linkable(t, map[dest := raw]) {
      LinkableAt(t, map[dest := raw], dest);
    }
  }

  class SymlinkManager {
    const disk: Disk
    const dryRun: bool

    constructor (disk: Disk, dryRun: bool)
      ensures this.disk == disk && this.dryRun == dryRun
    {
      this.disk, this.dryRun := disk, dryRun;
    }

    /** Ensures a link at dest to source. What is answered is true even if something fails, except that a file or a
        directory in the way counts as unchanged. */
    method EnsureLink(source: Path, dest: Path, relative: bool) returns (r: Ensured)
      requires disk.Valid() && dest != [] && Normal(dest)
      modifies disk
      ensures disk.Valid() && disk.faults >= old(disk.faults)
      ensures dryRun ==> disk.tree == old(disk.tree) && disk.faults == old(disk.faults)
      ensures LinkStep(old(disk.tree), disk.tree, dest, LinkTarget(source, dest, relative))
      ensures var raw, t := LinkTarget(source, dest, relative), old(disk.tree);
              && (r.Unchanged? <==> dest in t && (t[dest].Link? ==> t[dest] == Link(raw)))
              && (r.Unchanged? ==> disk.tree == t)
              && (!dryRun ==> (r.Changed? <==> NewlyLinked(t, disk.tree, dest, raw)))
              && (r.Error? ==> !dryRun)
      ensures var raw, t := LinkTarget(source, dest, relative), old(disk.tree);
              Linkable(t, map[dest := raw]) && disk.faults == old(disk.faults) ==>
                && r == (if dest in t && t[dest] == Link(raw) then Unchanged else Changed)
                && (!dryRun ==> disk.tree == LinkedOver(t, map[dest := raw]))
      ensures r.Changed? && !dryRun ==>
                IsLink(disk.tree, dest) && TextFits(source, dest, relative, disk.tree[dest].raw)
    {
      TextHolds(source, dest, relative);
      r := EnsureText(LinkTarget(source, dest, relative), dest);
    }

    /** Ensures a link at dest that holds the text. */
    method EnsureText(target: string, dest: Path) returns (r: Ensured)
      requires disk.Valid() && dest != [] && Normal(dest)
      modifies disk
      ensures disk.Valid() && disk.faults >= old(disk.faults)
      ensures dryRun ==> disk.tree == old(disk.tree) && disk.faults == old(disk.faults)
      ensures LinkStep(old(disk.tree), disk.tree, dest, target)
      ensures var t := old(disk.tree);
              && (r.Unchanged? <==> dest in t && (t[dest].Link? ==> t[dest] == Link(target)))
              && (r.Unchanged? ==> disk.tree == t)
              && (!dryRun ==> (r.Changed? <==> NewlyLinked(t, disk.tree, dest, target)))
              && (r.Error? ==> !dryRun)
      ensures var t := old(disk.tree);
              Linkable(t, map[dest := target]) && disk.faults == old(disk.faults) ==>
                && r == (if dest in t && t[dest] == Link(target) then Unchanged else Changed)
                && (!dryRun ==> disk.tree == LinkedOver(t, map[dest := target]))
    {
      ghost var t := disk.tree;
      LinkableForOne(t, dest, target);
      if IsLink(disk.tree, dest) {
        if disk.tree[dest].raw == target {
          ReplacedIsAdded(t, dest, target);
          OneNewLink(t, dest, target);
          return Unchanged;
        }
        if dryRun {
          return Changed;
        }
        r := ReplaceLink(target, dest);
        return;
      }
      if dest in disk.tree {
        return Unchanged;
      }
      if dryRun {
        return Changed;
      }
      OneNewLink(t, dest, target);
      r := CreateLink(target, dest);
    }

    /** Makes a link, and the directories above it, where nothing was. */
    method CreateLink(target: string, dest: Path) returns (r: Ensured)
      requires disk.Valid() && dest != [] && Normal(dest) && dest !in disk.tree
      modifies disk
      ensures disk.Valid() && disk.faults >= old(disk.faults) && r in {Changed, Error}
      ensures r.Changed? ==> disk.tree == AddLinks(old(disk.tree), map[dest := target])
      ensures if r.Changed? then dest in disk.tree && disk.tree[dest] == Link(target) else dest !in disk.tree
      ensures OpenWay(old(disk.tree), Parent(dest)) && disk.faults == old(disk.faults) ==> r.Changed?
      ensures LinkStep(old(disk.tree), disk.tree, dest, target)
    {
      ghost var t := disk.tree;
      NewIsAdded(t, dest, target);
      var ok := disk.Mkdirs(Parent(dest));
      ghost var mid := disk.tree;
      if ok {
        assert Parent(dest) in Upto(Parent(dest)) && dest !in Upto(Parent(dest));
        ok := disk.Symlink(target, dest);
      }
      CreationSteps(t, mid, disk.tree, dest, target);
      return if ok then Changed else Error;
    }

    /** Replaces a link by way of its temporary name, so that readers never see it missing. */
    method ReplaceLink(target: string, dest: Path) returns (r: Ensured)
      requires disk.Valid() && dest != [] && Normal(dest) && IsLink(disk.tree, dest)
      modifies disk
      ensures disk.Valid() && disk.faults >= old(disk.faults) && r in {Changed, Error}
      ensures r.Changed? && old(disk.tree)[dest] != Link(target) ==>
                disk.tree == LinkedOver(old(disk.tree), map[dest := target])
      ensures dest in disk.tree && disk.tree[dest] == if r.Changed? then Link(target) else old(disk.tree)[dest]
      ensures !IsDir(old(disk.tree), TmpOf(dest)) && disk.faults == old(disk.faults) ==> r.Changed?
      ensures LinkStep(old(disk.tree), disk.tree, dest, target)
    {
      ghost var t := disk.tree;
      var tmp := TmpOf(dest);
      TmpIsProper(dest);
      var cleared := disk.Unlink(tmp);
      if cleared.Failed? {
        NoStep(t, dest, target);
        return Error;
      }
      assert disk.tree == t - {tmp};
      var made := disk.Symlink(target, tmp);
      if !made {
        ReplacementSteps(t, disk.tree, dest, target);
        return Error;
      }
      var moved := disk.Replace(tmp, dest);
      assert disk.tree == if moved then (t - {tmp})[dest := Link(target)] else (t - {tmp})[tmp := Link(target)];
      ReplacementSteps(t, disk.tree, dest, target);
      if t[dest] != Link(target) {
        OneReplaced(t, dest, target);
      }
      return if moved then Changed else Error;
    }

    /** All links below output, without following any. */
    method IterLinks(output: Path) returns (links: seq<Path>)
      requires disk.Valid()
      ensures forall i, j :: 0 <= i < j < |links| ==> links[i] != links[j]
      ensures forall p :: p in links <==> p in LinksBelow(disk.tree, output)
      ensures |links| == |LinksBelow(disk.tree, output)|
    {
      links := [];
      if !IsDir(disk.tree, output) {
        return;
      }
      var t := disk.tree;
      var dirs := disk.Walk(output, true, name => false);
      var i := 0;
      while i < |dirs|
        invariant 0 <= i <= |dirs| && disk.tree == t
        invariant forall k, l :: 0 <= k < l < |links| ==> links[k] != links[l]
        invariant forall p :: p in links <==> IsLink(t, p) && p != [] && Parent(p) in dirs[..i]
      {
        var entries := disk.ListDir(dirs[i]);
        var j := 0;
        while j < |entries|
          invariant 0 <= j <= |entries| && disk.tree == t
          invariant forall k, l :: 0 <= k < l < |links| ==> links[k] != links[l]
          invariant forall p :: p in links <==>
                      IsLink(t, p) && p != [] && (Parent(p) in dirs[..i] || p in entries[..j])
        {
          assert entries[j] in entries && entries[j] !in entries[..j];
          assert Parent(entries[j]) == dirs[i] && dirs[i] !in dirs[..i];
          if IsLink(disk.tree, entries[j]) {
            links := links + [entries[j]];
          }
          j := j + 1;
        }
        i := i + 1;
      }
      forall p
        ensures p in links <==> p in LinksBelow(t, output)
      {
        LinkHasWalkedParent(t, output, dirs, p);
      }
      SeqCardinality(links, LinksBelow(t, output));
    }

    /** Which links a reconciliation would remove. */
    method PlanRemovals(output: Path, expected: set<Path>, ownedRoot: Path, preserve: set<Path>)
      returns (plan: RemovalPlan)
      requires disk.Valid()
      ensures LinksOf(plan.removals) == Plan(disk.tree, output, expected + preserve, ownedRoot)
      ensures |plan.removals| == |Plan(disk.tree, output, expected + preserve, ownedRoot)|
      ensures plan.existing == |LinksBelow(disk.tree, output)|
      ensures forall i, j :: 0 <= i < j < |plan.removals| ==> plan.removals[i].link != plan.removals[j].link
      ensures forall r :: r in plan.removals ==> (r.reason.Stale? <==> !Live(disk.tree, r.link))
    {
      var links := IterLinks(output);
      var removals :=
        JudgeLinks(disk.tree, links, expected + preserve, ownedRoot,
                   Plan(disk.tree, output, expected + preserve, ownedRoot));
      plan := RemovalPlan(removals, |links|);
      RemovalCardinality(removals);
    }

    /** Judges the links one by one. */
    method JudgeLinks(t: Tree, links: seq<Path>, keep: set<Path>, ownedRoot: Path, ghost doomed: set<Path>)
      returns (removals: seq<Removal>)
      requires forall p :: p in links ==> IsLink(t, p) && (p in doomed <==> Doomed(t, p, keep, ownedRoot))
      requires forall i, j :: 0 <= i < j < |links| ==> links[i] != links[j]
      requires forall p :: p in doomed ==> p in links
      ensures forall i, j :: 0 <= i < j < |removals| ==> removals[i].link != removals[j].link
      ensures forall r :: r in removals ==> (r.reason.Stale? <==> !Live(t, r.link))
      ensures LinksOf(removals) == doomed
    {
      removals := [];
      for i := 0 to |links|
        invariant forall k, l :: 0 <= k < l < |removals| ==> removals[k].link != removals[l].link
        invariant forall r :: r in removals ==> (r.reason.Stale? <==> !Live(t, r.link))
        invariant LinksOf(removals) == Chosen(links[..i], doomed)
      {
        var link := links[i];
        ChosenStep(links, i, doomed);
        if link !in keep {
          var broken := !Live(t, link);
          if broken || Owned(link, t[link].raw, ownedRoot) {
            var removal := Removal(link, if broken then Stale else Unwanted);
            LinksOfAppend(removals, removal);
            assert link in doomed && link !in LinksOf(removals);
            removals := removals + [removal];
          }
        }
      }
      AllChosen(links, doomed);
    }

    /** Removes the planned links, then the directories left empty. */
    method ApplyRemovals(output: Path, removals: seq<Removal>) returns (removed: seq<Path>)
      requires disk.Valid() && forall r :: r in removals ==> IsLink(disk.tree, r.link)
      requires forall i, j :: 0 <= i < j < |removals| ==> removals[i].link != removals[j].link
      modifies disk
      ensures disk.Valid() && disk.faults >= old(disk.faults)
      ensures dryRun ==> disk.tree == old(disk.tree) && disk.faults == old(disk.faults)
      ensures RemovalStep(old(disk.tree), disk.tree, output, LinksOf(removals))
      ensures dryRun || disk.faults == old(disk.faults) ==> removed == LinkSeq(removals)
      ensures Distinct(removed) && (!dryRun ==> forall p :: p in removed <==> p in LostLinks(old(disk.tree), disk.tree))
      ensures disk.faults == old(disk.faults) && !dryRun ==>
                disk.tree == Pruned(old(disk.tree) - LinksOf(removals), output)
    {
      ghost var t, gone := disk.tree, {};
      removed, gone := RemovePlanned(removals);
      PruneEmptyDirs(output);
      if dryRun {
        assert t - {} == t;
        gone := {};
      } else {
        OnlyGoneAreLost(t, gone, disk.tree, output);
      }
      RemovalSteps(t, gone, disk.tree, output, LinksOf(removals));
    }

    /** gone: the links removed, or those a dry run would remove. */
    method RemovePlanned(removals: seq<Removal>) returns (removed: seq<Path>, ghost gone: set<Path>)
      requires disk.Valid() && forall r :: r in removals ==> IsLink(disk.tree, r.link)
      requires forall i, j :: 0 <= i < j < |removals| ==> removals[i].link != removals[j].link
      modifies disk
      ensures disk.Valid() && disk.faults >= old(disk.faults)
      ensures dryRun ==> disk.faults == old(disk.faults)
      ensures disk.tree == if dryRun then old(disk.tree) else old(disk.tree) - gone
      ensures gone <= LinksOf(removals) && Distinct(removed) && forall p :: p in removed <==> p in gone
      ensures disk.faults == old(disk.faults) ==> removed == LinkSeq(removals) && gone == LinksOf(removals)
    {
      ghost var t, faults := disk.tree, disk.faults;
      removed, gone := [], {};
      for i := 0 to |removals|
        invariant disk.Valid() && disk.faults >= faults && (dryRun ==> disk.faults == faults)
        invariant disk.tree == if dryRun then t else t - gone
        invariant gone <= LinksOf(removals[..i]) && Distinct(removed) && forall p :: p in removed <==> p in gone
        invariant disk.faults == faults ==> removed == LinkSeq(removals[..i]) && gone == LinksOf(removals[..i])
      {
        var link := removals[i].link;
        RemovalStepOf(removals, i);
        OneMoreGone(t, gone, link);
        var ok := RemoveOne(link);
        if ok {
          removed, gone := removed + [link], gone + {link};
        }
      }
      assert removals[..|removals|] == removals;
    }

    /** One link; false if it was gone already or could not be removed. */
    method RemoveOne(link: Path) returns (ok: bool)
      requires disk.Valid() && IsLink(disk.tree, link)
      modifies disk
      ensures disk.Valid() && disk.faults >= old(disk.faults)
      ensures dryRun ==> ok && disk.tree == old(disk.tree) && disk.faults == old(disk.faults)
      ensures !dryRun ==> disk.tree == if ok then old(disk.tree) - {link} else old(disk.tree)
      ensures disk.faults == old(disk.faults) ==> ok
    {
      if dryRun {
        return true;
      }
      var r := disk.Unlink(link);
      return r.Done?;
    }

    /** Removes every broken link, judging each one when its turn comes. */
    method CleanStale(output: Path) returns (removed: nat)
      requires disk.Valid()
      modifies disk
      ensures disk.Valid() && disk.faults >= old(disk.faults)
      ensures dryRun ==> disk.tree == old(disk.tree) && disk.faults == old(disk.faults)
      ensures var t, broken := old(disk.tree), BrokenLinks(old(disk.tree), output);
              && RemovalStep(t, disk.tree, output, broken)
              && (dryRun || disk.faults == old(disk.faults) ==> removed == |broken|)
              && (!dryRun ==> removed == |LostLinks(t, disk.tree)|)
              && (disk.faults == old(disk.faults) && !dryRun ==> disk.tree == Pruned(t - broken, output))
    {
      ghost var t := disk.tree;
      var links := IterLinks(output);
      ghost var gone;
      removed, gone := RemoveBroken(links, BrokenLinks(t, output));
      PruneEmptyDirs(output);
      if dryRun {
        assert t - {} == t;
        gone := {};
      } else {
        OnlyGoneAreLost(t, gone, disk.tree, output);
      }
      RemovalSteps(t, gone, disk.tree, output, BrokenLinks(t, output));
    }

    /** gone: the links removed, or those a dry run would remove. */
    method RemoveBroken(links: seq<Path>, ghost broken: set<Path>) returns (removed: nat, ghost gone: set<Path>)
      requires disk.Valid() && Distinct(links) && AllJudged(disk.tree, links, broken)
      modifies disk
      ensures disk.Valid() && disk.faults >= old(disk.faults)
      ensures disk.tree == if dryRun then old(disk.tree) else old(disk.tree) - gone
      ensures dryRun ==> disk.faults == old(disk.faults)
      ensures gone <= broken && removed == |gone|
      ensures disk.faults == old(disk.faults) ==> gone == broken
    {
      ghost var t, faults := disk.tree, disk.faults;
      removed, gone := 0, {};
      for i := 0 to |links|
        invariant disk.Valid() && disk.faults >= faults && (dryRun ==> disk.faults == faults)
        invariant disk.tree == if dryRun then t else t - gone
        invariant gone <= Chosen(links[..i], broken) && removed == |gone|
        invariant disk.faults == faults ==> gone == Chosen(links[..i], broken)
      {
        ghost var before := gone;
        ChosenStep(links, i, broken);
        var ok := RemoveIfBroken(links[i], t, links, broken, gone);
        if ok {
          removed, gone := removed + 1, gone + {links[i]};
        }
        GoneStep(Chosen(links[..i], broken), Chosen(links[..i + 1], broken), before, gone, links[i], links[i] in broken,
                 ok);
      }
      AllChosen(links, broken);
    }

    /** Removes a link that is broken at this moment, after other broken links of t have gone. */
    method RemoveIfBroken(link: Path, ghost t: Tree, ghost links: seq<Path>, ghost broken: set<Path>,
                          ghost gone: set<Path>)
      returns (ok: bool)
      requires disk.Valid() && disk.tree == if dryRun then t else t - gone
      requires AllJudged(t, links, broken) && link in links && link !in gone && gone <= broken
      modifies disk
      ensures disk.Valid() && disk.faults >= old(disk.faults) && (dryRun ==> disk.faults == old(disk.faults))
      ensures disk.tree == if dryRun then t else if ok then t - (gone + {link}) else t - gone
      ensures ok ==> link in broken
      ensures disk.faults == old(disk.faults) ==> (ok <==> link in broken)
    {
      ok := false;
      assert Judged(t, link, broken);
      forall b | b in gone ensures IsLink(t, b) && !Live(t, b) { assert Judged(t, b, broken); }
      BrokenLinksDoNotMatter(t, gone, link);
      if !Live(disk.tree, link) {
        OneMoreGone(t, gone, link);
        ok := RemoveOne(link);
      }
    }

    /** Removes the directories below output that hold nothing, innermost first. */
    method PruneEmptyDirs(output: Path)
      requires disk.Valid()
      modifies disk
      ensures disk.Valid() && disk.faults >= old(disk.faults)
      ensures dryRun ==> disk.tree == old(disk.tree) && disk.faults == old(disk.faults)
      ensures RemovalStep(old(disk.tree), disk.tree, output, {})
      ensures disk.faults == old(disk.faults) && !dryRun ==> disk.tree == Pruned(old(disk.tree), output)
    {
      if dryRun || !IsDir(disk.tree, output) {
        DirsGone(disk.tree, {}, output);
        assert disk.tree - {} == disk.tree;
        return;
      }
      ghost var t, faults := disk.tree, disk.faults;
      ghost var gone: set<Path> := {};
      var dirs := disk.Walk(output, false, name => false);
      ghost var empty := EmptyDirs(t, output, dirs);
      var i := 0;
      while i < |dirs|
        invariant 0 <= i <= |dirs| && disk.Valid() && disk.faults >= faults
        invariant disk.tree == t - gone && output !in gone && forall p :: p in gone ==> p in dirs[..i]
        invariant disk.faults == faults ==> gone == Chosen(dirs[..i], empty)
      {
        var path := dirs[i];
        ChosenStep(dirs, i, empty);
        NotYetGone(t, output, dirs, gone, i);
        if path != output && !IsLink(disk.tree, path) {
          InnerDirsFirst(t, output, dirs, i);
          var ok := disk.Rmdir(path);
          if ok {
            OneMoreGone(t, gone, path);
            gone := gone + {path};
          }
        }
        i := i + 1;
      }
      AllChosen(dirs, empty);
      EmptyDirsArePruned(t, output, dirs);
      WalkedDirsGone(t, gone, output, dirs);
    }
  }

  // ---------------------------------------------------------------- facts the loops rest on

  lemma LinkHasWalkedParent(t: Tree, output: Path, dirs: seq<Path>, p: Path)
    requires WellFormed(t) && IsDir(t, output)
    requires forall q :: q in dirs <==> Walked(t, output, name => false, q)
    ensures IsLink(t, p) && p != [] && Parent(p) in dirs <==> p in LinksBelow(t, output)
  {
    if IsLink(t, p) && p != [] {
      assert IsDir(t, Parent(p));
      assert output <= Parent(p) <==> Below(p, output);
    }
  }

  lemma {:induction false} SeqCardinality(s: seq<Path>, elements: set<Path>)
    requires forall i, j :: 0 <= i < j < |s| ==> s[i] != s[j]
    requires forall p :: p in s <==> p in elements
    ensures |s| == |elements|
    decreases |s|
  {
    if s != [] {
      var last := s[|s| - 1];
      forall p ensures p in s[..|s| - 1] <==> p in elements - {last} {}
      SeqCardinality(s[..|s| - 1], elements - {last});
    } else {
      assert elements == {};
    }
  }

  lemma RemovalCardinality(removals: seq<Removal>)
    requires forall i, j :: 0 <= i < j < |removals| ==> removals[i].link != removals[j].link
    ensures |removals| == |LinksOf(removals)|
  {
    var links := LinkSeq(removals);
    forall p
      ensures p in links <==> p in LinksOf(removals)
    {
      if p in LinksOf(removals) {
        var r :| r in removals && r.link == p;
        var i :| 0 <= i < |removals| && removals[i] == r;
        assert links[i] == p;
      }
      if p in links {
        var i :| 0 <= i < |links| && links[i] == p;
        assert removals[i] in removals;
      }
    }
    SeqCardinality(links, LinksOf(removals));
  }

  /** The directories among dirs, other than the output, with nothing but directories below them. */
  ghost function EmptyDirs(t: Tree, output: Path, dirs: seq<Path>): set<Path> {
    set p | p in dirs && p != output && !Occupied(t, p)
  }

  /** The members of s that are chosen. */
  function Chosen(s: seq<Path>, chosen: set<Path>): set<Path> {
    set p | p in s && p in chosen
  }

  lemma GoneStep(chosen: set<Path>, more: set<Path>, before: set<Path>, gone: set<Path>, p: Path, choose: bool,
                 ok: bool)
    requires before <= chosen && p !in chosen && more == (if choose then chosen + {p} else chosen)
    requires (ok ==> choose) && gone == if ok then before + {p} else before
    ensures gone <= more && |gone| == |before| + if ok then 1 else 0
    ensures before == chosen && (ok <==> choose) ==> gone == more
  {}

  lemma ChosenStep(s: seq<Path>, i: nat, chosen: set<Path>)
    requires i < |s| && forall k, l :: 0 <= k < l < |s| ==> s[k] != s[l]
    ensures Chosen(s[..i + 1], chosen) == Chosen(s[..i], chosen) + if s[i] in chosen then {s[i]} else {}
    ensures s[i] in s && s[i] !in s[..i] && s[..i + 1] == s[..i] + [s[i]]
  {
    assert s[..i + 1] == s[..i] + [s[i]];
  }

  lemma AllChosen(s: seq<Path>, chosen: set<Path>)
    requires forall p :: p in chosen ==> p in s
    ensures Chosen(s[..|s|], chosen) == chosen
  {
    assert s[..|s|] == s;
  }

  lemma NotYetGone(t: Tree, output: Path, dirs: seq<Path>, gone: set<Path>, i: nat)
    requires i < |dirs| && dirs[i] !in gone
    requires forall q :: q in dirs <==> Walked(t, output, name => false, q)
    ensures IsDir(t - gone, dirs[i])
    ensures dirs[i] in EmptyDirs(t, output, dirs) <==> dirs[i] != output && !Occupied(t, dirs[i])
  {
    assert dirs[i] in dirs;
  }

  lemma EmptyDirsArePruned(t: Tree, output: Path, dirs: seq<Path>)
    requires IsDir(t, output)
    requires forall q :: q in dirs <==> Walked(t, output, name => false, q)
    ensures t - EmptyDirs(t, output, dirs) == Pruned(t, output)
  {
    var u, v := t - EmptyDirs(t, output, dirs), Pruned(t, output);
    forall p
      ensures Same(u, v, p)
    {
      assert output <= p <==> Below(p, output) || p == output;
    }
    SameEverywhere(u, v);
  }

  lemma OneMoreGone(t: Tree, gone: set<Path>, p: Path)
    ensures (t - gone) - {p} == t - (gone + {p})
  {}

  lemma DirsGone(t: Tree, gone: set<Path>, output: Path)
    requires forall p :: p in gone ==> Below(p, output) && IsDir(t, p)
    ensures RemovalStep(t, t - gone, output, {})
  {
    forall p
      ensures RemovalStepAt(t, t - gone, output, {}, p)
    {}
  }

  lemma WalkedDirsGone(t: Tree, gone: set<Path>, output: Path, dirs: seq<Path>)
    requires output !in gone && forall p :: p in gone ==> p in dirs
    requires forall q :: q in dirs <==> Walked(t, output, name => false, q)
    ensures RemovalStep(t, t - gone, output, {})
  {
    forall p | p in gone
      ensures Below(p, output) && IsDir(t, p)
    {
      assert p in dirs && p != output;
    }
    DirsGone(t, gone, output);
  }

  function BrokenLinks(t: Tree, output: Path): set<Path> {
    set p | p in LinksBelow(t, output) && !Live(t, p)
  }

  lemma LinksOfAppend(removals: seq<Removal>, r: Removal)
    ensures LinksOf(removals + [r]) == LinksOf(removals) + {r.link}
    ensures forall k :: 0 <= k < |removals| ==> removals[k].link in LinksOf(removals)
  {
    forall k | 0 <= k < |removals| ensures removals[k].link in LinksOf(removals) {
      assert removals[k] in removals;
    }
  }

  lemma RemovalStepOf(removals: seq<Removal>, i: nat)
    requires i < |removals|
    requires forall k, l :: 0 <= k < l < |removals| ==> removals[k].link != removals[l].link
    ensures removals[i] in removals && removals[i].link !in LinksOf(removals[..i])
    ensures LinksOf(removals[..i + 1]) == LinksOf(removals[..i]) + {removals[i].link}
    ensures LinkSeq(removals[..i + 1]) == LinkSeq(removals[..i]) + [removals[i].link]
  {
    assert removals[..i + 1] == removals[..i] + [removals[i]];
    LinksOfAppend(removals[..i], removals[i]);
  }

  lemma BottomUpOrder(dirs: seq<Path>, i: nat, k: nat)
    requires i < |dirs| && k < |dirs| && dirs[i] < dirs[k]
    requires forall k, l :: 0 <= k < l < |dirs| ==> InOrder(dirs[k], dirs[l], false)
    ensures k < i
  {
    assert !InOrder(dirs[i], dirs[k], false);
  }

  /** When a directory's turn comes, everything below it that could go is gone. */
  lemma InnerDirsFirst(t: Tree, output: Path, dirs: seq<Path>, i: nat)
    requires i < |dirs|
    requires forall q :: q in dirs <==> Walked(t, output, name => false, q)
    requires forall k, l :: 0 <= k < l < |dirs| ==> InOrder(dirs[k], dirs[l], false)
    ensures var left := t - Chosen(dirs[..i], EmptyDirs(t, output, dirs));
            Occupied(t, dirs[i]) <==> exists q :: q in left && dirs[i] < q
  {
    var p := dirs[i];
    var left := t - Chosen(dirs[..i], EmptyDirs(t, output, dirs));
    assert p in dirs;
    if Occupied(t, p) {
      var q :| q in t && p < q && !t[q].Dir?;
      assert q !in dirs;
      assert q in left;
    }
    if q :| q in left && p < q {
      if t[q].Dir? {
        assert q in dirs;
        var k :| 0 <= k < |dirs| && dirs[k] == q;
        BottomUpOrder(dirs, i, k);
        assert q in dirs[..i] && Occupied(t, q);
        var r :| r in t && q < r && !t[r].Dir?;
        assert p < r;
      }
    }
  }

  /** One bottom-up pass reaches the fixpoint: every directory left below the output holds something, and
      another pass would change nothing. */
  lemma PruningIsComplete(t: Tree, output: Path)
    requires WellFormed(t)
    ensures var u := Pruned(t, output);
            && (IsDir(t, output) ==>
                forall p :: p in u && u[p].Dir? && Below(p, output) ==> exists q :: q in u && q != [] && Parent(q) == p)
            && Pruned(u, output) == u
            && (forall p :: p in u && !u[p].Dir? <==> p in t && !t[p].Dir?)
  {
    var u := Pruned(t, output);
    PrunedWellFormed(t, output);
    if IsDir(t, output) {
      forall p | p in u && u[p].Dir? && Below(p, output)
        ensures Occupied(u, p) && exists q :: q in u && q != [] && Parent(q) == p
      {
        var q :| q in t && p < q && !t[q].Dir?;
        assert q in u;
        ChildOnTheWay(u, p, q);
      }
    }
  }
}
