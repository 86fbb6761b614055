/** When a link made by the program is live, told by the tree alone: which nodes there are, and which links are on the
    way. */
module Liveness {
  import opened Paths
  import opened Trees
  import opened Reconcile

  // ---------------------------------------------------------------- ways through a tree

  /** The link a was made for source, in either mode. */
  ghost predicate MadeFor(t: Tree, a: Path, source: Path, relative: bool) {
    a != [] && IsLink(t, a) && Normal(source) && t[a].raw == LinkTarget(source, a, relative)
  }

  /** The first link on the way to p has been replaced with its source. */
  ghost predicate Replaced(t: Tree, p: Path, a: Path, source: Path, q: Path) {
    && a <= p && (forall b :: b < a ==> !IsLink(t, b))
    && Made(t, a, source) && q == source + p[|a|..]
  }

  ghost predicate LeadsOn(t: Tree, p: Path, q: Path) {
    exists a, source :: Replaced(t, p, a, source, q)
  }

  /** Each path is the one before it with the first link on the way replaced. */
  ghost predicate Route(t: Tree, route: seq<Path>) {
    route != [] && forall i :: 0 <= i < |route| - 1 ==> LeadsOn(t, route[i], route[i + 1])
  }

  /** No link is on the way to p, nor is p one. */
  ghost predicate Plain(t: Tree, p: Path) {
    forall b :: b <= p ==> !IsLink(t, b)
  }

  // ---------------------------------------------------------------- walking

  /** One step of a walk. */
  lemma StepDown(t: Tree, cur: Path, name: string, rest: seq<string>, budget: nat)
    requires ProperName(name)
    ensures var next := cur + [name];
            Follow(t, cur, [name] + rest, budget) ==
            if next !in t then None
            else match t[next]
              case Dir => Follow(t, next, rest, budget)
              case File(_, _) => if rest == [] then Some(next) else None
              case Link(raw) =>
                if budget == 0 then None else Follow(t, LinkBase(cur, raw), Split(raw) + rest, budget - 1)
    ensures var next := cur + [name];
            next !in t || !t[next].Link? ==>
              Touched(t, cur, [name] + rest, budget) ==
              {next} + if IsDir(t, next) then Touched(t, next, rest, budget) else {}
  {
    assert ([name] + rest)[1..] == rest;
  }

  lemma FirstAndRest(p: Path)
    requires p != []
    ensures p == [p[0]] + p[1..] && (Normal(p) ==> ProperName(p[0]) && Normal(p[1..]))
  {}

  lemma UpAndName(p: Path)
    requires p != []
    ensures p == Parent(p) + [Name(p)] && (Normal(p) ==> ProperName(Name(p)))
  {}

  /** Walking down from the root through real directories. */
  lemma {:induction false} WalkDown(t: Tree, d: Path, rest: seq<string>, budget: nat)
    requires Normal(d) && forall b :: b <= d && b != [] ==> IsDir(t, b)
    ensures Follow(t, [], d + rest, budget) == Follow(t, d, rest, budget)
    decreases |d|
  {
    if d == [] {
      assert d + rest == rest;
    } else {
      var up, name := Parent(d), Name(d);
      UpAndName(d);
      assert d + rest == up + ([name] + rest) && up + [name] == d && IsDir(t, d);
      forall b | b <= up && b != [] ensures IsDir(t, b) { assert b <= d; }
      WalkDown(t, up, [name] + rest, budget);
      StepDown(t, up, name, rest, budget);
    }
  }

  /** Where no link is on the way, the walk arrives exactly if there is something. */
  lemma WalkPlain(t: Tree, p: Path, budget: nat)
    requires WellFormed(t) && Normal(p) && Plain(t, p)
    ensures Follow(t, [], p, budget) == if p in t then Some(p) else None
  {
    if p == [] {
    } else if p in t {
      AllAbove(t, p);
      UpAndName(p);
      WalkDown(t, Parent(p), [Name(p)], budget);
      LastStep(t, p, budget);
    } else {
      assert [] + p == p;
      WalkStops(t, [], p, budget);
    }
  }

  lemma AllAbove(t: Tree, p: Path)
    requires WellFormed(t) && p in t && p != []
    ensures forall b :: b <= Parent(p) ==> IsDir(t, b)
  {
    forall b | b <= Parent(p) ensures IsDir(t, b) { AncestorsAreDirs(t, p, b); }
  }

  lemma LastStep(t: Tree, p: Path, budget: nat)
    requires p != [] && ProperName(Name(p)) && p in t && !IsLink(t, p)
    ensures Follow(t, Parent(p), [Name(p)], budget) == Some(p)
  {
    UpAndName(p);
    assert [Name(p)] + [] == [Name(p)];
    StepDown(t, Parent(p), Name(p), [], budget);
  }

  lemma {:induction false} WalkStops(t: Tree, cur: Path, rest: Path, budget: nat)
    requires WellFormed(t) && Normal(rest) && rest != [] && cur + rest !in t
    requires forall b :: b <= cur + rest ==> !IsLink(t, b)
    ensures Follow(t, cur, rest, budget) == None
    decreases |rest|
  {
    var next := cur + [rest[0]];
    FirstAndRest(rest);
    assert next + rest[1..] == cur + rest && next <= cur + rest;
    assert !IsLink(t, next);
    StepDown(t, cur, rest[0], rest[1..], budget);
    if rest[1..] == [] {
      assert next == cur + rest;
    } else if IsDir(t, next) {
      WalkStops(t, next, rest[1..], budget);
    }
  }

  lemma {:induction false} WalkUp(t: Tree, start: Path, n: nat, rest: seq<string>, budget: nat)
    requires n <= |start|
    ensures Follow(t, start, Ups(n) + rest, budget) == Follow(t, start[..|start| - n], rest, budget)
    decreases n
  {
    var todo := Ups(n) + rest;
    if n == 0 {
      assert todo == rest && start[..|start|] == start;
    } else {
      assert todo[0] == ".." && todo[1..] == Ups(n - 1) + rest;
      assert Parent(start)[..|start| - n] == start[..|start| - n];
      WalkUp(t, Parent(start), n - 1, rest, budget);
    }
  }

  /** The text of a made link leads where the path of its source does. */
  lemma TextLeads(t: Tree, a: Path, source: Path, relative: bool, rest: seq<string>, budget: nat)
    requires WellFormed(t) && MadeFor(t, a, source, relative)
    ensures Follow(t, LinkBase(Parent(a), t[a].raw), Split(t[a].raw) + rest, budget) ==
            Follow(t, [], source + rest, budget)
  {
    assert Normal(a);
    TextTellsMode(source, a, relative);
    if relative {
      AllAbove(t, a);
      RelativeLeads(t, Parent(a), source, rest, budget);
    } else {
      AbsoluteText(source, a);
      AbsoluteLeads(t, source, Split(t[a].raw), rest, budget);
    }
  }

  lemma AbsoluteLeads(t: Tree, source: Path, parts: seq<string>, rest: seq<string>, budget: nat)
    requires parts == [""] + if source == [] then [""] else source
    ensures Follow(t, [], parts + rest, budget) == Follow(t, [], source + rest, budget)
  {
    if source == [] {
      assert (parts + rest)[1..] == [""] + rest && ([""] + rest)[1..] == rest && source + rest == rest;
    } else {
      assert (parts + rest)[1..] == source + rest;
    }
  }

  lemma RelativeLeads(t: Tree, start: Path, source: Path, rest: seq<string>, budget: nat)
    requires Normal(start) && Normal(source) && forall b :: b <= start ==> IsDir(t, b)
    ensures Follow(t, start, Split(RelPath(source, start)) + rest, budget) == Follow(t, [], source + rest, budget)
  {
    var n, parts := PartsOfText(source, start);
    UpAndDown(t, start, source, n, parts, rest, budget);
  }

  /** From a directory up to where the ways part, and down from there, is down from the root. */
  lemma UpAndDown(t: Tree, start: Path, source: Path, n: nat, parts: seq<string>, rest: seq<string>, budget: nat)
    requires n <= |start| && n <= |source| && start[..n] == source[..n] && Normal(source)
    requires forall b :: b <= start ==> IsDir(t, b)
    requires var ways := Ups(|start| - n) + source[n..]; parts == if ways == [] then ["."] else ways
    ensures Follow(t, start, parts + rest, budget) == Follow(t, [], source + rest, budget)
  {
    var ups, down := Ups(|start| - n), source[n..];
    assert start[..|start| - (|start| - n)] == source[..n] && source[..n] <= start;
    assert source + rest == source[..n] + (down + rest) && ups + down + rest == ups + (down + rest);
    WalkDown(t, source[..n], down + rest, budget);
    WalkUp(t, start, |start| - n, down + rest, budget);
    if ups + down == [] {
      assert (["."] + rest)[1..] == rest == down + rest && ups + rest == rest;
    }
  }

  lemma AtLink(t: Tree, a: Path, rest: seq<string>, budget: nat)
    requires a != [] && ProperName(Name(a)) && IsLink(t, a)
    ensures Follow(t, Parent(a), [Name(a)] + rest, budget) ==
            if budget == 0 then None
            else Follow(t, LinkBase(Parent(a), t[a].raw), Split(t[a].raw) + rest, budget - 1)
  {
    UpAndName(a);
    StepDown(t, Parent(a), Name(a), rest, budget);
  }

  lemma WayBy(p: Path, a: Path)
    requires Normal(p) && a != [] && a <= p
    ensures p == Parent(a) + ([Name(a)] + p[|a|..]) && Normal(Parent(a)) && ProperName(Name(a)) && Normal(p[|a|..])
  {
    UpAndName(a);
    assert p == a + p[|a|..];
    assert ProperName(p[|a| - 1]);
  }

  /** One link on the way is followed if the budget allows. */
  lemma LinkOnTheWay(t: Tree, p: Path, a: Path, source: Path, relative: bool, budget: nat)
    requires WellFormed(t) && Normal(p) && a <= p && MadeFor(t, a, source, relative)
    ensures Normal(source + p[|a|..])
    ensures Follow(t, [], p, budget) == if budget == 0 then None else Follow(t, [], source + p[|a|..], budget - 1)
  {
    var rest := p[|a|..];
    AllAbove(t, a);
    WayBy(p, a);
    WalkDown(t, Parent(a), [Name(a)] + rest, budget);
    AtLink(t, a, rest, budget);
    if budget > 0 {
      TextLeads(t, a, source, relative, rest, budget - 1);
    }
  }

  lemma {:induction false} RouteLeads(t: Tree, route: seq<Path>, budget: nat)
    requires WellFormed(t) && Route(t, route) && Normal(route[0])
    ensures |route| - 1 > budget ==> Follow(t, [], route[0], budget) == None
    ensures Plain(t, route[|route| - 1]) && |route| - 1 <= budget ==>
              Follow(t, [], route[0], budget) == if route[|route| - 1] in t then Some(route[|route| - 1]) else None
    decreases |route|
  {
    if |route| == 1 {
      if Plain(t, route[0]) {
        WalkPlain(t, route[0], budget);
      }
    } else {
      assert LeadsOn(t, route[0], route[1]);
      var a, source :| Replaced(t, route[0], a, source, route[1]);
      var relative :| MadeFor(t, a, source, relative);
      LinkOnTheWay(t, route[0], a, source, relative, budget);
      if budget > 0 {
        assert route[1..][|route| - 2] == route[|route| - 1];
        forall i | 0 <= i < |route| - 2 ensures LeadsOn(t, route[1..][i], route[1..][i + 1]) {
          assert LeadsOn(t, route[i + 1], route[i + 2]);
        }
        RouteLeads(t, route[1..], budget - 1);
      }
    }
  }

  lemma FromTheRoot(t: Tree, p: Path, budget: nat)
    requires WellFormed(t) && p in t && p != []
    ensures Follow(t, [], p, budget) == Follow(t, Parent(p), [Name(p)], budget)
  {
    AllAbove(t, p);
    UpAndName(p);
    WalkDown(t, Parent(p), [Name(p)], budget);
  }

  // ---------------------------------------------------------------- which links are live

  /** An entry whose way ends at a path without links is live exactly if at most 40 links were on the way and there is
      something at its end; it is a file exactly if that is one. */
  lemma LiveAlongRoute(t: Tree, route: seq<Path>)
    requires WellFormed(t) && Route(t, route) && route[0] in t && Plain(t, route[|route| - 1])
    ensures Live(t, route[0]) <==> |route| - 1 <= 40 && route[|route| - 1] in t
    ensures route[0] != [] ==>
              (IsFile(t, route[0]) <==> |route| - 1 <= 40 && route[|route| - 1] in t && t[route[|route| - 1]].File?)
  {
    if route[0] == [] {
      RootHasNoRoute(t, route);
    } else {
      RouteLeads(t, route, MAX_LINKS);
      FromTheRoot(t, route[0], MAX_LINKS);
    }
  }

  lemma RootLeadsNowhere(t: Tree, q: Path)
    ensures !LeadsOn(t, [], q)
  {}

  lemma RootHasNoRoute(t: Tree, route: seq<Path>)
    requires Route(t, route) && route[0] == []
    ensures |route| == 1
  {
    if |route| > 1 {
      RootLeadsNowhere(t, route[1]);
    }
  }

  /** With more links than 40 on the way, a loop say, an entry is broken. */
  lemma TooManyLinks(t: Tree, route: seq<Path>)
    requires WellFormed(t) && Route(t, route) && route[0] in t && |route| - 1 > 40
    ensures !Live(t, route[0])
  {
    if route[0] == [] {
      RootHasNoRoute(t, route);
    } else {
      RouteLeads(t, route, MAX_LINKS);
      FromTheRoot(t, route[0], MAX_LINKS);
    }
  }

  /** A link made for a path without links on the way, in either mode, is live exactly if there is something there. */
  lemma MadeLinkIsLive(t: Tree, p: Path, source: Path, relative: bool)
    requires WellFormed(t) && MadeFor(t, p, source, relative) && Plain(t, source)
    ensures Live(t, p) <==> source in t
    ensures IsFile(t, p) <==> source in t && t[source].File?
  {
    LinkLeadsOn(t, p, source);
    assert Route(t, [p, source]);
    LiveAlongRoute(t, [p, source]);
  }

  /** Following p leads to s. */
  ghost predicate LeadsTo(t: Tree, p: Path, s: Path) {
    p != [] && Follow(t, Parent(p), [Name(p)], MAX_LINKS) == Some(s)
  }

  /** A link made for a file leads to it. */
  lemma MadeLinkLeads(t: Tree, p: Path, source: Path, relative: bool)
    requires WellFormed(t) && MadeFor(t, p, source, relative) && source in t && t[source].File?
    ensures LeadsTo(t, p, source) && IsFile(t, p)
  {
    FilesArePlain(t, source);
    MadeLinkIsLive(t, p, source, relative);
    OneLinkLeads(t, p, source);
    FromTheRoot(t, p, MAX_LINKS);
  }

  lemma FilesArePlain(t: Tree, p: Path)
    requires WellFormed(t) && p in t && t[p].File?
    ensures Plain(t, p)
  {
    NoLinkAbove(t, p);
    forall b | b <= p ensures !IsLink(t, b) { assert b == p || b < p; }
  }

  lemma OneLinkLeads(t: Tree, p: Path, source: Path)
    requires WellFormed(t) && Made(t, p, source) && Normal(p) && Plain(t, source) && source in t
    ensures Follow(t, [], p, MAX_LINKS) == Some(source)
  {
    LinkLeadsOn(t, p, source);
    assert Route(t, [p, source]);
    RouteLeads(t, [p, source], MAX_LINKS);
  }

  lemma NoLinkAbove(t: Tree, p: Path)
    requires WellFormed(t) && p in t
    ensures forall b :: b < p ==> !IsLink(t, b)
  {
    forall b | b < p ensures !IsLink(t, b) { AncestorsAreDirs(t, p, b); }
  }

  /** So a scan plans to remove such a link exactly if it is to be kept by nobody, and its source is missing or one of
      the library's own. */
  lemma JudgedBySource(t: Tree, output: Path, keep: set<Path>, root: Path, p: Path, source: Path, relative: bool)
    requires WellFormed(t) && p in LinksBelow(t, output) && MadeFor(t, p, source, relative) && Plain(t, source)
    ensures p in Plan(t, output, keep, root) <==> p !in keep && (source !in t || Within(source, root))
  {
    MadeLinkIsLive(t, p, source, relative);
    MadeLinksAreOwned(source, p, relative, root);
  }

  /** Links that lead to one another: each is made for the next one, the last one for source. */
  ghost predicate Chain(t: Tree, links: seq<Path>, source: Path) {
    links != [] && forall i :: 0 <= i < |links| ==> Made(t, links[i], (links + [source])[i + 1])
  }

  ghost predicate Made(t: Tree, a: Path, source: Path) {
    exists relative :: MadeFor(t, a, source, relative)
  }

  /** A chain of links is live exactly if there are at most 40 of them and something is at its end. */
  lemma ChainIsLive(t: Tree, links: seq<Path>, source: Path)
    requires WellFormed(t) && Chain(t, links, source) && Plain(t, source)
    ensures Live(t, links[0]) <==> |links| <= 40 && source in t
  {
    var route := links + [source];
    forall i | 0 <= i < |links| ensures LeadsOn(t, route[i], route[i + 1]) {
      assert Made(t, links[i], route[i + 1]);
      LinkLeadsOn(t, links[i], route[i + 1]);
    }
    LiveAlongRoute(t, route);
  }

  lemma LinkLeadsOn(t: Tree, p: Path, source: Path)
    requires WellFormed(t) && Made(t, p, source)
    ensures LeadsOn(t, p, source)
  {
    NoLinkAbove(t, p);
    assert source + p[|p|..] == source;
    assert Replaced(t, p, p, source, source);
  }

  // ---------------------------------------------------------------- what is looked up behind a link

  lemma {:induction false} DownTouches(t: Tree, cur: Path, rest: Path, budget: nat)
    requires Normal(rest) && forall b :: b <= cur + rest ==> !IsLink(t, b)
    ensures forall q :: q in Touched(t, cur, rest, budget) ==> q <= cur + rest
    decreases |rest|
  {
    if rest != [] {
      var next := cur + [rest[0]];
      FirstAndRest(rest);
      assert next + rest[1..] == cur + rest && next <= cur + rest;
      assert !IsLink(t, next);
      StepDown(t, cur, rest[0], rest[1..], budget);
      if IsDir(t, next) {
        DownTouches(t, next, rest[1..], budget);
      }
    }
  }

  lemma {:induction false} UpTouches(t: Tree, start: Path, n: nat, rest: seq<string>, budget: nat)
    requires n <= |start|
    ensures Touched(t, start, Ups(n) + rest, budget) == Touched(t, start[..|start| - n], rest, budget)
    decreases n
  {
    var todo := Ups(n) + rest;
    if n == 0 {
      assert todo == rest && start[..|start|] == start;
    } else {
      assert todo[0] == ".." && todo[1..] == Ups(n - 1) + rest;
      assert Parent(start)[..|start| - n] == start[..|start| - n];
      UpTouches(t, Parent(start), n - 1, rest, budget);
    }
  }

  /** Behind a link made for a path without links on the way, nothing but that path and what is above it is looked
      up. */
  lemma LooksUpItsSource(t: Tree, p: Path, source: Path, relative: bool)
    requires WellFormed(t) && MadeFor(t, p, source, relative) && Plain(t, source)
    ensures forall q :: q in Behind(t, p) ==> q <= source
  {
    TextTellsMode(source, p, relative);
    if relative {
      RelativeTouches(t, Parent(p), source, MAX_LINKS - 1);
    } else {
      AbsoluteText(source, p);
      AbsoluteTouches(t, source, Split(t[p].raw), MAX_LINKS - 1);
    }
  }

  lemma RelativeTouches(t: Tree, start: Path, source: Path, budget: nat)
    requires Normal(start) && Normal(source) && Plain(t, source)
    ensures forall q :: q in Touched(t, start, Split(RelPath(source, start)), budget) ==> q <= source
  {
    var n, parts := PartsOfText(source, start);
    UpAndDownTouches(t, start, source, n, parts, budget);
  }

  lemma PartsOfText(source: Path, start: Path) returns (n: nat, parts: seq<string>)
    requires Normal(start) && Normal(source)
    ensures n <= |start| && n <= |source| && start[..n] == source[..n] && parts == Split(RelPath(source, start))
    ensures var ways := Ups(|start| - n) + source[n..]; parts == if ways == [] then ["."] else ways
  {
    n, parts := CommonPrefix(start, source), Split(RelPath(source, start));
    RelPathParts(source, start);
  }

  lemma AbsoluteTouches(t: Tree, source: Path, parts: seq<string>, budget: nat)
    requires parts == [""] + (if source == [] then [""] else source) && Normal(source) && Plain(t, source)
    ensures forall q :: q in Touched(t, [], parts, budget) ==> q <= source
  {
    if source == [] {
      assert parts[1..] == [""] && [""][1..] == [];
      assert Touched(t, [], [""], budget) == {};
    } else {
      assert parts[1..] == source && [] + source == source;
      DownTouches(t, [], source, budget);
    }
  }

  lemma UpAndDownTouches(t: Tree, start: Path, source: Path, n: nat, parts: seq<string>, budget: nat)
    requires n <= |start| && n <= |source| && start[..n] == source[..n] && Normal(source) && Plain(t, source)
    requires var ways := Ups(|start| - n) + source[n..]; parts == if ways == [] then ["."] else ways
    ensures forall q :: q in Touched(t, start, parts, budget) ==> q <= source
  {
    var ups, down := Ups(|start| - n), source[n..];
    assert start[..|start| - (|start| - n)] == source[..n] && source[..n] + down == source;
    UpTouches(t, start, |start| - n, down, budget);
    DownTouches(t, source[..n], down, budget);
    if ups + down == [] {
      assert ["."][1..] == [];
    }
  }

  /** A live link made for a file that lies in no output leads away from the outputs. */
  lemma MadeLinkLeadsAway(t: Tree, p: Path, source: Path, relative: bool, outs: set<Path>)
    requires WellFormed(t) && MadeFor(t, p, source, relative) && Plain(t, source) && source in t
    requires forall o :: o in outs ==> !Below(source, o)
    ensures LeadsAway(t, p, outs)
  {
    LooksUpItsSource(t, p, source, relative);
    forall q, o | q in Behind(t, p) && o in outs ensures !Below(q, o) && (q <= o ==> q in t) {
      if q != source {
        AncestorsAreDirs(t, source, q);
      }
    }
  }
}
