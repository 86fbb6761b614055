/** What a dry run tells of the real run from the same tree. */
module DryRuns {
  import opened Paths
  import opened Trees
  import opened Reconcile
  import opened Replacements
  import opened Symlinks
  import opened Safety
  import opened Interference
  import opened Linking
  import opened Mending
  import opened Outcomes

  /** The wanted links that are missing altogether. */
  function NewLinks(t: Tree, job: Job): set<Path> {
    set d | d in job.wanted && d !in t
  }

  /** The links below the output once the wanted ones are made. */
  lemma LinksAfterLinking(t: Tree, job: Job)
    requires WellFormed(t) && Linkable(t, job.wanted) && Proper(job)
    ensures LinksBelow(LinkedOver(t, job.wanted), job.output) ==
            LinksBelow(t, job.output) - Used(t, job.wanted) + NewLinks(t, job)
    ensures LinksBelow(t, job.output) !! NewLinks(t, job)
  {
    forall p
      ensures p in LinksBelow(LinkedOver(t, job.wanted), job.output) <==>
              p in LinksBelow(t, job.output) - Used(t, job.wanted) + NewLinks(t, job)
    {
      LinkAfterLinking(t, job, p);
    }
  }

  lemma WantedAfterLinking(t: Tree, job: Job, p: Path)
    requires WellFormed(t) && Linkable(t, job.wanted) && Proper(job) && p in job.wanted
    ensures p in LinksBelow(LinkedOver(t, job.wanted), job.output)
    ensures p in LinksBelow(t, job.output) || p in NewLinks(t, job)
    ensures p !in Used(t, job.wanted)
  {
    var u := LinkedOver(t, job.wanted);
    LinkableAt(t, job.wanted, p);
    IsLeftAlone(t, job.wanted, job.wanted, p);
    AroundOne(t, job.wanted, p);
    assert job.output in Ancestors(job.wanted.Keys) && job.output in u && u[job.output].Dir?;
    if p in t {
      AncestorsAreDirs(t, p, job.output);
    }
  }

  lemma LinkAfterLinking(t: Tree, job: Job, p: Path)
    requires WellFormed(t) && Linkable(t, job.wanted) && Proper(job)
    ensures p in LinksBelow(LinkedOver(t, job.wanted), job.output) <==>
            p in LinksBelow(t, job.output) - Used(t, job.wanted) + NewLinks(t, job)
  {
    if p in job.wanted {
      WantedAfterLinking(t, job, p);
    } else if p in t && Below(p, job.output) {
      AncestorsAreDirs(t, p, job.output);
      OutputStands(t, job, Used(t, job.wanted));
    }
  }

  /** What linking leaves of the removals: all but the leftovers it has used itself. */
  lemma PlanAfterLinking(t: Tree, job: Job, outs: set<Path>)
    requires Mendable(t, job, outs)
    ensures PlanOf(LinkedOver(t, job.wanted), job) == PlanOf(t, job) - Used(t, job.wanted)
  {
    forall p
      ensures p in PlanOf(LinkedOver(t, job.wanted), job) <==> p in PlanOf(t, job) && p !in Used(t, job.wanted)
    {
      if p in Leftovers(t, job.wanted) {
        LeftoverAfterLinking(t, job, outs, p);
      } else {
        OtherAfterLinking(t, job, outs, p);
      }
    }
  }

  lemma LeftoverAfterLinking(t: Tree, job: Job, outs: set<Path>, p: Path)
    requires Mendable(t, job, outs) && p in Leftovers(t, job.wanted)
    ensures p in PlanOf(t, job)
    ensures p in PlanOf(LinkedOver(t, job.wanted), job) <==> p !in Used(t, job.wanted)
  {
    LeftoverPlace(t, job, p);
    AncestorsAreDirs(t, p, job.output);
    LeftoverStaysDoomed(t, job, outs, t, p);
    if p in LinkedOver(t, job.wanted) {
      LeftoverIsPlanned(t, job, outs, p);
    }
  }

  lemma OtherAfterLinking(t: Tree, job: Job, outs: set<Path>, p: Path)
    requires Mendable(t, job, outs) && p !in Leftovers(t, job.wanted)
    ensures p !in Used(t, job.wanted) && (p in PlanOf(LinkedOver(t, job.wanted), job) <==> p in PlanOf(t, job))
  {
    var u := LinkedOver(t, job.wanted);
    if p in PlanOf(u, job) {
      OtherLink(t, job, outs, p);
    }
    if p in PlanOf(t, job) || p in PlanOf(u, job) {
      AncestorsAreDirs(t, p, job.output);
      OutputStands(t, job, Used(t, job.wanted));
      OverDrifts(t, job, outs, Used(t, job.wanted));
      VerdictAlike(t, job, outs, t, u, p);
    }
  }

  /** How many links there will be once the missing ones are made, and leftovers have been used for others. */
  function LinksToBe(t: Tree, job: Job): nat {
    |LinksBelow(t, job.output) - Used(t, job.wanted)| + |NewLinks(t, job)|
  }

  /** How many removals will be left by then. */
  function RemovalsToBe(t: Tree, job: Job): nat {
    |PlanOf(t, job) - Used(t, job.wanted)|
  }

  predicate Refuses(guard: Option<Guard>, removals: nat, links: nat) {
    guard.Some? && guard.value.Blocks(removals, links)
  }

  /** The guard makes the same of the dry run and of the real one: of the removals among the links there are, and of
      those among the links there will be. */
  predicate GuardAgrees(t: Tree, job: Job) {
    Refuses(job.guard, |PlanOf(t, job)|, |LinksBelow(t, job.output)|) ==>
      Refuses(job.guard, RemovalsToBe(t, job), LinksToBe(t, job))
  }

  /** Both runs remove the same links: if neither is refused, no leftover is used for linking. */
  predicate RemovalsAgree(t: Tree, job: Job) {
    if Blocked(t, job) then GuardAgrees(t, job) || PlanOf(t, job) <= Used(t, job.wanted)
    else Used(t, job.wanted) == {}
  }

  /** Where there is no leftover to use, that is what the guard says. */
  lemma NothingToUse(t: Tree, job: Job)
    requires Used(t, job.wanted) == {}
    ensures RemovalsAgree(t, job) <==> GuardAgrees(t, job)
  {
    if Blocked(t, job) {
      assert PlanOf(t, job) != {};
    }
  }

  lemma LargerShare(n: nat, few: nat, many: nat)
    requires 0 < few <= many
    ensures (n * 100) as real / few as real >= (n * 100) as real / many as real
  {
    var x, a, b := (n * 100) as real, few as real, many as real;
    assert x / a == x * b / (a * b) && x / b == x * a / (a * b);
  }

  lemma FewerOfFewer(a: nat, b: nat, u: nat)
    requires u <= a <= b
    ensures (a - u) * b <= a * (b - u)
  {
    assert (a - u) * b == a * b - u * b && a * (b - u) == a * b - a * u;
    assert (b - a) * u == b * u - a * u >= 0;
  }

  lemma SmallerShare(removals: nat, links: nat, used: nat, more: nat)
    requires used < removals <= links
    ensures ((removals - used) * 100) as real / (links - used
                                                 + more) as real <= (removals * 100) as real / links as real
  {
    FewerOfFewer(removals, links, used);
    LargerShare(removals - used, links - used, links - used + more);
    ShareOf(removals, links, removals - used, links - used);
  }

  lemma Quotients(x: real, p: real, y: real, q: real)
    requires 0.0 < p && 0.0 < q && x * q <= y * p
    ensures x / p <= y / q
  {
    assert x / p == x * q / (p * q) && y / q == y * p / (p * q);
  }

  lemma Hundredfold(a: nat, b: nat, c: nat, d: nat)
    requires c * b <= a * d
    ensures (c * 100) as real * b as real <= (a * 100) as real * d as real
  {
    assert c * 100 * b == c * b * 100 && a * 100 * d == a * d * 100;
    assert (c * 100) as real * b as real == (c * 100 * b) as real;
    assert (a * 100) as real * d as real == (a * 100 * d) as real;
  }

  lemma ShareOf(a: nat, b: nat, c: nat, d: nat)
    requires 0 < b && 0 < d && c * b <= a * d
    ensures (c * 100) as real / d as real <= (a * 100) as real / b as real
  {
    Hundredfold(a, b, c, d);
    Quotients((c * 100) as real, d as real, (a * 100) as real, b as real);
  }

  lemma FewerBlockLess(guard: Guard, removals: nat, links: nat, used: nat, more: nat)
    requires used <= removals <= links
    ensures guard.Blocks(removals - used, links - used + more) ==> guard.Blocks(removals, links)
  {
    if used < removals {
      SmallerShare(removals, links, used, more);
    }
  }

  lemma Subset(a: set<Path>, b: set<Path>)
    requires a <= b
    ensures |a| <= |b|
  {
    assert b == a + (b - a);
  }

  /** The guard of the real run counts what is left of the removals among the links there will be. */
  lemma RealGuardNumbers(t: Tree, job: Job, outs: set<Path>)
    requires Mendable(t, job, outs)
    ensures Blocked(t, job) == Refuses(job.guard, |PlanOf(t, job)|, |LinksBelow(t, job.output)|)
    ensures Blocked(LinkedOver(t, job.wanted), job) == Refuses(job.guard, RemovalsToBe(t, job), LinksToBe(t, job))
    ensures Used(t, job.wanted) <= PlanOf(t, job) <= LinksBelow(t, job.output)
  {
    PlanAfterLinking(t, job, outs);
    LinksAfterLinking(t, job);
    assert |LinksBelow(LinkedOver(t, job.wanted), job.output)| == LinksToBe(t, job);
    forall p | p in Used(t, job.wanted) ensures p in PlanOf(t, job) { LeftoverAfterLinking(t, job, outs, p); }
  }

  lemma Without(a: set<Path>, b: set<Path>)
    requires b <= a
    ensures |a - b| == |a| - |b|
  {}

  lemma CountsToBe(t: Tree, job: Job, outs: set<Path>)
    requires Mendable(t, job, outs)
    ensures var plan, links, used := |PlanOf(t, job)|, |LinksBelow(t, job.output)|, |Used(t, job.wanted)|;
            && used <= plan <= links && RemovalsToBe(t, job) == plan - used
            && LinksToBe(t, job) == links - used + |NewLinks(t, job)|
  {
    var plan, links, used := PlanOf(t, job), LinksBelow(t, job.output), Used(t, job.wanted);
    RealGuardNumbers(t, job, outs);
    Subset(used, plan);
    Subset(plan, links);
    Without(plan, used);
    Without(links, used);
  }

  lemma FewerRefusedLess(guard: Option<Guard>, removals: nat, links: nat, fewer: nat, others: nat, used: nat)
    requires used <= removals <= links && fewer == removals - used && others >= links - used
    ensures Refuses(guard, fewer, others) ==> Refuses(guard, removals, links)
  {
    if guard.Some? {
      FewerBlockLess(guard.value, removals, links, used, others - (links - used));
    }
  }

  /** With a guard, a dry run is refused whenever the real run would be: it counts at least as many removals, and they
      are a larger share of the links. The two agree exactly if linking makes no difference to the guard. */
  lemma DryGuardIsStricter(t: Tree, job: Job, outs: set<Path>)
    requires Mendable(t, job, outs)
    ensures Blocked(LinkedOver(t, job.wanted), job) ==> Blocked(t, job)
    ensures Blocked(LinkedOver(t, job.wanted), job) == Blocked(t, job) <==> GuardAgrees(t, job)
  {
    RealGuardNumbers(t, job, outs);
    CountsToBe(t, job, outs);
    FewerRefusedLess(job.guard, |PlanOf(t, job)|, |LinksBelow(t, job.output)|, RemovalsToBe(t, job), LinksToBe(t, job),
                     |Used(t, job.wanted)|);
  }

  /** A refusal is seen in what is removed: nothing is refused that would remove nothing. */
  lemma RefusalIsSeen(t: Tree, job: Job, outs: set<Path>)
    requires Mendable(t, job, outs)
    ensures Condemned(LinkedOver(t, job.wanted), job) == Condemned(t, job) <==> RemovalsAgree(t, job)
  {
    var u, plan, used := LinkedOver(t, job.wanted), PlanOf(t, job), Used(t, job.wanted);
    PlanAfterLinking(t, job, outs);
    RealGuardNumbers(t, job, outs);
    DryGuardIsStricter(t, job, outs);
    if Blocked(t, job) {
      assert PlanOf(u, job) == {} <==> plan <= used;
      assert PlanOf(u, job) == {} ==> !Blocked(u, job);
    } else {
      assert plan - used == plan <==> used == {};
    }
  }

  /** They do not always agree: one broken link among one, but among two once the missing link is made. */
  lemma DryGuardCanRefuse()
    ensures var t: Tree := map[[] := Dir, ["o"] := Dir, ["o", "a"] := Link(Text(["x"]))];
            var job := Job(["o"], map[["o", "b"] := "/i/b"], {}, ["i"], Some(Guard(50.0, 0)));
            && WellFormed(t) && Clear(t, job.wanted) && Proper(job) && AllLeadAway(t, job, {job.output})
            && Blocked(t, job) && !Blocked(AddLinks(t, job.wanted), job)
  {
    var t: Tree := map[[] := Dir, ["o"] := Dir, ["o", "a"] := Link(Text(["x"]))];
    var job := Job(["o"], map[["o", "b"] := "/i/b"], {}, ["i"], Some(Guard(50.0, 0)));
    var p: Path, d: Path := ["o", "a"], ["o", "b"];
    OneBrokenLink(t, ["o"], p, d, "x", job);
    OneOfTwoIsAllowed(t, job, p, d);
  }

  lemma OneOfTwoIsAllowed(t: Tree, job: Job, p: Path, d: Path)
    requires WellFormed(t) && Clear(t, job.wanted) && Proper(job) && AllLeadAway(t, job, {job.output})
    requires LinksBelow(t, job.output) == PlanOf(t, job) == {p} && NewLinks(t, job) == {d}
             && job.guard == Some(Guard(50.0, 0))
    ensures Blocked(t, job) && !Blocked(AddLinks(t, job.wanted), job)
  {
    ReadyIsMendable(t, job, {job.output});
    assert PlanOf(t, job) - {} == {p} == LinksBelow(t, job.output) - {};
    assert |{p}| == 1 && RemovalsToBe(t, job) == 1 && LinksToBe(t, job) == |{p}| + |{d}| == 2;
    HalfIsAllowed(job.guard, 1, 1, 2);
    RealGuardNumbers(t, job, {job.output});
  }

  lemma HalfIsAllowed(guard: Option<Guard>, removals: nat, links: nat, more: nat)
    requires guard == Some(Guard(50.0, 0)) && removals == 1 && links == 1 && more == 2
    ensures Refuses(guard, removals, links) && !Refuses(guard, removals, more)
  {
    assert 100 as real / 1 as real == 100.0 && 100 as real / 2 as real == 50.0;
  }

  /** An output directory that holds a broken link only, and wants another one. */
  lemma OneBrokenLink(t: Tree, o: Path, p: Path, d: Path, x: string, job: Job)
    requires |o| == 1 && |p| == 2 == |d| && o < p && o < d && p != d && Normal(p) && Normal(d) && ProperName(x)
             && o != [x]
    requires t == map[[] := Dir, o := Dir, p := Link(Text([x]))] && p[1] != TmpName(d[1])
    requires job.output == o && job.wanted.Keys == {d} && job.preserve == {}
    ensures WellFormed(t) && Clear(t, job.wanted) && Proper(job) && AllLeadAway(t, job, {job.output})
    ensures LinksBelow(t, o) == PlanOf(t, job) == {p} && NewLinks(t, job) == {d}
  {
    assert Parent(p) == o && Parent(d) == o && Parent(o) == [] && Normal(o);
    OneClear(t, o, p, d, job.wanted);
    assert LinksBelow(t, o) == {p};
    OnlyPlanned(t, o, p, x, job);
  }

  lemma OnlyPlanned(t: Tree, o: Path, p: Path, x: string, job: Job)
    requires p != [] && ProperName(Name(p)) && IsLink(t, p) && ProperName(x) && t[p].raw == Text([x]) && [x] !in t
    requires job.output == o && LinksBelow(t, o) == {p} && p !in job.Keep() && !(o <= [x]) && !([x] <= o)
    ensures PlanOf(t, job) == {p} && AllLeadAway(t, job, {o})
  {
    BrokenLinkAlone(t, p, x);
  }

  lemma OneClear(t: Tree, o: Path, p: Path, d: Path, wanted: Wanted)
    requires |o| == 1 && |p| == 2 == |d| && o < p && o < d && p != d && Normal(d) && p[1] != TmpName(d[1])
    requires t.Keys == {[], o, p} && t[[]].Dir? && t[o].Dir? && wanted.Keys == {d}
    ensures Clear(t, wanted)
  {
    var tmp := TmpOf(d);
    assert |tmp| == 2 && tmp[1] == TmpName(d[1]) && Name(d) == d[1];
    assert |TmpName(d[1])| > |d[1]|;
    forall a | a < d && a in t ensures t[a].Dir? { assert a == [] || a == o; }
  }

  /** A link to the path [x], which does not exist, is broken, and following it looks up nothing else. */
  lemma BrokenLinkAlone(t: Tree, p: Path, x: string)
    requires p != [] && ProperName(Name(p)) && IsLink(t, p) && ProperName(x) && t[p].raw == Text([x]) && [x] !in t
    ensures !Live(t, p) && Behind(t, p) == {[x]}
  {
    SplitSlashed([x]);
    var parts := ["", x];
    assert Split(t[p].raw) == parts && parts[1..] == [x] && [x][1..] == [];
    EntryTouches(t, p);
    assert [] + [x] == [x];
    assert Follow(t, [], [x], MAX_LINKS - 1) == None && Touched(t, [], [x], MAX_LINKS - 1) == {[x]};
  }

  /** Nor is a leftover always removed that a dry run reports as removed: the real run may use its name to replace the
      link it was for. */
  lemma LeftoverCanBeUsed()
    ensures var t: Tree := map[[] := Dir, ["o"] := Dir, ["o", "b"] := Link("/i/a"),
                               TmpOf(["o", "b"]) := Link(Text(["x"]))];
            var job := Job(["o"], map[["o", "b"] := "/i/b"], {}, ["i"], None);
            Mendable(t, job, {job.output}) && GuardAgrees(t, job) && !RemovalsAgree(t, job)
  {
    var o: Path, d: Path := ["o"], ["o", "b"];
    var t: Tree := map[[] := Dir, o := Dir, d := Link("/i/a"), TmpOf(d) := Link(Text(["x"]))];
    var job := Job(o, map[d := "/i/b"], {}, ["i"], None);
    OneLeftover(t, o, d, "x", job);
  }

  lemma OneLeftover(t: Tree, o: Path, d: Path, x: string, job: Job)
    requires |o| == 1 && |d| == 2 && o < d && Normal(d) && ProperName(x) && o != [x]
    requires t.Keys == {[], o, d, TmpOf(d)} && t[[]].Dir? && t[o].Dir? && t[d].Link? && t[TmpOf(d)] == Link(Text([x]))
    requires job.output == o && job.wanted.Keys == {d} && job.preserve == {} && job.guard == None
             && t[d] != Link(job.wanted[d])
    ensures Mendable(t, job, {o}) && GuardAgrees(t, job) && !RemovalsAgree(t, job)
  {
    TwoLinks(t, o, d);
    OneIsLinkable(t, o, d, job.wanted);
    BrokenLinkAlone(t, TmpOf(d), x);
    OneIsDoomed(t, o, TmpOf(d), x, job);
    TmpIsUsed(t, job.wanted, d);
    assert TmpOf(d) in Used(t, job.wanted);
  }

  lemma OneIsDoomed(t: Tree, o: Path, p: Path, x: string, job: Job)
    requires |o| == 1 && o != [x] && p != [] && IsLink(t, p) && !Live(t, p) && Behind(t, p) == {[x]}
             && p !in job.Keep()
    ensures LeftoverDoomed(t, job, {o}, p)
  {}

  lemma TwoLinks(t: Tree, o: Path, d: Path)
    requires |o| == 1 && |d| == 2 && o < d && Normal(d)
    requires t.Keys == {[], o, d, TmpOf(d)} && t[[]].Dir? && t[o].Dir? && t[d].Link? && t[TmpOf(d)].Link?
    ensures WellFormed(t) && Normal(o) && LinksBelow(t, o) <= {d, TmpOf(d)}
    ensures TmpOf(d) != [] && ProperName(Name(TmpOf(d))) && TmpOf(d) != d && [o[0]] == o
  {
    TmpIsProper(d);
    assert Parent(d) == o == Parent(TmpOf(d)) && Parent(o) == [];
  }

  lemma OneIsLinkable(t: Tree, o: Path, d: Path, wanted: Wanted)
    requires |o| == 1 && |d| == 2 && o < d && Normal(d) && wanted.Keys == {d}
    requires t.Keys == {[], o, d, TmpOf(d)} && t[[]].Dir? && t[o].Dir? && t[d].Link? && t[TmpOf(d)].Link?
    ensures Linkable(t, wanted) && Leftovers(t, wanted) == {TmpOf(d)}
  {
    forall a | a < d && a in t ensures t[a].Dir? { assert a == [] || a == o; }
    assert wanted == map[d := wanted[d]];
    Replacements.OneClear(t, d, wanted[d]);
    TmpAndBack(d);
    forall p ensures p in Leftovers(t, wanted) <==> p == TmpOf(d) {
      if IsTmp(p) {
        UntmpAndBack(p);
      }
    }
  }

  /** The reports agree on the links made; on the links removed and on the refusal they agree exactly as told. */
  lemma ReportsAgree(t: Tree, job: Job, outs: set<Path>, dry: Report, actual: Report)
    requires Mendable(t, job, outs) && TrueReport(t, job, dry, true) && TrueReport(t, job, actual, false)
    ensures Reported(dry.created) == Reported(actual.created)
    ensures Reported(dry.removed) == Reported(actual.removed) <==> RemovalsAgree(t, job)
    ensures dry.blocked == actual.blocked <==> GuardAgrees(t, job)
  {
    DryGuardIsStricter(t, job, outs);
    RefusalIsSeen(t, job, outs);
  }

  /** In a dry run every job finds the same tree. */
  lemma DryOutcome(t: Tree, steps: seq<Step>, u: Tree, jobs: seq<Job>, reports: seq<Report>, k: nat)
    requires Chained(t, steps, u, jobs, reports, true) && k < |reports| <= |jobs|
    requires Makeable(t, jobs[k].wanted)
    ensures TrueReport(t, Narrowed(t, jobs[k]), reports[k], true)
  {
    var first, mid, here, next, rest := TurnInChain(t, steps, u, jobs, reports, k, true);
    ChainServes(t, first, mid, jobs, reports[..k], true);
  }

  /** Output by output, a dry run reports, as sets, the very links that a real run of the same jobs from the same tree
      makes, if nothing fails in that one there, whatever fails elsewhere: a file or a directory that stands in the way
      of a link is left alone by both. It reports the links that run removes exactly if both are refused, or neither is
      and no leftover is used. */
  lemma DryRunTells(t: Tree, jobs: seq<Job>, k: nat, steps: seq<Step>, u: Tree, dry: seq<Report>, others: seq<Step>,
                    v: Tree, actual: seq<Report>)
    requires Chained(t, steps, u, jobs, dry, true) && Chained(t, others, v, jobs, actual, false)
    requires k < |dry| <= |jobs| && k < |actual| && actual[k].faults == 0
    requires Separate(jobs) && (forall j :: j in jobs ==> Proper(j)) && Mendable(t, Narrowed(t, jobs[k]), Outputs(jobs))
    ensures var job := Narrowed(t, jobs[k]);
            && Reported(dry[k].created) == Reported(actual[k].created)
            && (Reported(dry[k].removed) == Reported(actual[k].removed) <==> RemovalsAgree(t, job))
            && (dry[k].blocked == actual[k].blocked <==> GuardAgrees(t, job))
  {
    DryOutcome(t, steps, u, jobs, dry, k);
    ExactWhereNothingFailed(t, others, v, jobs, actual, k);
    ReportsAgree(t, Narrowed(t, jobs[k]), Outputs(jobs), dry[k], actual[k]);
  }
}
