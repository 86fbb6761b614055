/** What a dry scan of all libraries tells of the real one from the same tree. */
module Agreement {
  import opened Paths
  import opened Trees
  import opened Reconcile
  import opened Replacements
  import opened Safety
  import opened Models
  import opened Selection
  import opened Interference
  import opened Gathering
  import opened Linking
  import opened DryRuns
  import opened Outcomes
  import opened Mending
  import opened Processor
  import opened Libraries
  import opened Runner
  import opened Recovery
  import opened Isolation

  // ---------------------------------------------------------------- the jobs of a scan

  lemma OutputsApart(t: Tree, pls: seq<Pipeline>, n: nat, o: Output)
    requires RunApart(t, pls) && n < |pls| && o in pls[n].outputs
    ensures ApartFrom(o.path, Outputs(AllJobs(t, pls[..n])))
  {
    var pl, first := pls[n], AllJobs(t, pls[..n]);
    AllJobsPrefix(t, pls, n);
    AllJobsPrefix(t, pls, n + 1);
    assert pl in pls;
    if IsUsable(t, pl) {
      var k :| 0 <= k < |pl.outputs| && pl.outputs[k] == o;
      JobsFitPaths(t, pl);
      SeparateParts(first, JobsFound(t, pl), AllJobs(t, pls));
      assert JobsFound(t, pl)[k] in JobsFound(t, pl);
    } else {
      OutputsOfFewer(first, AllJobs(t, pls));
    }
  }

  lemma SameFiles(t: Tree, pls: seq<Pipeline>, n: nat, u: Tree)
    requires WellFormed(t) && WellFormed(u) && RunApart(t, pls) && n < |pls|
    requires Drift(t, u, Outputs(AllJobs(t, pls)))
    ensures FilesOf(u, pls[n]) == FilesOf(t, pls[n]) && JobsOf(u, pls[n]) == JobsOf(t, pls[n])
    ensures IsDir(u, pls[n].input) == IsDir(t, pls[n].input)
  {
    var outs := Outputs(AllJobs(t, pls));
    assert pls[n] in pls;
    DriftIsAway(t, u, outs);
    JobsSame(t, u, pls[n], outs);
    InputSame(t, u, pls[n], outs, pls[n].input);
  }

  lemma MoreOutputsDrift(t: Tree, u: Tree, outs: set<Path>, more: set<Path>)
    requires Drift(t, u, outs) && outs <= more
    ensures Drift(t, u, more)
  {}

  /** While only the outputs of libraries before it change, a library finds the same jobs. */
  lemma SameJobsAfter(t: Tree, pls: seq<Pipeline>, n: nat, u: Tree)
    requires WellFormed(t) && WellFormed(u) && RunApart(t, pls) && n < |pls|
    requires Drift(t, u, Outputs(AllJobs(t, pls[..n])))
    ensures IsUsable(u, pls[n]) == IsUsable(t, pls[n]) && JobsFound(u, pls[n]) == JobsFound(t, pls[n])
  {
    var outs := Outputs(AllJobs(t, pls[..n]));
    AllJobsPrefix(t, pls, n);
    OutputsOfFewer(AllJobs(t, pls[..n]), AllJobs(t, pls));
    MoreOutputsDrift(t, u, outs, Outputs(AllJobs(t, pls)));
    SameFiles(t, pls, n, u);
    forall o | o in pls[n].outputs ensures LinksBelow(u, o.path) == LinksBelow(t, o.path) {
      OutputsApart(t, pls, n, o);
      forall p | o.path <= p ensures Same(t, u, p) { ApartUnderDrift(t, u, outs, o.path, p); }
      SameLinksBelow(t, u, o.path);
    }
  }

  /** The library was set up and not cancelled, and all its media files could be read. */
  predicate IsRead(part: Part) {
    !part.scan.stage.NotSetUp? && !part.scan.stage.Cancelled? && part.scan.unread == {}
  }

  lemma JobsOfRead(pl: Pipeline, part: Part, dryRun: bool)
    requires PartIsKept(pl, part, dryRun) && IsRead(part) && Coherent(part.scan.known, pl)
    ensures part.scan.jobs == JobsFound(part.before, pl)
  {
    if part.scan.stage.Complete? {
      AllRead(part.before, pl, part.scan);
    }
  }

  lemma ChainDrifts(t: Tree, steps: seq<Step>, u: Tree, jobs: seq<Job>, reports: seq<Report>, dryRun: bool)
    requires Chained(t, steps, u, jobs, reports, dryRun) && forall job :: job in jobs ==> Proper(job)
    ensures Drift(t, u, Outputs(jobs))
  {
    ChainServes(t, steps, u, jobs, reports, dryRun);
    ServedDrifts(t, steps, u, jobs, Outputs(jobs));
  }

  /** If all media files can be read, a scan runs the jobs found at the start, whatever fails otherwise. */
  lemma {:induction false} JobsOfRun(t: World, pls: seq<Pipeline>, parts: seq<Part>, v: World, dryRun: bool)
    requires WellFormed(t.tree) && RunApart(t.tree, pls) && CacheServes(t.cache, pls)
    requires |parts| <= |pls| && InTurn(t, pls, parts, v) && AllKept(pls, parts, dryRun)
    requires forall part :: part in parts ==> IsRead(part)
    ensures JobsRun(parts) == AllJobs(t.tree, pls[..|parts|])
    decreases |parts|
  {
    if parts != [] {
      var front, last := LastPart(t, pls, parts, v, dryRun);
      var mid := World(last.before, last.scan.known);
      JobsOfRun(t, pls, front, mid, dryRun);
      FoundByLast(t, pls, front, mid, dryRun);
      JobsOfRead(pls[|front|], last, dryRun);
      JobsWithLast(t.tree, pls, front, last);
    }
  }

  lemma FoundByLast(t: World, pls: seq<Pipeline>, front: seq<Part>, mid: World, dryRun: bool)
    requires WellFormed(t.tree) && RunApart(t.tree, pls) && CacheServes(t.cache, pls)
    requires |front| < |pls| && InTurn(t, pls, front, mid) && AllKept(pls, front, dryRun) && WellFormed(mid.tree)
    requires JobsRun(front) == AllJobs(t.tree, pls[..|front|])
    ensures JobsFound(mid.tree, pls[|front|]) == JobsFound(t.tree, pls[|front|])
    ensures Coherent(mid.cache, pls[|front|])
  {
    ScanIsChain(t, pls, front, mid, dryRun);
    AllProper(pls, front, dryRun);
    ChainDrifts(t.tree, AllSteps(front), mid.tree, JobsRun(front), ReportsOf(front), dryRun);
    SameJobsAfter(t.tree, pls, |front|, mid.tree);
    ServesInTurn(t, pls, front, mid);
  }

  lemma WholeChain(t: World, pls: seq<Pipeline>, parts: seq<Part>, v: World, dryRun: bool)
    requires WellFormed(t.tree) && RunApart(t.tree, pls) && CacheServes(t.cache, pls)
    requires |parts| == |pls| && InTurn(t, pls, parts, v) && AllKept(pls, parts, dryRun)
    requires forall part :: part in parts ==> IsRead(part)
    ensures Chained(t.tree, AllSteps(parts), v.tree, AllJobs(t.tree, pls), ReportsOf(parts), dryRun)
    ensures |ReportsOf(parts)| == |AllJobs(t.tree, pls)| && forall job :: job in AllJobs(t.tree, pls) ==> Proper(job)
  {
    assert pls[..|pls|] == pls;
    JobsOfRun(t, pls, parts, v, dryRun);
    ScanIsChain(t, pls, parts, v, dryRun);
    AllProper(pls, parts, dryRun);
  }

  /** If all media files can be read, a scan of all libraries leaves every output in which nothing has failed as its job
      alone would have left it, and reports truly on it, whatever fails elsewhere. What stands in the way of a link is
      left alone, and replacements that were never finished are finished or removed. */
  lemma OutputIsExact(t: World, pls: seq<Pipeline>, parts: seq<Part>, v: World, total: Tally, calm: bool, n: nat)
    requires WellFormed(t.tree) && RunApart(t.tree, pls) && CacheServes(t.cache, pls)
    requires LibrariesScanned(t, v, pls, |pls|, parts, total, false, calm)
             && forall part :: part in parts ==> IsRead(part)
    requires n < |AllJobs(t.tree, pls)|
    requires Mendable(t.tree, Narrowed(t.tree, AllJobs(t.tree, pls)[n]), Outputs(AllJobs(t.tree, pls)))
    ensures |ReportsOf(parts)| == |AllJobs(t.tree, pls)|
    ensures var job, report := Narrowed(t.tree, AllJobs(t.tree, pls)[n]), ReportsOf(parts)[n];
            report.faults == 0 ==>
              && TrueReport(t.tree, job, report, false)
              && forall p :: job.output <= p ==> Same(OverResult(t.tree, job), v.tree, p)
  {
    WholeChain(t, pls, parts, v, false);
    if ReportsOf(parts)[n].faults == 0 {
      ExactWhereNothingFailed(t.tree, AllSteps(parts), v.tree, AllJobs(t.tree, pls), ReportsOf(parts), n);
    }
  }

  /** Output by output, a dry scan of all libraries reports, as sets, the very links that the real scan from the same
      world makes, if all media files can be read and nothing fails in that output, whatever fails elsewhere. Files and
      directories that stand in the way of links make no difference to that, nor do leftovers at temporary names. The
      links removed and the refusals agree exactly as told. */
  lemma DryScanIsReal(t: World, pls: seq<Pipeline>, dry: seq<Part>, u: World, actual: seq<Part>, v: World,
                      sums: (Tally, Tally), calm: (bool, bool), n: nat)
    requires WellFormed(t.tree) && RunApart(t.tree, pls) && CacheServes(t.cache, pls)
    requires LibrariesScanned(t, u, pls, |pls|, dry, sums.0, true, calm.0)
    requires LibrariesScanned(t, v, pls, |pls|, actual, sums.1, false, calm.1)
    requires forall part :: part in dry || part in actual ==> IsRead(part)
    requires n < |AllJobs(t.tree, pls)|
    requires Mendable(t.tree, Narrowed(t.tree, AllJobs(t.tree, pls)[n]), Outputs(AllJobs(t.tree, pls)))
    ensures |ReportsOf(dry)| == |ReportsOf(actual)| == |AllJobs(t.tree, pls)|
    ensures var job, a, b := Narrowed(t.tree, AllJobs(t.tree, pls)[n]), ReportsOf(dry)[n], ReportsOf(actual)[n];
            b.faults == 0 ==>
              && Reported(a.created) == Reported(b.created)
              && (Reported(a.removed) == Reported(b.removed) <==> RemovalsAgree(t.tree, job))
              && (a.blocked == b.blocked <==> GuardAgrees(t.tree, job))
  {
    WholeChain(t, pls, dry, u, true);
    WholeChain(t, pls, actual, v, false);
    if ReportsOf(actual)[n].faults == 0 {
      DryRunTells(t.tree, AllJobs(t.tree, pls), n, AllSteps(dry), u.tree, ReportsOf(dry), AllSteps(actual), v.tree,
                  ReportsOf(actual));
    }
  }
}
