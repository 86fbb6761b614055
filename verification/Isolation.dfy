/** What becomes of a library when others fail. */
module Isolation {
  import opened Paths
  import opened Trees
  import opened Reconcile
  import opened Symlinks
  import opened Safety
  import opened Models
  import opened State
  import opened Selection
  import opened Interference
  import opened Linking
  import opened Mending
  import opened Outcomes
  import opened Processor
  import opened Libraries
  import opened Runner
  import opened Recovery

  // ---------------------------------------------------------------- the jobs of a scan in which something has failed

  /** The jobs run write to the outputs the library had at the start. */
  lemma SameOutputs(t: Tree, pls: seq<Pipeline>, k: nat, u: World, part: Part)
    requires AllWasReady(t, pls) && Unharmed(t, pls, u) && k < |pls| && PartIsKept(pls[k], part, false)
    requires part.before == u.tree
    ensures part.scan.jobs == [] || |part.scan.jobs| == |JobsFound(t, pls[k])|
    ensures forall i :: 0 <= i < |part.scan.jobs| ==> part.scan.jobs[i].output == JobsFound(t, pls[k])[i].output
  {
    StillUsable(t, pls, k, u);
    if part.scan.stage.Complete? {
      forall i | 0 <= i < |part.scan.jobs| ensures part.scan.jobs[i].output == JobsFound(t, pls[k])[i].output {
        JobsAt(u.tree, pls[k], part.scan, i);
        JobsFitPaths(t, pls[k]);
      }
    }
  }

  lemma ApartLike(jobs: seq<Job>, like: seq<Job>)
    requires Separate(like) && |jobs| <= |like| && forall i :: 0 <= i < |jobs| ==> jobs[i].output == like[i].output
    ensures Separate(jobs) && Outputs(jobs) <= Outputs(like)
  {
    forall job | job in jobs ensures job.output in Outputs(like) {
      var i :| 0 <= i < |jobs| && jobs[i] == job;
      assert like[i] in like;
    }
  }

  lemma ApartTogether(first: seq<Job>, second: seq<Job>, like: seq<Job>, others: seq<Job>, all: seq<Job>)
    requires Separate(all) && like + others <= all && Separate(first) && Outputs(first) <= Outputs(like)
    requires Separate(second) && Outputs(second) <= Outputs(others)
    ensures Separate(first + second) && Outputs(first + second) <= Outputs(like + others)
  {
    SeparateParts(like, others, all);
    forall a, b | a in first && b in second ensures !(a.output <= b.output) && !(b.output <= a.output) {
      assert a.output in Outputs(like) && b.output in Outputs(others);
    }
    SeparateWhole(first, second);
    forall o | o in Outputs(first + second) ensures o in Outputs(like + others) {
      if o in Outputs(first) {
        assert o in Outputs(like);
      } else {
        assert o in Outputs(second) && o in Outputs(others);
      }
    }
  }

  lemma NextApart(t: Tree, pls: seq<Pipeline>, mid: World, front: seq<Part>, last: Part)
    requires AllWasReady(t, pls) && Unharmed(t, pls, mid) && |front| < |pls| && PartIsKept(pls[|front|], last, false)
    requires last.before == mid.tree
    requires Separate(JobsRun(front)) && Outputs(JobsRun(front)) <= Outputs(AllJobs(t, pls[..|front|]))
    ensures var jobs := JobsRun(front + [last]);
            Separate(jobs) && Outputs(jobs) <= Outputs(AllJobs(t, pls[..|front| + 1]))
  {
    var n, all := |front|, AllJobs(t, pls);
    AllJobsPrefix(t, pls, n);
    AllJobsPrefix(t, pls, n + 1);
    PartsStep(front, last);
    SeparateParts(AllJobs(t, pls[..n]), JobsFound(t, pls[n]), all);
    SameOutputs(t, pls, n, mid, last);
    ApartLike(last.scan.jobs, JobsFound(t, pls[n]));
    ApartTogether(JobsRun(front), last.scan.jobs, AllJobs(t, pls[..n]), JobsFound(t, pls[n]), all);
  }

  /** Whatever fails, the jobs of a scan keep apart. */
  lemma {:induction false} JobsKeepApart(t: Tree, pls: seq<Pipeline>, u: World, parts: seq<Part>, v: World)
    requires AllWasReady(t, pls) && Unharmed(t, pls, u)
    requires |parts| <= |pls| && InTurn(u, pls, parts, v) && AllKept(pls, parts, false)
    ensures Separate(JobsRun(parts)) && Outputs(JobsRun(parts)) <= Outputs(AllJobs(t, pls[..|parts|]))
    decreases |parts|
  {
    if parts != [] {
      var front, last := LastPart(u, pls, parts, v, false);
      var mid := World(last.before, last.scan.known);
      JobsKeepApart(t, pls, u, front, mid);
      ScanDoesNoHarm(t, pls, u, front, mid);
      NextApart(t, pls, mid, front, last);
    }
  }

  lemma {:induction false} AllProper(pls: seq<Pipeline>, parts: seq<Part>, dryRun: bool)
    requires AllKept(pls, parts, dryRun)
    ensures forall job :: job in JobsRun(parts) ==> Proper(job)
    decreases |parts|
  {
    if parts != [] {
      var n := |parts| - 1;
      KeptFront(pls, parts, n, dryRun);
      AllProper(pls, parts[..n], dryRun);
      KeptAt(pls, parts, n, dryRun);
      forall job | job in parts[n].scan.jobs ensures Proper(job) { assert Belongs(job, pls[n]); }
    }
  }

  // ---------------------------------------------------------------- one library among others

  /** Where the jobs of the i-th library are among those of the scan. */
  lemma {:induction false} JobOfPart(parts: seq<Part>, i: nat, k: nat)
    requires (forall part :: part in parts ==> |part.scan.reports| == |part.scan.jobs|)
    requires i < |parts| && k < |parts[i].scan.jobs|
    ensures |ReportsOf(parts)| == |JobsRun(parts)|
    ensures var n := |JobsRun(parts[..i])| + k;
            && n < |JobsRun(parts)| && JobsRun(parts)[n] == parts[i].scan.jobs[k]
            && ReportsOf(parts)[n] == parts[i].scan.reports[k]
    decreases |parts|
  {
    var front := parts[..|parts| - 1];
    AsManyReports(front);
    assert parts[|parts| - 1] in parts;
    if i < |front| {
      JobOfPart(front, i, k);
      assert front[..i] == parts[..i];
    }
  }

  lemma {:induction false} AsManyReports(parts: seq<Part>)
    requires (forall part :: part in parts ==> |part.scan.reports| == |part.scan.jobs|)
    ensures |ReportsOf(parts)| == |JobsRun(parts)|
    decreases |parts|
  {
    if parts != [] {
      AsManyReports(parts[..|parts| - 1]);
      assert parts[|parts| - 1] in parts;
    }
  }

  lemma ReportForEach(pls: seq<Pipeline>, parts: seq<Part>)
    requires AllKept(pls, parts, false)
    ensures forall part :: part in parts ==> |part.scan.reports| == |part.scan.jobs|
  {
    forall part | part in parts ensures |part.scan.reports| == |part.scan.jobs| {
      var k :| 0 <= k < |parts| && parts[k] == part;
      KeptAt(pls, parts, k, false);
    }
  }

  /** What the i-th library finds has not been harmed, whatever has failed before. */
  lemma {:induction false} UnharmedInTurn(t: Tree, pls: seq<Pipeline>, u: World, parts: seq<Part>, v: World, i: nat)
    requires AllWasReady(t, pls) && Unharmed(t, pls, u) && i < |parts|
    requires |parts| <= |pls| && InTurn(u, pls, parts, v) && AllKept(pls, parts, false)
    ensures Unharmed(t, pls, World(parts[i].before, parts[i].scan.known)) && PartIsKept(pls[i], parts[i], false)
    decreases |parts|
  {
    var front, last := LastPart(u, pls, parts, v, false);
    var mid := World(last.before, last.scan.known);
    FirstOf(front, last, i);
    if i < |front| {
      UnharmedInTurn(t, pls, u, front, mid, i);
    } else {
      ScanDoesNoHarm(t, pls, u, front, mid);
    }
  }

  lemma ReadyAmongFewer(t: Tree, job: Job, outs: set<Path>, fewer: set<Path>)
    requires Ready(t, job, outs) && fewer <= outs
    ensures Ready(t, job, fewer)
  {
    forall p | p in LinksBelow(t, job.output) && p !in job.Keep() ensures LeadsAway(t, p, fewer) {
      assert LeadsAway(t, p, outs);
    }
  }

  /** What a scan of all libraries is as a chain of outputs. */
  lemma ChainOfScan(t: World, pls: seq<Pipeline>, parts: seq<Part>, v: World)
    requires AllWasReady(t.tree, pls) && CacheServes(t.cache, pls) && OneScan(t, pls, parts, v)
    ensures Chained(t.tree, AllSteps(parts), v.tree, JobsRun(parts), ReportsOf(parts), false)
    ensures |ReportsOf(parts)| == |JobsRun(parts)| && Separate(JobsRun(parts))
    ensures (forall job :: job in JobsRun(parts) ==> Proper(job)) && Unharmed(t.tree, pls, t)
    ensures Outputs(JobsRun(parts)) <= Outputs(AllJobs(t.tree, pls))
  {
    NothingDoesNoHarm(t, pls);
    ScanIsChain(t, pls, parts, v, false);
    JobsKeepApart(t.tree, pls, t, parts, v);
    AllProper(pls, parts, false);
    AllJobsPrefix(t.tree, pls, |parts|);
    OutputsOfFewer(AllJobs(t.tree, pls[..|parts|]), AllJobs(t.tree, pls));
  }

  lemma OutputsOfFewer(first: seq<Job>, all: seq<Job>)
    requires first <= all
    ensures Outputs(first) <= Outputs(all)
  {
    forall o | o in Outputs(first) ensures o in Outputs(all) {
      var i :| 0 <= i < |first| && first[i].output == o;
      assert first[i] == all[i] && all[i] in all;
    }
  }

  lemma ReadyAtStart(t: Tree, pls: seq<Pipeline>, i: nat, job: Job, outs: set<Path>)
    requires AllWasReady(t, pls) && i < |pls| && job in JobsFound(t, pls[i]) && outs <= Outputs(AllJobs(t, pls))
    ensures Ready(t, job, outs)
  {
    JobsAreAmong(t, pls, i);
    assert Ready(t, job, Outputs(AllJobs(t, pls)));
    ReadyAmongFewer(t, job, Outputs(AllJobs(t, pls)), outs);
  }

  /** Every library in which nothing has failed has run the jobs found at the start, has left its outputs as if it had
      been alone, and reports truly, whatever has failed in others. */
  lemma LibraryIsExact(t: World, pls: seq<Pipeline>, parts: seq<Part>, v: World, i: nat, k: nat)
    requires AllWasReady(t.tree, pls) && CacheServes(t.cache, pls) && OneScan(t, pls, parts, v) && i < |parts|
    requires !parts[i].scan.stage.Cancelled? && ScanFaults(parts[i].scan) == 0
    requires k < |JobsFound(t.tree, pls[i])|
    ensures parts[i].scan.jobs == JobsFound(t.tree, pls[i]) && k < |parts[i].scan.reports|
    ensures var job := JobsFound(t.tree, pls[i])[k];
            && TrueReport(t.tree, job, parts[i].scan.reports[k], false)
            && forall p :: job.output <= p ==> Same(JobResult(t.tree, job), v.tree, p)
  {
    JobsInTurn(t, pls, parts, v, i);
    ReportForEach(pls, parts);
    var n := PlaceOfJob(parts, i, k);
    ExactJob(t, pls, parts, v, i, n);
  }

  lemma JobsInTurn(t: World, pls: seq<Pipeline>, parts: seq<Part>, v: World, i: nat)
    requires AllWasReady(t.tree, pls) && CacheServes(t.cache, pls) && OneScan(t, pls, parts, v) && i < |parts|
    requires !parts[i].scan.stage.Cancelled? && ScanFaults(parts[i].scan) == 0
    ensures parts[i].scan.jobs == JobsFound(t.tree, pls[i])
  {
    NothingDoesNoHarm(t, pls);
    UnharmedInTurn(t.tree, pls, t, parts, v, i);
    JobsOfPart(t.tree, pls, i, World(parts[i].before, parts[i].scan.known), parts[i]);
  }

  lemma PlaceOfJob(parts: seq<Part>, i: nat, k: nat) returns (n: nat)
    requires forall part :: part in parts ==> |part.scan.reports| == |part.scan.jobs|
    requires i < |parts| && k < |parts[i].scan.jobs| && ScanFaults(parts[i].scan) == 0
    ensures k < |parts[i].scan.reports|
    ensures n < |JobsRun(parts)| == |ReportsOf(parts)| && JobsRun(parts)[n] == parts[i].scan.jobs[k]
    ensures ReportsOf(parts)[n] == parts[i].scan.reports[k] && ReportsOf(parts)[n].faults == 0
  {
    JobOfPart(parts, i, k);
    NoFaultsIn(parts[i].scan.reports, k);
    n := |JobsRun(parts[..i])| + k;
  }

  lemma ExactJob(t: World, pls: seq<Pipeline>, parts: seq<Part>, v: World, i: nat, n: nat)
    requires AllWasReady(t.tree, pls) && CacheServes(t.cache, pls) && OneScan(t, pls, parts, v) && i < |pls|
    requires n < |JobsRun(parts)| && n < |ReportsOf(parts)| && ReportsOf(parts)[n].faults == 0
    requires JobsRun(parts)[n] in JobsFound(t.tree, pls[i])
    ensures TrueReport(t.tree, JobsRun(parts)[n], ReportsOf(parts)[n], false)
    ensures forall p :: JobsRun(parts)[n].output <= p ==> Same(JobResult(t.tree, JobsRun(parts)[n]), v.tree, p)
  {
    ChainOfScan(t, pls, parts, v);
    ReadyAtStart(t.tree, pls, i, JobsRun(parts)[n], Outputs(JobsRun(parts)));
    ReadyIsMendable(t.tree, JobsRun(parts)[n], Outputs(JobsRun(parts)));
    ExactWhereNothingFailed(t.tree, AllSteps(parts), v.tree, JobsRun(parts), ReportsOf(parts), n);
  }

  lemma {:induction false} NoFaultsIn(reports: seq<Report>, k: nat)
    requires FaultsIn(reports) == 0 && k < |reports|
    ensures reports[k].faults == 0
    decreases |reports|
  {
    if k < |reports| - 1 {
      NoFaultsIn(reports[..|reports| - 1], k);
    }
  }

  // ---------------------------------------------------------------- what no failure can do in a scan

  /** Whatever fails in a scan of all libraries, a link that every library whose output it lies in expects or preserves
      never goes. */
  lemma KeptLinksSurviveScan(t: World, pls: seq<Pipeline>, parts: seq<Part>, v: World, dryRun: bool, total: Tally,
                             calm: bool, p: Path)
    requires LibrariesScanned(t, v, pls, |parts|, parts, total, dryRun, calm)
    requires KeptBy(JobsRun(parts), p) && IsLink(t.tree, p)
    ensures IsLink(v.tree, p) && (v.tree[p] == t.tree[p] || WantedAs(JobsRun(parts), p, v.tree[p].raw))
    ensures (forall job :: job in JobsRun(parts) && p in job.wanted ==> t.tree[p] == Link(job.wanted[p])) ==>
              Same(t.tree, v.tree, p)
  {
    ScanIsChain(t, pls, parts, v, dryRun);
    ChainServes(t.tree, AllSteps(parts), v.tree, JobsRun(parts), ReportsOf(parts), dryRun);
    KeptSurvives(t.tree, AllSteps(parts), v.tree, JobsRun(parts), p);
  }

  /** Whatever fails in a scan of all libraries, where the guard refuses nothing goes. */
  lemma RefusalInScan(t: World, pls: seq<Pipeline>, parts: seq<Part>, v: World, total: Tally, calm: bool, k: nat)
      returns (first: seq<Step>, here: seq<Step>, rest: seq<Step>)
    requires LibrariesScanned(t, v, pls, |parts|, parts, total, false, calm) && k < |ReportsOf(parts)|
    ensures AllSteps(parts) == first + here + rest && here != [] && k < |JobsRun(parts)|
    ensures var found, report := TreeAfter(t.tree, first), ReportsOf(parts)[k];
            var linked := TreeAfter(found, here[..|here| - 1]);
            && report.blocked == Blocked(linked, JobsRun(parts)[k])
            && (report.blocked ==>
                  report.removed == [] && DeedsOf(found, here).removed == multiset{}
                  && here[|here| - 1].after == linked)
  {
    ScanIsChain(t, pls, parts, v, false);
    first, here, rest :=
      RefusalRemovesNothing(t.tree, AllSteps(parts), v.tree, JobsRun(parts), ReportsOf(parts), k);
  }
}
