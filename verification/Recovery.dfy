/** The scan of all libraries after others in which anything may have failed. */
module Recovery {
  import opened Paths
  import opened Trees
  import opened Reconcile
  import opened Replacements
  import opened Symlinks
  import opened Safety
  import opened Models
  import opened State
  import opened Selection
  import opened Interference
  import opened Gathering
  import opened Linking
  import opened Outcomes
  import opened Processor
  import opened Libraries
  import opened Runner
  import opened Mending

  // ---------------------------------------------------------------- the links of a library

  /** The replacement a failure leaves behind points into the root, like the link it was to become. */
  lemma LeftoverIsOwned(source: Path, dest: Path, relative: bool, root: Path)
    requires Normal(source) && Normal(dest) && dest != []
    ensures Owned(TmpOf(dest), LinkTarget(source, dest, relative), root) <==> Within(source, root)
  {
    TmpIsProper(dest);
    MadeLinksAreOwned(source, dest, relative, root);
    assert Parent(TmpOf(dest)) == Parent(dest);
  }

  lemma NoTmpIsPreserved(pl: Pipeline, o: Output, files: set<Path>, infos: map<Path, MediaInfo>, f: Path)
    requires InInput(pl, files) && NoTmpClash(pl, files) && f in files
    ensures var d := DestOf(pl.input, o.path, f); d != [] && TmpOf(d) !in JobOf(pl, o, files, infos).preserve
  {
    var job, d := JobOf(pl, o, files, infos), DestOf(pl.input, o.path, f);
    MirrorIsFaithful(pl.input, o.path, f, f);
    SourcesInInput(pl, o, files, infos, Media(pl, files));
    forall g | g in files ensures DestOf(pl.input, o.path, g) != TmpOf(d) {
      MirrorIsFaithful(pl.input, o.path, f, g);
      assert !(TmpOf(f) <= g);
    }
  }

  lemma LibraryOwnsItsLinks(t: Tree, pl: Pipeline, o: Output, infos: map<Path, MediaInfo>)
    requires WellFormed(t) && Normal(o.path) && NoTmpClash(pl, FilesOf(t, pl))
    ensures OwnsItsLinks(JobOf(pl, o, FilesOf(t, pl), infos))
  {
    var files := FilesOf(t, pl);
    var job := JobOf(pl, o, files, infos);
    forall d | d in job.wanted && d != []
      ensures TmpOf(d) !in job.preserve && Owned(TmpOf(d), job.wanted[d], job.root)
    {
      WantedHasSource(pl, o, files, infos, d);
      var f :| f in files && d == DestOf(pl.input, o.path, f);
      NoTmpIsPreserved(pl, o, files, infos, f);
      MirroredIsNormal(t, pl, o.path, f);
      DestAndBack(pl.input, o.path, f);
      LeftoverIsOwned(f, d, pl.relative, pl.input);
    }
  }

  /** What is known of more files makes for more links, and changes none. */
  lemma MoreKnownMoreWanted(pl: Pipeline, o: Output, files: set<Path>, some: map<Path, MediaInfo>,
                            all: map<Path, MediaInfo>, d: Path)
    requires InInput(pl, files) && forall f :: f in some ==> f in all && some[f] == all[f]
    requires d in JobOf(pl, o, files, some).wanted
    ensures var more := JobOf(pl, o, files, all).wanted; d in more && more[d] == JobOf(pl, o, files, some).wanted[d]
  {
    var media := Media(pl, files);
    SourcesInInput(pl, o, files, some, media);
    SourcesInInput(pl, o, files, all, media);
    var s :| s in WantedSources(pl, o, files, some, media) && d == DestOf(pl.input, o.path, s);
    assert s in WantedSources(pl, o, files, all, media);
  }

  lemma JobsOwnTheirLinks(t: Tree, pl: Pipeline)
    requires WellFormed(t) && (forall o :: o in pl.outputs ==> Normal(o.path)) && NoTmpClash(pl, FilesOf(t, pl))
    ensures forall job :: job in JobsOf(t, pl) ==> OwnsItsLinks(job)
  {
    var jobs, files := JobsOf(t, pl), FilesOf(t, pl);
    forall job | job in jobs ensures OwnsItsLinks(job) {
      var k :| 0 <= k < |jobs| && jobs[k] == job;
      LibraryOwnsItsLinks(t, pl, pl.outputs[k], InfosOf(pl, StatsOf(t, files), Media(pl, files)));
    }
  }

  // ---------------------------------------------------------------- what a library finds after failures

  /** All libraries were ready in t; no file bears the temporary name of another one. */
  ghost predicate AllWasReady(t: Tree, pls: seq<Pipeline>) {
    && WellFormed(t) && RunReady(t, pls)
    && forall pl :: pl in pls ==> NoTmpClash(pl, FilesOf(t, pl)) && forall o :: o in pl.outputs ==> Normal(o.path)
  }

  /** Since t, nothing has been done to the tree but what scans do, and the cache serves all libraries. */
  ghost predicate Unharmed(t: Tree, pls: seq<Pipeline>, u: World) {
    var jobs := AllJobs(t, pls);
    WellFormed(u.tree) && Placed(t, u.tree, jobs) && Drift(t, u.tree, Outputs(jobs)) && CacheServes(u.cache, pls)
  }

  lemma JobsAreAmong(t: Tree, pls: seq<Pipeline>, k: nat)
    requires k < |pls|
    ensures forall job :: job in JobsFound(t, pls[k]) ==> job in AllJobs(t, pls)
  {
    AllJobsPrefix(t, pls, k);
    AllJobsPrefix(t, pls, k + 1);
    InWhole(AllJobs(t, pls[..k]), JobsFound(t, pls[k]), AllJobs(t, pls));
  }

  lemma InWhole<T>(first: seq<T>, part: seq<T>, whole: seq<T>)
    requires first + part <= whole
    ensures forall x :: x in part ==> x in whole
  {
    forall x | x in part ensures x in whole {
      var i :| 0 <= i < |part| && part[i] == x;
      assert (first + part)[|first| + i] == x == whole[|first| + i];
    }
  }

  lemma SameFilesAndJobs(t: Tree, pls: seq<Pipeline>, k: nat, u: World)
    requires AllWasReady(t, pls) && Unharmed(t, pls, u) && k < |pls|
    ensures FilesOf(u.tree, pls[k]) == FilesOf(t, pls[k]) && JobsOf(u.tree, pls[k]) == JobsOf(t, pls[k])
    ensures IsDir(u.tree, pls[k].input) == IsDir(t, pls[k].input)
  {
    var outs := Outputs(AllJobs(t, pls));
    assert pls[k] in pls;
    DriftIsAway(t, u.tree, outs);
    JobsSame(t, u.tree, pls[k], outs);
    InputSame(t, u.tree, pls[k], outs, pls[k].input);
  }

  /** No link appears in an output that wants none. */
  lemma LinkWasThere(t: Tree, u: Tree, jobs: seq<Job>, job: Job, p: Path)
    requires WellFormed(t) && WellFormed(u) && Separate(jobs) && (forall j :: j in jobs ==> Proper(j)) && job in jobs
    requires Placed(t, u, jobs) && job.wanted == map[]
    ensures p in LinksBelow(u, job.output) ==> p in LinksBelow(t, job.output)
  {
    if p in LinksBelow(u, job.output) {
      assert PlacedAt(t, u, jobs, p);
      PlacedBelow(t, u, jobs, job, p);
      AncestorsAreDirs(t, p, job.output);
    }
  }

  lemma NothingWanted(t: Tree, pl: Pipeline, k: nat)
    requires FilesOf(t, pl) == {} && k < |pl.outputs|
    ensures JobsOf(t, pl)[k].wanted == map[] && JobsOf(t, pl)[k].output == pl.outputs[k].path
  {
    var files := FilesOf(t, pl);
    var infos := InfosOf(pl, StatsOf(t, files), Media(pl, files));
    assert WantedSources(pl, pl.outputs[k], files, infos, Media(pl, files)) == {};
    assert Dests(pl, pl.outputs[k], {}) == {};
  }

  lemma StillNoLinks(t: Tree, pls: seq<Pipeline>, k: nat, u: World)
    requires AllWasReady(t, pls) && Unharmed(t, pls, u) && k < |pls|
    requires IsUsable(t, pls[k]) && FilesOf(t, pls[k]) == {}
    ensures NoLinks(u.tree, pls[k].outputs)
  {
    var pl, jobs := pls[k], AllJobs(t, pls);
    forall j | j in jobs ensures Proper(j) { assert Ready(t, j, Outputs(jobs)); }
    JobsAreAmong(t, pls, k);
    forall o | o in pl.outputs ensures LinksBelow(u.tree, o.path) == {} {
      var i :| 0 <= i < |pl.outputs| && pl.outputs[i] == o;
      NothingWanted(t, pl, i);
      var job := JobsOf(t, pl)[i];
      assert job in JobsFound(t, pl);
      forall p ensures p in LinksBelow(u.tree, o.path) ==> p in LinksBelow(t, o.path) {
        LinkWasThere(t, u.tree, jobs, job, p);
      }
    }
  }

  lemma SameLinksAway(t: Tree, pls: seq<Pipeline>, k: nat, u: World)
    requires AllWasReady(t, pls) && Unharmed(t, pls, u) && k < |pls| && !IsUsable(t, pls[k])
    ensures NoLinks(u.tree, pls[k].outputs) == NoLinks(t, pls[k].outputs)
  {
    var pl, outs := pls[k], Outputs(AllJobs(t, pls));
    assert pl in pls && OutputsAway(pl, outs);
    forall o | o in pl.outputs ensures LinksBelow(u.tree, o.path) == LinksBelow(t, o.path) {
      forall p | o.path <= p ensures Same(t, u.tree, p) { ApartUnderDrift(t, u.tree, outs, o.path, p); }
      SameLinksBelow(t, u.tree, o.path);
    }
  }

  /** A library is usable exactly if it was. */
  lemma StillUsable(t: Tree, pls: seq<Pipeline>, k: nat, u: World)
    requires AllWasReady(t, pls) && Unharmed(t, pls, u) && k < |pls|
    ensures IsUsable(u.tree, pls[k]) == IsUsable(t, pls[k])
    ensures JobsFound(u.tree, pls[k]) == JobsFound(t, pls[k])
  {
    SameFilesAndJobs(t, pls, k, u);
    if FilesOf(t, pls[k]) == {} {
      if IsUsable(t, pls[k]) {
        StillNoLinks(t, pls, k, u);
      } else {
        SameLinksAway(t, pls, k, u);
      }
    }
  }

  // ---------------------------------------------------------------- failed scans

  lemma KnownFromProbers(t: Tree, pl: Pipeline, scan: Scan)
    requires Coherent(scan.known, pl)
    ensures var files := FilesOf(t, pl);
            var all := InfosOf(pl, StatsOf(t, files), Media(pl, files));
            forall f :: f in ScanInfos(t, pl, scan) ==> f in all && ScanInfos(t, pl, scan)[f] == all[f]
  {
    var files := FilesOf(t, pl);
    CacheIsUnseen(scan.known, pl, StatsOf(t, files), Media(pl, files) - scan.unread);
  }

  lemma ServesMore(pl: Pipeline, o: Output, files: set<Path>, some: map<Path, MediaInfo>, all: map<Path, MediaInfo>,
                   act: Act)
    requires InInput(pl, files) && forall f :: f in some ==> f in all && some[f] == all[f]
    requires Serves(act, JobOf(pl, o, files, some))
    ensures var job := JobOf(pl, o, files, all);
            && (act.Make? ==> act.dest in job.wanted && job.wanted[act.dest] == act.raw)
            && (act.Remove? ==> act.output == job.output)
  {
    if act.Make? {
      MoreKnownMoreWanted(pl, o, files, some, all, act.dest);
    }
  }

  lemma JobsAt(t: Tree, pl: Pipeline, scan: Scan, k: nat)
    requires scan.stage.Complete? && ScanJobs(t, pl, scan) && k < |scan.jobs|
    ensures k < |pl.outputs| == |JobsOf(t, pl)|
    ensures var files := FilesOf(t, pl);
            && scan.jobs[k] == JobOf(pl, pl.outputs[k], files, ScanInfos(t, pl, scan))
            && JobsOf(t, pl)[k] == JobOf(pl, pl.outputs[k], files, InfosOf(pl, StatsOf(t, files), Media(pl, files)))
  {}

  /** Whatever has failed, a scan makes only links that the library wants. */
  lemma LinksAreWanted(t: Tree, pl: Pipeline, scan: Scan, act: Act)
    requires scan.stage.Complete? && ScanJobs(t, pl, scan) && Coherent(scan.known, pl)
    requires exists job :: job in scan.jobs && Serves(act, job)
    ensures act.Make? ==> IsWanted(JobsOf(t, pl), act.dest, act.raw)
    ensures act.Remove? ==> act.output in Outputs(JobsOf(t, pl))
  {
    var files := FilesOf(t, pl);
    var job :| job in scan.jobs && Serves(act, job);
    var k :| 0 <= k < |scan.jobs| && scan.jobs[k] == job;
    JobsAt(t, pl, scan, k);
    KnownFromProbers(t, pl, scan);
    ServesMore(pl, pl.outputs[k], files, ScanInfos(t, pl, scan), InfosOf(pl, StatsOf(t, files), Media(pl, files)), act);
    ServedByMember(JobsOf(t, pl), JobsOf(t, pl)[k], act);
  }

  lemma ServedByMember(jobs: seq<Job>, job: Job, act: Act)
    requires job in jobs && (act.Make? ==> act.dest in job.wanted && job.wanted[act.dest] == act.raw)
    requires act.Remove? ==> act.output == job.output
    ensures act.Make? ==> IsWanted(jobs, act.dest, act.raw)
    ensures act.Remove? ==> act.output in Outputs(jobs)
  {}

  lemma WantedIsConfined(t: Tree, jobs: seq<Job>, act: Act)
    requires AllReady(t, jobs) && act.Make? && IsWanted(jobs, act.dest, act.raw)
    ensures Confined(act, Outputs(jobs))
  {
    var job :| job in jobs && act.dest in job.wanted && job.wanted[act.dest] == act.raw;
    assert Ready(t, job, Outputs(jobs)) && job.output in Outputs(jobs) && Below(act.dest, job.output);
  }

  /** Any steps that serve the jobs of a library, the beginning of a scan that was cut short, say, do no harm. */
  lemma StepsDoNoHarm(t: Tree, pls: seq<Pipeline>, k: nat, u: World, scan: Scan, steps: seq<Step>, v: World)
    requires AllWasReady(t, pls) && Unharmed(t, pls, u) && k < |pls| && IsUsable(u.tree, pls[k])
    requires scan.stage.Complete? && ScanJobs(u.tree, pls[k], scan) && scan.known == u.cache
    requires Reaches(u.tree, steps, v.tree) && AllServe(steps, scan.jobs)
    requires WellFormed(v.tree) && Tended(u.cache, v.cache, pls[k])
    ensures Unharmed(t, pls, v)
  {
    var jobs := AllJobs(t, pls);
    SameFilesAndJobs(t, pls, k, u);
    StillUsable(t, pls, k, u);
    JobsAreAmong(t, pls, k);
    forall step | step in steps
      ensures step.act.Make? ==> IsWanted(jobs, step.act.dest, step.act.raw)
      ensures Confined(step.act, Outputs(jobs))
    {
      LinksAreWanted(u.tree, pls[k], scan, step.act);
      if step.act.Make? {
        WantedIsConfined(t, jobs, step.act);
      }
    }
    PlacedByRun(t, u.tree, steps, v.tree, jobs);
    OnlyOutputsChange(u.tree, steps, v.tree, Outputs(jobs));
    DriftTransitive(t, u.tree, v.tree, Outputs(jobs));
    StillServes(u.cache, v.cache, pls, k);
  }

  /** A scan of a library that is cut short, wherever that happens, does no harm. */
  lemma CutShortDoesNoHarm(t: Tree, pls: seq<Pipeline>, k: nat, u: World, scan: Scan, v: Tree, n: nat, w: World)
    requires AllWasReady(t, pls) && Unharmed(t, pls, u) && k < |pls| && IsUsable(u.tree, pls[k])
    requires scan.stage.Complete? && ScanJobs(u.tree, pls[k], scan) && scan.known == u.cache
    requires Reaches(u.tree, scan.steps, v) && AllServe(scan.steps, scan.jobs) && n <= |scan.steps|
    requires w.tree == TreeAfter(u.tree, scan.steps[..n]) && WellFormed(w.tree) && Tended(u.cache, w.cache, pls[k])
    ensures Unharmed(t, pls, w)
  {
    CutShort(u.tree, scan.steps, v, scan.jobs, n);
    StepsDoNoHarm(t, pls, k, u, scan, scan.steps[..n], w);
  }

  lemma NoStepsTaken(part: Part, pl: Pipeline)
    requires PartIsKept(pl, part, false) && !part.scan.stage.Complete?
    ensures part.scan.steps == []
  {
    ChainServes(part.before, part.scan.steps, TreeAfter(part.before, part.scan.steps), part.scan.jobs,
                part.scan.reports, false);
  }

  lemma PartIsWellFormed(part: Part, pl: Pipeline, v: Tree)
    requires PartIsKept(pl, part, false) && WellFormed(part.before) && Reaches(part.before, part.scan.steps, v)
    ensures WellFormed(v)
  {
    EndOfSteps(part.before, part.scan.steps, v);
    ChainIsWellFormed(part.before, part.scan.steps, v, part.scan.jobs, part.scan.reports, false);
  }

  /** Whatever fails while a library is scanned, no harm is done. */
  lemma PartDoesNoHarm(t: Tree, pls: seq<Pipeline>, k: nat, u: World, part: Part, v: World)
    requires AllWasReady(t, pls) && Unharmed(t, pls, u) && k < |pls| && PartIsKept(pls[k], part, false)
    requires part.before == u.tree && part.scan.known == u.cache
    requires Reaches(u.tree, part.scan.steps, v.tree) && Tended(u.cache, v.cache, pls[k])
    ensures Unharmed(t, pls, v)
  {
    PartIsWellFormed(part, pls[k], v.tree);
    if part.scan.stage.Complete? {
      StepsDoNoHarm(t, pls, k, u, part.scan, part.scan.steps, v);
    } else {
      NoStepsTaken(part, pls[k]);
      StillServes(u.cache, v.cache, pls, k);
    }
  }

  /** Whatever fails in a scan of all libraries, no harm is done. */
  lemma {:induction false} ScanDoesNoHarm(t: Tree, pls: seq<Pipeline>, u: World, parts: seq<Part>, v: World)
    requires AllWasReady(t, pls) && Unharmed(t, pls, u)
    requires |parts| <= |pls| && InTurn(u, pls, parts, v) && AllKept(pls, parts, false)
    ensures Unharmed(t, pls, v)
    decreases |parts|
  {
    if parts != [] {
      var front, last := LastPart(u, pls, parts, v, false);
      var mid := World(last.before, last.scan.known);
      ScanDoesNoHarm(t, pls, u, front, mid);
      PartDoesNoHarm(t, pls, |front|, mid, last, v);
    }
  }

  /** A scan of all libraries, or of the first ones if it was cancelled, in which anything may have failed. */
  ghost predicate OneScan(u: World, pls: seq<Pipeline>, parts: seq<Part>, v: World) {
    LibrariesScanned(u, v, pls, |parts|, parts, MergedAll(parts), false, false)
  }

  /** A scan of all libraries, and what it leaves. */
  datatype Done = Done(parts: seq<Part>, after: World)

  function WorldAfter(u: World, runs: seq<Done>): World {
    if runs == [] then u else runs[|runs| - 1].after
  }

  /** The scans were run one after the other, beginning with u. */
  ghost predicate Scans(u: World, pls: seq<Pipeline>, runs: seq<Done>)
    decreases |runs|
  {
    runs != [] ==>
      var n := |runs| - 1;
      Scans(u, pls, runs[..n]) && OneScan(WorldAfter(u, runs[..n]), pls, runs[n].parts, runs[n].after)
  }

  lemma NothingDoesNoHarm(u: World, pls: seq<Pipeline>)
    requires AllWasReady(u.tree, pls) && CacheServes(u.cache, pls)
    ensures Unharmed(u.tree, pls, u)
  {
    forall p ensures PlacedAt(u.tree, u.tree, AllJobs(u.tree, pls), p) {}
  }

  lemma {:induction false} ScansDoNoHarm(u: World, pls: seq<Pipeline>, runs: seq<Done>)
    requires AllWasReady(u.tree, pls) && CacheServes(u.cache, pls) && Scans(u, pls, runs)
    ensures Unharmed(u.tree, pls, WorldAfter(u, runs))
    decreases |runs|
  {
    if runs == [] {
      NothingDoesNoHarm(u, pls);
    } else {
      var n := |runs| - 1;
      ScansDoNoHarm(u, pls, runs[..n]);
      ScanDoesNoHarm(u.tree, pls, WorldAfter(u, runs[..n]), runs[n].parts, runs[n].after);
    }
  }

  lemma {:induction false} AllOwnTheirLinks(t: Tree, pls: seq<Pipeline>)
    requires WellFormed(t)
    requires forall pl :: pl in pls ==> NoTmpClash(pl, FilesOf(t, pl)) && forall o :: o in pl.outputs ==> Normal(o.path)
    ensures forall job :: job in AllJobs(t, pls) ==> OwnsItsLinks(job)
    decreases |pls|
  {
    if pls != [] {
      AllOwnTheirLinks(t, pls[..|pls| - 1]);
      JobsOwnTheirLinks(t, pls[|pls| - 1]);
    }
  }

  /** However many scans have failed, and whatever has failed in them: what they leave is ready again but for
      replacements that were never finished, all of which the next scan may remove. */
  lemma FailuresAreNoHarm(t: Tree, pls: seq<Pipeline>, u: World)
    requires AllWasReady(t, pls) && Unharmed(t, pls, u)
    ensures AllMendable(u.tree, AllJobs(t, pls))
  {
    AllOwnTheirLinks(t, pls);
    PlacedIsMendable(t, u.tree, AllJobs(t, pls));
  }

  // ---------------------------------------------------------------- the scan after them

  lemma JobsOfPart(t: Tree, pls: seq<Pipeline>, k: nat, u: World, part: Part)
    requires AllWasReady(t, pls) && Unharmed(t, pls, u) && k < |pls| && PartIsKept(pls[k], part, false)
    requires part.before == u.tree && part.scan.known == u.cache
    requires ScanFaults(part.scan) == 0 && !part.scan.stage.Cancelled?
    ensures part.scan.jobs == JobsFound(t, pls[k])
  {
    SameFilesAndJobs(t, pls, k, u);
    StillUsable(t, pls, k, u);
    if part.scan.stage.Complete? {
      AllRead(u.tree, pls[k], part.scan);
    }
  }

  lemma JobsWithLast(t: Tree, pls: seq<Pipeline>, front: seq<Part>, last: Part)
    requires |front| < |pls| && JobsRun(front) == AllJobs(t, pls[..|front|])
    requires last.scan.jobs == JobsFound(t, pls[|front|])
    ensures JobsRun(front + [last]) == AllJobs(t, pls[..|front| + 1])
  {
    AllJobsPrefix(t, pls, |front|);
    PartsStep(front, last);
  }

  lemma JobsOfNext(t: Tree, pls: seq<Pipeline>, u: World, front: seq<Part>, mid: World, last: Part)
    requires AllWasReady(t, pls) && Unharmed(t, pls, u) && |front| < |pls|
    requires InTurn(u, pls, front, mid) && AllKept(pls, front, false) && PartIsKept(pls[|front|], last, false)
    requires mid == World(last.before, last.scan.known) && ScanFaults(last.scan) == 0 && !last.scan.stage.Cancelled?
    ensures last.scan.jobs == JobsFound(t, pls[|front|])
  {
    ScanDoesNoHarm(t, pls, u, front, mid);
    JobsOfPart(t, pls, |front|, mid, last);
  }

  lemma {:induction false} JobsOfScan(t: Tree, pls: seq<Pipeline>, u: World, parts: seq<Part>, v: World)
    requires AllWasReady(t, pls) && Unharmed(t, pls, u)
    requires |parts| <= |pls| && InTurn(u, pls, parts, v) && AllKept(pls, parts, false)
    requires AllFaults(parts) == 0 && forall part :: part in parts ==> !part.scan.stage.Cancelled?
    ensures JobsRun(parts) == AllJobs(t, pls[..|parts|])
    decreases |parts|
  {
    if parts != [] {
      var front, last := LastPart(u, pls, parts, v, false);
      PartsStep(front, last);
      var mid := World(last.before, last.scan.known);
      JobsOfScan(t, pls, u, front, mid);
      JobsOfNext(t, pls, u, front, mid, last);
      JobsWithLast(t, pls, front, last);
    }
  }

  lemma {:induction false} FaultsOn(first: seq<Report>, second: seq<Report>)
    ensures FaultsIn(first + second) == FaultsIn(first) + FaultsIn(second)
    decreases |second|
  {
    if second == [] {
      assert first + second == first;
    } else {
      var n := |second| - 1;
      FaultsOn(first, second[..n]);
      assert (first + second)[..|first| + n] == first + second[..n];
    }
  }

  lemma {:induction false} FaultsInReports(parts: seq<Part>)
    ensures FaultsIn(ReportsOf(parts)) <= AllFaults(parts)
    decreases |parts|
  {
    if parts != [] {
      var n := |parts| - 1;
      FaultsInReports(parts[..n]);
      FaultsOn(ReportsOf(parts[..n]), parts[n].scan.reports);
    }
  }

  lemma RunFromLeftovers(u: Tree, steps: seq<Step>, v: Tree, jobs: seq<Job>, reports: seq<Report>)
    requires Chained(u, steps, v, jobs, reports, false) && FaultsIn(reports) == 0 && |reports| == |jobs|
    requires AllMendable(u, jobs) && NoneRefused(u, jobs)
    ensures v == RunOver(u, jobs) && AllTrue(u, jobs, reports, false)
  {
    LeftoversDoNotMatter(u, jobs);
    ChainIsTrue(u, steps, v, jobs, reports, false);
    assert jobs[..|jobs|] == jobs;
  }

  lemma ExactThere(t: Tree, job: Job, u: Tree, v: Tree, p: Path)
    requires Below(p, job.output) && ExactAt(t, job, u, p) && Same(u, v, p)
    ensures ExactAt(t, job, v, p)
  {}

  lemma MemberIsExact(t: Tree, jobs: seq<Job>, job: Job, p: Path)
    requires WellFormed(t) && AllReady(t, jobs) && Separate(jobs) && job in jobs && job.guard.None?
    requires Below(p, job.output)
    ensures ExactAt(t, job, RunJobs(t, jobs), p)
  {
    assert Ready(t, job, Outputs(jobs));
    OutputsAsIfAlone(t, jobs, job, p);
    ResultIsExact(t, job);
    assert ExactAt(t, job, JobResult(t, job), p);
    ExactThere(t, job, JobResult(t, job), RunJobs(t, jobs), p);
  }

  lemma FreedMember(jobs: seq<Job>, job: Job)
    requires job in jobs
    ensures Freed(job) in FreedAll(jobs)
  {
    var k :| 0 <= k < |jobs| && jobs[k] == job;
    assert FreedAll(jobs)[k] == Freed(job);
  }

  /** The output is exactly what is promised of one that held no such replacement. */
  lemma MendedOutput(u: Tree, jobs: seq<Job>, job: Job, p: Path)
    requires AllMendable(u, jobs) && NoneRefused(u, jobs) && job in jobs && Below(p, job.output)
    ensures ExactAt(Cleared(u, jobs), Freed(job), RunOver(u, jobs), p)
  {
    LeftoversDoNotMatter(u, jobs);
    FreedMember(jobs, job);
    MemberIsExact(Cleared(u, jobs), FreedAll(jobs), Freed(job), p);
  }

  /** Every output as it should be, and no replacement left that was never finished. */
  ghost predicate Mended(u: Tree, v: Tree, jobs: seq<Job>) {
    && v == RunJobs(Cleared(u, jobs), FreedAll(jobs)) && LeftIn(v, jobs) == {}
    && forall job, p :: job in jobs && Below(p, job.output) ==> ExactAt(Cleared(u, jobs), Freed(job), v, p)
  }

  lemma RunMends(u: Tree, jobs: seq<Job>)
    requires AllMendable(u, jobs) && NoneRefused(u, jobs)
    ensures Mended(u, RunOver(u, jobs), jobs)
  {
    LeftoversDoNotMatter(u, jobs);
    NoneIsLeft(u, jobs);
    forall job, p | job in jobs && Below(p, job.output)
      ensures ExactAt(Cleared(u, jobs), Freed(job), RunOver(u, jobs), p)
    {
      MendedOutput(u, jobs, job, p);
    }
  }

  /** What scans have left is what the next one needs. */
  lemma AfterScans(t: Tree, pls: seq<Pipeline>, u: World, parts: seq<Part>, v: World)
    requires AllWasReady(t, pls) && Unharmed(t, pls, u) && OneScan(u, pls, parts, v) && |parts| == |pls|
    requires AllFaults(parts) == 0 && forall part :: part in parts ==> !part.scan.stage.Cancelled?
    ensures JobsRun(parts) == AllJobs(t, pls) && |ReportsOf(parts)| == |AllJobs(t, pls)|
    ensures Chained(u.tree, AllSteps(parts), v.tree, AllJobs(t, pls), ReportsOf(parts), false)
    ensures FaultsIn(ReportsOf(parts)) == 0
  {
    assert pls[..|pls|] == pls;
    JobsOfScan(t, pls, u, parts, v);
    ScanIsChain(u, pls, parts, v, false);
    FaultsInReports(parts);
  }

  /** However many scans have failed, and whatever has failed in them, the next one fixes what they have left: if
      nothing fails in it, it is not cancelled and the guard does not refuse, its jobs are those of the beginning, its
      reports are true, and the tree ends as if the replacements that were never finished had not been there, with every
      output as it should be and none of them left. */
  lemma NextScanMends(t: World, pls: seq<Pipeline>, runs: seq<Done>, parts: seq<Part>, v: World)
    requires AllWasReady(t.tree, pls) && CacheServes(t.cache, pls) && Scans(t, pls, runs)
    requires OneScan(WorldAfter(t, runs), pls, parts, v) && |parts| == |pls|
    requires AllFaults(parts) == 0 && forall part :: part in parts ==> !part.scan.stage.Cancelled?
    requires NoneRefused(WorldAfter(t, runs).tree, AllJobs(t.tree, pls))
    ensures var u, jobs := WorldAfter(t, runs).tree, AllJobs(t.tree, pls);
            JobsRun(parts) == jobs && AllTrue(u, jobs, ReportsOf(parts), false) && Mended(u, v.tree, jobs)
  {
    var u, jobs := WorldAfter(t, runs), AllJobs(t.tree, pls);
    ScansDoNoHarm(t, pls, runs);
    FailuresAreNoHarm(t.tree, pls, u);
    AfterScans(t.tree, pls, u, parts, v);
    RunFromLeftovers(u.tree, AllSteps(parts), v.tree, jobs, ReportsOf(parts));
    RunMends(u.tree, jobs);
  }
}
