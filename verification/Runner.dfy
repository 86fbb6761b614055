/** Scanning all libraries, one after the other, in one file tree. */
module Runner {
  import opened Paths
  import opened Trees
  import opened Reconcile
  import opened Replacements
  import opened FileSystem
  import opened Symlinks
  import opened Safety
  import opened Models
  import opened State
  import opened Selection
  import opened Interference
  import opened Gathering
  import opened Linking
  import opened Outcomes
  import opened Processor
  import opened Libraries

  // ---------------------------------------------------------------- the loop over the libraries

  class ScanRunner {
    const disk: Disk
    const state: InMemoryStateStore
    const cancel: Event
    const dryRun: bool
    const pipelines: seq<Pipeline>

    constructor (disk: Disk, state: InMemoryStateStore, cancel: Event, dryRun: bool, pipelines: seq<Pipeline>)
      ensures this.disk == disk && this.state == state && this.cancel == cancel
      ensures this.dryRun == dryRun && this.pipelines == pipelines
    {
      this.disk, this.state, this.cancel, this.dryRun, this.pipelines := disk, state, cancel, dryRun, pipelines;
    }

    /** Outputs are proper paths. */
    ghost predicate Valid()
      reads disk
    {
      disk.Valid() && forall i, o :: 0 <= i < |pipelines| && o in pipelines[i].outputs ==> Normal(o.path)
    }

    ghost function View(): World
      reads disk, state
    {
      World(disk.tree, state.View())
    }

    /** Scans one library whose pipeline has been set up. */
    method Process(i: nat) returns (result: ScanResult, ghost part: Part)
      requires Valid() && i < |pipelines|
      modifies disk, state, cancel
      ensures fresh(result) && Valid() && (old(cancel.flag) ==> cancel.flag)
      ensures disk.faults == old(disk.faults) + ScanFaults(part.scan)
      ensures part.tally == result.tally && |result.tally.changes| <= MAX_RECORDED_CHANGES
      ensures PartIsSound(old(View()), View(), pipelines[i], part, dryRun)
      ensures disk.faults == old(disk.faults) && !cancel.flag && ReadyNow(old(disk.tree), pipelines[i])
              && Coherent(old(state.View()), pipelines[i]) ==>
                PartWentWell(old(disk.tree), disk.tree, pipelines[i], part, dryRun)
    {
      ghost var w := View();
      var symlinks := new SymlinkManager(disk, dryRun);
      var processor := new LibraryProcessor(pipelines[i], symlinks, state, cancel);
      ghost var scan;
      result, scan := processor.ProcessLibrary();
      part := Part(w.tree, scan, result.tally);
      SoundPart(w, View(), pipelines[i], part, dryRun);
      if disk.faults == old(disk.faults) && !cancel.flag && ReadyNow(w.tree, pipelines[i])
         && Coherent(w.cache, pipelines[i])
      {
        AsItShould(w.tree, disk.tree, pipelines[i], part, dryRun);
      }
    }

    /** Scans one library; a pipeline that cannot be set up counts as an error. */
    method ScanLibrary(i: nat, total: ScanResult) returns (ghost part: Part, ghost smooth: bool)
      requires Valid() && i < |pipelines| && |total.tally.changes| <= MAX_RECORDED_CHANGES
      modifies disk, state, cancel, total
      ensures Valid() && (old(cancel.flag) ==> cancel.flag)
      ensures disk.faults == old(disk.faults) + ScanFaults(part.scan)
      ensures total.tally == Merged(old(total.tally), part.tally)
      ensures PartIsSound(old(View()), View(), pipelines[i], part, dryRun)
      ensures smooth == (disk.faults == old(disk.faults) && !cancel.flag)
      ensures smooth && ReadyNow(old(disk.tree), pipelines[i]) && Coherent(old(state.View()), pipelines[i]) ==>
                PartWentWell(old(disk.tree), disk.tree, pipelines[i], part, dryRun)
    {
      ghost var w := View();
      var ok := disk.Works();
      if !ok {
        total.tally := total.tally.(errors := total.tally.errors + 1);
        part, smooth := FailedPart(w), false;
        FailureIsSound(w, pipelines[i], old(total.tally), dryRun);
        return;
      }
      var result;
      result, part := Process(i);
      smooth := disk.faults == old(disk.faults) && !cancel.flag;
      total.Merge(result);
    }

    /** Scans the next library. calm: all was ready, and nothing has failed before. */
    method ScanOne(i: nat, total: ScanResult, ghost start: World, ghost parts: seq<Part>, ghost calm: bool,
                    ghost ready: bool)
      returns (ghost next: seq<Part>)
      requires (calm ==> ready) && ready == AllReadyToRun(start, pipelines)
      requires Valid() && i < |pipelines| && WellFormed(start.tree)
      requires LibrariesScanned(start, View(), pipelines, i, parts, total.tally, dryRun, calm)
      modifies disk, state, cancel, total
      ensures Valid() && (old(cancel.flag) ==> cancel.flag) && |next| == i + 1
      ensures disk.faults == old(disk.faults) + AllFaults(next) - AllFaults(parts) >= old(disk.faults)
      ensures LibrariesScanned(start, View(), pipelines, i + 1, next, total.tally, dryRun,
                calm && disk.faults == old(disk.faults) && !cancel.flag)
    {
      ghost var w, a := View(), total.tally;
      ghost var part, smooth;
      part, smooth := ScanLibrary(i, total);
      PartsStep(parts, part);
      OneMoreLibrary(start, w, View(), pipelines, i, parts, part, a, total.tally, dryRun, calm, smooth,
                     calm && disk.faults == old(disk.faults) && !cancel.flag, ready);
      next := parts + [part];
    }

    /** Scans the next library, unless the scan has been cancelled. */
    method ScanNext(i: nat, total: ScanResult, ghost start: World, ghost parts: seq<Part>, ghost calm: bool,
                    ghost ready: bool)
      returns (stop: bool, ghost next: seq<Part>)
      requires (calm ==> ready) && ready == AllReadyToRun(start, pipelines)
      requires Valid() && i < |pipelines| && WellFormed(start.tree)
      requires LibrariesScanned(start, View(), pipelines, i, parts, total.tally, dryRun, calm)
      modifies disk, state, cancel, total
      ensures Valid() && (old(cancel.flag) ==> stop) && (stop ==> cancel.flag)
      ensures disk.faults == old(disk.faults) + AllFaults(next) - AllFaults(parts) >= old(disk.faults)
      ensures if stop then next == parts else |next| == i + 1
      ensures LibrariesScanned(start, View(), pipelines, |next|, next, total.tally, dryRun,
                calm && disk.faults == old(disk.faults) && !cancel.flag)
    {
      stop := cancel.IsSet();
      next := parts;
      if !stop {
        next := ScanOne(i, total, start, parts, calm, ready);
      }
    }

    /** A scan of all libraries. Whatever fails and whatever the cache holds, it changes nothing but what lies below the
        outputs and the missing directories above them; a dry run changes nothing; only a cancelled scan leaves
        libraries out, and all that was counted is merged. If nothing fails and the cache serves all libraries, the tree
        becomes what the jobs found at the start make of it one by one, and all reports are true of the trees these jobs
        find. */
    method ScanLibraries() returns (total: ScanResult, ghost parts: seq<Part>)
      requires Valid()
      modifies disk, state, cancel
      ensures fresh(total) && Valid() && disk.faults == old(disk.faults) + AllFaults(parts)
      ensures LibrariesScanned(old(View()), View(), pipelines, |parts|, parts, total.tally, dryRun,
                AllReadyToRun(old(View()), pipelines) && disk.faults == old(disk.faults) && !cancel.flag)
      ensures Drift(old(disk.tree), disk.tree, AllOutputs(pipelines))
      ensures (old(cancel.flag) ==> parts == []) && (|parts| < |pipelines| ==> cancel.flag)
    {
      ghost var start, ready := View(), AllReadyToRun(View(), pipelines);
      ghost var calm;
      total := new ScanResult();
      NoLibraryScanned(start, pipelines, dryRun);
      parts, calm := ScanAll(total, start, ready);
      ScanIsConfined(start, View(), pipelines, parts, total.tally, dryRun, calm);
    }

    /** The loop over the libraries. ready: all was ready. */
    method ScanAll(total: ScanResult, ghost start: World, ghost ready: bool)
      returns (ghost parts: seq<Part>, ghost calm: bool)
      requires Valid() && start == View() && ready == AllReadyToRun(start, pipelines)
      requires LibrariesScanned(start, start, pipelines, 0, [], total.tally, dryRun, ready)
      modifies disk, state, cancel, total
      ensures Valid() && disk.faults == old(disk.faults) + AllFaults(parts)
      ensures LibrariesScanned(start, View(), pipelines, |parts|, parts, total.tally, dryRun, calm)
      ensures calm == (ready && disk.faults == old(disk.faults) && !cancel.flag)
      ensures (old(cancel.flag) ==> parts == []) && (|parts| < |pipelines| ==> cancel.flag)
    {
      ghost var faults := disk.faults;
      parts, calm := [], ready && !cancel.flag;
      for i := 0 to |pipelines|
        invariant Valid() && disk.faults == faults + AllFaults(parts)
        invariant |parts| == i && (old(cancel.flag) ==> i == 0 && cancel.flag)
        invariant LibrariesScanned(start, View(), pipelines, i, parts, total.tally, dryRun, calm)
        invariant calm == (ready && disk.faults == faults && !cancel.flag)
      {
        var stop;
        ghost var before := disk.faults;
        stop, parts := ScanNext(i, total, start, parts, calm, ready);
        calm := calm && disk.faults == before && !cancel.flag;
        if stop {
          break;
        }
      }
    }
  }

  // ---------------------------------------------------------------- what the loop keeps

  /** What a scan works on: the file tree and the probe cache. */
  datatype World = World(tree: Tree, cache: Memory)

  /** All is ready to be scanned, and the cache serves all libraries. */
  ghost predicate AllReadyToRun(w: World, pls: seq<Pipeline>) {
    RunReady(w.tree, pls) && CacheServes(w.cache, pls)
  }

  /** What the scan of one library found, did and counted. */
  datatype Part = Part(before: Tree, scan: Scan, tally: Tally)

  /** The part of a library whose pipeline could not be set up. */
  function FailedPart(w: World): Part {
    Part(w.tree, Scan(NotSetUp, w.cache, {}, [], [], []), EMPTY_TALLY.(errors := 1))
  }

  function AllSteps(parts: seq<Part>): seq<Step> {
    if parts == [] then [] else AllSteps(parts[..|parts| - 1]) + parts[|parts| - 1].scan.steps
  }

  function MergedAll(parts: seq<Part>): Tally {
    if parts == [] then EMPTY_TALLY else Merged(MergedAll(parts[..|parts| - 1]), parts[|parts| - 1].tally)
  }

  /** The jobs that were run, and what was reported of them. */
  function JobsRun(parts: seq<Part>): seq<Job> {
    if parts == [] then [] else JobsRun(parts[..|parts| - 1]) + parts[|parts| - 1].scan.jobs
  }

  function ReportsOf(parts: seq<Part>): seq<Report> {
    if parts == [] then [] else ReportsOf(parts[..|parts| - 1]) + parts[|parts| - 1].scan.reports
  }

  /** How many operations have failed. */
  function AllFaults(parts: seq<Part>): nat {
    if parts == [] then 0 else AllFaults(parts[..|parts| - 1]) + ScanFaults(parts[|parts| - 1].scan)
  }

  lemma PartsStep(parts: seq<Part>, part: Part)
    ensures AllFaults(parts + [part]) == AllFaults(parts) + ScanFaults(part.scan)
    ensures AllSteps(parts + [part]) == AllSteps(parts) + part.scan.steps
    ensures JobsRun(parts + [part]) == JobsRun(parts) + part.scan.jobs
    ensures ReportsOf(parts + [part]) == ReportsOf(parts) + part.scan.reports
    ensures MergedAll(parts + [part]) == Merged(MergedAll(parts), part.tally)
  {
    assert (parts + [part])[..|parts|] == parts;
  }

  /** A library that could not be scanned counts as one error, a cancelled one counts files only. */
  ghost predicate PartIsCounted(pl: Pipeline, part: Part) {
    match part.scan.stage
    case NotSetUp => part.tally == EMPTY_TALLY.(errors := 1)
    case Unusable => part.tally == EMPTY_TALLY.(errors := 1)
    case Cancelled => OnlyFiles(EMPTY_TALLY, part.tally)
    case Complete => ScanCounted(part.before, pl, part.scan, part.tally)
  }

  /** The job is one of the library's own. */
  ghost predicate Belongs(job: Job, pl: Pipeline) {
    && job.root == pl.input && Proper(job)
    && exists o :: o in pl.outputs && o.path == job.output
  }

  /** Whatever fails, the outputs of the library are reconciled one after the other, every step serves a job of the
      library, and a real run reports exactly what the steps have done. */
  ghost predicate Serving(pl: Pipeline, part: Part, dryRun: bool) {
    var t, scan := part.before, part.scan;
    && ScanJobs(t, pl, scan) && (forall job :: job in scan.jobs ==> Belongs(job, pl))
    && AllServe(scan.steps, scan.jobs) && AllToldTruly(t, scan.steps, scan.jobs, scan.reports, dryRun)
    && |scan.reports| == |scan.jobs| && (scan.stage.Complete? || scan.jobs == [])
    && (scan.stage.NotSetUp? || (scan.stage.Unusable? <==> !IsUsable(t, pl)))
    && Chained(t, scan.steps, TreeAfter(t, scan.steps), scan.jobs, scan.reports, dryRun)
  }

  /** What a scan does to the cache: it tends it, and if it is completed, the cache holds what was learned. */
  ghost predicate CacheDone(known: Memory, after: Memory, t: Tree, pl: Pipeline, scan: Scan) {
    Tended(known, after, pl) && (scan.stage.Complete? ==> CacheKept(known, after, t, pl, scan.unread))
  }

  /** What holds of the scan of one library, whatever fails. */
  ghost predicate PartIsSound(a: World, b: World, pl: Pipeline, part: Part, dryRun: bool) {
    && part.before == a.tree && part.scan.known == a.cache && PartIsKept(pl, part, dryRun)
    && Reaches(a.tree, part.scan.steps, b.tree) && CacheDone(a.cache, b.cache, a.tree, pl, part.scan)
    && (dryRun ==> b.tree == a.tree)
  }

  lemma JobsBelong(t: Tree, pl: Pipeline, infos: map<Path, MediaInfo>, job: Job)
    requires WellFormed(t) && (forall o :: o in pl.outputs ==> Normal(o.path))
             && job in JobsFrom(pl, FilesOf(t, pl), infos)
    ensures Belongs(job, pl)
  {
    var files, jobs := FilesOf(t, pl), JobsFrom(pl, FilesOf(t, pl), infos);
    var k :| 0 <= k < |jobs| && jobs[k] == job;
    var o := pl.outputs[k];
    assert o in pl.outputs && JobFits(pl, o, job);
    forall d | d in job.wanted ensures Below(d, job.output) {
      WantedHasSource(pl, o, files, infos, d);
      var f :| f in files && d == DestOf(pl.input, o.path, f);
      MirroredIsNormal(t, pl, o.path, f);
    }
  }

  lemma SoundPart(a: World, b: World, pl: Pipeline, part: Part, dryRun: bool)
    requires WellFormed(a.tree) && (forall o :: o in pl.outputs ==> Normal(o.path))
             && CacheDone(a.cache, b.cache, a.tree, pl, part.scan)
    requires part.before == a.tree && part.scan.known == a.cache
    requires ScanIsSound(a.tree, b.tree, pl, part.scan, part.tally, dryRun)
    ensures PartIsSound(a, b, pl, part, dryRun)
  {
    EndOfSteps(a.tree, part.scan.steps, b.tree);
    forall job | job in part.scan.jobs ensures Belongs(job, pl) {
      JobsBelong(a.tree, pl, ScanInfos(a.tree, pl, part.scan), job);
    }
  }

  /** The library has found its own jobs, and its reports are true; one that cannot be scanned is told apart. */
  ghost predicate PartIsTrue(u: Tree, pl: Pipeline, part: Part, dryRun: bool) {
    && part.scan.stage == (if IsUsable(u, pl) then Complete else Unusable)
    && part.scan.jobs == JobsFound(u, pl) && |part.scan.reports| == |part.scan.jobs|
    && AllTrue(u, part.scan.jobs, part.scan.reports, dryRun)
  }

  /** Nothing has failed: the tree is what the jobs of the library make of it, and all reports are true. */
  ghost predicate PartWentWell(u: Tree, v: Tree, pl: Pipeline, part: Part, dryRun: bool) {
    PartIsTrue(u, pl, part, dryRun) && v == if dryRun then u else RunJobs(u, JobsFound(u, pl))
  }

  lemma AsItShould(t: Tree, u: Tree, pl: Pipeline, part: Part, dryRun: bool)
    requires WellFormed(t) && ReadyNow(t, pl) && Coherent(part.scan.known, pl) && !part.scan.stage.Cancelled?
             && ScanFaults(part.scan) == 0
    requires ScanIsSound(t, u, pl, part.scan, part.tally, dryRun) && ScanIsSmooth(t, u, pl, part.scan, dryRun)
    ensures PartWentWell(t, u, pl, part, dryRun)
  {
    if part.scan.stage.Complete? {
      WellRun(t, u, part.scan, dryRun);
    }
  }

  lemma WellRun(t: Tree, u: Tree, scan: Scan, dryRun: bool)
    requires WellFormed(t) && AllReady(t, scan.jobs) && Separate(scan.jobs) && WentWell(t, u, scan, dryRun)
    ensures u == (if dryRun then t else RunJobs(t, scan.jobs)) && |scan.reports| == |scan.jobs|
    ensures AllTrue(t, scan.jobs, scan.reports, dryRun)
  {
    assert scan.jobs[..|scan.jobs|] == scan.jobs;
    ReadyIsLinkable(t, scan.jobs, dryRun);
  }

  /** What the i-th library finds, and what the last one leaves. */
  ghost function FoundBy(t: Tree, pls: seq<Pipeline>, i: nat, dryRun: bool): Tree
    requires i <= |pls|
  {
    if dryRun then t else RunJobs(t, AllJobs(t, pls[..i]))
  }

  /** The first n libraries are scanned as they should be. */
  ghost predicate RunWentWell(t: Tree, u: Tree, pls: seq<Pipeline>, n: nat, parts: seq<Part>, dryRun: bool)
    requires n <= |pls|
  {
    && |parts| == n && u == FoundBy(t, pls, n, dryRun)
    && forall k :: 0 <= k < n ==> PartIsTrue(FoundBy(t, pls, k, dryRun), pls[k], parts[k], dryRun)
  }

  /** What holds of every part, whatever fails and however the others fare. */
  ghost predicate PartIsKept(pl: Pipeline, part: Part, dryRun: bool) {
    PartIsCounted(pl, part) && Serving(pl, part, dryRun)
  }

  ghost predicate AllKept(pls: seq<Pipeline>, parts: seq<Part>, dryRun: bool)
    decreases |parts|
  {
    |parts| <= |pls| &&
    (parts != [] ==>
       var front, last := parts[..|parts| - 1], parts[|parts| - 1];
       AllKept(pls, front, dryRun) && PartIsKept(pls[|front|], last, dryRun))
  }

  lemma {:induction false} KeptAt(pls: seq<Pipeline>, parts: seq<Part>, k: nat, dryRun: bool)
    requires AllKept(pls, parts, dryRun) && k < |parts|
    ensures PartIsKept(pls[k], parts[k], dryRun)
    decreases |parts|
  {
    var front, last := LastKept(pls, parts, dryRun);
    FirstOf(front, last, k);
    if k < |front| {
      KeptAt(pls, front, k, dryRun);
    }
  }

  lemma LastKept(pls: seq<Pipeline>, parts: seq<Part>, dryRun: bool) returns (front: seq<Part>, last: Part)
    requires AllKept(pls, parts, dryRun) && parts != []
    ensures parts == front + [last] && |front| < |pls|
    ensures AllKept(pls, front, dryRun) && PartIsKept(pls[|front|], last, dryRun)
  {
    front, last := parts[..|parts| - 1], parts[|parts| - 1];
    FrontAndLast(parts);
  }

  lemma OneMoreKept(pls: seq<Pipeline>, parts: seq<Part>, part: Part, dryRun: bool)
    requires AllKept(pls, parts, dryRun) && |parts| < |pls| && PartIsKept(pls[|parts|], part, dryRun)
    ensures AllKept(pls, parts + [part], dryRun)
  {
    assert (parts + [part])[..|parts|] == parts;
  }

  /** Each library finds the tree and the cache that the ones before it have left; b is what the last one leaves. */
  ghost predicate InTurn(a: World, pls: seq<Pipeline>, parts: seq<Part>, b: World)
    requires |parts| <= |pls|
    decreases |parts|
  {
    if parts == [] then b == a
    else
      var last, front := parts[|parts| - 1], parts[..|parts| - 1];
      && InTurn(a, pls, front, World(last.before, last.scan.known)) && WellFormed(last.before)
      && Reaches(last.before, last.scan.steps, b.tree)
      && CacheDone(last.scan.known, b.cache, last.before, pls[|front|], last.scan)
  }

  lemma NextInTurn(a: World, pls: seq<Pipeline>, parts: seq<Part>, b: World, part: Part, c: World)
    requires |parts| < |pls| && InTurn(a, pls, parts, b) && WellFormed(b.tree)
    requires part.before == b.tree && part.scan.known == b.cache
    requires Reaches(b.tree, part.scan.steps, c.tree)
    requires CacheDone(b.cache, c.cache, b.tree, pls[|parts|], part.scan)
    ensures InTurn(a, pls, parts + [part], c)
  {
    assert (parts + [part])[..|parts|] == parts;
  }

  /** The tree the k-th library finds is the one the steps of those before it lead to. */
  lemma {:induction false} ReachedInTurn(a: World, pls: seq<Pipeline>, parts: seq<Part>, b: World, k: nat)
    requires |parts| <= |pls| && InTurn(a, pls, parts, b) && k < |parts|
    ensures WellFormed(parts[k].before) && Reaches(a.tree, AllSteps(parts[..k]), parts[k].before)
    ensures Reaches(a.tree, AllSteps(parts), b.tree)
    decreases |parts|
  {
    var front, last := BackInTurn(a, pls, parts, b);
    var mid := World(last.before, last.scan.known);
    if front != [] {
      ReachedInTurn(a, pls, front, mid, if k < |front| then k else 0);
    }
    PartsStep(front, last);
    ReachesOn(a.tree, AllSteps(front), last.before, last.scan.steps, b.tree);
    FirstOf(front, last, k);
  }

  lemma FirstOf<T>(front: seq<T>, last: T, k: nat)
    requires k <= |front|
    ensures (front + [last])[..k] == if k < |front| then front[..k] else front
    ensures k < |front| ==> (front + [last])[k] == front[k]
    ensures k == |front| ==> (front + [last])[k] == last
  {}

  lemma BackInTurn(a: World, pls: seq<Pipeline>, parts: seq<Part>, b: World) returns (front: seq<Part>, last: Part)
    requires |parts| <= |pls| && InTurn(a, pls, parts, b) && parts != []
    ensures parts == front + [last] && |front| < |pls| && WellFormed(last.before)
    ensures InTurn(a, pls, front, World(last.before, last.scan.known))
    ensures Reaches(last.before, last.scan.steps, b.tree) && Tended(last.scan.known, b.cache, pls[|front|])
    ensures CacheDone(last.scan.known, b.cache, last.before, pls[|front|], last.scan)
  {
    front, last := parts[..|parts| - 1], parts[|parts| - 1];
    FrontAndLast(parts);
  }

  /** A cache that serves all libraries serves them until the end. */
  lemma {:induction false} ServesInTurn(a: World, pls: seq<Pipeline>, parts: seq<Part>, b: World)
    requires |parts| <= |pls| && InTurn(a, pls, parts, b) && CacheServes(a.cache, pls)
    ensures CacheServes(b.cache, pls)
    decreases |parts|
  {
    if parts != [] {
      var front, last := BackInTurn(a, pls, parts, b);
      ServesInTurn(a, pls, front, World(last.before, last.scan.known));
      StillServes(last.scan.known, b.cache, pls, |front|);
    }
  }

  /** n libraries have been scanned. calm: all was ready and nothing has failed. */
  ghost predicate LibrariesScanned(a: World, b: World, pls: seq<Pipeline>, n: nat, parts: seq<Part>, total: Tally,
                                   dryRun: bool, calm: bool)
  {
    && |parts| == n <= |pls| && total == MergedAll(parts) && |total.changes| <= MAX_RECORDED_CHANGES
    && AllKept(pls, parts, dryRun) && InTurn(a, pls, parts, b)
    && Reaches(a.tree, AllSteps(parts), b.tree) && (dryRun ==> b.tree == a.tree)
    && (calm ==> RunWentWell(a.tree, b.tree, pls, n, parts, dryRun))
  }

  lemma NoLibraryScanned(a: World, pls: seq<Pipeline>, dryRun: bool)
    ensures LibrariesScanned(a, a, pls, 0, [], EMPTY_TALLY, dryRun, AllReadyToRun(a, pls))
  {}

  lemma FailureIsSound(w: World, pl: Pipeline, a: Tally, dryRun: bool)
    requires |a.changes| <= MAX_RECORDED_CHANGES
    ensures PartIsSound(w, w, pl, FailedPart(w), dryRun)
    ensures a.(errors := a.errors + 1) == Merged(a, FailedPart(w).tally)
  {
    NothingMerged(a);
    NotTouched(w.cache, pl);
  }

  /** A library finds, when its turn comes, its own jobs ready to run, in a real run and in a dry run. */
  lemma ReadyInTurn(t: Tree, pls: seq<Pipeline>, i: nat, dryRun: bool)
    requires WellFormed(t) && RunReady(t, pls) && i < |pls|
    ensures var u := FoundBy(t, pls, i, dryRun);
            && WellFormed(u) && ReadyNow(u, pls[i]) && IsUsable(u, pls[i]) == IsUsable(t, pls[i])
            && JobsFound(u, pls[i]) == JobsFound(t, pls[i])
            && FoundBy(t, pls, i + 1, dryRun) == if dryRun then u else RunJobs(u, JobsFound(u, pls[i]))
  {
    if dryRun {
      ReadyFromTheStart(t, pls, i);
    } else {
      TurnOfLibrary(t, pls, i);
    }
  }

  lemma OneMorePart(t: Tree, u: Tree, v: Tree, pls: seq<Pipeline>, i: nat, parts: seq<Part>, part: Part, dryRun: bool)
    requires i < |pls| && RunWentWell(t, u, pls, i, parts, dryRun)
    requires PartIsTrue(u, pls[i], part, dryRun) && v == FoundBy(t, pls, i + 1, dryRun)
    ensures RunWentWell(t, v, pls, i + 1, parts + [part], dryRun)
  {
    forall k | 0 <= k < i + 1
      ensures PartIsTrue(FoundBy(t, pls, k, dryRun), pls[k], (parts + [part])[k], dryRun)
    {
      if k < i {
        assert (parts + [part])[k] == parts[k];
        assert PartIsTrue(FoundBy(t, pls, k, dryRun), pls[k], parts[k], dryRun);
      } else {
        assert (parts + [part])[k] == part && FoundBy(t, pls, k, dryRun) == u;
      }
    }
  }

  lemma RunGoesOn(t: Tree, u: Tree, v: Tree, pls: seq<Pipeline>, i: nat, parts: seq<Part>, part: Part, dryRun: bool)
    requires WellFormed(t) && RunReady(t, pls) && i < |pls| && RunWentWell(t, u, pls, i, parts, dryRun)
    requires ReadyNow(u, pls[i]) ==> PartWentWell(u, v, pls[i], part, dryRun)
    ensures RunWentWell(t, v, pls, i + 1, parts + [part], dryRun)
  {
    ReadyInTurn(t, pls, i, dryRun);
    OneMorePart(t, u, v, pls, i, parts, part, dryRun);
  }

  /** start, u, v: before the scan, before the i-th library, and after it. before, here, after: all went well before the
      i-th library, at it, and up to its end. */
  lemma OneMoreLibrary(start: World, u: World, v: World, pls: seq<Pipeline>, i: nat, parts: seq<Part>, part: Part,
                       a: Tally, b: Tally, dryRun: bool, before: bool, here: bool, after: bool, ready: bool)
    requires WellFormed(start.tree) && WellFormed(u.tree) && i < |pls|
    requires LibrariesScanned(start, u, pls, i, parts, a, dryRun, before)
    requires b == Merged(a, part.tally) && PartIsSound(u, v, pls[i], part, dryRun)
    requires here && ReadyNow(u.tree, pls[i]) && Coherent(u.cache, pls[i]) ==>
               PartWentWell(u.tree, v.tree, pls[i], part, dryRun)
    requires (after ==> before && here && ready) && ready == AllReadyToRun(start, pls)
    ensures LibrariesScanned(start, v, pls, i + 1, parts + [part], b, dryRun, after)
  {
    PartsStep(parts, part);
    OneMoreKept(pls, parts, part, dryRun);
    NextInTurn(start, pls, parts, u, part, v);
    ReachesOn(start.tree, AllSteps(parts), u.tree, part.scan.steps, v.tree);
    if after {
      ServesInTurn(start, pls, parts, u);
      RunGoesOn(start.tree, u.tree, v.tree, pls, i, parts, part, dryRun);
    }
  }

  // ---------------------------------------------------------------- the scan as one chain of outputs

  lemma NextOfChain(a: World, pls: seq<Pipeline>, parts: seq<Part>, u: Tree, part: Part, v: Tree, dryRun: bool)
    requires Chained(a.tree, AllSteps(parts), u, JobsRun(parts), ReportsOf(parts), dryRun)
    requires |ReportsOf(parts)| == |JobsRun(parts)| && Reaches(a.tree, AllSteps(parts), u)
    requires |parts| < |pls| && PartIsKept(pls[|parts|], part, dryRun) && part.before == u
    requires Reaches(u, part.scan.steps, v)
    ensures var more := parts + [part];
            && Chained(a.tree, AllSteps(more), v, JobsRun(more), ReportsOf(more), dryRun)
            && |ReportsOf(more)| == |JobsRun(more)|
  {
    assert (parts + [part])[..|parts|] == parts;
    EndOfSteps(a.tree, AllSteps(parts), u);
    EndOfSteps(u, part.scan.steps, v);
    ChainOn(a.tree, AllSteps(parts), u, JobsRun(parts), ReportsOf(parts), part.scan.steps, v, part.scan.jobs,
            part.scan.reports, dryRun);
  }

  /** The last library of a scan, and the scan before it. */
  lemma LastPart(a: World, pls: seq<Pipeline>, parts: seq<Part>, b: World, dryRun: bool)
      returns (front: seq<Part>, last: Part)
    requires |parts| <= |pls| && InTurn(a, pls, parts, b) && AllKept(pls, parts, dryRun) && parts != []
    ensures parts == front + [last] && |front| < |pls| && WellFormed(last.before)
    ensures InTurn(a, pls, front, World(last.before, last.scan.known)) && AllKept(pls, front, dryRun)
    ensures PartIsKept(pls[|front|], last, dryRun) && Reaches(last.before, last.scan.steps, b.tree)
    ensures Tended(last.scan.known, b.cache, pls[|front|])
  {
    front, last := BackInTurn(a, pls, parts, b);
    KeptFront(pls, parts, |front|, dryRun);
    KeptAt(pls, parts, |front|, dryRun);
    assert parts[..|front|] == front;
  }

  /** A scan of all libraries reconciles outputs one after the other, whatever fails. */
  lemma {:induction false} ScanIsChain(a: World, pls: seq<Pipeline>, parts: seq<Part>, b: World, dryRun: bool)
    requires |parts| <= |pls| && InTurn(a, pls, parts, b) && AllKept(pls, parts, dryRun)
    ensures Chained(a.tree, AllSteps(parts), b.tree, JobsRun(parts), ReportsOf(parts), dryRun)
    ensures |ReportsOf(parts)| == |JobsRun(parts)|
    decreases |parts|
  {
    if parts != [] {
      var front, last := LastPart(a, pls, parts, b, dryRun);
      ScanIsChain(a, pls, front, World(last.before, last.scan.known), dryRun);
      StepsReach(a, pls, front, last, dryRun);
      NextOfChain(a, pls, front, last.before, last, b.tree, dryRun);
    }
  }

  lemma StepsReach(a: World, pls: seq<Pipeline>, front: seq<Part>, last: Part, dryRun: bool)
    requires Chained(a.tree, AllSteps(front), last.before, JobsRun(front), ReportsOf(front), dryRun)
    ensures Reaches(a.tree, AllSteps(front), last.before)
  {
    ChainServes(a.tree, AllSteps(front), last.before, JobsRun(front), ReportsOf(front), dryRun);
  }

  // ---------------------------------------------------------------- what no scan does, whatever fails

  lemma {:induction false} StepOfPart(parts: seq<Part>, step: Step) returns (k: nat)
    requires step in AllSteps(parts)
    ensures k < |parts| && step in parts[k].scan.steps
    decreases |parts|
  {
    var n := |parts| - 1;
    if step in parts[n].scan.steps {
      k := n;
    } else {
      k := StepOfPart(parts[..n], step);
    }
  }

  /** Every step of a scan serves a job of one of the libraries. */
  lemma StepServes(pls: seq<Pipeline>, parts: seq<Part>, dryRun: bool, step: Step) returns (k: nat, job: Job)
    requires AllKept(pls, parts, dryRun) && step in AllSteps(parts)
    ensures k < |parts| <= |pls| && job in parts[k].scan.jobs && Serves(step.act, job) && Belongs(job, pls[k])
            && job.output in AllOutputs(pls)
  {
    k := StepOfPart(parts, step);
    KeptAt(pls, parts, k, dryRun);
    assert pls[k] in pls;
    job :| job in parts[k].scan.jobs && Serves(step.act, job);
    assert Belongs(job, pls[k]);
  }

  lemma StepsAreConfined(t: Tree, pls: seq<Pipeline>, parts: seq<Part>, u: Tree, dryRun: bool)
    requires AllKept(pls, parts, dryRun) && Reaches(t, AllSteps(parts), u)
    ensures forall step :: step in AllSteps(parts) ==> Confined(step.act, AllOutputs(pls))
    ensures Drift(t, u, AllOutputs(pls))
  {
    forall step | step in AllSteps(parts) ensures Confined(step.act, AllOutputs(pls)) {
      var k, job := StepServes(pls, parts, dryRun, step);
    }
    OnlyOutputsChange(t, AllSteps(parts), u, AllOutputs(pls));
  }

  lemma ScanIsConfined(a: World, b: World, pls: seq<Pipeline>, parts: seq<Part>, total: Tally, dryRun: bool, calm: bool)
    requires LibrariesScanned(a, b, pls, |parts|, parts, total, dryRun, calm)
    ensures Drift(a.tree, b.tree, AllOutputs(pls))
  {
    StepsAreConfined(a.tree, pls, parts, b.tree, dryRun);
  }

  /** Scanning one library changes nothing in the outputs of the others, nor anywhere else apart from its own
      outputs. */
  lemma LibrariesDoNotInterfere(a: World, b: World, pl: Pipeline, part: Part, dryRun: bool, dir: Path, p: Path)
    requires PartIsSound(a, b, pl, part, dryRun) && dir <= p
    requires forall o :: o in pl.outputs ==> !(o.path <= dir) && !(dir <= o.path)
    ensures Same(a.tree, b.tree, p)
  {
    forall job | job in part.scan.jobs ensures Proper(job) && !(job.output <= dir) && !(dir <= job.output) {
      assert Belongs(job, pl);
    }
    OutputsDoNotInterfere(a.tree, part.scan.steps, b.tree, part.scan.jobs, dir, p);
  }

  /** No scan deletes or alters a live link that leads out of the outputs, is at no wanted destination and points
      outside the input of the library whose output it is in, even if it points into the input of another library. */
  lemma ForeignLinksSurviveScan(a: World, b: World, pls: seq<Pipeline>, parts: seq<Part>, total: Tally, dryRun: bool,
                                calm: bool, p: Path)
    requires LibrariesScanned(a, b, pls, |parts|, parts, total, dryRun, calm)
    requires var t := a.tree;
             && p != [] && ProperName(Name(p)) && IsLink(t, p) && !TmpNamed(p) && Live(t, p)
             && LeadsAway(t, p, AllOutputs(pls))
             && forall pl, o :: pl in pls && o in pl.outputs && Below(p, o.path) ==> !Owned(p, t[p].raw, pl.input)
    requires forall k, job :: 0 <= k < |parts| && job in parts[k].scan.jobs ==> p !in job.wanted
    ensures Same(a.tree, b.tree, p)
  {
    StepsAreConfined(a.tree, pls, parts, b.tree, dryRun);
    forall step | step in AllSteps(parts) ensures Spares(step.act, p, a.tree[p].raw) {
      var k, job := StepServes(pls, parts, dryRun, step);
      var o :| o in pls[k].outputs && o.path == job.output;
      assert pls[k] in pls;
    }
    ForeignLinksStay(a.tree, AllSteps(parts), b.tree, AllOutputs(pls), p);
  }

  // ---------------------------------------------------------------- what has been counted

  /** The tallies agree on everything that is told of outputs. */
  predicate SameDeeds(a: Tally, b: Tally) {
    && a.created == b.created && a.removed == b.removed && a.unaltered == b.unaltered && a.blocked == b.blocked
    && a.links == b.links && a.changedOutputs == b.changedOutputs && a.changes == b.changes
  }

  lemma OnlyCompleteReports(pl: Pipeline, part: Part, dryRun: bool)
    requires PartIsKept(pl, part, dryRun)
    ensures PartIsCounted(pl, part) && (part.scan.stage.Complete? || part.scan.reports == [])
  {}

  lemma FilesBeside(a: Tally, b: Tally)
    requires SameDeeds(a, EMPTY_TALLY) && |b.changes| <= MAX_RECORDED_CHANGES
    ensures SameDeeds(Merged(a, b), b)
  {
    assert [] + b.changes == b.changes;
  }

  lemma PartAddsUp(pl: Pipeline, part: Part)
    requires PartIsCounted(pl, part) && (part.scan.stage.Complete? || part.scan.reports == [])
    ensures SameDeeds(part.tally, Sum(part.scan.reports))
  {
    if part.scan.stage.Complete? {
      var files := FilesTally(part.before, pl, part.scan, part.tally);
      FilesBeside(files, Sum(part.scan.reports));
    }
  }

  lemma FilesTally(t: Tree, pl: Pipeline, scan: Scan, tally: Tally) returns (files: Tally)
    requires ScanCounted(t, pl, scan, tally)
    ensures tally == Merged(files, Sum(scan.reports)) && SameDeeds(files, EMPTY_TALLY)
  {
    var found, media, infos := FilesOf(t, pl), Media(pl, FilesOf(t, pl)), ScanInfos(t, pl, scan);
    var known := KnownFiles(scan.known, t, pl, scan.unread);
    files := EMPTY_TALLY.(filtered := |found - media|, skipped := |known|, probed := |infos.Keys - known|,
                          errors := |media - infos.Keys|);
  }

  lemma EachAddsUp(pls: seq<Pipeline>, parts: seq<Part>, dryRun: bool)
    requires AllKept(pls, parts, dryRun)
    ensures forall part :: part in parts ==> SameDeeds(part.tally, Sum(part.scan.reports))
  {
    forall part | part in parts ensures SameDeeds(part.tally, Sum(part.scan.reports)) {
      var k :| 0 <= k < |parts| && parts[k] == part;
      PartAtAddsUp(pls, parts, k, dryRun);
    }
  }

  lemma PartAtAddsUp(pls: seq<Pipeline>, parts: seq<Part>, k: nat, dryRun: bool)
    requires AllKept(pls, parts, dryRun) && k < |parts|
    ensures SameDeeds(parts[k].tally, Sum(parts[k].scan.reports))
  {
    KeptAt(pls, parts, k, dryRun);
    OnlyCompleteReports(pls[k], parts[k], dryRun);
    PartAddsUp(pls[k], parts[k]);
  }

  lemma MergedAlike(a: Tally, b: Tally, c: Tally, d: Tally)
    requires SameDeeds(a, c) && SameDeeds(b, d)
    ensures SameDeeds(Merged(a, b), Merged(c, d))
  {}

  lemma {:induction false} DeedsAddUp(parts: seq<Part>)
    requires forall part :: part in parts ==> SameDeeds(part.tally, Sum(part.scan.reports))
    ensures SameDeeds(MergedAll(parts), Sum(ReportsOf(parts)))
    decreases |parts|
  {
    if parts != [] {
      var front, last := parts[..|parts| - 1], parts[|parts| - 1];
      DeedsAddUp(front);
      assert last in parts;
      MergedAlike(MergedAll(front), last.tally, Sum(ReportsOf(front)), Sum(last.scan.reports));
      SumOfBoth(ReportsOf(front), last.scan.reports);
    }
  }

  /** The result of a scan of all libraries adds up what was reported of each output: the links made and removed, the
      refusals, the outputs that have changed, the number of links each is to hold, the first 500 changes. */
  lemma TotalsAddUp(a: World, b: World, pls: seq<Pipeline>, parts: seq<Part>, total: Tally, dryRun: bool, calm: bool)
    requires LibrariesScanned(a, b, pls, |parts|, parts, total, dryRun, calm)
    ensures AddsUp(ReportsOf(parts), total)
  {
    EachAddsUp(pls, parts, dryRun);
    DeedsAddUp(parts);
    ReportsAddUp(ReportsOf(parts));
  }

  function Total(counts: seq<nat>): nat {
    if counts == [] then 0 else Total(counts[..|counts| - 1]) + counts[|counts| - 1]
  }

  lemma {:induction false} TalliesAddUp(counts: seq<nat>, parts: seq<Part>)
    requires |counts| == |parts| && forall k :: 0 <= k < |parts| ==> Handled(parts[k].tally) == counts[k]
    ensures Handled(MergedAll(parts)) == Total(counts)
    decreases |parts|
  {
    if parts != [] {
      TalliesAddUp(counts[..|parts| - 1], parts[..|parts| - 1]);
    }
  }

  /** What there was to count in each library: the files found and the links attempted, or the failure to scan it. */
  function Workload(pls: seq<Pipeline>, parts: seq<Part>): seq<nat>
    requires |parts| <= |pls|
  {
    seq(|parts|, k requires 0 <= k < |parts| => WorkOf(parts[k].before, pls[k], parts[k]))
  }

  /** The same, with the files there were before the scan began. */
  function WorkloadFrom(t: Tree, pls: seq<Pipeline>, parts: seq<Part>): seq<nat>
    requires |parts| <= |pls|
  {
    seq(|parts|, k requires 0 <= k < |parts| => WorkOf(t, pls[k], parts[k]))
  }

  function WorkOf(t: Tree, pl: Pipeline, part: Part): nat {
    if part.scan.stage.Complete? then |FilesOf(t, pl)| + AllAttempts(part.scan.reports) else 1
  }

  lemma WorkIsHandled(pl: Pipeline, part: Part)
    requires !part.scan.stage.Cancelled? && PartIsCounted(pl, part)
    ensures Handled(part.tally) == WorkOf(part.before, pl, part)
  {
    if part.scan.stage.Complete? {
      NothingIsLost(part.before, pl, part.scan, part.tally);
    }
  }

  lemma {:induction false} KeptFront(pls: seq<Pipeline>, parts: seq<Part>, k: nat, dryRun: bool)
    requires AllKept(pls, parts, dryRun) && k <= |parts|
    ensures AllKept(pls, parts[..k], dryRun)
    decreases |parts|
  {
    if k == |parts| {
      assert parts[..k] == parts;
    } else {
      assert parts[..|parts| - 1][..k] == parts[..k];
      KeptFront(pls, parts[..|parts| - 1], k, dryRun);
    }
  }

  /** Every library finds, when its turn comes, the files it would have found before the scan began. */
  lemma FilesOfStart(a: World, b: World, pls: seq<Pipeline>, parts: seq<Part>, dryRun: bool, k: nat)
    requires AllKept(pls, parts, dryRun) && InTurn(a, pls, parts, b) && WellFormed(a.tree) && k < |parts|
    requires InputAway(a.tree, pls[k], AllOutputs(pls))
    ensures FilesOf(parts[k].before, pls[k]) == FilesOf(a.tree, pls[k])
  {
    ReachedInTurn(a, pls, parts, b, k);
    KeptFront(pls, parts, k, dryRun);
    StepsAreConfined(a.tree, pls, parts[..k], parts[k].before, dryRun);
    DriftIsAway(a.tree, parts[k].before, AllOutputs(pls));
    JobsSame(a.tree, parts[k].before, pls[k], AllOutputs(pls));
  }

  /** Nothing is lost in a scan of all libraries: if none was cancelled, the counters add up to the files found, the
      links attempted and the libraries that could not be scanned. The files are those there were before the scan began
      if the inputs lie apart from the outputs and links in them lead away from these. */
  lemma NothingIsLostInRun(a: World, b: World, pls: seq<Pipeline>, parts: seq<Part>, total: Tally, dryRun: bool,
                           calm: bool)
    requires LibrariesScanned(a, b, pls, |parts|, parts, total, dryRun, calm) && WellFormed(a.tree)
    requires forall k :: 0 <= k < |parts| ==> !parts[k].scan.stage.Cancelled?
    ensures Handled(total) == Total(Workload(pls, parts))
    ensures (forall pl :: pl in pls ==> InputAway(a.tree, pl, AllOutputs(pls))) ==>
              Handled(total) == Total(WorkloadFrom(a.tree, pls, parts))
  {
    AllIsHandled(pls, parts, dryRun);
    if forall pl :: pl in pls ==> InputAway(a.tree, pl, AllOutputs(pls)) {
      SameWorkload(a, b, pls, parts, dryRun);
    }
  }

  lemma HandledAt(pls: seq<Pipeline>, parts: seq<Part>, k: nat, dryRun: bool)
    requires AllKept(pls, parts, dryRun) && k < |parts| && !parts[k].scan.stage.Cancelled?
    ensures Handled(parts[k].tally) == Workload(pls, parts)[k]
  {
    KeptAt(pls, parts, k, dryRun);
    WorkIsHandled(pls[k], parts[k]);
  }

  lemma EachIsHandled(pls: seq<Pipeline>, parts: seq<Part>, loads: seq<nat>, dryRun: bool)
    requires AllKept(pls, parts, dryRun) && forall k :: 0 <= k < |parts| ==> !parts[k].scan.stage.Cancelled?
    requires loads == Workload(pls, parts)
    ensures |loads| == |parts| && forall k :: 0 <= k < |parts| ==> Handled(parts[k].tally) == loads[k]
  {
    forall k | 0 <= k < |parts| ensures Handled(parts[k].tally) == loads[k] { HandledAt(pls, parts, k, dryRun); }
  }

  lemma AllIsHandled(pls: seq<Pipeline>, parts: seq<Part>, dryRun: bool)
    requires AllKept(pls, parts, dryRun) && forall k :: 0 <= k < |parts| ==> !parts[k].scan.stage.Cancelled?
    ensures |parts| <= |pls| && Handled(MergedAll(parts)) == Total(Workload(pls, parts))
  {
    var loads := Workload(pls, parts);
    EachIsHandled(pls, parts, loads, dryRun);
    TalliesAddUp(loads, parts);
  }

  lemma SameWork(a: World, b: World, pls: seq<Pipeline>, parts: seq<Part>, dryRun: bool, k: nat)
    requires AllKept(pls, parts, dryRun) && InTurn(a, pls, parts, b) && WellFormed(a.tree) && k < |parts|
    requires forall pl :: pl in pls ==> InputAway(a.tree, pl, AllOutputs(pls))
    ensures Workload(pls, parts)[k] == WorkloadFrom(a.tree, pls, parts)[k]
  {
    assert pls[k] in pls;
    FilesOfStart(a, b, pls, parts, dryRun, k);
  }

  lemma SameWorkload(a: World, b: World, pls: seq<Pipeline>, parts: seq<Part>, dryRun: bool)
    requires AllKept(pls, parts, dryRun) && InTurn(a, pls, parts, b) && WellFormed(a.tree)
    requires forall pl :: pl in pls ==> InputAway(a.tree, pl, AllOutputs(pls))
    ensures Workload(pls, parts) == WorkloadFrom(a.tree, pls, parts)
  {
    EachSameWork(a, b, pls, parts, dryRun, Workload(pls, parts), WorkloadFrom(a.tree, pls, parts));
  }

  lemma EachSameWork(a: World, b: World, pls: seq<Pipeline>, parts: seq<Part>, dryRun: bool, loads: seq<nat>,
                     from: seq<nat>)
    requires AllKept(pls, parts, dryRun) && InTurn(a, pls, parts, b) && WellFormed(a.tree)
    requires forall pl :: pl in pls ==> InputAway(a.tree, pl, AllOutputs(pls))
    requires loads == Workload(pls, parts) && from == WorkloadFrom(a.tree, pls, parts)
    ensures loads == from
  {
    forall k | 0 <= k < |parts| ensures loads[k] == from[k] { SameWork(a, b, pls, parts, dryRun, k); }
  }

  // ---------------------------------------------------------------- jobs of a library among those of the scan

  /** What the jobs in the middle of others find. */
  lemma TreeOfLater(t: Tree, all: seq<Job>, first: seq<Job>, jobs: seq<Job>, rest: seq<Job>, u: Tree, k: nat)
    requires all == first + jobs + rest && u == RunJobs(t, first) && k < |jobs|
    ensures all[|first| + k] == jobs[k] && TreeAt(u, jobs, k, false) == TreeAt(t, all, |first| + k, false)
  {
    assert all[..|first| + k] == first + jobs[..k];
    RunJobsOn(t, first, jobs[..k]);
  }

  lemma AllJobsAround(t: Tree, pls: seq<Pipeline>, i: nat) returns (rest: seq<Job>)
    requires i < |pls|
    ensures AllJobs(t, pls) == AllJobs(t, pls[..i]) + JobsFound(t, pls[i]) + rest
  {
    AllJobsPrefix(t, pls, i);
    AllJobsPrefix(t, pls, i + 1);
    var upto := AllJobs(t, pls[..i + 1]);
    rest := AllJobs(t, pls)[|upto|..];
    assert AllJobs(t, pls) == upto + rest;
  }

  lemma ReportOfPart(u: Tree, pl: Pipeline, part: Part, k: nat, dryRun: bool)
    requires WellFormed(u) && ReadyNow(u, pl) && PartIsTrue(u, pl, part, dryRun) && k < |JobsFound(u, pl)|
    ensures k < |part.scan.reports|
            && TrueReport(TreeAt(u, JobsFound(u, pl), k, dryRun), JobsFound(u, pl)[k], part.scan.reports[k], dryRun)
  {
    ReadyInOrder(u, JobsFound(u, pl), k, dryRun);
  }

  lemma SameJobsInTurn(t: Tree, pls: seq<Pipeline>, i: nat)
    requires WellFormed(t) && RunReady(t, pls) && i < |pls|
    ensures JobsFound(RunJobs(t, AllJobs(t, pls[..i])), pls[i]) == JobsFound(t, pls[i])
  {
    TurnOfLibrary(t, pls, i);
  }

  /** The k-th job of the i-th library is a job of the whole scan, and finds there what it finds here. */
  lemma JobInScan(t: Tree, pls: seq<Pipeline>, i: nat, k: nat) returns (n: nat)
    requires WellFormed(t) && RunReady(t, pls) && i < |pls| && k < |JobsFound(t, pls[i])|
    ensures var u, jobs := FoundBy(t, pls, i, false), JobsFound(t, pls[i]);
            && n < |AllJobs(t, pls)| && AllJobs(t, pls)[n] == jobs[k] && JobsFound(u, pls[i]) == jobs
            && TreeAt(u, jobs, k, false) == TreeAt(t, AllJobs(t, pls), n, false)
  {
    var first, jobs, u := AllJobs(t, pls[..i]), JobsFound(t, pls[i]), FoundBy(t, pls, i, false);
    var rest := AllJobsAround(t, pls, i);
    SameJobsInTurn(t, pls, i);
    n := |first| + k;
    TreeOfLater(t, AllJobs(t, pls), first, jobs, rest, u, k);
  }

  // ---------------------------------------------------------------- the second scan

  /** The report of an output that was as it should be. */
  predicate NothingDone(report: Report) {
    report.created == [] && report.removed == [] && !report.blocked && report.failed == 0
  }

  lemma NothingInLog(log: seq<Change>)
    ensures Reported(log) == {} <==> log == []
  {
    if log != [] {
      assert log[0].path in Reported(log);
    }
  }

  lemma NothingReported(u: Tree, job: Job, report: Report, dryRun: bool)
    requires TrueReport(u, job, report, dryRun) && Clear(u, job.wanted) && Outdated(u, job.wanted) == {}
    requires PlanOf(if dryRun then u else AddLinks(u, job.wanted), job) == {}
    ensures NothingDone(report)
  {
    ClearIsLinkable(u, job.wanted, job.wanted);
    NothingInLog(report.created);
    NothingInLog(report.removed);
  }

  /** No job finds anything to do. */
  ghost predicate AllIdle(u: Tree, jobs: seq<Job>) {
    forall job :: job in jobs ==> Outdated(u, job.wanted) == {} && PlanOf(AddLinks(u, job.wanted), job) == {}
  }

  lemma IdleInTurn(u: Tree, jobs: seq<Job>, n: nat, dryRun: bool)
    requires WellFormed(u) && Separate(jobs) && AllReady(u, jobs) && AllIdle(u, jobs) && n < |jobs|
    ensures var v := TreeAt(u, jobs, n, dryRun);
            Clear(v, jobs[n].wanted) && Outdated(v, jobs[n].wanted) == {}
              && PlanOf(if dryRun then v else AddLinks(v, jobs[n].wanted), jobs[n]) == {}
  {
    assert Ready(u, jobs[n], Outputs(jobs)) && jobs[n].output in Outputs(jobs);
    DryRunIsFaithful(u, jobs, n);
    TurnOf(u, jobs, n);
    DryPlanIsFaithful(u, jobs[n]);
  }

  lemma SecondReport(u: Tree, pls: seq<Pipeline>, i: nat, k: nat, part: Part, dryRun: bool)
    requires WellFormed(u) && RunReady(u, pls) && AllIdle(u, AllJobs(u, pls)) && i < |pls|
    requires PartIsTrue(FoundBy(u, pls, i, dryRun), pls[i], part, dryRun) && k < |part.scan.reports|
    ensures NothingDone(part.scan.reports[k])
  {
    var v, job := FoundBy(u, pls, i, dryRun), part.scan.jobs[k];
    ReadyInTurn(u, pls, i, dryRun);
    var n := JobInScan(u, pls, i, k);
    ReportOfPart(v, pls[i], part, k, dryRun);
    IdleInTurn(u, AllJobs(u, pls), n, dryRun);
    NothingReported(TreeAt(v, JobsFound(v, pls[i]), k, dryRun), job, part.scan.reports[k], dryRun);
  }

  predicate NothingCounted(tally: Tally) {
    tally.created == 0 && tally.removed == 0 && tally.blocked == 0
  }

  lemma {:induction false} NothingSummed(reports: seq<Report>)
    requires forall report :: report in reports ==> NothingDone(report)
    ensures NothingCounted(Sum(reports))
  {
    if reports != [] {
      assert reports[|reports| - 1] in reports;
      NothingSummed(reports[..|reports| - 1]);
    }
  }

  lemma NothingInPart(pl: Pipeline, part: Part)
    requires PartIsCounted(pl, part) && forall report :: report in part.scan.reports ==> NothingDone(report)
    ensures NothingCounted(part.tally)
  {
    NothingSummed(part.scan.reports);
  }

  lemma {:induction false} NothingInAll(parts: seq<Part>)
    requires forall part :: part in parts ==> NothingCounted(part.tally)
    ensures NothingCounted(MergedAll(parts))
    decreases |parts|
  {
    if parts != [] {
      NothingInAll(parts[..|parts| - 1]);
    }
  }

  lemma AllFound(t: Tree, pls: seq<Pipeline>, dryRun: bool)
    ensures FoundBy(t, pls, |pls|, dryRun) == if dryRun then t else RunJobs(t, AllJobs(t, pls))
  {
    assert pls[..|pls|] == pls;
  }

  /** After a scan of all libraries in which nothing has failed and no guard has refused, everything is ready for the
      next one, which, real or dry, leaves the tree as it is, has nothing to report and counts nothing as made or
      removed. */
  lemma SecondScanDoesNothing(a: World, b: World, c: World, pls: seq<Pipeline>, parts: seq<Part>, total: Tally,
                              again: seq<Part>, sum: Tally, dryRun: bool)
    requires WellFormed(a.tree) && NoneBlocked(a.tree, AllJobs(a.tree, pls))
    requires LibrariesScanned(a, b, pls, |pls|, parts, total, false, true) && AllReadyToRun(a, pls)
    requires LibrariesScanned(b, c, pls, |pls|, again, sum, dryRun, AllReadyToRun(b, pls))
    ensures AllReadyToRun(b, pls) && c.tree == b.tree && NothingCounted(sum)
    ensures forall part, report :: part in again && report in part.scan.reports ==> NothingDone(report)
  {
    ServesInTurn(a, pls, parts, b);
    AllFound(a.tree, pls, false);
    AllFound(b.tree, pls, dryRun);
    ScanIdempotence(a.tree, pls);
    ReadyAgain(a.tree, pls);
    SecondParts(b.tree, pls, again, dryRun);
    NothingInAll(again);
  }

  lemma SecondParts(u: Tree, pls: seq<Pipeline>, again: seq<Part>, dryRun: bool)
    requires WellFormed(u) && RunReady(u, pls) && AllIdle(u, AllJobs(u, pls)) && AllKept(pls, again, dryRun)
    requires |again| == |pls|
    requires forall k :: 0 <= k < |pls| ==> PartIsTrue(FoundBy(u, pls, k, dryRun), pls[k], again[k], dryRun)
    ensures forall part :: part in again ==> NothingCounted(part.tally)
    ensures forall part, report :: part in again && report in part.scan.reports ==> NothingDone(report)
  {
    forall part | part in again
      ensures NothingCounted(part.tally)
      ensures forall report :: report in part.scan.reports ==> NothingDone(report)
    {
      var i :| 0 <= i < |again| && again[i] == part;
      KeptAt(pls, again, i, dryRun);
      SecondPart(u, pls, i, part, dryRun);
    }
  }

  lemma SecondPart(u: Tree, pls: seq<Pipeline>, i: nat, part: Part, dryRun: bool)
    requires WellFormed(u) && RunReady(u, pls) && AllIdle(u, AllJobs(u, pls)) && i < |pls|
    requires PartIsCounted(pls[i], part) && PartIsTrue(FoundBy(u, pls, i, dryRun), pls[i], part, dryRun)
    ensures NothingCounted(part.tally) && forall report :: report in part.scan.reports ==> NothingDone(report)
  {
    forall report | report in part.scan.reports ensures NothingDone(report) {
      var k :| 0 <= k < |part.scan.reports| && part.scan.reports[k] == report;
      SecondReport(u, pls, i, k, part, dryRun);
    }
    NothingInPart(pls[i], part);
  }
}
