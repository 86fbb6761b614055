/** Several libraries scanned one after the other in one file tree: what each of them finds when its turn comes. */
module Libraries {
  import opened Paths
  import opened Trees
  import opened Reconcile
  import opened State
  import opened Selection
  import opened Interference
  import opened Gathering
  import Layout

  /** The jobs of a library; none if it cannot be scanned. */
  ghost function JobsFound(t: Tree, pl: Pipeline): seq<Job> {
    if IsUsable(t, pl) then JobsOf(t, pl) else []
  }

  /** The jobs of several libraries, as the tree and the configuration determine them before the scan begins. */
  ghost function AllJobs(t: Tree, pls: seq<Pipeline>): seq<Job> {
    if pls == [] then [] else AllJobs(t, pls[..|pls| - 1]) + JobsFound(t, pls[|pls| - 1])
  }

  ghost function AllOutputs(pls: seq<Pipeline>): set<Path> {
    set pl, o | pl in pls && o in pl.outputs :: o.path
  }

  predicate ApartFrom(dir: Path, outs: set<Path>) {
    forall o :: o in outs ==> !(o <= dir) && !(dir <= o)
  }

  /** The input lies apart from the output directories, and links in it lead away from them. */
  ghost predicate InputAway(t: Tree, pl: Pipeline, outs: set<Path>) {
    && ApartFrom(pl.input, outs)
    && (forall p :: p in t && Below(p, pl.input) && IsLink(t, p) ==> LeadsAway(t, p, outs))
  }

  /** The outputs lie apart from those of others. */
  ghost predicate OutputsAway(pl: Pipeline, outs: set<Path>) {
    forall o :: o in pl.outputs ==> ApartFrom(o.path, outs)
  }

  /** The libraries keep apart from each other. */
  ghost predicate RunApart(t: Tree, pls: seq<Pipeline>) {
    var jobs := AllJobs(t, pls);
    && Separate(jobs)
    && forall pl :: pl in pls ==> InputAway(t, pl, Outputs(jobs)) && (IsUsable(t, pl) || OutputsAway(pl, Outputs(jobs)))
  }

  /** Besides, every output that is reconciled is ready to be. */
  ghost predicate RunReady(t: Tree, pls: seq<Pipeline>) {
    AllReady(t, AllJobs(t, pls)) && RunApart(t, pls)
  }

  // ---------------------------------------------------------------- inputs while outputs change

  /** The trees differ only below the output directories, or where one of them lacks a directory above an output. */
  ghost predicate SameAway(t: Tree, u: Tree, outs: set<Path>) {
    forall q :: (forall o :: o in outs ==> !Below(q, o) && (q <= o ==> q in t)) ==> Same(t, u, q)
  }

  lemma DriftIsAway(t: Tree, u: Tree, outs: set<Path>)
    requires Drift(t, u, outs)
    ensures SameAway(t, u, outs)
  {}

  lemma InputSame(t: Tree, u: Tree, pl: Pipeline, outs: set<Path>, p: Path)
    requires InputAway(t, pl, outs) && SameAway(t, u, outs) && pl.input <= p
    ensures Same(t, u, p)
  {
    forall o | o in outs
      ensures !Below(p, o) && !(p <= o)
    {
      if Below(p, o) {
        PrefixesCompare(o, pl.input, p);
      }
    }
  }

  lemma BehindSame(t: Tree, u: Tree, p: Path, outs: set<Path>)
    requires p != [] && IsLink(t, p) && LeadsAway(t, p, outs) && SameAway(t, u, outs)
    ensures forall q :: q in Behind(t, p) ==> Same(t, u, q)
  {}

  lemma FileSame(t: Tree, u: Tree, pl: Pipeline, outs: set<Path>, f: Path)
    requires WellFormed(t) && WellFormed(u) && InputAway(t, pl, outs) && SameAway(t, u, outs)
    requires Below(f, pl.input) && f in t
    ensures IsFile(u, f) == IsFile(t, f)
    ensures IsFile(t, f) ==> StatOf(u, f) == StatOf(t, f)
  {
    InputSame(t, u, pl, outs, f);
    if IsLink(t, f) {
      BehindSame(t, u, f, outs);
    }
    IsFileFrame(t, u, f);
    if IsFile(t, f) {
      EntryTouches(t, f);
      EntryTouches(u, f);
      if IsLink(t, f) {
        FollowFrame(t, u, LinkBase(Parent(f), t[f].raw), Split(t[f].raw), MAX_LINKS - 1);
        LinkFileTouched(t, f);
      }
    }
  }

  lemma FoundSame(t: Tree, u: Tree, pl: Pipeline, outs: set<Path>, f: Path)
    requires WellFormed(t) && WellFormed(u) && InputAway(t, pl, outs) && SameAway(t, u, outs)
    ensures f in FilesOf(t, pl) <==> f in FilesOf(u, pl)
    ensures f in FilesOf(t, pl) ==> IsFile(t, f) && IsFile(u, f) && StatOf(u, f) == StatOf(t, f)
  {
    if f != [] && pl.input <= Parent(f) {
      InputSame(t, u, pl, outs, f);
      InputSame(t, u, pl, outs, Parent(f));
      assert Below(f, pl.input);
      if f in t {
        FileSame(t, u, pl, outs, f);
      }
    }
  }

  /** The jobs of a library do not change while outputs change. */
  lemma JobsSame(t: Tree, u: Tree, pl: Pipeline, outs: set<Path>)
    requires WellFormed(t) && WellFormed(u) && InputAway(t, pl, outs) && SameAway(t, u, outs)
    ensures FilesOf(u, pl) == FilesOf(t, pl) && JobsOf(u, pl) == JobsOf(t, pl)
    ensures StatsOf(u, FilesOf(t, pl)) == StatsOf(t, FilesOf(t, pl))
  {
    forall f
      ensures f in FilesOf(t, pl) <==> f in FilesOf(u, pl)
      ensures f in FilesOf(t, pl) ==> IsFile(t, f) && IsFile(u, f) && StatOf(u, f) == StatOf(t, f)
    {
      FoundSame(t, u, pl, outs, f);
    }
    assert FilesOf(u, pl) == FilesOf(t, pl);
    SameStats(t, u, FilesOf(t, pl));
  }

  lemma SameStats(t: Tree, u: Tree, files: set<Path>)
    requires forall f :: f in files ==> IsFile(t, f) && IsFile(u, f) && StatOf(u, f) == StatOf(t, f)
    ensures StatsOf(u, files) == StatsOf(t, files)
  {}

  // ---------------------------------------------------------------- one library after others

  lemma {:induction false} RunJobsOn(t: Tree, first: seq<Job>, second: seq<Job>)
    ensures RunJobs(RunJobs(t, first), second) == RunJobs(t, first + second)
    decreases |second|
  {
    if second == [] {
      assert first + second == first;
    } else {
      var front, last := second[..|second| - 1], second[|second| - 1];
      RunJobsOn(t, first, front);
      LastApart(first, second);
      RunOneMore(RunJobs(t, first), front, last);
      RunOneMore(t, first + front, last);
    }
  }

  lemma Associative<T>(x: seq<T>, y: seq<T>, z: seq<T>)
    ensures x + (y + z) == x + y + z
  {}

  lemma LastApart<T>(first: seq<T>, second: seq<T>)
    requires second != []
    ensures var front, last := second[..|second| - 1], second[|second| - 1];
            second == front + [last] && first + second == first + front + [last]
  {}

  lemma RunOneMore(t: Tree, jobs: seq<Job>, job: Job)
    ensures RunJobs(t, jobs + [job]) == JobResult(RunJobs(t, jobs), job)
  {
    assert (jobs + [job])[..|jobs|] == jobs;
  }

  lemma SeparateParts(first: seq<Job>, second: seq<Job>, all: seq<Job>)
    requires first + second <= all && Separate(all)
    ensures Separate(first) && Separate(second)
    ensures forall i, j :: i in first && j in second ==> !(i.output <= j.output) && !(j.output <= i.output)
    ensures forall j :: j in first || j in second ==> j in all
  {
    var n := |first|;
    forall i | 0 <= i < |first| ensures first[i] == all[i] { assert (first + second)[i] == all[i]; }
    forall i | 0 <= i < |second| ensures second[i] == all[n + i] { assert (first + second)[n + i] == all[n + i]; }
  }

  /** What the jobs before it have done leaves a job as ready as it was. */
  lemma ReadyLater(t: Tree, all: seq<Job>, first: seq<Job>, second: seq<Job>, job: Job)
    requires WellFormed(t) && Separate(all) && AllReady(t, all) && first + second <= all && job in second
    ensures var u := RunJobs(t, first);
            && WellFormed(u) && Drift(t, u, Outputs(all)) && Ready(u, job, Outputs(all))
            && forall p :: job.output <= p ==> Same(t, u, p)
  {
    var u, outs := RunJobs(t, first), Outputs(all);
    SeparateParts(first, second, all);
    assert Outputs(first) <= outs;
    RunIsCombined(t, first, outs);
    CombinedDrifts(t, first, u, outs);
    forall p | job.output <= p ensures Same(t, u, p) {
      OthersKeepAway(t, first, u, job, p);
    }
    ApartMember(all, job);
    ClearUnderDrift(t, u, job, outs);
    forall p | p in LinksBelow(u, job.output) && p !in job.Keep()
      ensures LeadsAway(u, p, outs)
    {
      assert Same(t, u, p) && Same(t, u, job.output);
      assert ProperName(p[|p| - 1]);
      LeadsAwayUnderDrift(t, u, p, outs);
    }
  }

  lemma AllReadyLater(t: Tree, all: seq<Job>, first: seq<Job>, second: seq<Job>)
    requires WellFormed(t) && Separate(all) && AllReady(t, all) && first + second <= all
    ensures AllReady(RunJobs(t, first), second) && Separate(second)
    ensures WellFormed(RunJobs(t, first)) && SameAway(t, RunJobs(t, first), Outputs(all))
  {
    SeparateParts(first, second, all);
    var u := RunJobs(t, first);
    assert Outputs(second) <= Outputs(all) && Outputs(first) <= Outputs(all);
    forall job | job in second ensures Ready(u, job, Outputs(second)) {
      ReadyLater(t, all, first, second, job);
    }
    RunIsCombined(t, first, Outputs(all));
    CombinedDrifts(t, first, u, Outputs(all));
    DriftIsAway(t, u, Outputs(all));
  }

  lemma {:induction false} AllJobsPrefix(t: Tree, pls: seq<Pipeline>, i: nat)
    requires i <= |pls|
    ensures AllJobs(t, pls[..i]) <= AllJobs(t, pls)
    ensures i < |pls| ==> AllJobs(t, pls[..i + 1]) == AllJobs(t, pls[..i]) + JobsFound(t, pls[i])
    decreases |pls| - i
  {
    if i < |pls| {
      assert pls[..i + 1][..i] == pls[..i];
      AllJobsPrefix(t, pls, i + 1);
    } else {
      assert pls[..i] == pls;
    }
  }

  lemma SameLinksBelow(t: Tree, u: Tree, output: Path)
    requires forall p :: output <= p ==> Same(t, u, p)
    ensures LinksBelow(t, output) == LinksBelow(u, output)
  {
    assert Same(t, u, output);
    forall p ensures p in LinksBelow(t, output) <==> p in LinksBelow(u, output) {
      if Below(p, output) {
        assert Same(t, u, p);
      }
    }
  }

  /** What is apart from the jobs is left alone by them. */
  lemma AwayIsSame(t: Tree, jobs: seq<Job>, dir: Path, p: Path)
    requires WellFormed(t) && Separate(jobs) && AllReady(t, jobs) && ApartFrom(dir, Outputs(jobs)) && dir <= p
    ensures Same(t, RunJobs(t, jobs), p)
  {
    var outs := Outputs(jobs);
    RunIsCombined(t, jobs, outs);
    CombinedDrifts(t, jobs, RunJobs(t, jobs), outs);
    ApartUnderDrift(t, RunJobs(t, jobs), outs, dir, p);
  }

  lemma PartOfRun(t: Tree, all: seq<Job>, first: seq<Job>, second: seq<Job>)
    requires Separate(all) && AllReady(t, all) && first + second <= all
    ensures Separate(first) && AllReady(t, first) && Separate(second) && AllReady(t, second)
    ensures Outputs(first) <= Outputs(all) && Outputs(second) <= Outputs(all)
  {
    SeparateParts(first, second, all);
    forall job | job in first ensures Ready(t, job, Outputs(first)) { assert Ready(t, job, Outputs(all)); }
    forall job | job in second ensures Ready(t, job, Outputs(second)) { assert Ready(t, job, Outputs(all)); }
  }

  lemma LinksLater(t: Tree, pls: seq<Pipeline>, i: nat, o: Output)
    requires WellFormed(t) && RunReady(t, pls) && i < |pls| && o in pls[i].outputs
    ensures LinksBelow(RunJobs(t, AllJobs(t, pls[..i])), o.path) == LinksBelow(t, o.path)
  {
    var all, pl, first := AllJobs(t, pls), pls[i], AllJobs(t, pls[..i]);
    AllJobsPrefix(t, pls, i);
    AllJobsPrefix(t, pls, i + 1);
    assert pl in pls;
    if IsUsable(t, pl) {
      var k :| 0 <= k < |pl.outputs| && pl.outputs[k] == o;
      var job := JobsOf(t, pl)[k];
      assert job in JobsFound(t, pl) && job.output == o.path;
      ReadyLater(t, all, first, JobsFound(t, pl), job);
    } else {
      PartOfRun(t, all, first, JobsFound(t, pl));
      forall p | o.path <= p ensures Same(t, RunJobs(t, first), p) {
        AwayIsSame(t, first, o.path, p);
      }
    }
    SameLinksBelow(t, RunJobs(t, first), o.path);
  }

  /** A library is usable, or not, whatever is done before for others. */
  lemma UsableLater(t: Tree, pls: seq<Pipeline>, i: nat)
    requires WellFormed(t) && RunReady(t, pls) && i < |pls|
    ensures var u := RunJobs(t, AllJobs(t, pls[..i]));
            IsUsable(u, pls[i]) == IsUsable(t, pls[i]) && JobsFound(u, pls[i]) == JobsFound(t, pls[i])
  {
    var all, pl, first := AllJobs(t, pls), pls[i], AllJobs(t, pls[..i]);
    var u := RunJobs(t, first);
    AllJobsPrefix(t, pls, i);
    AllJobsPrefix(t, pls, i + 1);
    AllReadyLater(t, all, first, JobsFound(t, pl));
    assert pl in pls;
    JobsSame(t, u, pl, Outputs(all));
    InputSame(t, u, pl, Outputs(all), pl.input);
    forall o | o in pl.outputs
      ensures LinksBelow(u, o.path) == LinksBelow(t, o.path)
    {
      LinksLater(t, pls, i, o);
    }
  }

  /** The library can be scanned as it should. */
  ghost predicate ReadyNow(t: Tree, pl: Pipeline) {
    AllReady(t, JobsFound(t, pl)) && Separate(JobsFound(t, pl))
  }

  /** A library finds, when its turn comes, the jobs it would have found at the start, ready to run. */
  lemma TurnOfLibrary(t: Tree, pls: seq<Pipeline>, i: nat)
    requires WellFormed(t) && RunReady(t, pls) && i < |pls|
    ensures var u, pl := RunJobs(t, AllJobs(t, pls[..i])), pls[i];
            && WellFormed(u) && IsUsable(u, pl) == IsUsable(t, pl) && JobsFound(u, pl) == JobsFound(t, pl)
            && ReadyNow(u, pl)
            && RunJobs(u, JobsFound(u, pl)) == RunJobs(t, AllJobs(t, pls[..i + 1]))
  {
    var all, jobs, first := AllJobs(t, pls), JobsFound(t, pls[i]), AllJobs(t, pls[..i]);
    AllJobsPrefix(t, pls, i);
    AllJobsPrefix(t, pls, i + 1);
    AllReadyLater(t, all, first, jobs);
    UsableLater(t, pls, i);
    RunJobsOn(t, first, jobs);
  }

  lemma ReadyFromTheStart(t: Tree, pls: seq<Pipeline>, i: nat)
    requires RunReady(t, pls) && i < |pls|
    ensures ReadyNow(t, pls[i])
  {
    AllJobsPrefix(t, pls, i);
    AllJobsPrefix(t, pls, i + 1);
    PartOfRun(t, AllJobs(t, pls), AllJobs(t, pls[..i]), JobsFound(t, pls[i]));
  }

  // ---------------------------------------------------------------- accepted configurations

  function PathsOf(outputs: seq<Output>): seq<Path> {
    seq(|outputs|, i requires 0 <= i < |outputs| => outputs[i].path)
  }

  /** The output directories of all libraries, in configuration order. */
  function OutputPaths(pls: seq<Pipeline>): seq<Path> {
    if pls == [] then [] else OutputPaths(pls[..|pls| - 1]) + PathsOf(pls[|pls| - 1].outputs)
  }

  ghost predicate Unnested(paths: seq<Path>) {
    forall i, j :: 0 <= i < |paths| && 0 <= j < |paths| && i != j ==> !(paths[i] <= paths[j])
  }

  ghost predicate Crossless(first: seq<Path>, second: seq<Path>) {
    forall a, b :: a in first && b in second ==> !(a <= b) && !(b <= a)
  }

  lemma UnnestedParts(first: seq<Path>, second: seq<Path>)
    requires Unnested(first + second)
    ensures Unnested(first) && Unnested(second) && Crossless(first, second)
  {
    var all, n := first + second, |first|;
    forall i, j | 0 <= i < n && 0 <= j < n && i != j ensures !(first[i] <= first[j]) {
      assert all[i] == first[i] && all[j] == first[j];
    }
    forall i, j | 0 <= i < |second| && 0 <= j < |second| && i != j ensures !(second[i] <= second[j]) {
      assert all[n + i] == second[i] && all[n + j] == second[j];
    }
    forall a, b | a in first && b in second ensures !(a <= b) && !(b <= a) {
      var i :| 0 <= i < n && first[i] == a;
      var j :| 0 <= j < |second| && second[j] == b;
      assert all[i] == a && all[n + j] == b;
    }
  }

  lemma {:induction false} PathsAreOutputs(pls: seq<Pipeline>)
    ensures forall p :: p in OutputPaths(pls) <==> p in AllOutputs(pls)
    decreases |pls|
  {
    if pls != [] {
      var front, last := pls[..|pls| - 1], pls[|pls| - 1];
      PathsAreOutputs(front);
      assert pls == front + [last];
      forall p ensures p in OutputPaths(pls) <==> p in AllOutputs(pls) {
        if o :| o in last.outputs && o.path == p {
          var k :| 0 <= k < |last.outputs| && last.outputs[k] == o;
          assert PathsOf(last.outputs)[k] == p && last in pls;
        }
        if p in PathsOf(last.outputs) {
          var k :| 0 <= k < |last.outputs| && PathsOf(last.outputs)[k] == p;
          assert last.outputs[k] in last.outputs && last in pls;
        }
      }
    }
  }

  lemma JobsFitPaths(t: Tree, pl: Pipeline)
    ensures var jobs := JobsFound(t, pl);
            && (jobs == [] || |jobs| == |pl.outputs|) && (IsUsable(t, pl) ==> |jobs| == |pl.outputs|)
            && forall k :: 0 <= k < |jobs| ==> jobs[k].output == PathsOf(pl.outputs)[k]
  {
    var jobs := JobsOf(t, pl);
    assert forall k :: 0 <= k < |jobs| ==> JobFits(pl, pl.outputs[k], jobs[k]);
  }

  /** Libraries with unnested outputs keep apart, in whatever tree. */
  lemma {:induction false} UnnestedKeepApart(t: Tree, pls: seq<Pipeline>)
    requires Unnested(OutputPaths(pls))
    ensures Separate(AllJobs(t, pls)) && forall job :: job in AllJobs(t, pls) ==> job.output in OutputPaths(pls)
    ensures forall i :: 0 <= i < |pls| && !IsUsable(t, pls[i]) ==> OutputsAway(pls[i], Outputs(AllJobs(t, pls)))
    decreases |pls|
  {
    if pls != [] {
      var front, last := pls[..|pls| - 1], pls[|pls| - 1];
      var before, jobs := AllJobs(t, front), JobsFound(t, last);
      UnnestedParts(OutputPaths(front), PathsOf(last.outputs));
      UnnestedKeepApart(t, front);
      JobsFitPaths(t, last);
      forall job | job in jobs ensures job.output in PathsOf(last.outputs) {
        var k :| 0 <= k < |jobs| && jobs[k] == job;
      }
      SeparateWhole(before, jobs);
      forall i | 0 <= i < |pls| && !IsUsable(t, pls[i])
        ensures OutputsAway(pls[i], Outputs(before + jobs))
      {
        OutputsStayAway(pls, i, before, jobs);
      }
    }
  }

  lemma SeparateWhole(first: seq<Job>, second: seq<Job>)
    requires Separate(first)
             && forall i, j ::
                0 <= i < |second| && 0 <= j < |second| && i != j ==> !(second[i].output <= second[j].output)
    requires forall a, b :: a in first && b in second ==> !(a.output <= b.output) && !(b.output <= a.output)
    ensures Separate(first + second)
  {
    var n := |first|;
    forall i | 0 <= i < |first + second|
      ensures if i < n then (first + second)[i] in first && (first + second)[i] == first[i]
              else (first + second)[i] in second && (first + second)[i] == second[i - n]
    {}
  }

  lemma OutputsStayAway(pls: seq<Pipeline>, i: nat, before: seq<Job>, jobs: seq<Job>)
    requires pls != [] && i < |pls| && (i == |pls| - 1 ==> jobs == [])
    requires i < |pls| - 1 ==> OutputsAway(pls[i], Outputs(before))
    requires forall job :: job in before ==> job.output in OutputPaths(pls[..|pls| - 1])
    requires forall job :: job in jobs ==> job.output in PathsOf(pls[|pls| - 1].outputs)
    requires Crossless(OutputPaths(pls[..|pls| - 1]), PathsOf(pls[|pls| - 1].outputs))
    ensures OutputsAway(pls[i], Outputs(before + jobs))
  {
    var front, last := pls[..|pls| - 1], pls[|pls| - 1];
    forall o, job | o in pls[i].outputs && job in before + jobs
      ensures !(job.output <= o.path) && !(o.path <= job.output)
    {
      if i == |pls| - 1 {
        PathListed(last.outputs, o);
        assert job.output in OutputPaths(front);
      } else if job in before {
        assert job.output in Outputs(before);
      } else {
        PathsAreOutputs(front);
        assert front[i] in front && o.path in OutputPaths(front);
        assert job.output in PathsOf(last.outputs);
      }
    }
  }

  lemma PathListed(outputs: seq<Output>, o: Output)
    requires o in outputs
    ensures o.path in PathsOf(outputs)
  {
    var k :| 0 <= k < |outputs| && outputs[k] == o;
    assert PathsOf(outputs)[k] == o.path;
  }

  /** The pipelines are built from the configuration, one for each library. */
  ghost predicate BuiltFrom(config: Layout.Config, pls: seq<Pipeline>) {
    && |pls| == |config.libraries|
    && (forall i :: 0 <= i < |pls| ==> pls[i].input == config.libraries[i].inputPath)
    && OutputPaths(pls) == Layout.SymlinkPaths(Layout.Entries(config, config.libraries))
  }

  /** An accepted configuration keeps the libraries apart from each other and from every input, in whatever tree. */
  lemma AcceptedConfigKeepsApart(config: Layout.Config, pls: seq<Pipeline>, t: Tree)
    requires Layout.Sound(config) && BuiltFrom(config, pls)
    ensures Separate(AllJobs(t, pls)) && Outputs(AllJobs(t, pls)) <= AllOutputs(pls)
    ensures forall pl :: pl in pls ==> ApartFrom(pl.input, AllOutputs(pls))
    ensures forall pl :: pl in pls ==> IsUsable(t, pl) || OutputsAway(pl, Outputs(AllJobs(t, pls)))
  {
    var paths := OutputPaths(pls);
    assert Unnested(paths) by {
      forall i, j | 0 <= i < |paths| && 0 <= j < |paths| && i != j ensures !(paths[i] <= paths[j]) {
        assert !Within(paths[j], paths[i]);
      }
    }
    UnnestedKeepApart(t, pls);
    PathsAreOutputs(pls);
    forall pl, o | pl in pls && o in AllOutputs(pls) ensures !(o <= pl.input) && !(pl.input <= o) {
      var i :| 0 <= i < |pls| && pls[i] == pl;
      assert config.libraries[i] in config.libraries;
      Layout.OutputsAvoidInputs(config, o, config.libraries[i]);
    }
  }

  /** For every accepted configuration, no scan ever changes anything in an input, whatever fails: all a scan promises
      about where it changes the tree is enough for that. */
  lemma AcceptedScanKeepsInputs(config: Layout.Config, pls: seq<Pipeline>, t: Tree, u: Tree, pl: Pipeline, p: Path)
    requires Layout.Sound(config) && BuiltFrom(config, pls) && Drift(t, u, AllOutputs(pls)) && pl in pls
             && pl.input <= p
    ensures Same(t, u, p)
  {
    AcceptedConfigKeepsApart(config, pls, t);
    ApartUnderDrift(t, u, AllOutputs(pls), pl.input, p);
  }

  // ---------------------------------------------------------------- whole scans

  lemma {:induction false} AllJobsSame(t: Tree, u: Tree, pls: seq<Pipeline>, outs: set<Path>)
    requires WellFormed(t) && WellFormed(u) && SameAway(t, u, outs)
    requires forall i :: 0 <= i < |pls| ==> InputAway(t, pls[i], outs) && IsUsable(u, pls[i]) == IsUsable(t, pls[i])
    ensures AllJobs(u, pls) == AllJobs(t, pls)
    decreases |pls|
  {
    if pls != [] {
      AllJobsSame(t, u, pls[..|pls| - 1], outs);
      JobsSame(t, u, pls[|pls| - 1], outs);
    }
  }

  /** Two trees that agree outside the output directories, and in which the same libraries can be scanned, end up equal
      when everything is scanned, exactly if they agree on what is not Boomarr's own. */
  lemma ScanHistoryIndependence(t: Tree, u: Tree, pls: seq<Pipeline>)
    requires WellFormed(t) && WellFormed(u) && RunReady(t, pls) && AllReady(u, AllJobs(t, pls))
    requires forall pl :: pl in pls ==> IsUsable(u, pl) == IsUsable(t, pl)
    requires NoneBlocked(t, AllJobs(t, pls)) && NoneBlocked(u, AllJobs(t, pls)) && SameOutside(t, u, AllJobs(t, pls))
    ensures RunJobs(t, AllJobs(t, pls)) == RunJobs(u, AllJobs(u, pls)) <==>
            forall job :: job in AllJobs(t, pls) ==> SameCarried(t, u, job)
  {
    var jobs := AllJobs(t, pls);
    forall q | forall o :: o in Outputs(jobs) ==> !Below(q, o) && (q <= o ==> q in t)
      ensures Same(t, u, q)
    {
      forall job | job in jobs ensures !Below(q, job.output) { assert job.output in Outputs(jobs); }
    }
    assert forall i :: 0 <= i < |pls| ==> pls[i] in pls;
    AllJobsSame(t, u, pls, Outputs(jobs));
    RunHistoryIndependence(t, u, jobs);
  }

  /** A job that wants nothing leaves no links where there were none. */
  lemma NoLinksMade(t: Tree, job: Job)
    requires job.wanted == map[] && LinksBelow(t, job.output) == {}
    ensures LinksBelow(JobResult(t, job), job.output) == {}
  {
    AddNoLinks(t);
  }

  /** A scan leaves no links in the outputs of a library that has no files and had none. */
  lemma NoLinksAfter(t: Tree, pls: seq<Pipeline>, i: nat, o: Output)
    requires WellFormed(t) && RunReady(t, pls) && i < |pls| && IsUsable(t, pls[i]) && FilesOf(t, pls[i]) == {}
             && o in pls[i].outputs
    ensures LinksBelow(RunJobs(t, AllJobs(t, pls)), o.path) == {}
  {
    var all, jobs := AllJobs(t, pls), JobsFound(t, pls[i]);
    AllJobsPrefix(t, pls, i);
    AllJobsPrefix(t, pls, i + 1);
    SeparateParts(AllJobs(t, pls[..i]), jobs, all);
    var k :| 0 <= k < |jobs| && pls[i].outputs[k] == o;
    NothingWanted(t, pls[i], o);
    assert jobs[k] in jobs && jobs[k].output == o.path && jobs[k].wanted == map[];
    RunIsCombined(t, all, Outputs(all));
    NoLinksMade(t, jobs[k]);
    forall p | o.path <= p ensures Same(JobResult(t, jobs[k]), RunJobs(t, all), p) {
      assert CombinedAt(t, all, RunJobs(t, all), p);
    }
    SameLinksBelow(JobResult(t, jobs[k]), RunJobs(t, all), o.path);
  }

  lemma NothingWanted(t: Tree, pl: Pipeline, o: Output)
    requires FilesOf(t, pl) == {}
    ensures JobOf(pl, o, {}, InfosOf(pl, StatsOf(t, {}), Media(pl, {}))).wanted == map[]
  {
    var infos := InfosOf(pl, StatsOf(t, {}), Media(pl, {}));
    forall d | d in JobOf(pl, o, {}, infos).wanted ensures false { WantedHasSource(pl, o, {}, infos, d); }
  }

  lemma UsableAfter(t: Tree, pls: seq<Pipeline>, i: nat)
    requires WellFormed(t) && RunReady(t, pls) && i < |pls|
    ensures IsUsable(RunJobs(t, AllJobs(t, pls)), pls[i]) == IsUsable(t, pls[i])
  {
    var all, pl := AllJobs(t, pls), pls[i];
    var u := RunJobs(t, all);
    assert pl in pls && all + [] == all;
    AllReadyLater(t, all, all, []);
    JobsSame(t, u, pl, Outputs(all));
    InputSame(t, u, pl, Outputs(all), pl.input);
    if FilesOf(t, pl) == {} {
      forall o | o in pl.outputs
        ensures LinksBelow(u, o.path) == if IsUsable(t, pl) then {} else LinksBelow(t, o.path)
      {
        if IsUsable(t, pl) {
          NoLinksAfter(t, pls, i, o);
        } else {
          forall p | o.path <= p ensures Same(t, u, p) { AwayIsSame(t, all, o.path, p); }
          SameLinksBelow(t, u, o.path);
        }
      }
    }
  }

  /** A second scan finds the same jobs, none of them with anything to do. */
  lemma ScanIdempotence(t: Tree, pls: seq<Pipeline>)
    requires WellFormed(t) && RunReady(t, pls)
    requires NoneBlocked(t, AllJobs(t, pls))
    ensures var u := RunJobs(t, AllJobs(t, pls));
            && AllJobs(u, pls) == AllJobs(t, pls)
            && RunJobs(u, AllJobs(u, pls)) == u
            && forall job ::
               job in AllJobs(u, pls) ==> Outdated(u, job.wanted) == {} && PlanOf(AddLinks(u, job.wanted), job) == {}
  {
    var jobs := AllJobs(t, pls);
    var u := RunJobs(t, jobs);
    RunIsCombined(t, jobs, Outputs(jobs));
    CombinedDrifts(t, jobs, u, Outputs(jobs));
    DriftIsAway(t, u, Outputs(jobs));
    forall i | 0 <= i < |pls|
      ensures InputAway(t, pls[i], Outputs(jobs)) && IsUsable(u, pls[i]) == IsUsable(t, pls[i])
    {
      assert pls[i] in pls;
      UsableAfter(t, pls, i);
    }
    AllJobsSame(t, u, pls, Outputs(jobs));
    RunIdempotence(t, jobs);
  }

  /** When a scan is over, everything is ready for the next one. */
  lemma ReadyAgain(t: Tree, pls: seq<Pipeline>)
    requires WellFormed(t) && RunReady(t, pls) && NoneBlocked(t, AllJobs(t, pls))
    ensures WellFormed(RunJobs(t, AllJobs(t, pls))) && RunReady(RunJobs(t, AllJobs(t, pls)), pls)
  {
    var jobs, outs := AllJobs(t, pls), Outputs(AllJobs(t, pls));
    var u := RunJobs(t, jobs);
    ScanIdempotence(t, pls);
    RunIsCombined(t, jobs, outs);
    CombinedDrifts(t, jobs, u, outs);
    DriftIsAway(t, u, outs);
    forall job | job in jobs ensures Ready(u, job, outs) { MemberReadyAgain(t, jobs, u, job); }
    forall i | 0 <= i < |pls|
      ensures InputAway(u, pls[i], outs) && (IsUsable(u, pls[i]) || OutputsAway(pls[i], outs))
    {
      assert pls[i] in pls;
      UsableAfter(t, pls, i);
      AwayAgain(t, u, pls[i], outs);
    }
  }

  lemma AwayAgain(t: Tree, u: Tree, pl: Pipeline, outs: set<Path>)
    requires WellFormed(t) && WellFormed(u) && InputAway(t, pl, outs) && Drift(t, u, outs)
    ensures InputAway(u, pl, outs)
  {
    DriftIsAway(t, u, outs);
    forall p | p in u && Below(p, pl.input) && IsLink(u, p) ensures LeadsAway(u, p, outs) {
      InputSame(t, u, pl, outs, p);
      LeadsAwayUnderDrift(t, u, p, outs);
    }
  }

  // ---------------------------------------------------------------- the order of the libraries

  lemma JobsOfMore(t: Tree, pls: seq<Pipeline>, pl: Pipeline)
    ensures AllJobs(t, pls + [pl]) == AllJobs(t, pls) + JobsFound(t, pl)
  {
    assert (pls + [pl])[..|pls|] == pls;
  }

  lemma {:induction false} JobsOfConcat(t: Tree, first: seq<Pipeline>, second: seq<Pipeline>)
    ensures AllJobs(t, first + second) == AllJobs(t, first) + AllJobs(t, second)
    decreases |second|
  {
    if second == [] {
      assert first + second == first;
    } else {
      var front, last := second[..|second| - 1], second[|second| - 1];
      LastApart(first, second);
      JobsOfConcat(t, first, front);
      JobsOfMore(t, front, last);
      JobsOfMore(t, first + front, last);
      Associative(AllJobs(t, first), AllJobs(t, front), JobsFound(t, last));
    }
  }

  lemma OneLibraryMore(t: Tree, before: seq<Pipeline>, pl: Pipeline, after: seq<Pipeline>)
    ensures multiset(AllJobs(t, before + [pl] + after)) ==
            multiset(AllJobs(t, before + after)) + multiset(JobsFound(t, pl))
  {
    JobsOfMore(t, before, pl);
    JobsOfConcat(t, before + [pl], after);
    JobsOfConcat(t, before, after);
  }

  lemma OneElsewhere<T>(front: seq<T>, last: T, before: seq<T>, after: seq<T>)
    requires multiset(front + [last]) == multiset(before + [last] + after)
    ensures multiset(front) == multiset(before + after)
  {
    assert multiset(before + after) == multiset(before) + multiset(after);
    SameRest(multiset(front), multiset(before) + multiset(after), multiset{last});
  }

  /** Shuffling libraries shuffles their jobs. */
  lemma {:induction false} ShuffledJobs(t: Tree, pls: seq<Pipeline>, shuffled: seq<Pipeline>)
    requires multiset(pls) == multiset(shuffled)
    ensures multiset(AllJobs(t, pls)) == multiset(AllJobs(t, shuffled))
    decreases |pls|
  {
    if pls == [] {
      assert |multiset(shuffled)| == 0 && shuffled == [];
    } else {
      var front, last := pls[..|pls| - 1], pls[|pls| - 1];
      assert pls == front + [last] && last in multiset(shuffled);
      var k :| 0 <= k < |shuffled| && shuffled[k] == last;
      var before, after := shuffled[..k], shuffled[k + 1..];
      assert shuffled == before + [last] + after;
      OneElsewhere(front, last, before, after);
      ShuffledJobs(t, front, before + after);
      OneLibraryMore(t, before, last, after);
    }
  }

  lemma SameRest<T>(a: multiset<T>, b: multiset<T>, more: multiset<T>)
    requires a + more == b + more
    ensures a == b
  {
    assert a == (a + more) - more && b == (b + more) - more;
  }

  lemma ShuffledSeparate(jobs: seq<Job>, shuffled: seq<Job>)
    requires Separate(jobs) && multiset(jobs) == multiset(shuffled)
    ensures Separate(shuffled) && forall job :: job in jobs <==> job in shuffled
  {
    forall job ensures job in jobs <==> job in shuffled { assert job in multiset(jobs) <==> job in multiset(shuffled); }
    forall i, j | 0 <= i < |shuffled| && 0 <= j < |shuffled| && i != j
      ensures !(shuffled[i].output <= shuffled[j].output)
    {
      assert shuffled[i] in shuffled && shuffled[j] in shuffled;
      if shuffled[i] == shuffled[j] {
        TwiceInSeq(shuffled, i, j);
        TwiceInMultiset(jobs, shuffled[i]);
      } else {
        SeparateMembers(jobs, shuffled[j], shuffled[i]);
      }
    }
  }

  lemma TwiceInSeq<T>(s: seq<T>, i: nat, j: nat)
    requires i < |s| && j < |s| && i != j && s[i] == s[j]
    ensures multiset(s)[s[i]] >= 2
  {
    var a, b := if i < j then i else j, if i < j then j else i;
    assert s == s[..a] + [s[a]] + s[a + 1..b] + [s[b]] + s[b + 1..];
  }

  lemma TwiceInMultiset(jobs: seq<Job>, job: Job)
    requires Separate(jobs)
    ensures multiset(jobs)[job] < 2
    decreases |jobs|
  {
    if jobs != [] {
      var front, last := jobs[..|jobs| - 1], jobs[|jobs| - 1];
      assert jobs == front + [last];
      SeparateInit(jobs);
      TwiceInMultiset(front, job);
      assert last !in front && last !in multiset(front);
    }
  }

  /** The order of the libraries does not matter. */
  lemma ScanOrderIndependence(t: Tree, pls: seq<Pipeline>, shuffled: seq<Pipeline>)
    requires WellFormed(t) && RunReady(t, pls) && multiset(pls) == multiset(shuffled)
    ensures RunReady(t, shuffled) && RunJobs(t, AllJobs(t, shuffled)) == RunJobs(t, AllJobs(t, pls))
  {
    var jobs, others := AllJobs(t, pls), AllJobs(t, shuffled);
    ShuffledJobs(t, pls, shuffled);
    ShuffledSeparate(jobs, others);
    assert Outputs(others) == Outputs(jobs);
    OrderIndependence(t, jobs, others);
    forall pl | pl in shuffled ensures pl in pls { assert pl in multiset(shuffled); }
  }

  // ---------------------------------------------------------------- libraries that share files

  /** Two libraries that share files probe them alike. */
  ghost predicate Agree(a: Pipeline, b: Pipeline) {
    forall f, size, mtime :: Within(f, a.input) && Within(f, b.input) ==>
                               Ask(a.probers, f, size, mtime) == Ask(b.probers, f, size, mtime)
  }

  ghost predicate AllAgree(pls: seq<Pipeline>) {
    forall i, j {:trigger Agree(pls[i], pls[j])} :: 0 <= i < |pls| && 0 <= j < |pls| ==> Agree(pls[i], pls[j])
  }

  /** Whatever a scan of a may do to a cache that b relies on, b can go on relying on it. */
  ghost predicate LeavesCoherent(a: Pipeline, b: Pipeline) {
    forall before, after :: Coherent(before, b) && Tended(before, after, a) ==> Coherent(after, b)
  }

  /** What one library does to the cache keeps it coherent for the others. */
  lemma CoherentForOther(before: Memory, after: Memory, a: Pipeline, b: Pipeline)
    requires Tended(before, after, a) && Coherent(before, b) && Agree(a, b)
    ensures Coherent(after, b)
  {
    forall f | f in after.entries && Within(f, b.input)
      ensures Truthful(after.entries[f], b, f)
    {
      assert SameEntry(before, after, f) || (Within(f, a.input) && Truthful(after.entries[f], a, f));
    }
  }

  /** A probe result that the other library would not get spoils the cache for it. */
  lemma DisagreementSpoils(a: Pipeline, b: Pipeline, f: Path, size: nat, mtime: int)
    requires Within(f, a.input) && Within(f, b.input)
    requires Ask(a.probers, f, size, mtime).Some? && Ask(a.probers, f, size, mtime) != Ask(b.probers, f, size, mtime)
    ensures !LeavesCoherent(a, b)
  {
    var stat := FileStat(size, mtime);
    var info := Answer(a, f, stat).value;
    var after := AfterPut(EMPTY_MEMORY, info);
    PutTends(EMPTY_MEMORY, a, f, stat);
    assert Coherent(EMPTY_MEMORY, b);
    assert f in after.entries && after.entries[f] == info && !Truthful(info, b, f);
  }

  /** Two libraries can share a cache, whoever scans first, exactly if they probe the files they share alike. */
  lemma SharedCache(a: Pipeline, b: Pipeline)
    ensures LeavesCoherent(a, b) && LeavesCoherent(b, a) <==> Agree(a, b)
  {
    if Agree(a, b) {
      forall before, after | Coherent(before, b) && Tended(before, after, a)
        ensures Coherent(after, b)
      {
        CoherentForOther(before, after, a, b);
      }
      forall before, after | Coherent(before, a) && Tended(before, after, b)
        ensures Coherent(after, a)
      {
        CoherentForOther(before, after, b, a);
      }
    } else {
      var f, size: nat, mtime :| Within(f, a.input) && Within(f, b.input)
        && Ask(a.probers, f, size, mtime) != Ask(b.probers, f, size, mtime);
      if Ask(a.probers, f, size, mtime).Some? {
        DisagreementSpoils(a, b, f, size, mtime);
      } else {
        DisagreementSpoils(b, a, f, size, mtime);
      }
    }
  }

  /** The cache holds only what every library would find itself, and stays so whoever scans. */
  ghost predicate CacheServes(m: Memory, pls: seq<Pipeline>) {
    AllAgree(pls) && forall j :: 0 <= j < |pls| ==> Coherent(m, pls[j])
  }

  lemma StillServes(before: Memory, after: Memory, pls: seq<Pipeline>, i: nat)
    requires i < |pls| && Tended(before, after, pls[i]) && CacheServes(before, pls)
    ensures CacheServes(after, pls)
  {
    forall j | 0 <= j < |pls| ensures Coherent(after, pls[j]) {
      CoherentForOther(before, after, pls[i], pls[j]);
    }
  }
}
