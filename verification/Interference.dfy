/** Several output directories reconciled one after the other in one file tree. */
module Interference {
  import opened Paths
  import opened Trees
  import opened Reconcile

  ghost function RunJobs(t: Tree, jobs: seq<Job>): Tree {
    if jobs == [] then t else JobResult(RunJobs(t, jobs[..|jobs| - 1]), jobs[|jobs| - 1])
  }

  function Outputs(jobs: seq<Job>): set<Path> {
    set job | job in jobs :: job.output
  }

  /** No output directory is another one's, or lies in another one. */
  ghost predicate Separate(jobs: seq<Job>) {
    forall i, j :: 0 <= i < |jobs| && 0 <= j < |jobs| && i != j ==> !(jobs[i].output <= jobs[j].output)
  }

  ghost predicate Ready(t: Tree, job: Job, outs: set<Path>) {
    Clear(t, job.wanted) && Proper(job) && AllLeadAway(t, job, outs)
  }

  ghost predicate AllReady(t: Tree, jobs: seq<Job>) {
    forall job :: job in jobs ==> Ready(t, job, Outputs(jobs))
  }

  /** No other directory of outs contains this one or lies in it. */
  ghost predicate Apart(output: Path, outs: set<Path>) {
    output in outs && forall o :: o in outs && o != output ==> !(o <= output) && !(output <= o)
  }

  // ---------------------------------------------------------------- one job in a changing tree

  lemma LinkedElsewhere(t: Tree, job: Job, p: Path)
    requires Proper(job) && !(job.output <= p)
    ensures var u := AddLinks(t, job.wanted);
            if p in t then Same(t, u, p)
            else if p in Ancestors(job.wanted.Keys) then IsDir(u, p)
            else p !in u
  {
    assert p !in job.wanted;
  }

  lemma PrunedElsewhere(t: Tree, output: Path, p: Path)
    requires !Below(p, output)
    ensures Same(t, Pruned(t, output), p)
  {}

  /** A job changes nothing outside its output directory but missing ancestors of wanted links. */
  lemma ResultElsewhere(t: Tree, job: Job, p: Path)
    requires Proper(job) && !(job.output <= p)
    ensures var u := JobResult(t, job);
            if p in t then Same(t, u, p)
            else if p in Ancestors(job.wanted.Keys) then IsDir(u, p)
            else p !in u
  {
    var linked := AddLinks(t, job.wanted);
    LinkedElsewhere(t, job, p);
    assert p !in PlanOf(linked, job);
    PrunedElsewhere(linked - PlanOf(linked, job), job.output, p);
  }

  lemma ClearUnderDriftAt(t: Tree, u: Tree, job: Job, outs: set<Path>, d: Path, a: Path)
    requires Clear(t, job.wanted) && Proper(job) && Drift(t, u, outs) && Apart(job.output, outs)
    requires forall p :: job.output <= p ==> Same(t, u, p)
    requires d in job.wanted && a < d && a in u
    ensures u[a].Dir?
  {
    if !Same(t, u, a) {
      var o :| o in outs && (Below(a, o) || (a <= o && a !in t && IsDir(u, a)));
      if Below(a, o) {
        PrefixesCompare(o, job.output, d);
      }
    }
  }

  /** Clear destinations stay clear when only other output directories change. */
  lemma ClearUnderDrift(t: Tree, u: Tree, job: Job, outs: set<Path>)
    requires Clear(t, job.wanted) && Proper(job) && Drift(t, u, outs) && Apart(job.output, outs)
    requires forall p :: job.output <= p ==> Same(t, u, p)
    ensures Clear(u, job.wanted)
  {
    forall d | d in job.wanted
      ensures ClearAt(u, job.wanted, d)
    {
      assert ClearAt(t, job.wanted, d);
      assert Same(t, u, d) && Same(t, u, TmpOf(d));
      forall a | a < d && a in u
        ensures u[a].Dir?
      {
        ClearUnderDriftAt(t, u, job, outs, d, a);
      }
    }
  }

  lemma SameLinked(t: Tree, u: Tree, job: Job, p: Path)
    requires Proper(job) && job.output <= p && Same(t, u, p)
    ensures Same(AddLinks(t, job.wanted), AddLinks(u, job.wanted), p)
  {}

  /** Both trees condemn the same links of the output directory. */
  lemma SamePlan(t: Tree, u: Tree, job: Job, outs: set<Path>)
    requires WellFormed(t) && WellFormed(u) && Ready(t, job, outs) && Clear(u, job.wanted)
    requires Drift(t, u, outs) && job.output in outs
    requires forall p :: job.output <= p ==> Same(t, u, p)
    ensures var a, b := AddLinks(t, job.wanted), AddLinks(u, job.wanted);
            LinksBelow(a, job.output) == LinksBelow(b, job.output) && PlanOf(a, job) == PlanOf(b, job)
  {
    var a, b := AddLinks(t, job.wanted), AddLinks(u, job.wanted);
    SameLinksLinked(t, u, job);
    forall p | p in LinksBelow(a, job.output) && p !in job.Keep()
      ensures Live(a, p) == Live(b, p)
    {
      LinkedLive(t, t, job, outs, p);
      LinkedLive(t, u, job, outs, p);
    }
    PlannedAlike(a, b, job);
  }

  lemma SameLinksLinked(t: Tree, u: Tree, job: Job)
    requires Proper(job) && forall p :: job.output <= p ==> Same(t, u, p)
    ensures var a, b := AddLinks(t, job.wanted), AddLinks(u, job.wanted);
            && LinksBelow(a, job.output) == LinksBelow(b, job.output)
            && forall p :: Below(p, job.output) ==> Same(a, b, p)
  {
    var a, b := AddLinks(t, job.wanted), AddLinks(u, job.wanted);
    SameLinked(t, u, job, job.output);
    forall p | Below(p, job.output)
      ensures Same(a, b, p)
    {
      SameLinked(t, u, job, p);
    }
  }

  /** Trees with the same links, and the same of them live, let the same be removed. */
  lemma PlannedAlike(a: Tree, b: Tree, job: Job)
    requires LinksBelow(a, job.output) == LinksBelow(b, job.output)
    requires forall p :: Below(p, job.output) ==> Same(a, b, p)
    requires forall p :: p in LinksBelow(a, job.output) && p !in job.Keep() ==> Live(a, p) == Live(b, p)
    ensures PlanOf(a, job) == PlanOf(b, job)
  {}

  /** Liveness after linking, read off the tree before any change. */
  lemma LinkedLive(t: Tree, u: Tree, job: Job, outs: set<Path>, p: Path)
    requires WellFormed(t) && Ready(t, job, outs) && job.output in outs && Drift(t, u, outs)
    requires Below(p, job.output) && p !in job.Keep() && Same(t, u, p)
    requires IsLink(AddLinks(u, job.wanted), p)
    ensures Live(AddLinks(u, job.wanted), p) == Live(t, p)
  {
    var b := AddLinks(u, job.wanted);
    assert IsLink(t, p) && Same(t, b, p);
    AncestorsAreDirs(t, p, job.output);
    assert ProperName(p[|p| - 1]);
    LinkingDrifts(u, job, outs);
    DriftTransitive(t, u, b, outs);
    LiveUnderDrift(t, b, p, outs);
  }

  lemma SamePruned(t: Tree, u: Tree, output: Path, p: Path)
    requires forall q :: output <= q ==> Same(t, u, q)
    requires output <= p
    ensures Same(Pruned(t, output), Pruned(u, output), p)
  {
    assert Same(t, u, output) && Same(t, u, p);
    if Occupied(t, p) {
      var q :| q in t && p < q && !t[q].Dir?;
      assert Same(t, u, q);
      assert Occupied(u, p);
    }
    if Occupied(u, p) {
      var q :| q in u && p < q && !u[q].Dir?;
      assert Same(t, u, q);
      assert Occupied(t, p);
    }
  }

  lemma SameLeft(t: Tree, u: Tree, job: Job, outs: set<Path>)
    requires WellFormed(t) && WellFormed(u) && Ready(t, job, outs) && Clear(u, job.wanted)
    requires Drift(t, u, outs) && job.output in outs
    requires forall p :: job.output <= p ==> Same(t, u, p)
    ensures var a, b := AddLinks(t, job.wanted), AddLinks(u, job.wanted);
            && Blocked(a, job) == Blocked(b, job)
            && (forall p :: job.output <= p ==> Same(a, b, p))
            && (forall p :: job.output <= p ==> Same(a - PlanOf(a, job), b - PlanOf(b, job), p))
  {
    var a, b := AddLinks(t, job.wanted), AddLinks(u, job.wanted);
    SamePlan(t, u, job, outs);
    forall p | job.output <= p
      ensures Same(a, b, p)
    {
      SameLinked(t, u, job, p);
    }
    SameMinus(a, b, PlanOf(a, job), job.output);
  }

  lemma SameMinus(a: Tree, b: Tree, gone: set<Path>, output: Path)
    requires forall p :: output <= p ==> Same(a, b, p)
    ensures forall p :: output <= p ==> Same(a - gone, b - gone, p)
  {
    forall p | output <= p ensures Same(a - gone, b - gone, p) { assert Same(a, b, p); }
  }

  /** What a job makes of its output directory does not depend on what other jobs did before. */
  lemma JobIsLocal(t: Tree, u: Tree, job: Job, outs: set<Path>)
    requires WellFormed(t) && WellFormed(u) && Ready(t, job, outs) && Clear(u, job.wanted)
    requires Drift(t, u, outs) && job.output in outs
    requires forall p :: job.output <= p ==> Same(t, u, p)
    ensures forall p :: job.output <= p ==> Same(JobResult(t, job), JobResult(u, job), p)
  {
    var a, b := AddLinks(t, job.wanted), AddLinks(u, job.wanted);
    SameLeft(t, u, job, outs);
    var left, right := a - PlanOf(a, job), b - PlanOf(b, job);
    forall p | job.output <= p
      ensures Same(JobResult(t, job), JobResult(u, job), p)
    {
      SamePruned(left, right, job.output, p);
    }
  }

  // ---------------------------------------------------------------- all jobs

  /** The path belongs to no output directory. */
  ghost predicate Elsewhere(jobs: seq<Job>, p: Path) {
    forall job :: job in jobs ==> !(job.output <= p)
  }

  ghost predicate NewAncestor(jobs: seq<Job>, p: Path) {
    exists job :: job in jobs && p in Ancestors(job.wanted.Keys)
  }

  /** Every output directory as its own job alone would leave it, and elsewhere only missing ancestors added. */
  ghost predicate CombinedAt(t: Tree, jobs: seq<Job>, u: Tree, p: Path) {
    && (forall job :: job in jobs && job.output <= p ==> Same(JobResult(t, job), u, p))
    && (Elsewhere(jobs, p) ==>
          if p in t then Same(t, u, p)
          else if NewAncestor(jobs, p) then IsDir(u, p)
          else p !in u)
  }

  ghost predicate Combined(t: Tree, jobs: seq<Job>, u: Tree) {
    forall p :: CombinedAt(t, jobs, u, p)
  }

  lemma CombinedDetermines(t: Tree, jobs: seq<Job>, u: Tree, v: Tree)
    requires Combined(t, jobs, u) && Combined(t, jobs, v)
    ensures u == v
  {
    forall p
      ensures Same(u, v, p)
    {
      assert CombinedAt(t, jobs, u, p) && CombinedAt(t, jobs, v, p);
    }
    SameEverywhere(u, v);
  }

  lemma CombinedDriftsAt(t: Tree, jobs: seq<Job>, u: Tree, job: Job, q: Path)
    requires CombinedAt(t, jobs, u, q) && job in jobs && Proper(job) && Clear(t, job.wanted)
    requires if Elsewhere(jobs, q) then q in Ancestors(job.wanted.Keys) else job.output <= q
    requires !Same(t, u, q)
    ensures Below(q, job.output) || (q <= job.output && q !in t && IsDir(u, q))
  {
    if Elsewhere(jobs, q) {
      AncestorOfOutput(job, q);
    } else if q == job.output {
      ResultAtOutput(t, job);
    }
  }

  /** Combined trees differ from the start only in the zone of the outputs. */
  lemma CombinedDrifts(t: Tree, jobs: seq<Job>, u: Tree, outs: set<Path>)
    requires Combined(t, jobs, u) && Outputs(jobs) <= outs
    requires forall job :: job in jobs ==> Proper(job) && Clear(t, job.wanted)
    ensures Drift(t, u, outs)
  {
    forall q | !Same(t, u, q)
      ensures exists o :: o in outs && (Below(q, o) || (q <= o && q !in t && IsDir(u, q)))
    {
      assert CombinedAt(t, jobs, u, q);
      var job :| job in jobs && if Elsewhere(jobs, q) then q in Ancestors(job.wanted.Keys) else job.output <= q;
      CombinedDriftsAt(t, jobs, u, job, q);
      assert job.output in Outputs(jobs);
    }
  }

  lemma AncestorOfOutput(job: Job, q: Path)
    requires Proper(job) && q in Ancestors(job.wanted.Keys) && !(job.output <= q)
    ensures q < job.output
  {
    var d :| d in job.wanted && q < d;
    PrefixesCompare(q, job.output, d);
  }

  /** At the output itself a job can only make the directory. */
  lemma ResultAtOutput(t: Tree, job: Job)
    requires Clear(t, job.wanted) && Proper(job)
    ensures var u := JobResult(t, job);
            Same(t, u, job.output) || (job.output !in t && IsDir(u, job.output))
  {
    var linked := AddLinks(t, job.wanted);
    assert job.output !in job.wanted && job.output !in PlanOf(linked, job);
    PrunedElsewhere(linked - PlanOf(linked, job), job.output, job.output);
  }

  /** The other jobs have not touched the output directory of a job. */
  lemma OthersKeepAway(t: Tree, jobs: seq<Job>, u: Tree, job: Job, p: Path)
    requires Combined(t, jobs, u)
    requires forall j :: j in jobs ==> Proper(j) && !(j.output <= job.output) && !(job.output <= j.output)
    requires job.output <= p
    ensures Same(t, u, p)
  {
    assert CombinedAt(t, jobs, u, p);
    forall j | j in jobs
      ensures !(j.output <= p) && p !in Ancestors(j.wanted.Keys)
    {
      if j.output <= p {
        PrefixesCompare(j.output, job.output, p);
      }
      if p in Ancestors(j.wanted.Keys) {
        var d :| d in j.wanted && p < d;
        PrefixesCompare(j.output, job.output, d);
      }
    }
  }

  /** One more job, at an output directory of its own. */
  lemma CombinedStep(t: Tree, jobs: seq<Job>, u: Tree, job: Job, p: Path)
    requires Combined(t, jobs, u) && Proper(job)
    requires forall j :: j in jobs ==> Proper(j) && !(j.output <= job.output) && !(job.output <= j.output)
    requires forall q :: job.output <= q ==> Same(JobResult(t, job), JobResult(u, job), q)
    ensures CombinedAt(t, jobs + [job], JobResult(u, job), p)
  {
    var v := JobResult(u, job);
    assert CombinedAt(t, jobs, u, p);
    if job.output <= p {
      forall j | j in jobs ensures !(j.output <= p) {
        if j.output <= p {
          PrefixesCompare(j.output, job.output, p);
        }
      }
    } else {
      ResultElsewhere(u, job, p);
      forall j | j in jobs && j.output <= p
        ensures Same(JobResult(t, j), v, p)
      {
        assert Same(JobResult(t, j), u, p);
        if p in Ancestors(job.wanted.Keys) {
          AncestorOfOutput(job, p);
        }
      }
      assert Elsewhere(jobs + [job], p) ==> Elsewhere(jobs, p);
      assert NewAncestor(jobs + [job], p) <==> NewAncestor(jobs, p) || p in Ancestors(job.wanted.Keys);
    }
  }

  lemma SeparateInit(jobs: seq<Job>)
    requires Separate(jobs) && jobs != []
    ensures Separate(jobs[..|jobs| - 1])
    ensures forall j :: j in jobs[..|jobs| - 1] ==>
              !(j.output <= jobs[|jobs| - 1].output) && !(jobs[|jobs| - 1].output <= j.output)
    ensures Apart(jobs[|jobs| - 1].output, Outputs(jobs))
  {
    var last := jobs[|jobs| - 1];
    forall j | j in jobs
      ensures j != last ==> !(j.output <= last.output) && !(last.output <= j.output)
    {
      var i :| 0 <= i < |jobs| && jobs[i] == j;
      assert i != |jobs| - 1 ==> !(jobs[i].output <= jobs[|jobs| - 1].output);
    }
    forall j | j in jobs[..|jobs| - 1]
      ensures !(j.output <= last.output) && !(last.output <= j.output)
    {
      var i :| 0 <= i < |jobs| - 1 && jobs[i] == j;
    }
  }

  lemma OneMoreCombined(t: Tree, before: seq<Job>, u: Tree, job: Job)
    requires Combined(t, before, u) && Proper(job)
    requires forall j :: j in before ==> Proper(j) && !(j.output <= job.output) && !(job.output <= j.output)
    requires forall q :: job.output <= q ==> Same(JobResult(t, job), JobResult(u, job), q)
    ensures Combined(t, before + [job], JobResult(u, job))
  {
    forall p
      ensures CombinedAt(t, before + [job], JobResult(u, job), p)
    {
      CombinedStep(t, before, u, job, p);
    }
  }

  /** What the jobs before it leave of the output of a job, and around it. */
  lemma FindsItsOutput(t: Tree, before: seq<Job>, u: Tree, job: Job, outs: set<Path>)
    requires WellFormed(t) && WellFormed(u) && Combined(t, before, u)
    requires Separate(before + [job]) && Outputs(before + [job]) <= outs
    requires forall j :: j in before + [job] ==> Ready(t, j, outs)
    ensures Clear(u, job.wanted) && Drift(t, u, outs) && job.output in outs
    ensures forall p :: job.output <= p ==> Same(t, u, p)
  {
    var jobs := before + [job];
    assert jobs[|before|] == job && jobs[..|before|] == before && job in jobs;
    forall j | j in before ensures j in jobs && j.output in Outputs(jobs) { assert j in jobs; }
    forall p | job.output <= p
      ensures Same(t, u, p)
    {
      OthersKeepAway(t, before, u, job, p);
    }
    CombinedDrifts(t, before, u, Outputs(jobs));
    ClearUnderDrift(t, u, job, Outputs(jobs));
    CombinedDrifts(t, before, u, outs);
  }

  /** Running separate jobs one after the other gives every output directory what its job alone would give it. */
  lemma {:induction false} RunIsCombined(t: Tree, jobs: seq<Job>, outs: set<Path>)
    requires WellFormed(t) && Separate(jobs) && Outputs(jobs) <= outs
    requires forall job :: job in jobs ==> Ready(t, job, outs)
    ensures WellFormed(RunJobs(t, jobs)) && Combined(t, jobs, RunJobs(t, jobs))
    decreases |jobs|
  {
    if jobs != [] {
      var before, job := jobs[..|jobs| - 1], jobs[|jobs| - 1];
      var u := RunJobs(t, before);
      SeparateInit(jobs);
      assert Outputs(before) <= Outputs(jobs) && before + [job] == jobs;
      RunIsCombined(t, before, outs);
      FindsItsOutput(t, before, u, job, outs);
      JobIsLocal(t, u, job, outs);
      ResultWellFormed(u, job);
      OneMoreCombined(t, before, u, job);
    }
  }


  /** The order of the libraries and of their outputs does not matter. */
  lemma OrderIndependence(t: Tree, jobs: seq<Job>, shuffled: seq<Job>)
    requires WellFormed(t) && AllReady(t, jobs) && Separate(jobs) && Separate(shuffled)
    requires forall job :: job in jobs <==> job in shuffled
    ensures RunJobs(t, jobs) == RunJobs(t, shuffled)
  {
    assert Outputs(jobs) == Outputs(shuffled);
    RunIsCombined(t, jobs, Outputs(jobs));
    RunIsCombined(t, shuffled, Outputs(jobs));
    var u := RunJobs(t, shuffled);
    forall p
      ensures CombinedAt(t, jobs, u, p)
    {
      assert CombinedAt(t, shuffled, u, p);
      assert Elsewhere(jobs, p) <==> Elsewhere(shuffled, p);
      assert NewAncestor(jobs, p) <==> NewAncestor(shuffled, p);
    }
    CombinedDetermines(t, jobs, RunJobs(t, jobs), u);
  }

  /** If all is ready and nothing fails, every output directory ends up as if it had been reconciled alone. */
  lemma OutputsAsIfAlone(t: Tree, jobs: seq<Job>, job: Job, p: Path)
    requires WellFormed(t) && AllReady(t, jobs) && Separate(jobs) && job in jobs && job.output <= p
    ensures Same(JobResult(t, job), RunJobs(t, jobs), p)
  {
    RunIsCombined(t, jobs, Outputs(jobs));
    assert CombinedAt(t, jobs, RunJobs(t, jobs), p);
  }

  // ---------------------------------------------------------------- history of a whole scan

  /** The trees agree outside all output directories. */
  ghost predicate SameOutside(t: Tree, u: Tree, jobs: seq<Job>) {
    forall p :: (forall job :: job in jobs ==> !Below(p, job.output)) ==> Same(t, u, p)
  }

  /** The guard lets every job pass. */
  ghost predicate NoneBlocked(t: Tree, jobs: seq<Job>) {
    forall job :: job in jobs ==> !Blocked(AddLinks(t, job.wanted), job)
  }

  lemma HistoryOfMember(t: Tree, u: Tree, jobs: seq<Job>, job: Job)
    requires WellFormed(t) && WellFormed(u) && Separate(jobs) && job in jobs && AllReady(t, jobs) && AllReady(u, jobs)
    requires NoneBlocked(t, jobs) && NoneBlocked(u, jobs) && SameOutside(t, u, jobs)
    ensures SameResult(t, u, job) <==> SameCarried(t, u, job)
  {
    assert job.output in Outputs(jobs);
    forall j | j in jobs ensures !Below(job.output, j.output) {
      SeparateMembers(jobs, job, j);
    }
    assert Unblocked(t, job) && Unblocked(u, job);
    HistoryIsLocal(t, u, job);
  }

  /** A whole scan is independent of history: two trees that agree outside the output directories end up equal exactly
      if they agree on what is not Boomarr's own inside them. */
  lemma RunHistoryIndependence(t: Tree, u: Tree, jobs: seq<Job>)
    requires WellFormed(t) && WellFormed(u) && Separate(jobs) && AllReady(t, jobs) && AllReady(u, jobs)
    requires NoneBlocked(t, jobs) && NoneBlocked(u, jobs) && SameOutside(t, u, jobs)
    ensures RunJobs(t, jobs) == RunJobs(u, jobs) <==> forall job :: job in jobs ==> SameCarried(t, u, job)
  {
    RunIsCombined(t, jobs, Outputs(jobs));
    RunIsCombined(u, jobs, Outputs(jobs));
    forall job | job in jobs
      ensures SameResult(t, u, job) <==> SameCarried(t, u, job)
    {
      HistoryOfMember(t, u, jobs, job);
    }
    if forall job :: job in jobs ==> SameCarried(t, u, job) {
      CombinedTransfers(t, u, jobs, RunJobs(u, jobs));
      CombinedDetermines(t, jobs, RunJobs(t, jobs), RunJobs(u, jobs));
    }
    if RunJobs(t, jobs) == RunJobs(u, jobs) {
      CombinedShows(t, u, jobs, RunJobs(t, jobs));
    }
  }

  lemma CombinedShows(t: Tree, u: Tree, jobs: seq<Job>, v: Tree)
    requires Combined(t, jobs, v) && Combined(u, jobs, v)
    ensures forall job :: job in jobs ==> SameResult(t, u, job)
  {
    forall job, p | job in jobs && job.output <= p
      ensures Same(JobResult(t, job), JobResult(u, job), p)
    {
      assert CombinedAt(t, jobs, v, p) && CombinedAt(u, jobs, v, p);
    }
  }

  lemma CombinedTransfersAt(t: Tree, u: Tree, jobs: seq<Job>, v: Tree, p: Path)
    requires CombinedAt(u, jobs, v, p)
    requires forall job :: job in jobs && job.output <= p ==> Same(JobResult(t, job), JobResult(u, job), p)
    requires Elsewhere(jobs, p) ==> Same(t, u, p)
    ensures CombinedAt(t, jobs, v, p)
  {}

  lemma CombinedTransfers(t: Tree, u: Tree, jobs: seq<Job>, v: Tree)
    requires Combined(u, jobs, v)
    requires forall job :: job in jobs ==> SameResult(t, u, job)
    requires forall p :: Elsewhere(jobs, p) ==> Same(t, u, p)
    ensures Combined(t, jobs, v)
  {
    forall p
      ensures CombinedAt(t, jobs, v, p)
    {
      CombinedTransfersAt(t, u, jobs, v, p);
    }
  }

  lemma SeparateMembers(jobs: seq<Job>, a: Job, b: Job)
    requires Separate(jobs) && a in jobs && b in jobs
    ensures a == b || !(b.output <= a.output)
  {
    var i :| 0 <= i < |jobs| && jobs[i] == a;
    var j :| 0 <= j < |jobs| && jobs[j] == b;
  }

  // ---------------------------------------------------------------- repeating a whole scan

  lemma LeadsAwayUnderDrift(t: Tree, u: Tree, p: Path, outs: set<Path>)
    requires p != [] && ProperName(Name(p)) && IsLink(t, p) && Same(t, u, p)
    requires LeadsAway(t, p, outs) && Drift(t, u, outs)
    ensures LeadsAway(u, p, outs)
  {
    forall q | q in Behind(t, p)
      ensures Same(t, u, q)
    {
      if !Same(t, u, q) {
        var o :| o in outs && (Below(q, o) || (q <= o && q !in t && IsDir(u, q)));
        assert false;
      }
    }
    LiveFrame(t, u, p);
  }

  /** The links a job has left alone still lead away. */
  lemma SurvivorsLeadAway(t: Tree, u: Tree, job: Job, outs: set<Path>)
    requires WellFormed(t) && Ready(t, job, outs) && Drift(t, u, outs) && !Blocked(AddLinks(t, job.wanted), job)
    requires forall p :: job.output <= p ==> Same(JobResult(t, job), u, p)
    ensures AllLeadAway(u, job, outs)
  {
    ResultIsExact(t, job);
    var v := JobResult(t, job);
    forall p | p in LinksBelow(u, job.output) && p !in job.Keep()
      ensures LeadsAway(u, p, outs)
    {
      assert ExactAt(t, job, v, p) && Same(v, u, p);
      AncestorsAreDirs(t, p, job.output);
      assert ProperName(p[|p| - 1]);
      LeadsAwayUnderDrift(t, u, p, outs);
    }
  }

  /** Two outcomes of drift, the second of which has all the directories the first one has added. */
  lemma DriftBetween(t: Tree, v: Tree, u: Tree, job: Job, outs: set<Path>)
    requires Drift(t, v, {job.output}) && Drift(t, u, outs) && job.output in outs
    requires forall q :: q < job.output && q !in t && IsDir(v, q) ==> IsDir(u, q)
    requires forall p :: job.output <= p ==> Same(v, u, p)
    ensures Drift(v, u, outs)
  {
    forall q | !Same(v, u, q)
      ensures exists o :: o in outs && (Below(q, o) || (q <= o && q !in v && IsDir(u, q)))
    {
      if Same(t, v, q) {
        assert !Same(t, u, q);
      }
    }
  }

  lemma ApartMember(jobs: seq<Job>, job: Job)
    requires Separate(jobs) && job in jobs
    ensures Apart(job.output, Outputs(jobs))
  {
    forall j | j in jobs
      ensures j == job || (!(j.output <= job.output) && !(job.output <= j.output))
    {
      SeparateMembers(jobs, job, j);
      SeparateMembers(jobs, j, job);
    }
  }

  /** A job is ready to run again, alone in its own outcome and in the finished tree. */
  lemma MemberReadyAgain(t: Tree, jobs: seq<Job>, u: Tree, job: Job)
    requires WellFormed(t) && WellFormed(u) && Separate(jobs) && AllReady(t, jobs) && Combined(t, jobs, u)
    requires job in jobs && !Blocked(AddLinks(t, job.wanted), job)
    ensures WellFormed(JobResult(t, job)) && Ready(JobResult(t, job), job, Outputs(jobs))
            && Ready(u, job, Outputs(jobs))
  {
    var outs, v := Outputs(jobs), JobResult(t, job);
    assert Ready(t, job, outs) && job.output in outs;
    FinishedMember(t, jobs, u, job);
    ResultIsExact(t, job);
    ResultWellFormed(t, job);
    ExactDrifts(t, job, v);
    ClearAgain(t, job, v);
    ApartMember(jobs, job);
    ClearUnderDrift(v, u, job, outs);
    assert Drift(t, v, outs);
    SurvivorsLeadAway(t, v, job, outs);
    SurvivorsLeadAway(t, u, job, outs);
  }

  /** A tree in which the output directory is as its job left it offers that job nothing to do. */
  lemma NothingToDo(v: Tree, u: Tree, job: Job, outs: set<Path>)
    requires WellFormed(v) && WellFormed(u) && Ready(v, job, outs) && Clear(u, job.wanted)
    requires Drift(v, u, outs) && job.output in outs
    requires forall p :: job.output <= p ==> Same(v, u, p)
    requires PlanOf(AddLinks(v, job.wanted), job) == {}
    requires forall p :: job.output <= p ==> Same(JobResult(v, job), u, p)
    ensures PlanOf(AddLinks(u, job.wanted), job) == {}
    ensures forall p :: job.output <= p ==> Same(JobResult(u, job), u, p)
  {
    assert PlanOf(AddLinks(u, job.wanted), job) == {} by {
      SamePlan(v, u, job, outs);
    }
    var again, finished := JobResult(v, job), JobResult(u, job);
    assert forall p :: job.output <= p ==> Same(again, finished, p) by {
      JobIsLocal(v, u, job, outs);
    }
    forall p | job.output <= p ensures Same(finished, u, p) {
      assert Same(again, finished, p) && Same(again, u, p);
    }
  }

  /** Running one of the jobs again in the finished tree changes nothing. */
  lemma MemberAgain(t: Tree, jobs: seq<Job>, u: Tree, job: Job)
    requires WellFormed(t) && WellFormed(u) && Separate(jobs) && AllReady(t, jobs) && Combined(t, jobs, u)
    requires job in jobs && !Blocked(AddLinks(t, job.wanted), job)
    ensures Outdated(u, job.wanted) == {} && PlanOf(AddLinks(u, job.wanted), job) == {}
    ensures forall p :: job.output <= p ==> Same(JobResult(u, job), u, p)
  {
    var outs, v := Outputs(jobs), JobResult(t, job);
    assert job.output in outs;
    MemberReadyAgain(t, jobs, u, job);
    FinishedMember(t, jobs, u, job);
    OwnOutcomeAgain(t, job, outs);
    NothingToDo(v, u, job, outs);
    forall d | d in job.wanted ensures d in u && u[d] == Link(job.wanted[d]) {
      assert Same(v, u, d);
    }
  }

  lemma OwnOutcomeAgain(t: Tree, job: Job, outs: set<Path>)
    requires WellFormed(t) && Ready(t, job, outs) && job.output in outs && !Blocked(AddLinks(t, job.wanted), job)
    ensures var v := JobResult(t, job);
            && JobResult(v, job) == v && PlanOf(AddLinks(v, job.wanted), job) == {}
            && forall d :: d in job.wanted ==> d in v && v[d] == Link(job.wanted[d])
  {
    assert AllLeadAway(t, job, {job.output});
    Idempotence(t, job);
    ResultIsExact(t, job);
    forall d | d in job.wanted ensures d in JobResult(t, job) && JobResult(t, job)[d] == Link(job.wanted[d]) {
      WantedInPlace(t, job, JobResult(t, job), d);
    }
  }

  lemma FinishedMember(t: Tree, jobs: seq<Job>, u: Tree, job: Job)
    requires WellFormed(t) && AllReady(t, jobs) && Combined(t, jobs, u) && Separate(jobs)
    requires job in jobs && !Blocked(AddLinks(t, job.wanted), job)
    ensures Drift(t, u, Outputs(jobs)) && Drift(JobResult(t, job), u, Outputs(jobs))
    ensures forall p :: job.output <= p ==> Same(JobResult(t, job), u, p)
    ensures forall p :: p in Ancestors(job.wanted.Keys) ==> p in u
  {
    var outs, v := Outputs(jobs), JobResult(t, job);
    assert Ready(t, job, outs) && job.output in outs;
    CombinedDrifts(t, jobs, u, outs);
    forall p | job.output <= p ensures Same(v, u, p) {
      assert CombinedAt(t, jobs, u, p);
    }
    ResultIsExact(t, job);
    forall p | p in Ancestors(job.wanted.Keys) || (p !in t && IsDir(v, p) && p < job.output)
      ensures p in u && (p < job.output && p !in t ==> IsDir(u, p))
    {
      AncestorInPlace(t, jobs, u, job, p);
    }
    ExactDrifts(t, job, v);
    DriftBetween(t, v, u, job, outs);
  }

  lemma AncestorInPlace(t: Tree, jobs: seq<Job>, u: Tree, job: Job, p: Path)
    requires AllReady(t, jobs) && Combined(t, jobs, u) && Separate(jobs) && job in jobs
    requires Exact(t, job, JobResult(t, job))
    requires p in Ancestors(job.wanted.Keys) || (p !in t && IsDir(JobResult(t, job), p) && p < job.output)
    ensures p in u && (p < job.output && p !in t ==> IsDir(u, p))
  {
    var v := JobResult(t, job);
    assert Ready(t, job, Outputs(jobs));
    assert ExactAt(t, job, v, p) && CombinedAt(t, jobs, u, p);
    if job.output <= p {
      DirsInPlace(t, job, v, p);
    } else {
      assert p in Ancestors(job.wanted.Keys);
      AncestorOfOutput(job, p);
      forall j | j in jobs ensures !(j.output <= p) {
        if j.output <= p {
          SeparateMembers(jobs, job, j);
        }
      }
    }
  }

  /** A second scan makes no link, removes none and leaves the whole tree as it is. */
  lemma RunIdempotence(t: Tree, jobs: seq<Job>)
    requires WellFormed(t) && Separate(jobs) && AllReady(t, jobs) && NoneBlocked(t, jobs)
    ensures var u := RunJobs(t, jobs);
            && RunJobs(u, jobs) == u
            && forall job :: job in jobs ==> Outdated(u, job.wanted) == {} && PlanOf(AddLinks(u, job.wanted), job) == {}
  {
    var u := RunJobs(t, jobs);
    RunIsCombined(t, jobs, Outputs(jobs));
    forall job | job in jobs
      ensures Ready(u, job, Outputs(jobs))
      ensures Outdated(u, job.wanted) == {} && PlanOf(AddLinks(u, job.wanted), job) == {}
      ensures forall p :: job.output <= p ==> Same(JobResult(u, job), u, p)
      ensures forall p :: p in Ancestors(job.wanted.Keys) ==> p in u
    {
      MemberReadyAgain(t, jobs, u, job);
      MemberAgain(t, jobs, u, job);
      FinishedMember(t, jobs, u, job);
    }
    RunIsCombined(u, jobs, Outputs(jobs));
    forall p
      ensures CombinedAt(u, jobs, u, p)
    {}
    CombinedDetermines(u, jobs, RunJobs(u, jobs), u);
  }

  // ---------------------------------------------------------------- dry runs of a whole scan

  /** Every job of a dry run, judging the tree nobody changes, finds the same links to make and the same
      links to remove as its counterpart in the real run, judging what the jobs before it have left. */
  lemma DryRunIsFaithful(t: Tree, jobs: seq<Job>, k: nat)
    requires WellFormed(t) && Separate(jobs) && AllReady(t, jobs) && k < |jobs|
    ensures var u := RunJobs(t, jobs[..k]);
            && Outdated(t, jobs[k].wanted) == Outdated(u, jobs[k].wanted)
            && PlanOf(t, jobs[k]) == PlanOf(AddLinks(u, jobs[k].wanted), jobs[k])
            && Blocked(AddLinks(t, jobs[k].wanted), jobs[k]) == Blocked(AddLinks(u, jobs[k].wanted), jobs[k])
  {
    var job, outs, u := jobs[k], Outputs(jobs), RunJobs(t, jobs[..k]);
    TurnOf(t, jobs, k);
    SamePlan(t, u, job, outs);
    DryPlanIsFaithful(t, job);
    forall d | d in job.wanted ensures Same(t, u, d) {}
  }

  /** What the k-th job finds: its own output directory as it was, drift elsewhere. */
  lemma TurnOf(t: Tree, jobs: seq<Job>, k: nat)
    requires WellFormed(t) && Separate(jobs) && AllReady(t, jobs) && k < |jobs|
    ensures var u := RunJobs(t, jobs[..k]);
            && WellFormed(u) && Drift(t, u, Outputs(jobs)) && Clear(u, jobs[k].wanted)
            && Ready(t, jobs[k], Outputs(jobs)) && jobs[k].output in Outputs(jobs)
            && forall p :: jobs[k].output <= p ==> Same(t, u, p)
  {
    var upto, job, outs, u := jobs[..k + 1], jobs[k], Outputs(jobs), RunJobs(t, jobs[..k]);
    assert upto[..k] == jobs[..k] && job in jobs;
    assert Separate(upto) by {
      forall i, j | 0 <= i < |upto| && 0 <= j < |upto| && i != j ensures !(upto[i].output <= upto[j].output) {
        assert upto[i] == jobs[i] && upto[j] == jobs[j];
      }
    }
    SeparateInit(upto);
    SeparateInitOf(jobs, upto, k);
    RunIsCombined(t, jobs[..k], outs);
    forall p | job.output <= p ensures Same(t, u, p) {
      OthersKeepAway(t, jobs[..k], u, job, p);
    }
    CombinedDrifts(t, jobs[..k], u, outs);
    CombinedDrifts(t, jobs[..k], u, Outputs(upto));
    ClearUnderDrift(t, u, job, Outputs(upto));
  }

  lemma SeparateInitOf(jobs: seq<Job>, upto: seq<Job>, k: nat)
    requires Separate(jobs) && k < |jobs| && upto == jobs[..k + 1]
    ensures Separate(jobs[..k]) && Outputs(jobs[..k]) <= Outputs(jobs) && Outputs(jobs[..k]) <= Outputs(upto)
  {
    forall i, j | 0 <= i < k && 0 <= j < k && i != j ensures !(jobs[..k][i].output <= jobs[..k][j].output) {
      assert jobs[..k][i] == jobs[i] && jobs[..k][j] == jobs[j];
    }
    assert forall job :: job in jobs[..k] ==> job in upto && job in jobs;
  }
}
