/** Scans after a failed one: replacements that were never finished make no difference to what they leave. */
module Mending {
  import opened Paths
  import opened Trees
  import opened Reconcile
  import opened Replacements
  import opened Symlinks
  import opened Safety
  import opened Interference
  import opened Libraries

  // ---------------------------------------------------------------- one output

  /** A link the job will remove: it points into the root, or it is broken for good. */
  ghost predicate LeftoverDoomed(t: Tree, job: Job, outs: set<Path>, p: Path)
    requires p != [] && IsLink(t, p)
  {
    p !in job.Keep() && (Owned(p, t[p].raw, job.root) || (!Live(t, p) && LeadsAway(t, p, outs)))
  }

  /** A tree that is ready for the job but for links at temporary names, all of which it will remove. */
  ghost predicate Mendable(t: Tree, job: Job, outs: set<Path>) {
    && WellFormed(t) && Linkable(t, job.wanted) && Proper(job) && job.output in outs
    && (forall p :: p in LinksBelow(t, job.output) && p !in job.Keep() && p !in Leftovers(t, job.wanted) ==>
          LeadsAway(t, p, outs))
    && (forall p :: p in Leftovers(t, job.wanted) ==> p != [] && IsLink(t, p) && LeftoverDoomed(t, job, outs, p))
  }

  lemma LeftoverPlace(t: Tree, job: Job, p: Path)
    requires Linkable(t, job.wanted) && Proper(job) && p in Leftovers(t, job.wanted)
    ensures Below(p, job.output) && p !in job.wanted && p !in Ancestors(job.wanted.Keys)
  {
    UntmpAndBack(p);
    LinkableAt(t, job.wanted, Untmp(p));
    assert Below(Untmp(p), job.output) && Parent(p) == Parent(Untmp(p));
    assert job.output <= Parent(p);
  }

  /** Taking nodes below the outputs away is drift. */
  lemma WithoutDrifts(t: Tree, gone: set<Path>, outs: set<Path>)
    requires forall p :: p in gone ==> exists o :: o in outs && Below(p, o)
    ensures Drift(t, t - gone, outs)
  {}

  lemma OverDrifts(t: Tree, job: Job, outs: set<Path>, gone: set<Path>)
    requires Linkable(t, job.wanted) && Proper(job) && job.output in outs && gone <= Leftovers(t, job.wanted)
    ensures Drift(t, AddLinks(t - gone, job.wanted), outs)
  {
    forall p | p in gone ensures exists o :: o in outs && Below(p, o) { LeftoverPlace(t, job, p); }
    WithoutDrifts(t, gone, outs);
    LinkingDrifts(t - gone, job, outs);
    DriftTransitive(t, t - gone, AddLinks(t - gone, job.wanted), outs);
  }

  /** Liveness of a link that leads away is what it was. */
  lemma JudgedAlike(t: Tree, output: Path, outs: set<Path>, u: Tree, p: Path)
    requires WellFormed(t) && Drift(t, u, outs) && Same(t, u, p) && Below(p, output)
    requires IsLink(t, p) && LeadsAway(t, p, outs)
    ensures Live(u, p) == Live(t, p)
  {
    AncestorsAreDirs(t, p, output);
    assert ProperName(p[|p| - 1]);
    LiveUnderDrift(t, u, p, outs);
  }

  lemma OutputStands(t: Tree, job: Job, gone: set<Path>)
    requires Linkable(t, job.wanted) && Proper(job) && gone <= Leftovers(t, job.wanted)
    ensures IsDir(AddLinks(t - gone, job.wanted), job.output) == IsDir(AddLinks(t, job.wanted), job.output)
  {
    if job.output in gone {
      LeftoverPlace(t, job, job.output);
    }
  }

  /** The linked tree, had there been no leftovers. */
  function LinkedClean(t: Tree, wanted: Wanted): Tree {
    AddLinks(t - Leftovers(t, wanted), wanted)
  }

  /** Leftovers apart, the linked trees are the same. */
  lemma SameButLeftovers(t: Tree, job: Job, p: Path)
    requires Linkable(t, job.wanted) && Proper(job)
    ensures p !in Leftovers(t, job.wanted) ==> Same(LinkedOver(t, job.wanted), LinkedClean(t, job.wanted), p)
    ensures p in Leftovers(t, job.wanted) ==>
              && p !in LinkedClean(t, job.wanted)
              && (p in LinkedOver(t, job.wanted) ==> Same(t, LinkedOver(t, job.wanted), p))
  {
    if p in Leftovers(t, job.wanted) {
      LeftoverPlace(t, job, p);
    }
  }

  lemma LeftoverStaysDoomed(t: Tree, job: Job, outs: set<Path>, u: Tree, p: Path)
    requires WellFormed(t) && Drift(t, u, outs) && Same(t, u, p) && Below(p, job.output)
    requires IsLink(t, p) && LeftoverDoomed(t, job, outs, p)
    ensures Doomed(u, p, job.Keep(), job.root)
  {
    if !Owned(p, t[p].raw, job.root) {
      JudgedAlike(t, job.output, outs, u, p);
    }
  }

  lemma OutputIsThere(t: Tree, job: Job, p: Path)
    requires WellFormed(t) && Linkable(t, job.wanted) && Proper(job) && p in t && Below(p, job.output)
    ensures IsDir(LinkedOver(t, job.wanted), job.output)
  {
    AncestorsAreDirs(t, p, job.output);
    OutputStands(t, job, Used(t, job.wanted));
  }

  lemma IsPlanned(a: Tree, job: Job, p: Path)
    requires IsDir(a, job.output) && Below(p, job.output) && IsLink(a, p) && Doomed(a, p, job.Keep(), job.root)
    ensures p in PlanOf(a, job)
  {}

  /** A leftover that linking has not used is condemned. */
  lemma LeftoverIsPlanned(t: Tree, job: Job, outs: set<Path>, p: Path)
    requires Mendable(t, job, outs) && p in Leftovers(t, job.wanted) && p in LinkedOver(t, job.wanted)
    ensures p in PlanOf(LinkedOver(t, job.wanted), job)
  {
    var a := LinkedOver(t, job.wanted);
    LeftoverPlace(t, job, p);
    SameButLeftovers(t, job, p);
    OverDrifts(t, job, outs, Used(t, job.wanted));
    LeftoverStaysDoomed(t, job, outs, a, p);
    OutputIsThere(t, job, p);
    IsPlanned(a, job, p);
  }

  lemma VerdictAlike(t: Tree, job: Job, outs: set<Path>, a: Tree, b: Tree, p: Path)
    requires WellFormed(t) && Drift(t, a, outs) && Drift(t, b, outs) && Same(a, b, p)
    requires IsDir(a, job.output) == IsDir(b, job.output)
    requires IsLink(a, p) && Below(p, job.output) && p !in job.Keep() ==> Same(t, a, p) && LeadsAway(t, p, outs)
    ensures p in PlanOf(a, job) <==> p in PlanOf(b, job)
  {
    if IsLink(a, p) && Below(p, job.output) && p !in job.Keep() {
      JudgedAlike(t, job.output, outs, a, p);
      JudgedAlike(t, job.output, outs, b, p);
    }
  }

  /** Any other link is condemned with the leftovers exactly if it is without them. */
  lemma SameVerdict(t: Tree, job: Job, outs: set<Path>, p: Path)
    requires Mendable(t, job, outs) && p !in Leftovers(t, job.wanted)
    ensures p in PlanOf(LinkedOver(t, job.wanted), job) <==> p in PlanOf(LinkedClean(t, job.wanted), job)
  {
    var a, b := LinkedOver(t, job.wanted), LinkedClean(t, job.wanted);
    SameButLeftovers(t, job, p);
    OutputStands(t, job, Used(t, job.wanted));
    OutputStands(t, job, Leftovers(t, job.wanted));
    OverDrifts(t, job, outs, Used(t, job.wanted));
    OverDrifts(t, job, outs, Leftovers(t, job.wanted));
    if IsLink(a, p) && Below(p, job.output) && p !in job.Keep() {
      OtherLink(t, job, outs, p);
    }
    VerdictAlike(t, job, outs, a, b, p);
  }

  lemma OtherLink(t: Tree, job: Job, outs: set<Path>, p: Path)
    requires Mendable(t, job, outs) && p !in Leftovers(t, job.wanted)
    requires IsLink(LinkedOver(t, job.wanted), p) && Below(p, job.output) && p !in job.Keep()
    ensures IsLink(t, p) && Same(t, LinkedOver(t, job.wanted), p) && LeadsAway(t, p, outs)
  {
    AncestorsAreDirs(t, p, job.output);
    assert p in LinksBelow(t, job.output);
  }

  lemma PlanOver(t: Tree, job: Job, outs: set<Path>, p: Path)
    requires Mendable(t, job, outs)
    ensures var a, b := LinkedOver(t, job.wanted), LinkedClean(t, job.wanted);
            Same(a - PlanOf(a, job), b - PlanOf(b, job), p)
  {
    SameButLeftovers(t, job, p);
    if p !in Leftovers(t, job.wanted) {
      SameVerdict(t, job, outs, p);
    } else if p in LinkedOver(t, job.wanted) {
      LeftoverIsPlanned(t, job, outs, p);
    }
  }

  /** The job, whatever the guard says. */
  function Freed(job: Job): Job {
    job.(guard := None)
  }

  /** A job the guard does not refuse leaves an output as it would have without the leftovers. */
  lemma JobMends(t: Tree, job: Job, outs: set<Path>)
    requires Mendable(t, job, outs) && !Blocked(LinkedOver(t, job.wanted), job)
    ensures OverResult(t, job) == JobResult(t - Leftovers(t, job.wanted), Freed(job))
  {
    var a, b := LinkedOver(t, job.wanted), LinkedClean(t, job.wanted);
    forall p ensures Same(a - PlanOf(a, job), b - PlanOf(b, job), p) { PlanOver(t, job, outs, p); }
    SameEverywhere(a - PlanOf(a, job), b - PlanOf(b, job));
  }

  /** Where the destinations are clear, a job that is ready is mendable, and there is nothing to mend. */
  lemma ReadyIsMendable(t: Tree, job: Job, outs: set<Path>)
    requires WellFormed(t) && Ready(t, job, outs) && job.output in outs
    ensures Mendable(t, job, outs) && Narrowed(t, job) == job && OverResult(t, job) == JobResult(t, job)
    ensures Used(t, job.wanted) == {} && LinkedOver(t, job.wanted) == AddLinks(t, job.wanted)
  {
    ClearIsLinkable(t, job.wanted, job.wanted);
    LinkableIsMakeable(t, job.wanted);
    forall p ensures p !in Leftovers(t, job.wanted) && p !in Used(t, job.wanted) { NothingAtTmp(t, job.wanted, p); }
  }

  // ---------------------------------------------------------------- all outputs

  function FreedAll(jobs: seq<Job>): seq<Job> {
    seq(|jobs|, i requires 0 <= i < |jobs| => Freed(jobs[i]))
  }

  /** What sits at the temporary names of any of the jobs. */
  function LeftIn(t: Tree, jobs: seq<Job>): set<Path> {
    set job, p | job in jobs && p in Leftovers(t, job.wanted) :: p
  }

  /** The tree without it. */
  function Cleared(t: Tree, jobs: seq<Job>): Tree {
    t - LeftIn(t, jobs)
  }

  ghost predicate AllMendable(t: Tree, jobs: seq<Job>) {
    WellFormed(t) && Separate(jobs) && forall job :: job in jobs ==> Mendable(t, job, Outputs(jobs))
  }

  /** The guard lets every job pass. */
  ghost predicate NoneRefused(t: Tree, jobs: seq<Job>) {
    forall job :: job in jobs ==> !Blocked(LinkedOver(t, job.wanted), job)
  }

  lemma FreedAreSeparate(jobs: seq<Job>)
    requires Separate(jobs)
    ensures Separate(FreedAll(jobs)) && Outputs(FreedAll(jobs)) == Outputs(jobs)
  {
    var freed := FreedAll(jobs);
    forall o ensures o in Outputs(freed) <==> o in Outputs(jobs) {
      if o in Outputs(jobs) {
        var k :| 0 <= k < |jobs| && jobs[k].output == o;
        assert freed[k] in freed;
      }
    }
  }

  /** Where a leftover is. */
  lemma LeftPlace(t: Tree, jobs: seq<Job>, k: nat, p: Path) returns (j: nat)
    requires AllMendable(t, jobs) && k <= |jobs| && p in LeftIn(t, jobs[k..])
    ensures k <= j < |jobs| && p in Leftovers(t, jobs[j].wanted) && Below(p, jobs[j].output) && IsLink(t, p)
    ensures jobs[j].output in Outputs(jobs)
  {
    j :| k <= j < |jobs| && p in Leftovers(t, jobs[j].wanted);
    assert jobs[j] in jobs;
    LeftoverPlace(t, jobs[j], p);
  }

  /** What lies below one output is neither in another one nor above anything in it. */
  lemma OtherOutput(jobs: seq<Job>, j: nat, k: nat, p: Path, d: Path)
    requires Separate(jobs) && j < |jobs| && k < |jobs| && j != k && Below(p, jobs[j].output) && jobs[k].output <= d
    ensures !(p <= d) && !(jobs[k].output <= p)
  {
    if p <= d {
      assert jobs[j].output <= d;
      PrefixesCompare(jobs[j].output, jobs[k].output, d);
    }
    if jobs[k].output <= p {
      PrefixesCompare(jobs[j].output, jobs[k].output, p);
    }
  }

  /** A leftover below an output is one of its own. */
  lemma OwnLeftover(t: Tree, jobs: seq<Job>, k: nat, p: Path)
    requires AllMendable(t, jobs) && k < |jobs| && jobs[k].output <= p && p in LeftIn(t, jobs)
    ensures p in Leftovers(t, jobs[k].wanted)
  {
    assert jobs[0..] == jobs;
    var j := LeftPlace(t, jobs, 0, p);
    if j != k {
      OtherOutput(jobs, j, k, p, p);
    }
  }

  lemma SomeLeft(t: Tree, jobs: seq<Job>, k: nat)
    requires k <= |jobs|
    ensures LeftIn(t, jobs[k..]) <= LeftIn(t, jobs)
    ensures k < |jobs| ==> LeftIn(t, jobs[k..]) == Leftovers(t, jobs[k].wanted) + LeftIn(t, jobs[k + 1..])
  {
    forall job | job in jobs[k..] ensures job in jobs {}
    if k < |jobs| {
      assert jobs[k..] == [jobs[k]] + jobs[k + 1..];
    }
  }

  // ---------------------------------------------------------------- the tree without leftovers

  lemma ClearOfLess(t: Tree, u: Tree, wanted: Wanted)
    requires Clear(t, wanted) && forall p :: p in u ==> p in t && t[p] == u[p]
    ensures Clear(u, wanted)
  {
    forall d | d in wanted ensures d != [] && ClearAt(u, wanted, d) { assert ClearAt(t, wanted, d); }
  }

  lemma RestIsWellFormed(t: Tree, gone: set<Path>)
    requires WellFormed(t) && forall p :: p in gone && p in t ==> t[p].Link?
    ensures WellFormed(t - gone)
  {}

  lemma LeftAreLinks(t: Tree, jobs: seq<Job>)
    requires AllMendable(t, jobs)
    ensures forall p :: p in LeftIn(t, jobs) ==> IsLink(t, p) && exists o :: o in Outputs(jobs) && Below(p, o)
  {
    assert jobs[0..] == jobs;
    forall p | p in LeftIn(t, jobs) ensures IsLink(t, p) && exists o :: o in Outputs(jobs) && Below(p, o) {
      var j := LeftPlace(t, jobs, 0, p);
    }
  }

  lemma ClearedDrifts(t: Tree, jobs: seq<Job>)
    requires AllMendable(t, jobs)
    ensures WellFormed(Cleared(t, jobs)) && Drift(t, Cleared(t, jobs), Outputs(jobs))
  {
    LeftAreLinks(t, jobs);
    RestIsWellFormed(t, LeftIn(t, jobs));
    WithoutDrifts(t, LeftIn(t, jobs), Outputs(jobs));
  }

  lemma ClearedLeadsAway(t: Tree, job: Job, outs: set<Path>, u: Tree, p: Path)
    requires Mendable(t, job, outs) && Drift(t, u, outs) && Same(t, u, p)
    requires IsLink(t, p) && Below(p, job.output) && p !in job.Keep() && p !in Leftovers(t, job.wanted)
    ensures LeadsAway(u, p, outs)
  {
    AncestorsAreDirs(t, p, job.output);
    assert p in LinksBelow(t, job.output) && ProperName(p[|p| - 1]);
    LeadsAwayUnderDrift(t, u, p, outs);
  }

  lemma ClearedJob(t: Tree, jobs: seq<Job>, k: nat)
    requires AllMendable(t, jobs) && k < |jobs|
    ensures Ready(Cleared(t, jobs), Freed(jobs[k]), Outputs(jobs))
  {
    var job, outs, u := jobs[k], Outputs(jobs), Cleared(t, jobs);
    assert job in jobs && Mendable(t, job, outs);
    ClearOfLess(t - Leftovers(t, job.wanted), u, job.wanted);
    ClearedDrifts(t, jobs);
    forall p | p in LinksBelow(u, job.output) && p !in job.Keep() ensures LeadsAway(u, p, outs) {
      ClearedLeadsAway(t, job, outs, u, p);
    }
  }

  lemma ClearedIsReady(t: Tree, jobs: seq<Job>)
    requires AllMendable(t, jobs)
    ensures WellFormed(Cleared(t, jobs)) && AllReady(Cleared(t, jobs), FreedAll(jobs)) && Separate(FreedAll(jobs))
  {
    var freed := FreedAll(jobs);
    FreedAreSeparate(jobs);
    ClearedDrifts(t, jobs);
    forall job | job in freed ensures Ready(Cleared(t, jobs), job, Outputs(freed)) {
      var k :| 0 <= k < |freed| && freed[k] == job;
      ClearedJob(t, jobs, k);
    }
  }

  // ---------------------------------------------------------------- on the way

  /** u is r, and more at these places, as in t. */
  ghost predicate With(r: Tree, u: Tree, t: Tree, more: set<Path>) {
    forall p :: Same(if p in more then t else r, u, p)
  }

  /** What the first k jobs make of the cleared tree. */
  ghost function ClearedAt(t: Tree, jobs: seq<Job>, k: nat): Tree
    requires k <= |jobs|
  {
    RunJobs(Cleared(t, jobs), FreedAll(jobs)[..k])
  }

  /** Of the leftovers, those of the jobs still to come are there. */
  ghost predicate Midway(t: Tree, jobs: seq<Job>, k: nat, u: Tree) {
    k <= |jobs| && With(ClearedAt(t, jobs, k), u, t, LeftIn(t, jobs[k..]))
  }

  /** What is known of a job whose turn is still to come. */
  lemma ClearedLater(t: Tree, jobs: seq<Job>, k: nat, j: nat)
    requires AllMendable(t, jobs) && k <= j < |jobs|
    ensures var c, r := Cleared(t, jobs), ClearedAt(t, jobs, k);
            && WellFormed(r) && Drift(t, r, Outputs(jobs)) && Ready(r, Freed(jobs[j]), Outputs(jobs))
            && forall p :: jobs[j].output <= p ==> Same(c, r, p)
  {
    var c, freed := Cleared(t, jobs), FreedAll(jobs);
    ClearedIsReady(t, jobs);
    FreedAreSeparate(jobs);
    assert freed[..k] + freed[k..] == freed && freed[k..][j - k] == freed[j];
    ReadyLater(c, freed, freed[..k], freed[k..], freed[j]);
    ClearedDrifts(t, jobs);
    DriftTransitive(t, c, ClearedAt(t, jobs, k), Outputs(jobs));
  }

  /** A leftover whose turn is still to come is not in the cleared tree, but the directory it is in is. */
  lemma LeftIsMissing(t: Tree, jobs: seq<Job>, k: nat, p: Path)
    requires AllMendable(t, jobs) && k <= |jobs| && p in LeftIn(t, jobs[k..])
    ensures var r := ClearedAt(t, jobs, k); p !in r && p != [] && Normal(p) && IsDir(r, Parent(p))
    ensures IsLink(t, p) && exists o :: o in Outputs(jobs) && Below(p, o)
  {
    var j := LeftPlace(t, jobs, k, p);
    var c, r := Cleared(t, jobs), ClearedAt(t, jobs, k);
    SomeLeft(t, jobs, k);
    ClearedLater(t, jobs, k, j);
    assert p !in c && Same(c, r, p);
    LinkIsNoParent(t, jobs, Parent(p));
    assert jobs[j].output <= Parent(p) && Same(c, r, Parent(p));
  }

  lemma LinkIsNoParent(t: Tree, jobs: seq<Job>, q: Path)
    requires AllMendable(t, jobs) && IsDir(t, q)
    ensures IsDir(Cleared(t, jobs), q)
  {
    LeftAreLinks(t, jobs);
  }

  lemma WithWellFormed(r: Tree, u: Tree, t: Tree, more: set<Path>)
    requires WellFormed(r) && With(r, u, t, more)
    requires forall p :: p in more ==> p in t && p !in r && p != [] && Normal(p) && IsDir(r, Parent(p))
    ensures WellFormed(u)
  {
    forall p ensures p in u ==> p in r || p in more { assert Same(if p in more then t else r, u, p); }
    forall p | p in r ensures p in u && u[p] == r[p] { assert Same(if p in more then t else r, u, p); }
  }

  lemma WithDrifts(r: Tree, u: Tree, t: Tree, more: set<Path>, outs: set<Path>)
    requires With(r, u, t, more) && forall p :: p in more ==> exists o :: o in outs && Below(p, o)
    ensures Drift(r, u, outs)
  {
    forall q | !Same(r, u, q) ensures exists o :: o in outs && (Below(q, o) || (q <= o && q !in r && IsDir(u, q))) {
      assert Same(if q in more then t else r, u, q);
    }
  }

  lemma MidwayTree(t: Tree, jobs: seq<Job>, k: nat, u: Tree)
    requires AllMendable(t, jobs) && k < |jobs| && Midway(t, jobs, k, u)
    ensures WellFormed(u) && Drift(t, u, Outputs(jobs))
  {
    var r, more := ClearedAt(t, jobs, k), LeftIn(t, jobs[k..]);
    ClearedLater(t, jobs, k, k);
    forall p | p in more
      ensures IsLink(t, p) && p !in r && p != [] && Normal(p) && IsDir(r, Parent(p))
      ensures exists o :: o in Outputs(jobs) && Below(p, o)
    {
      LeftIsMissing(t, jobs, k, p);
    }
    WithWellFormed(r, u, t, more);
    WithDrifts(r, u, t, more, Outputs(jobs));
    DriftTransitive(t, r, u, Outputs(jobs));
  }

  /** The output whose turn it is is as it was. */
  lemma MidwaySame(t: Tree, jobs: seq<Job>, k: nat, u: Tree, p: Path)
    requires AllMendable(t, jobs) && k < |jobs| && Midway(t, jobs, k, u) && jobs[k].output <= p
    ensures Same(t, u, p)
  {
    var r, more := ClearedAt(t, jobs, k), LeftIn(t, jobs[k..]);
    assert Same(if p in more then t else r, u, p);
    if p !in more {
      SomeLeft(t, jobs, k);
      if p in LeftIn(t, jobs) {
        OwnLeftover(t, jobs, k, p);
      }
      ClearedLater(t, jobs, k, k);
      assert Same(Cleared(t, jobs), r, p);
    }
  }

  // ---------------------------------------------------------------- one job in its turn

  lemma TmpIsBelow(job: Job, p: Path)
    requires Proper(job) && IsTmp(p) && Untmp(p) in job.wanted
    ensures Below(p, job.output)
  {
    UntmpAndBack(p);
    assert Below(Untmp(p), job.output) && job.output <= Parent(p);
  }

  lemma SameLeftovers(t: Tree, u: Tree, job: Job)
    requires Proper(job) && forall p :: job.output <= p ==> Same(t, u, p)
    ensures Leftovers(u, job.wanted) == Leftovers(t, job.wanted)
  {
    forall p ensures p in Leftovers(u, job.wanted) <==> p in Leftovers(t, job.wanted) {
      if IsTmp(p) && Untmp(p) in job.wanted {
        TmpIsBelow(job, p);
        assert Same(t, u, p);
      }
    }
  }

  lemma DriftWithout(t: Tree, u: Tree, gone: set<Path>, outs: set<Path>)
    requires Drift(t, u, outs)
    ensures Drift(t - gone, u - gone, outs)
  {
    forall q | !Same(t - gone, u - gone, q)
      ensures exists o :: o in outs && (Below(q, o) || (q <= o && q !in t - gone && IsDir(u - gone, q)))
    {
      assert !Same(t, u, q);
    }
  }

  lemma LinkableUnderDrift(t: Tree, u: Tree, job: Job, outs: set<Path>)
    requires Linkable(t, job.wanted) && Proper(job) && Drift(t, u, outs) && Apart(job.output, outs)
    requires forall p :: job.output <= p ==> Same(t, u, p)
    ensures Linkable(u, job.wanted)
  {
    var gone := Leftovers(t, job.wanted);
    SameLeftovers(t, u, job);
    DriftWithout(t, u, gone, outs);
    forall p | job.output <= p ensures Same(t - gone, u - gone, p) { assert Same(t, u, p); }
    ClearUnderDrift(t - gone, u - gone, job, outs);
    forall p | p in gone ensures u[p].Link? {
      LeftoverPlace(t, job, p);
      assert Same(t, u, p);
    }
  }

  lemma StillDoomed(t: Tree, u: Tree, job: Job, outs: set<Path>, p: Path)
    requires Mendable(t, job, outs) && Drift(t, u, outs) && p in Leftovers(t, job.wanted) && Same(t, u, p)
    ensures p != [] && IsLink(u, p) && LeftoverDoomed(u, job, outs, p)
  {
    LeftoverPlace(t, job, p);
    assert ProperName(Name(p));
    if !Owned(p, t[p].raw, job.root) {
      LiveUnderDrift(t, u, p, outs);
      LeadsAwayUnderDrift(t, u, p, outs);
    }
  }

  /** A job stays mendable while only other outputs change. */
  lemma MendableLater(t: Tree, u: Tree, job: Job, outs: set<Path>)
    requires Mendable(t, job, outs) && WellFormed(u) && Drift(t, u, outs) && Apart(job.output, outs)
    requires forall p :: job.output <= p ==> Same(t, u, p)
    ensures Mendable(u, job, outs)
  {
    SameLeftovers(t, u, job);
    LinkableUnderDrift(t, u, job, outs);
    forall p | p in LinksBelow(u, job.output) && p !in job.Keep() && p !in Leftovers(u, job.wanted)
      ensures LeadsAway(u, p, outs)
    {
      assert Same(t, u, p);
      ClearedLeadsAway(t, job, outs, u, p);
    }
    forall p | p in Leftovers(u, job.wanted) ensures p != [] && IsLink(u, p) && LeftoverDoomed(u, job, outs, p) {
      LeftoverPlace(t, job, p);
      StillDoomed(t, u, job, outs, p);
    }
  }

  /** The job finds in its turn what it would have found at the start. */
  lemma MendableInTurn(t: Tree, jobs: seq<Job>, k: nat, u: Tree)
    requires AllMendable(t, jobs) && k < |jobs| && Midway(t, jobs, k, u)
    ensures Mendable(u, jobs[k], Outputs(jobs)) && Drift(t, u, Outputs(jobs)) && Mendable(t, jobs[k], Outputs(jobs))
    ensures forall p :: jobs[k].output <= p ==> Same(t, u, p)
  {
    assert jobs[k] in jobs;
    MidwayTree(t, jobs, k, u);
    ApartMember(jobs, jobs[k]);
    forall p | jobs[k].output <= p ensures Same(t, u, p) { MidwaySame(t, jobs, k, u, p); }
    MendableLater(t, u, jobs[k], Outputs(jobs));
  }

  // ---------------------------------------------------------------- the guard

  lemma SameOver(t: Tree, u: Tree, job: Job, p: Path)
    requires Proper(job) && job.output <= p && forall q :: job.output <= q ==> Same(t, u, q)
    ensures Same(LinkedOver(t, job.wanted), LinkedOver(u, job.wanted), p)
  {
    assert Same(t, u, p);
    if IsTmp(p) && Untmp(p) in job.wanted {
      assert Below(Untmp(p), job.output) && Same(t, u, Untmp(p));
    }
    assert p in Used(t, job.wanted) <==> p in Used(u, job.wanted);
  }

  lemma SameLinksOver(t: Tree, u: Tree, job: Job)
    requires Proper(job) && forall q :: job.output <= q ==> Same(t, u, q)
    ensures var a, b := LinkedOver(t, job.wanted), LinkedOver(u, job.wanted);
            && (forall p :: job.output <= p ==> Same(a, b, p)) && IsDir(a, job.output) == IsDir(b, job.output)
            && LinksBelow(a, job.output) == LinksBelow(b, job.output)
  {
    forall p | job.output <= p ensures Same(LinkedOver(t, job.wanted), LinkedOver(u, job.wanted), p) {
      SameOver(t, u, job, p);
    }
    assert Same(LinkedOver(t, job.wanted), LinkedOver(u, job.wanted), job.output);
    SameLinksBelow(LinkedOver(t, job.wanted), LinkedOver(u, job.wanted), job.output);
  }

  lemma SameVerdictLater(t: Tree, u: Tree, job: Job, outs: set<Path>, p: Path)
    requires Mendable(t, job, outs) && Mendable(u, job, outs) && Drift(t, u, outs)
    requires Below(p, job.output) && forall q :: job.output <= q ==> Same(t, u, q)
    ensures p in PlanOf(LinkedOver(t, job.wanted), job) <==> p in PlanOf(LinkedOver(u, job.wanted), job)
  {
    var a, b := LinkedOver(t, job.wanted), LinkedOver(u, job.wanted);
    SameLinksOver(t, u, job);
    SameLeftovers(t, u, job);
    assert Same(a, b, p);
    if p in Leftovers(t, job.wanted) {
      if p in a {
        LeftoverIsPlanned(t, job, outs, p);
        LeftoverIsPlanned(u, job, outs, p);
      }
    } else {
      OverDrifts(t, job, outs, Used(t, job.wanted));
      OverDrifts(u, job, outs, Used(u, job.wanted));
      DriftTransitive(t, u, b, outs);
      if IsLink(a, p) && p !in job.Keep() {
        OtherLink(t, job, outs, p);
      }
      VerdictAlike(t, job, outs, a, b, p);
    }
  }

  /** The guard says of a job in its turn what it would have said at the start. */
  lemma SameRefusal(t: Tree, u: Tree, job: Job, outs: set<Path>)
    requires Mendable(t, job, outs) && Mendable(u, job, outs) && Drift(t, u, outs)
    requires forall q :: job.output <= q ==> Same(t, u, q)
    ensures Blocked(LinkedOver(t, job.wanted), job) == Blocked(LinkedOver(u, job.wanted), job)
    ensures PlanOf(LinkedOver(t, job.wanted), job) == PlanOf(LinkedOver(u, job.wanted), job)
  {
    var a, b := LinkedOver(t, job.wanted), LinkedOver(u, job.wanted);
    SameLinksOver(t, u, job);
    forall p ensures p in PlanOf(a, job) <==> p in PlanOf(b, job) {
      if Below(p, job.output) {
        SameVerdictLater(t, u, job, outs, p);
      }
    }
    assert PlanOf(a, job) == PlanOf(b, job);
  }

  // ---------------------------------------------------------------- the whole run

  lemma ResultWith(r: Tree, x: Tree, t: Tree, more: set<Path>, job: Job, outs: set<Path>)
    requires WellFormed(r) && WellFormed(x) && Ready(r, job, outs) && Clear(x, job.wanted) && job.output in outs
    requires With(r, x, t, more) && Drift(r, x, outs)
    requires forall p :: p in more ==> p in t && !(job.output <= p)
    ensures With(JobResult(r, job), JobResult(x, job), t, more)
  {
    forall p | job.output <= p ensures Same(r, x, p) { assert Same(if p in more then t else r, x, p); }
    JobIsLocal(r, x, job, outs);
    forall p ensures Same(if p in more then t else JobResult(r, job), JobResult(x, job), p) {
      assert Same(if p in more then t else r, x, p);
      if !(job.output <= p) {
        ResultElsewhere(r, job, p);
        ResultElsewhere(x, job, p);
      }
    }
  }

  lemma MinusLeft(r: Tree, u: Tree, t: Tree, more: set<Path>, here: set<Path>)
    requires With(r, u, t, here + more) && here !! more && forall p :: p in here ==> p !in r
    ensures With(r, u - here, t, more)
  {
    forall p ensures Same(if p in more then t else r, u - here, p) {
      assert Same(if p in here + more then t else r, u, p);
    }
  }

  lemma LaterLeftAreElsewhere(t: Tree, jobs: seq<Job>, k: nat, p: Path)
    requires AllMendable(t, jobs) && k < |jobs| && p in LeftIn(t, jobs[k + 1..])
    ensures p in t && !(jobs[k].output <= p) && p !in Leftovers(t, jobs[k].wanted)
    ensures exists o :: o in Outputs(jobs) && Below(p, o)
  {
    var j := LeftPlace(t, jobs, k + 1, p);
    OtherOutput(jobs, j, k, p, jobs[k].output);
    if p in Leftovers(t, jobs[k].wanted) {
      assert jobs[k] in jobs;
      LeftoverPlace(t, jobs[k], p);
    }
  }

  /** Without its own leftovers, the tree a job finds is the cleared one with those of later jobs. */
  lemma WithoutOwn(t: Tree, jobs: seq<Job>, k: nat, u: Tree)
    requires AllMendable(t, jobs) && k < |jobs| && Midway(t, jobs, k, u)
    ensures With(ClearedAt(t, jobs, k), u - Leftovers(t, jobs[k].wanted), t, LeftIn(t, jobs[k + 1..]))
  {
    var here, more := Leftovers(t, jobs[k].wanted), LeftIn(t, jobs[k + 1..]);
    SomeLeft(t, jobs, k);
    forall p | p in more ensures p !in here { LaterLeftAreElsewhere(t, jobs, k, p); }
    forall p | p in here ensures p !in ClearedAt(t, jobs, k) { LeftIsMissing(t, jobs, k, p); }
    MinusLeft(ClearedAt(t, jobs, k), u, t, more, here);
  }

  lemma ClearedNext(t: Tree, jobs: seq<Job>, k: nat)
    requires k < |jobs|
    ensures ClearedAt(t, jobs, k + 1) == JobResult(ClearedAt(t, jobs, k), Freed(jobs[k]))
  {
    var freed := FreedAll(jobs);
    assert freed[..k + 1] == freed[..k] + [freed[k]];
    RunOneMore(Cleared(t, jobs), freed[..k], freed[k]);
  }

  lemma NextIsMidway(t: Tree, jobs: seq<Job>, k: nat, u: Tree)
    requires AllMendable(t, jobs) && k < |jobs| && Midway(t, jobs, k, u)
    requires Mendable(u, jobs[k], Outputs(jobs)) && Leftovers(u, jobs[k].wanted) == Leftovers(t, jobs[k].wanted)
    ensures Midway(t, jobs, k + 1, JobResult(u - Leftovers(u, jobs[k].wanted), Freed(jobs[k])))
  {
    var job, outs, more := jobs[k], Outputs(jobs), LeftIn(t, jobs[k + 1..]);
    var r, x := ClearedAt(t, jobs, k), u - Leftovers(u, job.wanted);
    RestIsWellFormed(u, Leftovers(u, job.wanted));
    WithoutOwn(t, jobs, k, u);
    ClearedLater(t, jobs, k, k);
    forall p | p in more ensures p in t && !(job.output <= p) && exists o :: o in outs && Below(p, o) {
      LaterLeftAreElsewhere(t, jobs, k, p);
    }
    WithDrifts(r, x, t, more, outs);
    ResultWith(r, x, t, more, Freed(job), outs);
    ClearedNext(t, jobs, k);
  }

  lemma MidwayStep(t: Tree, jobs: seq<Job>, k: nat, u: Tree)
    requires AllMendable(t, jobs) && NoneRefused(t, jobs) && k < |jobs| && Midway(t, jobs, k, u)
    ensures Linkable(u, jobs[k].wanted) && Midway(t, jobs, k + 1, OverResult(u, jobs[k]))
  {
    var job, outs := jobs[k], Outputs(jobs);
    assert job in jobs;
    MendableInTurn(t, jobs, k, u);
    SameRefusal(t, u, job, outs);
    JobMends(u, job, outs);
    SameLeftovers(t, u, job);
    NextIsMidway(t, jobs, k, u);
  }

  lemma {:induction false} RunIsMidway(t: Tree, jobs: seq<Job>, k: nat)
    requires AllMendable(t, jobs) && NoneRefused(t, jobs) && k <= |jobs|
    ensures Midway(t, jobs, k, RunOver(t, jobs[..k]))
    ensures k < |jobs| ==> Linkable(RunOver(t, jobs[..k]), jobs[k].wanted)
  {
    if k == 0 {
      assert jobs[0..] == jobs;
      forall p ensures Same(if p in LeftIn(t, jobs) then t else Cleared(t, jobs), t, p) {}
    } else {
      assert jobs[..k][..k - 1] == jobs[..k - 1];
      RunIsMidway(t, jobs, k - 1);
      MidwayStep(t, jobs, k - 1, RunOver(t, jobs[..k - 1]));
    }
    if k < |jobs| {
      MidwayStep(t, jobs, k, RunOver(t, jobs[..k]));
    }
  }

  lemma NothingWith(r: Tree, u: Tree, t: Tree, none: set<Path>)
    requires With(r, u, t, none) && none == {}
    ensures u == r
  {
    forall p ensures Same(r, u, p) { assert Same(if p in none then t else r, u, p); }
    SameEverywhere(r, u);
  }

  lemma EndOfRun(t: Tree, jobs: seq<Job>)
    requires AllMendable(t, jobs) && NoneRefused(t, jobs)
    ensures RunOver(t, jobs) == RunJobs(Cleared(t, jobs), FreedAll(jobs))
  {
    RunIsMidway(t, jobs, |jobs|);
    assert jobs[..|jobs|] == jobs && FreedAll(jobs)[..|jobs|] == FreedAll(jobs);
    assert LeftIn(t, jobs[|jobs|..]) == {};
    NothingWith(RunJobs(Cleared(t, jobs), FreedAll(jobs)), RunOver(t, jobs), t, LeftIn(t, jobs[|jobs|..]));
  }

  /** Replacements that were never finished do not matter: a run that the guard does not refuse ends in the very tree in
      which it would end had they not been there, and finds every output ready to be linked in its turn. */
  lemma LeftoversDoNotMatter(t: Tree, jobs: seq<Job>)
    requires AllMendable(t, jobs) && NoneRefused(t, jobs)
    ensures RunOver(t, jobs) == RunJobs(Cleared(t, jobs), FreedAll(jobs))
    ensures WellFormed(Cleared(t, jobs)) && AllReady(Cleared(t, jobs), FreedAll(jobs)) && Separate(FreedAll(jobs))
    ensures forall k :: 0 <= k < |jobs| ==> Linkable(RunOver(t, jobs[..k]), jobs[k].wanted)
  {
    EndOfRun(t, jobs);
    ClearedIsReady(t, jobs);
    forall k | 0 <= k < |jobs| ensures Linkable(RunOver(t, jobs[..k]), jobs[k].wanted) { RunIsMidway(t, jobs, k); }
  }

  /** And none of them is left. */
  lemma NoneIsLeft(t: Tree, jobs: seq<Job>)
    requires AllMendable(t, jobs) && NoneRefused(t, jobs)
    ensures LeftIn(RunOver(t, jobs), jobs) == {}
  {
    var c, freed, v := Cleared(t, jobs), FreedAll(jobs), RunOver(t, jobs);
    LeftoversDoNotMatter(t, jobs);
    RunIsCombined(c, freed, Outputs(freed));
    forall job, p | job in jobs ensures p !in Leftovers(v, job.wanted) {
      var k :| 0 <= k < |jobs| && jobs[k] == job;
      assert freed[k] in freed;
      MemberReadyAgain(c, freed, v, freed[k]);
      NothingAtTmp(v, job.wanted, p);
    }
  }

  // ---------------------------------------------------------------- after a failed run

  ghost predicate IsWanted(jobs: seq<Job>, d: Path, raw: string) {
    exists job :: job in jobs && d in job.wanted && job.wanted[d] == raw
  }

  ghost predicate AboveWanted(jobs: seq<Job>, p: Path) {
    exists job :: job in jobs && p in Ancestors(job.wanted.Keys)
  }

  /** What a run for the jobs may have put at p, whatever has failed: nothing, a wanted link, at a temporary name the
      link it was to become, or a directory above a wanted link. */
  ghost predicate PlacedAt(t: Tree, u: Tree, jobs: seq<Job>, p: Path) {
    || Same(t, u, p) || p !in u
    || (IsLink(u, p) && IsWanted(jobs, p, u[p].raw))
    || (IsLink(u, p) && IsTmp(p) && IsWanted(jobs, Untmp(p), u[p].raw))
    || (IsDir(u, p) && AboveWanted(jobs, p))
  }

  ghost predicate Placed(t: Tree, u: Tree, jobs: seq<Job>) {
    forall p :: PlacedAt(t, u, jobs, p)
  }

  /** Links are made for the jobs only. */
  ghost predicate MadeFor(steps: seq<Step>, jobs: seq<Job>) {
    forall step :: step in steps && step.act.Make? ==> IsWanted(jobs, step.act.dest, step.act.raw)
  }

  lemma PlacedStep(t: Tree, u: Tree, v: Tree, act: Act, jobs: seq<Job>, p: Path)
    requires PlacedAt(t, u, jobs, p) && StepBy(u, v, act) && (act.Make? ==> IsWanted(jobs, act.dest, act.raw))
    ensures PlacedAt(t, v, jobs, p)
  {
    match act
    case Make(dest, raw) =>
      assert LinkStepAt(u, v, dest, raw, p);
      TmpAndBack(dest);
      if p < dest {
        var job :| job in jobs && dest in job.wanted && job.wanted[dest] == raw;
        assert p in Ancestors(job.wanted.Keys);
      }
    case Remove(output, links, root) =>
      assert RemovalStepAt(u, v, output, links, p);
  }

  lemma {:induction false} PlacedByRun(t: Tree, u: Tree, steps: seq<Step>, v: Tree, jobs: seq<Job>)
    requires Placed(t, u, jobs) && Reaches(u, steps, v) && MadeFor(steps, jobs)
    ensures Placed(t, v, jobs)
    decreases |steps|
  {
    if steps != [] {
      assert steps[0] in steps;
      forall p ensures PlacedAt(t, steps[0].after, jobs, p) {
        PlacedStep(t, u, steps[0].after, steps[0].act, jobs, p);
      }
      PlacedByRun(t, steps[0].after, steps[1..], v, jobs);
    }
  }

  /** Replacements in preparation point into the root, and are not among the links to be preserved. */
  ghost predicate OwnsItsLinks(job: Job) {
    forall d :: d in job.wanted && d != [] ==>
      TmpOf(d) !in job.preserve && Owned(TmpOf(d), job.wanted[d], job.root)
  }

  lemma OwnJob(jobs: seq<Job>, job: Job, other: Job, d: Path)
    requires Separate(jobs) && job in jobs && other in jobs && job.output <= d && other.output <= d
    ensures other == job
  {
    PrefixesCompare(job.output, other.output, d);
    SeparateMembers(jobs, job, other);
    SeparateMembers(jobs, other, job);
  }

  lemma UntmpIsBelow(jobs: seq<Job>, job: Job, other: Job, p: Path)
    requires Separate(jobs) && job in jobs && other in jobs && Proper(other) && job.output <= p
    requires IsTmp(p) && Untmp(p) in other.wanted
    ensures other == job
  {
    assert Below(Untmp(p), other.output) && other.output <= Parent(p) <= p;
    OwnJob(jobs, job, other, p);
  }

  /** What a run may have put at or below the output of a job. */
  lemma PlacedBelow(t: Tree, u: Tree, jobs: seq<Job>, job: Job, p: Path)
    requires Separate(jobs) && (forall j :: j in jobs ==> Proper(j)) && job in jobs && job.output <= p
    requires PlacedAt(t, u, jobs, p)
    ensures || Same(t, u, p) || p !in u
            || (IsLink(u, p) && p in job.wanted)
            || (p in Leftovers(u, job.wanted) && u[p] == Link(job.wanted[Untmp(p)]))
            || (IsDir(u, p) && p in Ancestors(job.wanted.Keys))
  {
    if !Same(t, u, p) && p in u {
      if IsLink(u, p) && IsWanted(jobs, p, u[p].raw) {
        var other :| other in jobs && p in other.wanted && other.wanted[p] == u[p].raw;
        OwnJob(jobs, job, other, p);
      } else if IsLink(u, p) {
        var other :| other in jobs && Untmp(p) in other.wanted && other.wanted[Untmp(p)] == u[p].raw;
        UntmpIsBelow(jobs, job, other, p);
      } else {
        var other :| other in jobs && p in Ancestors(other.wanted.Keys);
        var d :| d in other.wanted && p < d;
        OwnJob(jobs, job, other, d);
      }
    }
  }

  /** Neither a wanted link nor its temporary name is above a wanted link. */
  lemma NothingAbove(t: Tree, wanted: Wanted, d: Path, a: Path)
    requires Clear(t, wanted) && d in wanted && d != []
    ensures a in wanted ==> !(a < d)
    ensures IsTmp(a) && Untmp(a) in wanted ==> !(a <= d)
    ensures d !in Ancestors(wanted.Keys) && TmpOf(d) !in Ancestors(wanted.Keys) && TmpOf(d) !in wanted
  {
    assert ClearAt(t, wanted, d);
    if IsTmp(a) && Untmp(a) in wanted {
      UntmpAndBack(a);
      assert ClearAt(t, wanted, Untmp(a));
    }
    if a in wanted {
      assert a != [] && ClearAt(t, wanted, a);
    }
  }

  /** A link above a path below the output of a job has been made for that job. */
  lemma PlacedLinkAbove(u: Tree, jobs: seq<Job>, job: Job, d: Path, a: Path)
    requires Separate(jobs) && (forall j :: j in jobs ==> Proper(j)) && job in jobs
    requires job.output <= d && a <= d && IsLink(u, a)
    requires IsWanted(jobs, a, u[a].raw) || (IsTmp(a) && IsWanted(jobs, Untmp(a), u[a].raw))
    ensures a in job.wanted || (IsTmp(a) && Untmp(a) in job.wanted)
  {
    if IsWanted(jobs, a, u[a].raw) {
      var other :| other in jobs && a in other.wanted && other.wanted[a] == u[a].raw;
      OwnJob(jobs, job, other, d);
    } else {
      var other :| other in jobs && Untmp(a) in other.wanted && other.wanted[Untmp(a)] == u[a].raw;
      assert Below(Untmp(a), other.output) && other.output <= Parent(a) <= d;
      OwnJob(jobs, job, other, d);
    }
  }

  /** Above a wanted link there are directories only. */
  lemma PlacedAbove(t: Tree, u: Tree, jobs: seq<Job>, job: Job, d: Path, a: Path)
    requires Separate(jobs) && (forall j :: j in jobs ==> Proper(j)) && job in jobs
    requires Clear(t, job.wanted) && d in job.wanted && a < d && a in u && PlacedAt(t, u, jobs, a)
    ensures u[a].Dir?
  {
    assert d != [] && ClearAt(t, job.wanted, d);
    NothingAbove(t, job.wanted, d, a);
    if !Same(t, u, a) && IsLink(u, a) {
      PlacedLinkAbove(u, jobs, job, d, a);
    }
  }

  lemma RestIsClearAt(t: Tree, u: Tree, jobs: seq<Job>, job: Job, d: Path)
    requires Separate(jobs) && (forall j :: j in jobs ==> Proper(j)) && job in jobs
    requires Clear(t, job.wanted) && d in job.wanted && Placed(t, u, jobs)
    ensures d != [] && ClearAt(u - Leftovers(u, job.wanted), job.wanted, d)
  {
    assert d != [] && ClearAt(t, job.wanted, d);
    TmpAndBack(d);
    forall a | a < d && a in u ensures u[a].Dir? {
      assert PlacedAt(t, u, jobs, a);
      PlacedAbove(t, u, jobs, job, d, a);
    }
    assert PlacedAt(t, u, jobs, d);
    PlacedBelow(t, u, jobs, job, d);
    NothingAbove(t, job.wanted, d, d);
  }

  /** What sits at the temporary name of a wanted link after a failed run is the link it was to become. */
  lemma LeftoverText(t: Tree, u: Tree, jobs: seq<Job>, job: Job, p: Path)
    requires Separate(jobs) && (forall j :: j in jobs ==> Proper(j)) && job in jobs
    requires Clear(t, job.wanted) && PlacedAt(t, u, jobs, p) && p in Leftovers(u, job.wanted)
    ensures u[p] == Link(job.wanted[Untmp(p)]) && p !in job.wanted && Below(p, job.output)
  {
    var d := Untmp(p);
    UntmpAndBack(p);
    TmpIsBelow(job, p);
    assert ClearAt(t, job.wanted, d);
    NothingAbove(t, job.wanted, d, d);
    PlacedBelow(t, u, jobs, job, p);
  }

  lemma FoundBefore(t: Tree, u: Tree, jobs: seq<Job>, job: Job, p: Path)
    requires WellFormed(t) && Separate(jobs) && (forall j :: j in jobs ==> Proper(j)) && job in jobs
    requires AllLeadAway(t, job, Outputs(jobs)) && Drift(t, u, Outputs(jobs)) && PlacedAt(t, u, jobs, p)
    requires p in LinksBelow(u, job.output) && p !in job.Keep() && p !in Leftovers(u, job.wanted)
    ensures LeadsAway(u, p, Outputs(jobs))
  {
    PlacedBelow(t, u, jobs, job, p);
    assert Same(t, u, p);
    AncestorsAreDirs(t, p, job.output);
    assert p in LinksBelow(t, job.output) && ProperName(Name(p));
    LeadsAwayUnderDrift(t, u, p, Outputs(jobs));
  }

  lemma FailureIsMendableAt(t: Tree, u: Tree, jobs: seq<Job>, job: Job)
    requires WellFormed(t) && WellFormed(u) && Separate(jobs) && AllReady(t, jobs) && job in jobs && OwnsItsLinks(job)
    requires Placed(t, u, jobs) && Drift(t, u, Outputs(jobs))
    ensures Mendable(u, job, Outputs(jobs))
  {
    var outs, gone := Outputs(jobs), Leftovers(u, job.wanted);
    forall j | j in jobs ensures Proper(j) { assert Ready(t, j, outs); }
    assert Ready(t, job, outs) && job.output in outs;
    forall d | d in job.wanted ensures d != [] && ClearAt(u - gone, job.wanted, d) {
      RestIsClearAt(t, u, jobs, job, d);
    }
    forall p | p in gone ensures p != [] && IsLink(u, p) && LeftoverDoomed(u, job, outs, p) {
      assert PlacedAt(t, u, jobs, p);
      LeftoverText(t, u, jobs, job, p);
      UntmpAndBack(p);
    }
    forall p | p in LinksBelow(u, job.output) && p !in job.Keep() && p !in gone ensures LeadsAway(u, p, outs) {
      assert PlacedAt(t, u, jobs, p);
      FoundBefore(t, u, jobs, job, p);
    }
  }

  lemma PlacedIsMendable(t: Tree, u: Tree, jobs: seq<Job>)
    requires WellFormed(t) && WellFormed(u) && Separate(jobs) && AllReady(t, jobs)
    requires forall job :: job in jobs ==> OwnsItsLinks(job)
    requires Placed(t, u, jobs) && Drift(t, u, Outputs(jobs))
    ensures AllMendable(u, jobs)
  {
    forall job | job in jobs ensures Mendable(u, job, Outputs(jobs)) { FailureIsMendableAt(t, u, jobs, job); }
  }

  /** Whatever fails in a run from a tree in which all was ready, or in several runs, the next one can put it right. */
  lemma FailureIsMendable(t: Tree, steps: seq<Step>, u: Tree, jobs: seq<Job>)
    requires WellFormed(t) && WellFormed(u) && Separate(jobs) && AllReady(t, jobs)
    requires forall job :: job in jobs ==> OwnsItsLinks(job)
    requires Reaches(t, steps, u) && MadeFor(steps, jobs) && Drift(t, u, Outputs(jobs))
    ensures AllMendable(u, jobs)
  {
    PlacedByRun(t, t, steps, u, jobs);
    PlacedIsMendable(t, u, jobs);
  }
}
