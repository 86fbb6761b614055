/** What becomes of each output when others fail, and what no failure can do to it. */
module Outcomes {
  import opened Paths
  import opened Trees
  import opened Reconcile
  import opened Replacements
  import opened Symlinks
  import opened Safety
  import opened Interference
  import opened Linking
  import opened Mending

  // ---------------------------------------------------------------- one output among others

  /** The last output of a chain in its barest terms. */
  lemma ChainBack(t: Tree, steps: seq<Step>, u: Tree, jobs: seq<Job>, reports: seq<Report>, dryRun: bool)
      returns (first: seq<Step>, mid: Tree, last: seq<Step>, front: seq<Report>)
    requires Chained(t, steps, u, jobs, reports, dryRun) && reports != []
    ensures steps == first + last && front == reports[..|reports| - 1] && |reports| <= |jobs|
    ensures Chained(t, first, mid, jobs, front, dryRun) && Reaches(mid, last, u)
    ensures forall step :: step in last ==> Serves(step.act, jobs[|front|])
  {
    var report, job;
    first, mid, last, front, report, job := LastOfChain(t, steps, u, jobs, reports, dryRun);
    assert (front + [report])[..|front|] == front;
  }

  /** The first outputs of a chain, those of prefix, and the steps after them. */
  lemma {:induction false} ChainUpto(t: Tree, steps: seq<Step>, u: Tree, jobs: seq<Job>, reports: seq<Report>,
                                     prefix: seq<Report>, dryRun: bool)
      returns (first: seq<Step>, mid: Tree, rest: seq<Step>)
    requires Chained(t, steps, u, jobs, reports, dryRun) && prefix <= reports
    ensures steps == first + rest && |prefix| <= |jobs| && Chained(t, first, mid, jobs, prefix, dryRun)
    ensures Reaches(mid, rest, u) && AllServe(rest, jobs[|prefix|..])
    decreases |reports|
  {
    if |prefix| == |reports| {
      assert steps == steps + [] && prefix == reports;
      return steps, u, [];
    }
    var before, end, last, front := ChainBack(t, steps, u, jobs, reports, dryRun);
    var after;
    first, mid, after := ChainUpto(t, before, end, jobs, front, prefix, dryRun);
    rest := RestGrows(steps, before, first, after, last, mid, end, u, jobs, |prefix|, |front|);
  }

  lemma RestGrows(steps: seq<Step>, before: seq<Step>, first: seq<Step>, after: seq<Step>, last: seq<Step>, mid: Tree,
                  end: Tree, u: Tree, jobs: seq<Job>, n: nat, k: nat)
      returns (rest: seq<Step>)
    requires steps == before + last && before == first + after && n <= k < |jobs|
    requires Reaches(mid, after, end) && AllServe(after, jobs[n..])
    requires Reaches(end, last, u) && forall step :: step in last ==> Serves(step.act, jobs[k])
    ensures steps == first + rest && Reaches(mid, rest, u) && AllServe(rest, jobs[n..])
  {
    rest := after + last;
    assert steps == first + rest;
    ReachesOn(mid, after, end, last, u);
    assert jobs[n..][k - n] == jobs[k];
  }

  /** The turn of the k-th output: the steps before it, its own, which lead from mid to next, and the steps after it. */
  lemma TurnInChain(t: Tree, steps: seq<Step>, u: Tree, jobs: seq<Job>, reports: seq<Report>, k: nat, dryRun: bool)
      returns (first: seq<Step>, mid: Tree, here: seq<Step>, next: Tree, rest: seq<Step>)
    requires Chained(t, steps, u, jobs, reports, dryRun) && k < |reports|
    ensures steps == first + here + rest && k < |jobs| && Chained(t, first, mid, jobs, reports[..k], dryRun)
    ensures WellFormed(next) && (dryRun ==> next == mid) && Reaches(mid, here, next)
    ensures forall step :: step in here ==> Serves(step.act, jobs[k])
    ensures ToldTruly(mid, here, jobs[k], reports[k], dryRun) && SweptLast(mid, here, jobs[k], reports[k])
    ensures reports[k].faults == 0 ==> EndedWell(mid, next, jobs[k], reports[k], dryRun)
    ensures dryRun ==> reports[k].faults == 0
    ensures Reaches(next, rest, u) && AllServe(rest, jobs[k + 1..])
  {
    var prefix := FirstOnes(reports, k);
    var upto;
    upto, next, rest := ChainUpto(t, steps, u, jobs, reports, prefix, dryRun);
    var front, report, job;
    first, mid, here, front, report, job := LastOfChain(t, upto, next, jobs, prefix, dryRun);
    SameEnds(front, report, reports[..k], reports[k]);
  }

  lemma FirstOnes<T>(s: seq<T>, k: nat) returns (prefix: seq<T>)
    requires k < |s|
    ensures prefix == s[..k] + [s[k]] && prefix <= s && |prefix| == k + 1
  {
    prefix := s[..k + 1];
    assert prefix == s[..k] + [s[k]];
  }

  lemma SameEnds<T>(a: seq<T>, x: T, b: seq<T>, y: T)
    requires a + [x] == b + [y]
    ensures a == b && x == y
  {
    assert (a + [x])[|a|] == x && (b + [y])[|b|] == y;
    assert a == (a + [x])[..|a|] && b == (b + [y])[..|b|];
  }

  lemma {:induction false} FewerJobs(t: Tree, steps: seq<Step>, u: Tree, jobs: seq<Job>, reports: seq<Report>, n: nat,
                                     dryRun: bool)
    requires Chained(t, steps, u, jobs, reports, dryRun) && |reports| <= n <= |jobs|
    ensures Chained(t, steps, u, jobs[..n], reports, dryRun)
    decreases |reports|
  {
    if reports != [] {
      var m := LastCut(steps, reports);
      FewerJobs(t, steps[..m], TreeAfter(t, steps[..m]), jobs, reports[..|reports| - 1], n, dryRun);
    }
  }

  lemma {:induction false} MoreJobs(t: Tree, steps: seq<Step>, u: Tree, jobs: seq<Job>, reports: seq<Report>,
                                    more: seq<Job>, dryRun: bool)
    requires Chained(t, steps, u, jobs, reports, dryRun)
    ensures Chained(t, steps, u, jobs + more, reports, dryRun)
    decreases |reports|
  {
    if reports != [] {
      var m := LastCut(steps, reports);
      MoreJobs(t, steps[..m], TreeAfter(t, steps[..m]), jobs, reports[..|reports| - 1], more, dryRun);
    }
  }

  lemma CutsOn(t: Tree, first: seq<Step>, u: Tree, jobs: seq<Job>, done: seq<Report>, second: seq<Step>,
               others: seq<Job>, reports: seq<Report>)
    requires TreeAfter(t, first) == u && |done| == |jobs| && 0 < |reports| <= |others| && 0 <= LastCut(second, reports)
    ensures var m, k, n := LastCut(second, reports), |reports| - 1, LastCut(first + second, done + reports);
            && n == |first| + m && (first + second)[..n] == first + second[..m] && (first + second)[n..] == second[m..]
            && TreeAfter(t, first + second[..m]) == TreeAfter(u, second[..m])
            && (done + reports)[..|done + reports| - 1] == done + reports[..k]
            && (done + reports)[|done + reports| - 1] == reports[k]
            && (jobs + others)[|done + reports| - 1] == others[k]
  {}

  /** Chains can be joined. */
  lemma {:induction false} ChainOn(t: Tree, first: seq<Step>, u: Tree, jobs: seq<Job>, done: seq<Report>,
                                   second: seq<Step>, v: Tree, others: seq<Job>, reports: seq<Report>, dryRun: bool)
    requires Chained(t, first, u, jobs, done, dryRun) && |done| == |jobs| && TreeAfter(t, first) == u
    requires Chained(u, second, v, others, reports, dryRun)
    ensures Chained(t, first + second, v, jobs + others, done + reports, dryRun)
    decreases |reports|
  {
    if reports == [] {
      MoreJobs(t, first, u, jobs, done, others, dryRun);
      assert first + second == first && done + reports == done;
    } else {
      var m, k := LastCut(second, reports), |reports| - 1;
      ChainOn(t, first, u, jobs, done, second[..m], TreeAfter(u, second[..m]), others, reports[..k], dryRun);
      CutsOn(t, first, u, jobs, done, second, others, reports);
    }
  }

  lemma ChainIsWellFormed(t: Tree, steps: seq<Step>, u: Tree, jobs: seq<Job>, reports: seq<Report>, dryRun: bool)
    requires Chained(t, steps, u, jobs, reports, dryRun) && WellFormed(t)
    ensures WellFormed(u)
  {}

  /** Where the guard refuses, nothing goes, whatever fails: what the sweep finds it leaves, the steps for the output
      have removed no link, and none is reported. first, here, rest: the steps before, for and after the output. */
  lemma RefusalRemovesNothing(t: Tree, steps: seq<Step>, u: Tree, jobs: seq<Job>, reports: seq<Report>, k: nat)
      returns (first: seq<Step>, here: seq<Step>, rest: seq<Step>)
    requires Chained(t, steps, u, jobs, reports, false) && k < |reports|
    ensures steps == first + here + rest && here != [] && k < |jobs|
    ensures var found := TreeAfter(t, first);
            var linked := TreeAfter(found, here[..|here| - 1]);
            && reports[k].blocked == Blocked(linked, jobs[k])
            && (reports[k].blocked ==>
                  reports[k].removed == [] && DeedsOf(found, here).removed == multiset{} &&
                  here[|here| - 1].after == linked)
  {
    var mid, next;
    first, mid, here, next, rest := TurnInChain(t, steps, u, jobs, reports, k, false);
    ChainServes(t, first, mid, jobs, reports[..k], false);
    EndOfSteps(t, first, mid);
  }

  // ---------------------------------------------------------------- links that are expected or preserved

  /** Every job whose output p lies in expects or preserves p, and p is no temporary name of a wanted link. */
  ghost predicate KeptBy(jobs: seq<Job>, p: Path) {
    forall job :: job in jobs ==> KeptByJob(job, p)
  }

  predicate KeptByJob(job: Job, p: Path) {
    (Below(p, job.output) ==> p in job.Keep()) && forall d :: d in job.wanted && d != [] ==> TmpOf(d) != p
  }

  ghost predicate WantedAs(jobs: seq<Job>, p: Path, raw: string) {
    exists job :: job in jobs && p in job.wanted && job.wanted[p] == raw
  }

  lemma KeptStep(t: Tree, u: Tree, act: Act, jobs: seq<Job>, job: Job, p: Path)
    requires StepBy(t, u, act) && Serves(act, job) && job in jobs && KeptBy(jobs, p) && IsLink(t, p)
    ensures IsLink(u, p) && (u[p] == t[p] || WantedAs(jobs, p, u[p].raw))
  {
    assert KeptByJob(job, p);
    match act
    case Make(dest, raw) =>
      assert LinkStepAt(t, u, dest, raw, p);
    case Remove(output, links, root) =>
      assert RemovalStepAt(t, u, output, links, p);
  }

  /** Whatever fails, an expected or preserved link never goes: it stays as it is, unless it is wanted with another
      text. */
  lemma {:induction false} KeptSurvives(t: Tree, steps: seq<Step>, u: Tree, jobs: seq<Job>, p: Path)
    requires Reaches(t, steps, u) && AllServe(steps, jobs) && KeptBy(jobs, p) && IsLink(t, p)
    ensures IsLink(u, p) && (u[p] == t[p] || WantedAs(jobs, p, u[p].raw))
    ensures (forall job :: job in jobs && p in job.wanted ==> t[p] == Link(job.wanted[p])) ==> Same(t, u, p)
    decreases |steps|
  {
    if steps != [] {
      assert steps[0] in steps;
      var job :| job in jobs && Serves(steps[0].act, job);
      KeptStep(t, steps[0].after, steps[0].act, jobs, job, p);
      KeptSurvives(steps[0].after, steps[1..], u, jobs, p);
    }
  }

  // ---------------------------------------------------------------- outputs in which nothing has failed

  /** What steps for other outputs leave of an output. */
  lemma OthersLeaveAlone(t: Tree, steps: seq<Step>, u: Tree, jobs: seq<Job>, job: Job, p: Path)
    requires Reaches(t, steps, u) && AllServe(steps, jobs) && job.output <= p
    requires forall j :: j in jobs ==> Proper(j) && !(j.output <= job.output) && !(job.output <= j.output)
    ensures Same(t, u, p)
  {
    OutputsDoNotInterfere(t, steps, u, jobs, job.output, p);
  }

  lemma ServedDrifts(t: Tree, steps: seq<Step>, u: Tree, jobs: seq<Job>, outs: set<Path>)
    requires Reaches(t, steps, u) && AllServe(steps, jobs) && Outputs(jobs) <= outs
    requires forall j :: j in jobs ==> Proper(j)
    ensures Drift(t, u, outs)
  {
    forall step | step in steps ensures Confined(step.act, outs) {
      var job :| job in jobs && Serves(step.act, job);
      assert job.output in Outputs(jobs);
    }
    OnlyOutputsChange(t, steps, u, outs);
  }

  lemma OthersAreApart(jobs: seq<Job>, k: nat)
    requires Separate(jobs) && k < |jobs|
    ensures forall j :: j in jobs[..k] || j in jobs[k + 1..] ==>
              j in jobs && !(j.output <= jobs[k].output) && !(jobs[k].output <= j.output)
  {
    forall j | j in jobs[..k] || j in jobs[k + 1..]
      ensures j in jobs && !(j.output <= jobs[k].output) && !(jobs[k].output <= j.output)
    {
      var i :| 0 <= i < |jobs| && i != k && jobs[i] == j;
    }
  }

  /** What a job finds in its turn, after steps for others: its own output as it was. */
  lemma FoundInTurn(t: Tree, first: seq<Step>, mid: Tree, jobs: seq<Job>, k: nat)
    requires Separate(jobs) && k < |jobs| && (forall j :: j in jobs ==> Proper(j))
    requires Reaches(t, first, mid) && AllServe(first, jobs[..k])
    ensures Drift(t, mid, Outputs(jobs)) && Apart(jobs[k].output, Outputs(jobs))
    ensures forall p :: jobs[k].output <= p ==> Same(t, mid, p)
  {
    var job, outs := jobs[k], Outputs(jobs);
    OthersAreApart(jobs, k);
    forall p | job.output <= p ensures Same(t, mid, p) { OthersLeaveAlone(t, first, mid, jobs[..k], job, p); }
    assert Outputs(jobs[..k]) <= outs;
    ServedDrifts(t, first, mid, jobs[..k], outs);
    assert job in jobs;
    ApartMember(jobs, job);
  }

  /** The same links can be made, and the same ones are outdated. */
  lemma SameNeeds(t: Tree, mid: Tree, job: Job)
    requires Proper(job) && forall p :: job.output <= p ==> Same(t, mid, p)
    ensures Narrowed(mid, job) == Narrowed(t, job) && Proper(Narrowed(t, job))
    ensures var wanted := Feasible(t, job.wanted); Outdated(mid, wanted) == Outdated(t, wanted)
  {
    forall d | d in job.wanted ensures Same(t, mid, d) {}
  }

  lemma SameFindings(t: Tree, mid: Tree, job: Job, outs: set<Path>)
    requires Mendable(t, job, outs) && Mendable(mid, job, outs) && Drift(t, mid, outs)
    requires forall p :: job.output <= p ==> Same(t, mid, p)
    ensures var a, b := LinkedOver(t, job.wanted), LinkedOver(mid, job.wanted);
            Blocked(a, job) == Blocked(b, job) && PlanOf(a, job) == PlanOf(b, job) &&
            Condemned(a, job) == Condemned(b, job)
    ensures forall p :: job.output <= p ==> Same(OverResult(t, job), OverResult(mid, job), p)
  {
    var a, b := LinkedOver(t, job.wanted), LinkedOver(mid, job.wanted);
    SameRefusal(t, mid, job, outs);
    SameLinksOver(t, mid, job);
    SameSwept(a, b, job);
  }

  lemma SameSwept(a: Tree, b: Tree, job: Job)
    requires Blocked(a, job) == Blocked(b, job) && PlanOf(a, job) == PlanOf(b, job)
    requires forall p :: job.output <= p ==> Same(a, b, p)
    ensures forall p :: job.output <= p ==> Same(Swept(a, job), Swept(b, job), p)
  {
    SameMinus(a, b, PlanOf(a, job), job.output);
    forall p | job.output <= p ensures Same(Swept(a, job), Swept(b, job), p) {
      SamePruned(a - PlanOf(a, job), b - PlanOf(b, job), job.output, p);
    }
  }

  /** What a job makes of its output in its turn is what it would have made of it at the start, and so is its report. */
  lemma SameOutcome(t: Tree, first: seq<Step>, mid: Tree, next: Tree, jobs: seq<Job>, k: nat, report: Report)
    requires WellFormed(mid) && Separate(jobs) && k < |jobs| && (forall j :: j in jobs ==> Proper(j))
    requires Reaches(t, first, mid) && AllServe(first, jobs[..k])
    requires Mendable(t, Narrowed(t, jobs[k]), Outputs(jobs)) && EndedWell(mid, next, jobs[k], report, false)
    ensures TrueReport(t, Narrowed(t, jobs[k]), report, false)
    ensures forall p :: jobs[k].output <= p ==> Same(OverResult(t, Narrowed(t, jobs[k])), next, p)
  {
    var job, outs := Narrowed(t, jobs[k]), Outputs(jobs);
    FoundInTurn(t, first, mid, jobs, k);
    SameNeeds(t, mid, jobs[k]);
    MendableLater(t, mid, job, outs);
    SameFindings(t, mid, job, outs);
    DoneThere(t, mid, next, jobs[k], report);
  }

  lemma DoneThere(t: Tree, mid: Tree, next: Tree, whole: Job, report: Report)
    requires EndedWell(mid, next, whole, report, false) && Makeable(mid, whole.wanted)
    requires var job, a, b := Narrowed(t, whole), LinkedOver(t, Feasible(t, whole.wanted)),
                              LinkedOver(mid, Feasible(t, whole.wanted));
             && Narrowed(mid, whole) == job && Outdated(mid, job.wanted) == Outdated(t, job.wanted)
             && Blocked(a, job) == Blocked(b, job) && Condemned(a, job) == Condemned(b, job)
    ensures next == OverResult(mid, Narrowed(t, whole)) && TrueReport(t, Narrowed(t, whole), report, false)
  {}

  /** Every output in which nothing has failed is as its own job alone would have left it, and its report is true,
      whatever has failed in others. What stands in the way of a link is left alone; leftovers at temporary names do not
      matter. */
  lemma ExactWhereNothingFailed(t: Tree, steps: seq<Step>, u: Tree, jobs: seq<Job>, reports: seq<Report>, k: nat)
    requires Chained(t, steps, u, jobs, reports, false) && Separate(jobs) && k < |reports| <= |jobs|
    requires (forall j :: j in jobs ==> Proper(j)) && Mendable(t, Narrowed(t, jobs[k]), Outputs(jobs))
    requires reports[k].faults == 0
    ensures TrueReport(t, Narrowed(t, jobs[k]), reports[k], false)
    ensures forall p :: jobs[k].output <= p ==> Same(OverResult(t, Narrowed(t, jobs[k])), u, p)
  {
    var first, mid, here, next, rest := TurnInChain(t, steps, u, jobs, reports, k, false);
    PrefixServes(t, first, mid, jobs, reports[..k], false);
    ChainIsWellFormed(t, first, mid, jobs, reports[..k], false);
    SameOutcome(t, first, mid, next, jobs, k, reports[k]);
    LeftByOthers(OverResult(t, Narrowed(t, jobs[k])), next, rest, u, jobs, k);
  }

  lemma LeftByOthers(r: Tree, next: Tree, rest: seq<Step>, u: Tree, jobs: seq<Job>, k: nat)
    requires Separate(jobs) && k < |jobs| && (forall j :: j in jobs ==> Proper(j))
    requires Reaches(next, rest, u) && AllServe(rest, jobs[k + 1..])
    requires forall p :: jobs[k].output <= p ==> Same(r, next, p)
    ensures forall p :: jobs[k].output <= p ==> Same(r, u, p)
  {
    var output := jobs[k].output;
    OthersAreApart(jobs, k);
    forall p | output <= p ensures Same(r, u, p) {
      OthersLeaveAlone(next, rest, u, jobs[k + 1..], jobs[k], p);
      assert Same(r, next, p) && Same(next, u, p);
    }
  }

  lemma PrefixServes(t: Tree, first: seq<Step>, mid: Tree, jobs: seq<Job>, reports: seq<Report>, dryRun: bool)
    requires Chained(t, first, mid, jobs, reports, dryRun)
    ensures |reports| <= |jobs| && Reaches(t, first, mid) && AllServe(first, jobs[..|reports|])
  {
    FewerJobs(t, first, mid, jobs, reports, |reports|, dryRun);
    ChainServes(t, first, mid, jobs[..|reports|], reports, dryRun);
  }

  // ---------------------------------------------------------------- runs that are cut short

  /** Wherever a run is cut short, what it has done so far are steps that serve its jobs. */
  lemma {:induction false} CutShort(t: Tree, steps: seq<Step>, u: Tree, jobs: seq<Job>, n: nat)
    requires Reaches(t, steps, u) && AllServe(steps, jobs) && n <= |steps|
    ensures Reaches(t, steps[..n], TreeAfter(t, steps[..n])) && AllServe(steps[..n], jobs)
    decreases |steps|
  {
    if n > 0 {
      assert steps[0] in steps && steps[..n][1..] == steps[1..][..n - 1];
      CutShort(steps[0].after, steps[1..], u, jobs, n - 1);
    }
  }
}
