/** What a fault-free reconciliation of one output directory makes of a file tree.

    The methods that walk and change the tree step by step are proved against these
    functions; the promises of a scan (exactness, independence of history,
    idempotence, faithful dry runs, no interference) are proved here.
 */
module Reconcile {
  import opened Paths
  import opened Trees

  /** The text every wanted link must hold, by destination. */
  type Wanted = map<Path, string>

  const TMP_SUFFIX := ".boomarr-tmp"

  /** The name under which a replacement link is prepared. */
  function TmpName(name: string): string {
    "." + name + TMP_SUFFIX
  }

  function TmpOf(dest: Path): Path
    requires dest != []
  {
    Parent(dest) + [TmpName(Name(dest))]
  }

  /** Refuses mass deletions: more than minCount links and more than maxPercent of all links. */
  datatype Guard = Guard(maxPercent: real, minCount: nat) {
    predicate Blocks(removals: nat, existing: nat) {
      if removals <= minCount || existing == 0 then false
      else (removals * 100) as real / existing as real > maxPercent
    }
  }

  /** Refused is what exceeds both limits. */
  lemma BlocksExactly(guard: Guard, removals: nat, existing: nat)
    ensures guard.Blocks(removals, existing) <==>
            existing > 0 && removals > guard.minCount && (100 * removals) as real > guard.maxPercent * existing as real
  {
    if existing > 0 {
      QuotientExceeds((removals * 100) as real, existing as real, guard.maxPercent);
    }
  }

  lemma QuotientExceeds(x: real, y: real, limit: real)
    requires y > 0.0
    ensures x / y > limit <==> x > limit * y
  {
    assert x / y * y == x;
    if x / y > limit {
      assert (x / y - limit) * y > 0.0;
    } else {
      assert (limit - x / y) * y >= 0.0;
    }
  }

  /** Everything that decides the fate of one output directory. */
  datatype Job = Job(output: Path, wanted: Wanted, preserve: set<Path>, root: Path, guard: Option<Guard>) {
    function Keep(): set<Path> {
      wanted.Keys + preserve
    }
  }

  // ---------------------------------------------------------------- the three phases

  /** The proper ancestors of the given paths. */
  function Ancestors(paths: set<Path>): (r: set<Path>)
    ensures forall a :: a in r <==> exists d :: d in paths && a < d
  {
    var r := set d, i | d in paths && 0 <= i < |d| :: d[..i];
    assert forall a :: a in r ==> exists d :: d in paths && a < d;
    assert forall a, d :: d in paths && a < d ==> a in r by {
      forall a, d | d in paths && a < d ensures a in r { assert a == d[..|a|]; }
    }
    r
  }

  /** The tree after every wanted link has been made, with the directories it needs. */
  function AddLinks(t: Tree, wanted: Wanted): Tree {
    map p | p in t.Keys + wanted.Keys + Ancestors(wanted.Keys) ::
      if p in wanted then Link(wanted[p]) else if p in t then t[p] else Dir
  }

  function LinksBelow(t: Tree, output: Path): set<Path> {
    if IsDir(t, output) then set p | p in t && Below(p, output) && t[p].Link? else {}
  }

  /** A link that is not kept goes if it is broken or points into root. */
  predicate Doomed(t: Tree, p: Path, keep: set<Path>, root: Path)
    requires IsLink(t, p)
  {
    p !in keep && (!Live(t, p) || Owned(p, t[p].raw, root))
  }

  function Plan(t: Tree, output: Path, keep: set<Path>, root: Path): set<Path> {
    set p | p in LinksBelow(t, output) && Doomed(t, p, keep, root)
  }

  /** Some node that is not a directory lies below p. */
  ghost predicate Occupied(t: Tree, p: Path) {
    exists q :: q in t && p < q && !t[q].Dir?
  }

  /** The tree without the directories below output that hold nothing but directories. */
  ghost function Pruned(t: Tree, output: Path): Tree {
    if IsDir(t, output) then map p | p in t && !(Below(p, output) && t[p].Dir? && !Occupied(t, p)) :: t[p] else t
  }

  function PlanOf(t: Tree, job: Job): set<Path> {
    Plan(t, job.output, job.Keep(), job.root)
  }

  predicate Blocked(t: Tree, job: Job) {
    job.guard.Some? && job.guard.value.Blocks(|PlanOf(t, job)|, |LinksBelow(t, job.output)|)
  }

  /** The tree after a job: links made first, then, unless the guard objects, unwanted links and empty directories
      removed. */
  ghost function JobResult(t: Tree, job: Job): Tree {
    var linked := AddLinks(t, job.wanted);
    if Blocked(linked, job) then linked else Pruned(linked - PlanOf(linked, job), job.output)
  }

  /** The destinations whose link is missing or holds another text. */
  function Outdated(t: Tree, wanted: Wanted): set<Path> {
    set d | d in wanted && !(d in t && t[d] == Link(wanted[d]))
  }

  // ---------------------------------------------------------------- assumptions

  /** Nothing but a link sits at the destination d, nothing but directories above it, nothing at its
      temporary name; and no wanted link sits above another one or at a temporary name. */
  ghost predicate ClearAt(t: Tree, wanted: Wanted, d: Path)
    requires d != []
  {
    && Normal(d)
    && (d in t ==> t[d].Link?)
    && (forall a :: a < d && a in t ==> t[a].Dir?)
    && TmpOf(d) !in t
    && (forall e :: e in wanted ==> !(d < e) && !(TmpOf(d) <= e))
  }

  ghost predicate Clear(t: Tree, wanted: Wanted) {
    forall d :: d in wanted ==> d != [] && ClearAt(t, wanted, d)
  }

  ghost predicate Proper(job: Job) {
    && Normal(job.output)
    && forall d :: d in job.wanted ==> Below(d, job.output)
  }

  /** The links a job may judge do not depend on anything an output directory in outs could change. */
  ghost predicate LeadsAway(t: Tree, link: Path, outs: set<Path>)
    requires link != [] && IsLink(t, link)
  {
    forall q, o :: q in Behind(t, link) && o in outs ==> !Below(q, o) && (q <= o ==> q in t)
  }

  ghost predicate AllLeadAway(t: Tree, job: Job, outs: set<Path>) {
    forall p :: p in LinksBelow(t, job.output) && p !in job.Keep() ==> LeadsAway(t, p, outs)
  }

  /** u differs from t only below the directories outs, or in directories added above them. */
  ghost predicate Drift(t: Tree, u: Tree, outs: set<Path>) {
    forall q :: Same(t, u, q) || exists o :: o in outs && (Below(q, o) || (q <= o && q !in t && IsDir(u, q)))
  }

  // ---------------------------------------------------------------- basic facts

  /** Ancestors of ancestors are ancestors. */
  lemma ParentIsAncestor(wanted: Wanted, p: Path)
    requires p != [] && (p in wanted || p in Ancestors(wanted.Keys))
    ensures Parent(p) in Ancestors(wanted.Keys)
  {
    if p in wanted {
      assert Parent(p) < p;
    } else {
      var d :| d in wanted && p < d;
      assert Parent(p) < d;
    }
  }

  lemma AncestorsAreNormal(t: Tree, wanted: Wanted, p: Path)
    requires Clear(t, wanted) && p in Ancestors(wanted.Keys)
    ensures Normal(p) && p !in wanted && (p in t ==> t[p].Dir?)
  {
    var d :| d in wanted && p < d;
    forall i | 0 <= i < |p| ensures ProperName(p[i]) { assert p[i] == d[i]; }
  }

  lemma AddedParent(t: Tree, wanted: Wanted, p: Path)
    requires WellFormed(t) && Clear(t, wanted) && p != [] && p in AddLinks(t, wanted)
    ensures Normal(p) && IsDir(AddLinks(t, wanted), Parent(p))
  {
    if p in wanted || p in Ancestors(wanted.Keys) {
      ParentIsAncestor(wanted, p);
      AncestorsAreNormal(t, wanted, Parent(p));
      if p !in wanted {
        AncestorsAreNormal(t, wanted, p);
      }
    } else {
      assert IsDir(t, Parent(p));
      assert Parent(p) !in wanted;
    }
  }

  lemma AddLinksWellFormed(t: Tree, wanted: Wanted)
    requires WellFormed(t) && Clear(t, wanted)
    ensures WellFormed(AddLinks(t, wanted))
  {
    forall p | p in AddLinks(t, wanted) && p != []
      ensures Normal(p) && IsDir(AddLinks(t, wanted), Parent(p))
    {
      AddedParent(t, wanted, p);
    }
    assert [] !in wanted;
  }

  lemma AddLinksStepAt(t: Tree, wanted: Wanted, d: Path, raw: string, p: Path)
    requires d != [] && (d in wanted ==> wanted[d] == raw)
    requires forall e :: e in wanted ==> !(e < d) && !(d < e)
    ensures Same(AddLinks(AddLinks(t, wanted), map[d := raw]), AddLinks(t, wanted[d := raw]), p)
  {
    assert p in Ancestors((map[d := raw]).Keys) <==> p < d;
    assert p in Ancestors(wanted[d := raw].Keys) <==> p < d || p in Ancestors(wanted.Keys);
  }

  /** Making one more link after others is making them all. */
  lemma AddLinksStep(t: Tree, wanted: Wanted, d: Path, raw: string)
    requires d != [] && (d in wanted ==> wanted[d] == raw)
    requires forall e :: e in wanted ==> !(e < d) && !(d < e)
    ensures AddLinks(AddLinks(t, wanted), map[d := raw]) == AddLinks(t, wanted[d := raw])
  {
    var u, v := AddLinks(AddLinks(t, wanted), map[d := raw]), AddLinks(t, wanted[d := raw]);
    forall p
      ensures Same(u, v, p)
    {
      AddLinksStepAt(t, wanted, d, raw, p);
    }
    SameEverywhere(u, v);
  }

  lemma AddNoLinks(t: Tree)
    ensures AddLinks(t, map[]) == t
  {
    assert Ancestors({}) == {};
  }

  // ---------------------------------------------------------------- exactness

  /** Whether a node that is no directory outlives a job that does not want a link in its place. */
  ghost predicate Survives(t: Tree, job: Job, p: Path) {
    p in t && !t[p].Dir? &&
    (t[p].Link? ==> p in job.preserve || (Live(AddLinks(t, job.wanted), p) && !Owned(p, t[p].raw, job.root)))
  }

  /** What must sit at p, below the output, once the job is done; None: no file and no link. */
  ghost function Settled(t: Tree, job: Job, p: Path): Option<Node> {
    if p in job.wanted then Some(Link(job.wanted[p]))
    else if Survives(t, job, p) then Some(t[p])
    else None
  }

  /** The promise of a scan about one output directory, node by node: below the output exactly the wanted
      links, the surviving files and links, and the directories that hold one of these; elsewhere nothing
      but the missing ancestors of wanted links is new. */
  ghost predicate ExactAt(t: Tree, job: Job, u: Tree, p: Path) {
    if Below(p, job.output) then
      if Settled(t, job, p).Some? then p in u && u[p] == Settled(t, job, p).value
      else if exists q :: p < q && Settled(t, job, q).Some? then IsDir(u, p)
      else p !in u
    else if p in t then Same(t, u, p)
    else if p in Ancestors(job.wanted.Keys) then IsDir(u, p)
    else p !in u
  }

  ghost predicate Exact(t: Tree, job: Job, u: Tree) {
    forall p :: ExactAt(t, job, u, p)
  }

  /** Exactness leaves no freedom. */
  lemma ExactDetermines(t: Tree, job: Job, u: Tree, v: Tree)
    requires Exact(t, job, u) && Exact(t, job, v)
    ensures u == v
  {
    forall p
      ensures Same(u, v, p)
    {
      assert ExactAt(t, job, u, p) && ExactAt(t, job, v, p);
    }
    SameEverywhere(u, v);
  }

  /** The nodes below the output that are no directories, once the planned links are gone. */
  lemma SettledAfterRemoval(t: Tree, job: Job, p: Path)
    requires Below(p, job.output) && IsDir(AddLinks(t, job.wanted), job.output)
    ensures var linked := AddLinks(t, job.wanted);
            var left := linked - PlanOf(linked, job);
            if Settled(t, job, p).Some? then p in left && left[p] == Settled(t, job, p).value && !left[p].Dir?
            else p in left ==> left[p].Dir?
  {}

  /** Nothing lies below something that is no directory. */
  lemma NothingBelowMissing(t: Tree, output: Path, p: Path)
    requires WellFormed(t) && !IsDir(t, output) && Below(p, output)
    ensures p !in t
  {
    if p in t {
      AncestorsAreDirs(t, p, output);
    }
  }

  /** A directory, or nothing, below the output: it stays exactly if something that is settled lies below it. */
  lemma DirectoryStays(t: Tree, job: Job, linked: Tree, left: Tree, p: Path)
    requires WellFormed(linked) && Below(p, job.output) && left == linked - PlanOf(linked, job)
    requires forall q :: Below(q, job.output) && q in left ==> (left[q].Dir? <==> Settled(t, job, q).None?)
    requires forall q :: Below(q, job.output) && Settled(t, job, q).Some? ==> q in left
    ensures (exists q :: p < q && Settled(t, job, q).Some?) <==> Occupied(left, p)
    ensures Occupied(left, p) ==> p in linked && linked[p].Dir?
  {
    if q :| p < q && Settled(t, job, q).Some? {
      assert q in left && !left[q].Dir?;
    }
    if Occupied(left, p) {
      var q :| q in left && p < q && !left[q].Dir?;
      AncestorsAreDirs(linked, q, p);
    }
  }

  lemma ResultExactBelow(t: Tree, job: Job, p: Path)
    requires WellFormed(t) && Clear(t, job.wanted) && Below(p, job.output)
    requires IsDir(AddLinks(t, job.wanted), job.output)
    ensures var linked := AddLinks(t, job.wanted);
            ExactAt(t, job, Pruned(linked - PlanOf(linked, job), job.output), p)
  {
    var linked := AddLinks(t, job.wanted);
    var left := linked - PlanOf(linked, job);
    AddLinksWellFormed(t, job.wanted);
    forall q | Below(q, job.output)
      ensures q in left ==> (left[q].Dir? <==> Settled(t, job, q).None?)
      ensures Settled(t, job, q).Some? ==> q in left && left[q] == Settled(t, job, q).value
    {
      SettledAfterRemoval(t, job, q);
    }
    DirectoryStays(t, job, linked, left, p);
  }

  lemma ResultExactElsewhere(t: Tree, job: Job, p: Path)
    requires WellFormed(t) && Clear(t, job.wanted) && Proper(job) && !Below(p, job.output)
    ensures var linked := AddLinks(t, job.wanted);
            ExactAt(t, job, Pruned(linked - PlanOf(linked, job), job.output), p)
  {
    var linked := AddLinks(t, job.wanted);
    var left := linked - PlanOf(linked, job);
    assert p !in job.wanted && p !in PlanOf(linked, job);
    assert Same(linked, left, p) && Same(left, Pruned(left, job.output), p);
    if p in Ancestors(job.wanted.Keys) {
      AncestorsAreNormal(t, job.wanted, p);
    }
  }

  /** A job that the guard lets pass leaves exactly what it should. */
  lemma ResultIsExact(t: Tree, job: Job)
    requires WellFormed(t) && Clear(t, job.wanted) && Proper(job)
    requires !Blocked(AddLinks(t, job.wanted), job)
    ensures Exact(t, job, JobResult(t, job))
  {
    var linked := AddLinks(t, job.wanted);
    forall p
      ensures ExactAt(t, job, JobResult(t, job), p)
    {
      if !Below(p, job.output) {
        ResultExactElsewhere(t, job, p);
      } else if IsDir(linked, job.output) {
        ResultExactBelow(t, job, p);
      } else {
        AddLinksWellFormed(t, job.wanted);
        forall q | Below(q, job.output) ensures Settled(t, job, q).None? {
          NothingBelowMissing(linked, job.output, q);
        }
        NothingBelowMissing(linked, job.output, p);
      }
    }
  }

  // ---------------------------------------------------------------- independence of other changes

  /** A link that leads away keeps its liveness when other things change only in the zone of the outputs. */
  lemma LiveUnderDrift(t: Tree, u: Tree, p: Path, outs: set<Path>)
    requires p != [] && ProperName(Name(p)) && IsLink(t, p) && Same(t, u, p)
    requires LeadsAway(t, p, outs) && Drift(t, u, outs)
    ensures Live(u, p) == Live(t, p)
  {
    forall q | q in Behind(t, p)
      ensures Same(t, u, q)
    {
      if !Same(t, u, q) {
        var o :| o in outs && (Below(q, o) || (q <= o && q !in t && IsDir(u, q)));
        assert false;
      }
    }
    LiveFrame(t, u, p);
  }

  /** Making the wanted links is a change in the zone of the output. */
  lemma LinkingDrifts(t: Tree, job: Job, outs: set<Path>)
    requires Proper(job) && job.output in outs
    ensures Drift(t, AddLinks(t, job.wanted), outs)
  {
    var u := AddLinks(t, job.wanted);
    forall q | !Same(t, u, q)
      ensures Below(q, job.output) || (q <= job.output && q !in t && IsDir(u, q))
    {
      if q !in job.wanted {
        var d :| d in job.wanted && q < d;
        PrefixesCompare(q, job.output, d);
      }
    }
  }

  lemma PrefixesCompare(a: Path, b: Path, whole: Path)
    requires a <= whole && b <= whole
    ensures a <= b || b < a
  {
    if |a| <= |b| {
      assert a == whole[..|a|] == b[..|a|];
    } else {
      assert b == whole[..|b|] == a[..|b|];
    }
  }

  /** A directory apart from the outputs keeps everything at and below it. */
  lemma ApartUnderDrift(t: Tree, u: Tree, outs: set<Path>, dir: Path, p: Path)
    requires Drift(t, u, outs) && (forall o :: o in outs ==> !(o <= dir) && !(dir <= o)) && dir <= p
    ensures Same(t, u, p)
  {
    if !Same(t, u, p) {
      var o :| o in outs && (Below(p, o) || (p <= o && p !in t && IsDir(u, p)));
      if Below(p, o) {
        PrefixesCompare(o, dir, p);
      }
    }
  }

  lemma DriftTransitive(t: Tree, u: Tree, v: Tree, outs: set<Path>)
    requires Drift(t, u, outs) && Drift(u, v, outs)
    ensures Drift(t, v, outs)
  {
    forall q | !Same(t, v, q)
      ensures exists o :: o in outs && (Below(q, o) || (q <= o && q !in t && IsDir(v, q)))
    {
      if Same(u, v, q) {
        assert !Same(t, u, q);
      } else {
        var o :| o in outs && (Below(q, o) || (q <= o && q !in u && IsDir(v, q)));
        if !Below(q, o) && q in t {
          assert !Same(t, u, q);
          var o' :| o' in outs && (Below(q, o') || (q <= o' && q !in t && IsDir(u, q)));
        }
      }
    }
  }

  // ---------------------------------------------------------------- history

  /** What a job carries over from the tree it finds: files, preserved links and foreign live links. */
  ghost predicate CarriedOver(t: Tree, job: Job, p: Path) {
    p in t && !t[p].Dir? &&
    (t[p].Link? ==> p in job.preserve || (Live(t, p) && !Owned(p, t[p].raw, job.root)))
  }

  /** The trees agree on everything a job should carry over. */
  ghost predicate SameCarried(t: Tree, u: Tree, job: Job) {
    forall p :: Below(p, job.output) && p !in job.wanted ==>
      && (CarriedOver(t, job, p) <==> CarriedOver(u, job, p))
      && (CarriedOver(t, job, p) ==> t[p] == u[p])
  }

  /** Without links into the output, survival can be read off the tree the job starts from. */
  lemma SurvivesIsCarriedOver(t: Tree, job: Job, p: Path)
    requires WellFormed(t) && Proper(job) && AllLeadAway(t, job, {job.output})
    requires Below(p, job.output) && p !in job.wanted
    ensures Survives(t, job, p) <==> CarriedOver(t, job, p)
  {
    if IsLink(t, p) && p !in job.preserve {
      AncestorsAreDirs(t, p, job.output);
      assert ProperName(p[|p| - 1]);
      LinkingDrifts(t, job, {job.output});
      LiveUnderDrift(t, AddLinks(t, job.wanted), p, {job.output});
    }
  }

  lemma SameSettled(t: Tree, u: Tree, job: Job, p: Path)
    requires WellFormed(t) && WellFormed(u) && Proper(job)
    requires AllLeadAway(t, job, {job.output}) && AllLeadAway(u, job, {job.output})
    requires SameCarried(t, u, job) && Below(p, job.output)
    ensures Settled(t, job, p) == Settled(u, job, p)
  {
    if p !in job.wanted {
      SurvivesIsCarriedOver(t, job, p);
      SurvivesIsCarriedOver(u, job, p);
    }
  }

  lemma SameExactAt(t: Tree, u: Tree, job: Job, a: Tree, b: Tree, p: Path)
    requires ExactAt(t, job, a, p) && ExactAt(u, job, b, p)
    requires forall q :: Below(q, job.output) ==> Settled(t, job, q) == Settled(u, job, q)
    requires Below(p, job.output) || Same(t, u, p)
    ensures Same(a, b, p)
  {}

  lemma SameExact(t: Tree, u: Tree, job: Job, a: Tree, b: Tree)
    requires Exact(t, job, a) && Exact(u, job, b)
    requires forall q :: Below(q, job.output) ==> Settled(t, job, q) == Settled(u, job, q)
    requires Same(t, u, job.output)
    ensures forall p :: job.output <= p ==> Same(a, b, p)
  {
    forall p | job.output <= p
      ensures Same(a, b, p)
    {
      assert !Below(p, job.output) ==> p == job.output;
      assert ExactAt(t, job, a, p) && ExactAt(u, job, b, p);
      SameExactAt(t, u, job, a, b, p);
    }
  }

  /** A tree on which a job runs as promised. */
  ghost predicate Unblocked(t: Tree, job: Job) {
    && WellFormed(t) && Clear(t, job.wanted) && Proper(job) && AllLeadAway(t, job, {job.output})
    && !Blocked(AddLinks(t, job.wanted), job)
  }

  ghost predicate SameResult(t: Tree, u: Tree, job: Job) {
    forall p :: job.output <= p ==> Same(JobResult(t, job), JobResult(u, job), p)
  }

  /** Two trees end up with equal output directories, whatever else distinguishes them, exactly if they agree, in the
      output directory, on what is not Boomarr's own. */
  lemma HistoryIsLocal(t: Tree, u: Tree, job: Job)
    requires Unblocked(t, job) && Unblocked(u, job) && Same(t, u, job.output)
    ensures SameResult(t, u, job) <==> SameCarried(t, u, job)
  {
    if SameCarried(t, u, job) {
      CarriedDecides(t, u, job);
    }
    if SameResult(t, u, job) {
      ResultShowsCarried(t, u, job);
    }
  }

  /** What a finished output directory holds besides the wanted links shows what has been carried over. */
  lemma ResultShowsCarried(t: Tree, u: Tree, job: Job)
    requires Unblocked(t, job) && Unblocked(u, job) && SameResult(t, u, job)
    ensures SameCarried(t, u, job)
  {
    ResultIsExact(t, job);
    ResultIsExact(u, job);
    forall p | Below(p, job.output) && p !in job.wanted
      ensures CarriedOver(t, job, p) <==> CarriedOver(u, job, p)
      ensures CarriedOver(t, job, p) ==> t[p] == u[p]
    {
      assert ExactAt(t, job, JobResult(t, job), p) && ExactAt(u, job, JobResult(u, job), p);
      SettledShows(t, u, job, JobResult(t, job), JobResult(u, job), p);
      SurvivesIsCarriedOver(t, job, p);
      SurvivesIsCarriedOver(u, job, p);
    }
  }

  lemma SettledShows(t: Tree, u: Tree, job: Job, a: Tree, b: Tree, p: Path)
    requires ExactAt(t, job, a, p) && ExactAt(u, job, b, p) && Same(a, b, p) && Below(p, job.output)
    ensures Settled(t, job, p) == Settled(u, job, p)
  {}

  lemma CarriedDecides(t: Tree, u: Tree, job: Job)
    requires Unblocked(t, job) && Unblocked(u, job) && Same(t, u, job.output)
    requires SameCarried(t, u, job)
    ensures SameResult(t, u, job)
  {
    ResultIsExact(t, job);
    ResultIsExact(u, job);
    assert forall q :: Below(q, job.output) ==> Settled(t, job, q) == Settled(u, job, q) by {
      forall q | Below(q, job.output) ensures Settled(t, job, q) == Settled(u, job, q) {
        SameSettled(t, u, job, q);
      }
    }
    SameExact(t, u, job, JobResult(t, job), JobResult(u, job));
  }

  /** The outcome of one job does not depend on history: trees that agree outside the output directory end up equal
      exactly if they agree on what is not Boomarr's own inside it. */
  lemma HistoryIndependence(t: Tree, u: Tree, job: Job)
    requires Unblocked(t, job) && Unblocked(u, job)
    requires forall p :: !Below(p, job.output) ==> Same(t, u, p)
    ensures JobResult(t, job) == JobResult(u, job) <==> SameCarried(t, u, job)
  {
    HistoryIsLocal(t, u, job);
    if SameCarried(t, u, job) {
      ResultIsExact(t, job);
      ResultIsExact(u, job);
      var a, b := JobResult(t, job), JobResult(u, job);
      forall p
        ensures Same(a, b, p)
      {
        if !(job.output <= p) {
          assert ExactAt(t, job, a, p) && ExactAt(u, job, b, p) && Same(t, u, p);
        }
      }
      SameEverywhere(a, b);
    }
  }

  /** History does matter where links are preserved for files that could not be probed: a link that only one of two
      trees holds stays in that one. */
  lemma PreservedLinksTellHistory()
    ensures var link: Path := ["o", "x"]; var job := Job(["o"], map[], {link}, ["i"], None);
            var t := map[[] := Dir, ["o"] := Dir, link := Link("/i/x")]; var u := map[[] := Dir, ["o"] := Dir];
            && Unblocked(t, job) && Unblocked(u, job) && (forall p :: !Below(p, job.output) ==> Same(t, u, p))
            && JobResult(t, job) != JobResult(u, job)
  {
    var link: Path := ["o", "x"];
    var job := Job(["o"], map[], {link}, ["i"], None);
    var t: Tree := map[[] := Dir, ["o"] := Dir, link := Link("/i/x")];
    var u: Tree := map[[] := Dir, ["o"] := Dir];
    assert Parent(link) == ["o"] && Parent(["o"]) == [];
    assert ProperName("o") && ProperName("x");
    HistoryIndependence(t, u, job);
    assert Below(link, job.output) && CarriedOver(t, job, link) && !CarriedOver(u, job, link);
  }

  // ---------------------------------------------------------------- idempotence

  /** Links that survived a job survive it again. */
  lemma SettledAgain(t: Tree, job: Job, u: Tree, p: Path)
    requires WellFormed(t) && Clear(t, job.wanted) && Proper(job) && Exact(t, job, u) && WellFormed(u)
    requires AllLeadAway(t, job, {job.output}) && Below(p, job.output)
    requires AddLinks(u, job.wanted) == u
    ensures Settled(u, job, p) == Settled(t, job, p)
  {
    assert ExactAt(t, job, u, p);
    if p !in job.wanted && Survives(t, job, p) && IsLink(t, p) && p !in job.preserve {
      AncestorsAreDirs(t, p, job.output);
      assert ProperName(p[|p| - 1]);
      ExactDrifts(t, job, u);
      LiveUnderDrift(t, u, p, {job.output});
      LinkingDrifts(t, job, {job.output});
      LiveUnderDrift(t, AddLinks(t, job.wanted), p, {job.output});
    }
  }

  lemma ExactDrifts(t: Tree, job: Job, u: Tree)
    requires Exact(t, job, u) && Proper(job)
    ensures Drift(t, u, {job.output})
  {
    forall q | !Same(t, u, q)
      ensures Below(q, job.output) || (q <= job.output && q !in t && IsDir(u, q))
    {
      assert ExactAt(t, job, u, q);
      if !Below(q, job.output) {
        var d :| d in job.wanted && q < d;
        PrefixesCompare(q, job.output, d);
      }
    }
  }

  lemma WantedInPlace(t: Tree, job: Job, u: Tree, d: Path)
    requires Exact(t, job, u) && Proper(job) && d in job.wanted
    ensures d in u && u[d] == Link(job.wanted[d])
  {
    assert ExactAt(t, job, u, d);
  }

  lemma DirsInPlace(t: Tree, job: Job, u: Tree, p: Path)
    requires Exact(t, job, u) && Proper(job) && Clear(t, job.wanted) && p in Ancestors(job.wanted.Keys)
    ensures p !in job.wanted && IsDir(u, p)
  {
    var d :| d in job.wanted && p < d;
    AncestorsAreNormal(t, job.wanted, p);
    assert ExactAt(t, job, u, p);
    if Below(p, job.output) {
      assert Settled(t, job, d).Some?;
    }
  }

  /** After a job every wanted link and every directory above one is in place. */
  lemma NothingLeftToLink(t: Tree, job: Job, u: Tree)
    requires Exact(t, job, u) && Proper(job) && Clear(t, job.wanted)
    ensures AddLinks(u, job.wanted) == u && Outdated(u, job.wanted) == {}
  {
    var v := AddLinks(u, job.wanted);
    forall p
      ensures Same(v, u, p)
      ensures p in job.wanted ==> p in u && u[p] == Link(job.wanted[p])
    {
      if p in job.wanted {
        WantedInPlace(t, job, u, p);
      } else if p in Ancestors(job.wanted.Keys) {
        DirsInPlace(t, job, u, p);
      }
    }
    SameEverywhere(v, u);
  }

  lemma RemovalWellFormed(t: Tree, gone: set<Path>)
    requires WellFormed(t) && forall p :: p in gone ==> IsLink(t, p)
    ensures WellFormed(t - gone)
  {}

  lemma PrunedWellFormed(t: Tree, output: Path)
    requires WellFormed(t)
    ensures WellFormed(Pruned(t, output))
  {
    var u := Pruned(t, output);
    forall p | p in u && p != []
      ensures Normal(p) && IsDir(u, Parent(p))
    {
      var a := Parent(p);
      assert a < p && IsDir(t, a);
      if IsDir(t, output) && Below(a, output) {
        if t[p].Dir? {
          assert Below(p, output);
          var q :| q in t && p < q && !t[q].Dir?;
          assert a < q;
        }
        assert Occupied(t, a);
      }
    }
  }

  lemma ResultWellFormed(t: Tree, job: Job)
    requires WellFormed(t) && Clear(t, job.wanted)
    ensures WellFormed(JobResult(t, job))
  {
    var linked := AddLinks(t, job.wanted);
    AddLinksWellFormed(t, job.wanted);
    RemovalWellFormed(linked, PlanOf(linked, job));
    PrunedWellFormed(linked - PlanOf(linked, job), job.output);
  }

  /** An exact tree has nothing left to remove. */
  lemma NothingLeftToRemove(t: Tree, job: Job, u: Tree)
    requires WellFormed(t) && Clear(t, job.wanted) && Proper(job) && Exact(t, job, u) && WellFormed(u)
    requires AllLeadAway(t, job, {job.output})
    ensures PlanOf(u, job) == {}
  {
    NothingLeftToLink(t, job, u);
    forall p | p in PlanOf(u, job)
      ensures false
    {
      assert ExactAt(t, job, u, p);
      SettledAgain(t, job, u, p);
    }
  }

  /** An exact tree is exact about itself. */
  lemma ExactAgain(t: Tree, job: Job, u: Tree)
    requires WellFormed(t) && Clear(t, job.wanted) && Proper(job) && Exact(t, job, u) && WellFormed(u)
    requires AllLeadAway(t, job, {job.output})
    ensures Exact(u, job, u)
  {
    NothingLeftToLink(t, job, u);
    forall p
      ensures ExactAt(u, job, u, p)
    {
      assert ExactAt(t, job, u, p);
      forall q | Below(q, job.output) ensures Settled(u, job, q) == Settled(t, job, q) {
        SettledAgain(t, job, u, q);
      }
    }
  }

  /** Clear destinations are clear after the job as well. */
  lemma ClearAgain(t: Tree, job: Job, u: Tree)
    requires WellFormed(t) && Clear(t, job.wanted) && Proper(job) && Exact(t, job, u)
    ensures Clear(u, job.wanted)
  {
    forall d | d in job.wanted
      ensures d in u ==> u[d].Link?
      ensures TmpOf(d) !in u
      ensures forall a :: a < d && a in u ==> u[a].Dir?
    {
      WantedInPlace(t, job, u, d);
      TmpStaysAway(t, job, u, d);
      forall a | a < d && a in u ensures u[a].Dir? {
        assert a in Ancestors(job.wanted.Keys);
        DirsInPlace(t, job, u, a);
      }
    }
  }

  lemma TmpStaysAway(t: Tree, job: Job, u: Tree, d: Path)
    requires WellFormed(t) && Clear(t, job.wanted) && Proper(job) && Exact(t, job, u) && d in job.wanted
    ensures TmpOf(d) !in u
  {
    var tmp := TmpOf(d);
    assert ExactAt(t, job, u, tmp);
    assert tmp !in job.wanted;
    forall q | tmp < q
      ensures Settled(t, job, q).None?
    {
      if q in t {
        AncestorsAreDirs(t, q, tmp);
      }
    }
    assert tmp !in Ancestors(job.wanted.Keys);
  }

  /** A second run with nothing changed in between makes no link, removes none and leaves the tree as it is. */
  lemma Idempotence(t: Tree, job: Job)
    requires WellFormed(t) && Clear(t, job.wanted) && Proper(job) && !Blocked(AddLinks(t, job.wanted), job)
    requires AllLeadAway(t, job, {job.output})
    ensures var u := JobResult(t, job);
            && Outdated(u, job.wanted) == {}
            && PlanOf(AddLinks(u, job.wanted), job) == {}
            && JobResult(u, job) == u
  {
    var u := JobResult(t, job);
    ResultIsExact(t, job);
    ResultWellFormed(t, job);
    NothingLeftToLink(t, job, u);
    NothingLeftToRemove(t, job, u);
    ExactAgain(t, job, u);
    ClearAgain(t, job, u);
    ResultIsExact(u, job);
    ExactDetermines(u, job, JobResult(u, job), u);
  }

  // ---------------------------------------------------------------- dry runs

  /** Judging the links before any is made, as a dry run does, condemns the same links as judging them after. */
  lemma DryPlanIsFaithful(t: Tree, job: Job)
    requires WellFormed(t) && Clear(t, job.wanted) && Proper(job)
    requires AllLeadAway(t, job, {job.output})
    ensures PlanOf(t, job) == PlanOf(AddLinks(t, job.wanted), job)
  {
    var linked := AddLinks(t, job.wanted);
    AddLinksWellFormed(t, job.wanted);
    forall p
      ensures p in PlanOf(t, job) <==> p in PlanOf(linked, job)
    {
      if p !in job.wanted && Below(p, job.output) && IsLink(t, p) {
        AncestorsAreDirs(t, p, job.output);
        AncestorsAreDirs(linked, p, job.output);
        if p !in job.preserve {
          assert ProperName(p[|p| - 1]);
          LinkingDrifts(t, job, {job.output});
          LiveUnderDrift(t, linked, p, {job.output});
        }
      }
    }
  }
}
