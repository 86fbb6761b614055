/** What linking does to the outputs of a library, link by link, and what is reported of it. */
module Linking {
  import opened Paths
  import opened Trees
  import opened Reconcile
  import opened Replacements
  import opened Symlinks
  import opened Safety
  import opened Models
  import opened Selection
  import opened Interference
  import opened Gathering

  // ---------------------------------------------------------------- what has really been done

  /** The links made and the links removed, whatever is reported. */
  datatype Deeds = Deeds(made: multiset<Path>, removed: multiset<Path>)

  const NO_DEEDS := Deeds(multiset{}, multiset{})

  function Both(a: Deeds, b: Deeds): Deeds {
    Deeds(a.made + b.made, a.removed + b.removed)
  }

  function DeedsOfStep(t: Tree, step: Step): Deeds {
    match step.act
    case Make(dest, raw) =>
      if NewlyLinked(t, step.after, dest, raw) then Deeds(multiset{dest}, multiset{}) else NO_DEEDS
    case Remove(_, _, _) => Deeds(multiset{}, multiset(LostLinks(t, step.after)))
  }

  /** What the steps have done to the links, one after the other. */
  function DeedsOf(t: Tree, steps: seq<Step>): Deeds
    decreases |steps|
  {
    if steps == [] then NO_DEEDS else Both(DeedsOfStep(t, steps[0]), DeedsOf(steps[0].after, steps[1..]))
  }

  lemma BothTogether(a: Deeds, b: Deeds, c: Deeds)
    ensures Both(Both(a, b), c) == Both(a, Both(b, c)) && Both(NO_DEEDS, c) == c
  {}

  lemma FirstStep(first: seq<Step>, second: seq<Step>)
    requires first != []
    ensures (first + second)[0] == first[0] && (first + second)[1..] == first[1..] + second
  {}

  lemma {:induction false} DeedsOn(t: Tree, first: seq<Step>, u: Tree, second: seq<Step>)
    requires Reaches(t, first, u)
    ensures DeedsOf(t, first + second) == Both(DeedsOf(t, first), DeedsOf(u, second))
    decreases |first|
  {
    if first == [] {
      BothTogether(NO_DEEDS, NO_DEEDS, DeedsOf(u, second));
      assert first + second == second;
    } else {
      var next := first[0].after;
      FirstStep(first, second);
      DeedsOn(next, first[1..], u, second);
      BothTogether(DeedsOfStep(t, first[0]), DeedsOf(next, first[1..]), DeedsOf(u, second));
    }
  }

  lemma DeedsOfOne(t: Tree, first: seq<Step>, u: Tree, step: Step)
    requires Reaches(t, first, u)
    ensures DeedsOf(t, first + [step]) == Both(DeedsOf(t, first), DeedsOfStep(u, step))
  {
    DeedsOn(t, first, u, [step]);
    assert DeedsOf(u, [step]) == DeedsOfStep(u, step) by {
      assert [step][1..] == [];
    }
  }

  lemma LostByOne(t: Tree, first: seq<Step>, u: Tree, step: Step)
    requires Reaches(t, first, u) && step.act.Remove?
    ensures |DeedsOf(t, first + [step]).removed| == |DeedsOf(t, first).removed| + |LostLinks(u, step.after)|
  {
    DeedsOfOne(t, first, u, step);
  }

  /** How often each path is reported. */
  function Times(log: seq<Change>): multiset<Path> {
    if log == [] then multiset{} else Times(log[..|log| - 1]) + multiset{log[|log| - 1].path}
  }

  lemma TimesStep(log: seq<Change>, c: Change)
    ensures Times(log + [c]) == Times(log) + multiset{c.path}
  {
    assert (log + [c])[..|log|] == log;
  }

  lemma {:induction false} TimesTell(log: seq<Change>)
    ensures forall p :: p in Times(log) <==> p in Reported(log)
    ensures ReportedOnce(log) <==> forall p :: Times(log)[p] <= 1
    decreases |log|
  {
    if log != [] {
      var front, last := log[..|log| - 1], log[|log| - 1];
      TimesTell(front);
      assert log == front + [last];
      forall p ensures p in Reported(log) <==> p in Reported(front) || p == last.path {}
      OnceStep(front, last);
      assert forall p :: Times(log)[p] == Times(front)[p] + if p == last.path then 1 else 0;
      if ReportedOnce(log) {
        assert last.path !in Times(front);
      }
    }
  }

  lemma OnceStep(log: seq<Change>, c: Change)
    ensures ReportedOnce(log + [c]) <==> ReportedOnce(log) && c.path !in Reported(log)
  {
    var more := log + [c];
    forall i | 0 <= i < |log| ensures log[i].path in Reported(log) { assert log[i] in log; }
    if ReportedOnce(more) {
      forall i, j | 0 <= i < j < |log| ensures log[i].path != log[j].path {
        assert more[i] == log[i] && more[j] == log[j];
      }
      forall i | 0 <= i < |log| ensures log[i].path != c.path { assert more[i].path != more[|log|].path; }
    }
  }

  // ---------------------------------------------------------------- one link

  /** What linking has done so far: the links made or found, those reported as created, the steps taken, how many links
      were left as they are or could not be made, and how often each link was attempted. */
  datatype Trail = Trail(made: Wanted, log: seq<Change>, steps: seq<Step>, unaltered: nat, failed: nat,
                         tries: multiset<Path>)

  /** What there is to link: the media files, what is known of them, and the sidecars of each directory. */
  datatype Finds = Finds(media: seq<Path>, infos: map<Path, MediaInfo>, sidecars: map<Path, seq<Path>>)

  /** Where linking an output starts from, and what it is to link. */
  datatype Start = Start(tally: Tally, tree: Tree, wanted: Wanted)

  /** How far linking has got. files: all files of the library; calm: so far nothing has failed, and the destinations
      were clear. */
  datatype Course = Course(files: seq<Path>, start: Start, trail: Trail, calm: bool)

  const NO_LINKS_YET := Trail(map[], [], [], 0, 0, multiset{})

  function Reported(log: seq<Change>): set<Path> {
    set c | c in log :: c.path
  }

  ghost predicate ReportedOnce(log: seq<Change>) {
    forall i, j :: 0 <= i < j < |log| ==> log[i].path != log[j].path
  }

  /** From t, wanted links have been made one by one. If all went well, exactly the outdated ones are reported. */
  ghost predicate Following(t: Tree, wanted: Wanted, u: Tree, trail: Trail, dryRun: bool, calm: bool) {
    OnTrail(t, wanted, u, trail, dryRun) && (calm ==> Tidy(t, u, trail, dryRun)) && Honest(t, trail, dryRun, calm)
  }

  /** Only wanted links have been attempted; a dry run changes nothing. */
  ghost predicate OnTrail(t: Tree, wanted: Wanted, u: Tree, trail: Trail, dryRun: bool) {
    && Reaches(t, trail.steps, u)
    && (forall d :: d in trail.made ==> d in wanted && trail.made[d] == wanted[d])
    && (forall step ::
        step in trail.steps ==> step.act.Make? && step.act.dest in wanted && step.act.raw == wanted[step.act.dest])
    && |trail.steps| == |trail.log| + trail.unaltered + trail.failed
    && (dryRun ==> u == t)
  }

  /** All attempted links are in place unless something stands in their way, and exactly those that were not are
      reported. */
  ghost predicate Tidy(t: Tree, u: Tree, trail: Trail, dryRun: bool) {
    && (dryRun || u == LinkedOver(t, Feasible(t, trail.made)))
    && Reported(trail.log) == Outdated(t, Feasible(t, trail.made))
    && trail.failed == 0 && (!dryRun ==> ReportedOnce(trail.log))
  }

  /** What is reported of a real run has been done, even if something has failed. */
  ghost predicate Honest(t: Tree, trail: Trail, dryRun: bool, calm: bool) {
    && (!dryRun ==> DeedsOf(t, trail.steps) == Deeds(Times(trail.log), multiset{}))
    && (calm && dryRun ==> AllTriesReported(t, trail))
  }

  /** A dry run, which changes nothing, reports an outdated link whenever it attempts it. */
  ghost predicate AllTriesReported(t: Tree, trail: Trail) {
    && (forall d :: d in trail.tries ==> d in trail.made)
    && (forall d :: Times(trail.log)[d] == if d in Outdated(t, Feasible(t, trail.made)) then trail.tries[d] else 0)
  }

  function NextTrail(trail: Trail, dest: Path, raw: string, source: Path, r: Ensured, v: Tree): Trail {
    Trail(trail.made[dest := raw], trail.log + LogEntry(dest, source, r), trail.steps + [Step(Make(dest, raw), v)],
      trail.unaltered + (if r.Unchanged? then 1 else 0), trail.failed + (if r.Error? then 1 else 0),
      trail.tries + multiset{dest})
  }

  function LogEntry(dest: Path, source: Path, r: Ensured): seq<Change> {
    if r.Changed? then [Created(dest, source)] else []
  }

  /** An attempt at a link has been counted as what it was. */
  ghost predicate OneCounted(a: Tally, b: Tally, r: Ensured, entry: seq<Change>) {
    b == a.(created := a.created + (if r.Changed? then 1 else 0),
            unaltered := a.unaltered + (if r.Unchanged? then 1 else 0),
            errors := a.errors + (if r.Error? then 1 else 0),
            changes := Capped(a.changes + entry))
  }

  /** Every attempt at a link has been counted. */
  ghost predicate LinksCounted(a: Tally, b: Tally, trail: Trail) {
    b == a.(created := a.created + |trail.log|, unaltered := a.unaltered + trail.unaltered,
            errors := a.errors + trail.failed, changes := Capped(a.changes + trail.log))
  }

  /** Linking is over: the links of the output are counted as well. */
  ghost predicate LinkingCounted(a: Tally, b: Tally, trail: Trail, job: Job) {
    b.links == a.links[job.output := |job.wanted.Keys|] && LinksCounted(a, b.(links := a.links), trail)
  }

  lemma CountedStep(a: Tally, b: Tally, c: Tally, trail: Trail, dest: Path, raw: string, source: Path, r: Ensured,
                    v: Tree)
    requires LinksCounted(a, b, trail) && OneCounted(b, c, r, LogEntry(dest, source, r))
    ensures LinksCounted(a, c, NextTrail(trail, dest, raw, source, r, v))
  {
    var entry := LogEntry(dest, source, r);
    CappedTwice(a.changes + trail.log, entry);
    assert a.changes + trail.log + entry == a.changes + (trail.log + entry);
  }

  lemma OutdatedStep(t: Tree, made: Wanted, dest: Path, raw: string)
    requires dest in made ==> made[dest] == raw
    ensures Outdated(t, made[dest := raw]) == Outdated(t, made) + if dest in t && t[dest] == Link(raw) then {}
            else {dest}
    ensures dest !in made ==> dest !in Outdated(t, made)
  {
    var more := made[dest := raw];
    forall d
      ensures d in Outdated(t, more) <==> d in Outdated(t, made) || (d == dest && !(dest in t && t[dest] == Link(raw)))
    {}
  }

  lemma ReportedStep(log: seq<Change>, c: Change)
    ensures Reported(log + [c]) == Reported(log) + {c.path} && Reported(log + []) == Reported(log)
    ensures ReportedOnce(log) && c.path !in Reported(log) ==> ReportedOnce(log + [c])
  {
    forall i | 0 <= i < |log| ensures log[i].path in Reported(log) { assert log[i] in log; }
    assert log + [] == log;
  }

  /** What an untroubled EnsureLink answers and does. */
  ghost predicate Ensures(u: Tree, v: Tree, dest: Path, raw: string, dryRun: bool, r: Ensured)
    requires dest != []
  {
    && r == (if dest in u && u[dest] == Link(raw) then Unchanged else Changed)
    && (!dryRun ==> v == LinkedOver(u, map[dest := raw]))
  }

  lemma CalmTree(t: Tree, wanted: Wanted, made: Wanted, u: Tree, v: Tree, dest: Path, r: Ensured)
    requires Linkable(t, wanted) && dest in wanted && dest != [] && made.Keys <= wanted.Keys
    requires dest in made ==> made[dest] == wanted[dest]
    requires u == LinkedOver(t, made) && Ensures(u, v, dest, wanted[dest], false, r)
    ensures v == LinkedOver(t, made[dest := wanted[dest]])
    ensures r == if dest in made || (dest in t && t[dest] == Link(wanted[dest])) then Unchanged else Changed
  {
    OverStep(t, wanted, made, dest, wanted[dest]);
  }

  lemma CalmLog(t: Tree, made: Wanted, log: seq<Change>, dest: Path, raw: string, source: Path, r: Ensured,
                dryRun: bool)
    requires (dest in made ==> made[dest] == raw) && Reported(log) == Outdated(t, made)
             && (!dryRun ==> ReportedOnce(log))
    requires r == if (!dryRun && dest in made) || (dest in t && t[dest] == Link(raw)) then Unchanged else Changed
    ensures var more := log + LogEntry(dest, source, r);
            Reported(more) == Outdated(t, made[dest := raw]) && (!dryRun ==> ReportedOnce(more))
  {
    OutdatedStep(t, made, dest, raw);
    ReportedStep(log, Created(dest, source));
    if dest in made && !(dest in t && t[dest] == Link(raw)) {
      assert dest in Outdated(t, made);
    }
  }

  /** What is reported of one more link is what has been done. */
  lemma DeedsStep(t: Tree, u: Tree, v: Tree, trail: Trail, dest: Path, raw: string, source: Path, r: Ensured)
    requires Reaches(t, trail.steps, u) && DeedsOf(t, trail.steps) == Deeds(Times(trail.log), multiset{})
    requires r.Changed? <==> NewlyLinked(u, v, dest, raw)
    ensures var next := NextTrail(trail, dest, raw, source, r, v);
            DeedsOf(t, next.steps) == Deeds(Times(next.log), multiset{})
  {
    DeedsOfOne(t, trail.steps, u, Step(Make(dest, raw), v));
    TimesStep(trail.log, Created(dest, source));
    assert trail.log + [] == trail.log;
  }

  /** One more attempt, which changes something exactly if its link is outdated. */
  lemma OneMoreTry(before: multiset<Path>, after: multiset<Path>, tries: multiset<Path>, stale: set<Path>,
                   more: set<Path>, dest: Path, changed: bool)
    requires forall d :: before[d] == if d in stale then tries[d] else 0
    requires if changed then after == before + multiset{dest} && more == stale + {dest}
             && (dest in tries ==> dest in stale)
             else after == before && more == stale && dest !in stale
    ensures forall d :: after[d] == if d in more then (tries + multiset{dest})[d] else 0
  {}

  lemma StaleStep(t: Tree, made: Wanted, dest: Path, raw: string, changed: bool)
    requires (dest in made ==> made[dest] == raw) && changed == !Untouched(t, dest, raw)
    ensures var stale, more := Outdated(t, Feasible(t, made)), Outdated(t, Feasible(t, made[dest := raw]));
            if changed then more == stale + {dest} && (dest in made ==> dest in stale)
            else more == stale && dest !in stale
  {
    FeasibleStep(t, made, dest, raw);
    OutdatedStep(t, Feasible(t, made), dest, raw);
  }

  lemma TriesStep(t: Tree, trail: Trail, dest: Path, raw: string, source: Path, r: Ensured, v: Tree)
    requires AllTriesReported(t, trail) && (dest in trail.made ==> trail.made[dest] == raw)
    requires r == if Untouched(t, dest, raw) then Unchanged else Changed
    ensures AllTriesReported(t, NextTrail(trail, dest, raw, source, r, v))
  {
    StaleStep(t, trail.made, dest, raw, r.Changed?);
    LoggedOnceMore(trail.log, dest, source, r);
    OneMoreTry(Times(trail.log), Times(trail.log + LogEntry(dest, source, r)), trail.tries,
               Outdated(t, Feasible(t, trail.made)), Outdated(t, Feasible(t, trail.made[dest := raw])), dest,
               r.Changed?);
  }

  /** The link is there already, or something stands in its way. */
  predicate Untouched(t: Tree, dest: Path, raw: string) {
    Obstructed(t, dest) || (dest in t && t[dest] == Link(raw))
  }

  lemma LoggedOnceMore(log: seq<Change>, dest: Path, source: Path, r: Ensured)
    ensures var more := Times(log + LogEntry(dest, source, r));
            more == if r.Changed? then Times(log) + multiset{dest} else Times(log)
  {
    TimesStep(log, Created(dest, source));
    assert log + [] == log;
  }

  lemma HonestStep(t: Tree, u: Tree, v: Tree, trail: Trail, dryRun: bool, calm: bool, dest: Path, raw: string,
                   source: Path, r: Ensured)
    requires Honest(t, trail, dryRun, calm) && Reaches(t, trail.steps, u)
             && (dest in trail.made ==> trail.made[dest] == raw)
    requires !dryRun ==> (r.Changed? <==> NewlyLinked(u, v, dest, raw))
    requires calm && dryRun ==> r == if Untouched(t, dest, raw) then Unchanged else Changed
    ensures Honest(t, NextTrail(trail, dest, raw, source, r, v), dryRun, calm)
  {
    if !dryRun {
      DeedsStep(t, u, v, trail, dest, raw, source, r);
    } else if calm {
      TriesStep(t, trail, dest, raw, source, r, v);
    }
  }

  lemma OnTrailStep(t: Tree, wanted: Wanted, u: Tree, v: Tree, trail: Trail, dryRun: bool, dest: Path, source: Path,
                    r: Ensured)
    requires dest in wanted && dest != [] && OnTrail(t, wanted, u, trail, dryRun)
    requires LinkStep(u, v, dest, wanted[dest]) && (dryRun ==> v == u)
    ensures OnTrail(t, wanted, v, NextTrail(trail, dest, wanted[dest], source, r, v), dryRun)
  {
    OneStep(u, v, Make(dest, wanted[dest]));
    ReachesOn(t, trail.steps, u, [Step(Make(dest, wanted[dest]), v)], v);
  }

  lemma TidyOver(t: Tree, wanted: Wanted, made: Wanted, u: Tree, v: Tree, log: seq<Change>, dryRun: bool, dest: Path,
                 source: Path, r: Ensured)
    requires Linkable(t, wanted) && dest in wanted && dest != [] && made.Keys <= wanted.Keys
    requires if dryRun then u == t else u == LinkedOver(t, made)
    requires (dest in made ==> made[dest] == wanted[dest]) && Reported(log) == Outdated(t, made)
             && (!dryRun ==> ReportedOnce(log))
    requires Linkable(u, map[dest := wanted[dest]]) ==> Ensures(u, v, dest, wanted[dest], dryRun, r)
    ensures r != Error && (dryRun ==> r == if dest in t && t[dest] == Link(wanted[dest]) then Unchanged else Changed)
    ensures dryRun || v == LinkedOver(t, made[dest := wanted[dest]])
    ensures var more := log + LogEntry(dest, source, r);
            Reported(more) == Outdated(t, made[dest := wanted[dest]]) && (!dryRun ==> ReportedOnce(more))
  {
    if dryRun {
      OverNone(t);
      OneLinkable(t, wanted, map[], dest);
    } else {
      OneLinkable(t, wanted, made, dest);
      CalmTree(t, wanted, made, u, v, dest, r);
    }
    CalmLog(t, made, log, dest, wanted[dest], source, r, dryRun);
  }

  /** What stands in the way is still there. */
  lemma StillInTheWay(t: Tree, wanted: Wanted, u: Tree, trail: Trail, dryRun: bool, dest: Path)
    requires Makeable(t, wanted) && Tidy(t, u, trail, dryRun) && (dryRun ==> u == t)
    requires forall d :: d in trail.made ==> d in wanted && trail.made[d] == wanted[d]
    ensures Obstructed(t, dest) ==> Obstructed(u, dest)
  {
    if !dryRun && Obstructed(t, dest) {
      FewerFeasible(t, wanted, trail.made);
      StaysObstructed(t, wanted, Feasible(t, trail.made), dest);
    }
  }

  lemma TidyStep(t: Tree, wanted: Wanted, u: Tree, v: Tree, trail: Trail, dryRun: bool, dest: Path, source: Path,
                 r: Ensured)
    requires Makeable(t, wanted) && dest in wanted && dest != [] && Tidy(t, u, trail, dryRun) && (dryRun ==> u == t)
    requires forall d :: d in trail.made ==> d in wanted && trail.made[d] == wanted[d]
    requires Linkable(u, map[dest := wanted[dest]]) ==> Ensures(u, v, dest, wanted[dest], dryRun, r)
    requires Obstructed(u, dest) ==> r.Unchanged? && v == u
    ensures Tidy(t, v, NextTrail(trail, dest, wanted[dest], source, r, v), dryRun)
    ensures dryRun ==> r == if Untouched(t, dest, wanted[dest]) then Unchanged else Changed
  {
    var some, made := Feasible(t, wanted), Feasible(t, trail.made);
    FeasibleStep(t, trail.made, dest, wanted[dest]);
    FewerFeasible(t, wanted, trail.made);
    StillInTheWay(t, wanted, u, trail, dryRun, dest);
    if Obstructed(t, dest) {
      assert trail.log + [] == trail.log;
    } else {
      TidyOver(t, some, made, u, v, trail.log, dryRun, dest, source, r);
    }
  }

  lemma FollowingStep(t: Tree, wanted: Wanted, u: Tree, v: Tree, trail: Trail, dryRun: bool, calm: bool, dest: Path,
                      source: Path, r: Ensured)
    requires dest in wanted && dest != [] && (calm ==> Makeable(t, wanted))
    requires Following(t, wanted, u, trail, dryRun, calm) && LinkStep(u, v, dest, wanted[dest]) && (dryRun ==> v == u)
    requires calm && Linkable(u, map[dest := wanted[dest]]) ==> Ensures(u, v, dest, wanted[dest], dryRun, r)
    requires Obstructed(u, dest) ==> r.Unchanged? && v == u
    requires !dryRun ==> (r.Changed? <==> NewlyLinked(u, v, dest, wanted[dest]))
    ensures Following(t, wanted, v, NextTrail(trail, dest, wanted[dest], source, r, v), dryRun, calm)
  {
    OnTrailStep(t, wanted, u, v, trail, dryRun, dest, source, r);
    if calm {
      TidyStep(t, wanted, u, v, trail, dryRun, dest, source, r);
    }
    HonestStep(t, u, v, trail, dryRun, calm, dest, wanted[dest], source, r);
  }

  // ---------------------------------------------------------------- the links of a media file

  /** The files of the library, sorted into media and sidecars. */
  ghost predicate Prepared(pl: Pipeline, media: seq<Path>, sidecars: map<Path, seq<Path>>, files: seq<Path>) {
    && Grouped(pl, sidecars, files) && InInput(pl, Elements(files))
    && (forall f :: f in files ==> f != [] && Normal(f))
    && Distinct(media) && (forall f :: f in media <==> f in files && Passes(pl, f))
  }

  /** The sidecars in the directory of a media file. */
  function Siblings(sidecars: map<Path, seq<Path>>, m: Path): seq<Path>
    requires m != []
  {
    if Parent(m) in sidecars then sidecars[Parent(m)] else []
  }

  function Companions(pl: Pipeline, sidecars: map<Path, seq<Path>>, m: Path): set<Path>
    requires m != []
  {
    set s | s in Siblings(sidecars, m) && s != [] && Stem(pl, m) + "." <= Name(s)
  }

  lemma NextSibling(pl: Pipeline, sidecars: map<Path, seq<Path>>, files: seq<Path>, m: Path, found: seq<Path>, i: nat)
    requires m != [] && Grouped(pl, sidecars, files) && i < |Siblings(sidecars, m)|
    requires AreFilesAmong(found, Siblings(sidecars, m)[..i], Companions(pl, sidecars, m))
    ensures var siblings := Siblings(sidecars, m); var s := siblings[i];
            && s != []
            && AreFilesAmong(if Stem(pl, m) + "." <= Name(s) then found + [s] else found, siblings[..i + 1],
                             Companions(pl, sidecars, m))
  {
    var siblings := Siblings(sidecars, m);
    assert siblings[i] in siblings && siblings[i] !in siblings[..i]
           && siblings[..i + 1] == siblings[..i] + [siblings[i]];
    assert Parent(m) in sidecars && siblings == sidecars[Parent(m)] && IsSidecar(pl, siblings[i]);
    AreFilesStep(found, siblings[..i], Companions(pl, sidecars, m), siblings[i]);
  }

  lemma AllSiblings(pl: Pipeline, sidecars: map<Path, seq<Path>>, files: seq<Path>, m: Path, found: seq<Path>)
    requires m != [] && Grouped(pl, sidecars, files)
    requires AreFilesAmong(found, Siblings(sidecars, m)[..|Siblings(sidecars, m)|], Companions(pl, sidecars, m))
    ensures Distinct(found) && forall s :: s in found <==> s in files && IsSidecarOf(pl, s, m)
  {
    var siblings := Siblings(sidecars, m);
    assert siblings[..|siblings|] == siblings;
    forall s ensures s in Companions(pl, sidecars, m) <==> s in files && IsSidecarOf(pl, s, m) {
      if s in siblings {
        assert IsSidecar(pl, s) && Parent(s) == Parent(m) && s in files;
      }
    }
  }

  ghost predicate HasLink(pl: Pipeline, o: Output, wanted: Wanted, s: Path) {
    && Within(s, pl.input)
    && var dest := DestOf(pl.input, o.path, s);
       dest in wanted && dest != [] && Normal(dest) && wanted[dest] == LinkTarget(s, dest, pl.relative)
  }

  /** The sources have their links in wanted. */
  ghost predicate WantedHere(pl: Pipeline, o: Output, wanted: Wanted, sources: seq<Path>) {
    forall s :: s in sources ==> HasLink(pl, o, wanted, s)
  }

  /** The first i sources are linked, on top of what was expected and attempted before. */
  ghost predicate SourcesDone(pl: Pipeline, o: Output, sources: seq<Path>, i: nat, expected: set<Path>,
                              tries: multiset<Path>, more: set<Path>, trail: Trail)
  {
    && i <= |sources| && (forall s :: s in sources ==> Within(s, pl.input))
    && (var dests := Dests(pl, o, Elements(sources[..i]));
        more == expected + dests && trail.made.Keys == more && trail.tries == tries + multiset(dests))
  }

  lemma NoSourceDone(pl: Pipeline, o: Output, wanted: Wanted, sources: seq<Path>, trail: Trail)
    requires WantedHere(pl, o, wanted, sources)
    ensures SourcesDone(pl, o, sources, 0, trail.made.Keys, trail.tries, trail.made.Keys, trail)
  {
    assert Elements(sources[..0]) == {} && Dests(pl, o, {}) == {};
  }

  lemma OneMoreSourceDone(pl: Pipeline, o: Output, sources: seq<Path>, i: nat, expected: set<Path>,
                          tries: multiset<Path>, more: set<Path>, trail: Trail, next: Trail)
    requires i < |sources| && Distinct(sources) && SourcesDone(pl, o, sources, i, expected, tries, more, trail)
    requires Within(sources[i], pl.input)
    requires var dest := DestOf(pl.input, o.path, sources[i]);
             next.made.Keys == trail.made.Keys + {dest} && next.tries == trail.tries + multiset{dest}
    ensures SourcesDone(pl, o, sources, i + 1, expected, tries, more + {DestOf(pl.input, o.path, sources[i])}, next)
  {
    var done, s := Elements(sources[..i]), sources[i];
    NextElement(sources, i);
    OneMoreDest(pl, o, done, s);
    OneAdded(expected, tries, Dests(pl, o, done), DestOf(pl.input, o.path, s));
  }

  lemma OneAdded(expected: set<Path>, tries: multiset<Path>, dests: set<Path>, dest: Path)
    ensures expected + dests + {dest} == expected + (dests + {dest})
    ensures tries + multiset(dests) + multiset{dest} == tries + (multiset(dests) + multiset{dest})
  {}

  lemma AllSourcesDone(pl: Pipeline, o: Output, sources: seq<Path>, expected: set<Path>, tries: multiset<Path>,
                       more: set<Path>, trail: Trail)
    requires SourcesDone(pl, o, sources, |sources|, expected, tries, more, trail)
    ensures more == expected + Dests(pl, o, Elements(sources)) && trail.made.Keys == more
    ensures trail.tries == tries + multiset(Dests(pl, o, Elements(sources)))
  {
    assert sources[..|sources|] == sources;
  }

  lemma NextElement(s: seq<Path>, i: nat)
    requires i < |s| && Distinct(s)
    ensures Elements(s[..i + 1]) == Elements(s[..i]) + {s[i]} && s[i] !in Elements(s[..i])
    ensures forall p :: p in Elements(s[..i]) ==> p in s
  {
    assert s[..i + 1] == s[..i] + [s[i]];
  }

  lemma OneMoreDest(pl: Pipeline, o: Output, linked: set<Path>, s: Path)
    requires (forall l :: l in linked ==> Within(l, pl.input)) && Within(s, pl.input) && s !in linked
    ensures var dest := DestOf(pl.input, o.path, s);
            && Dests(pl, o, linked + {s}) == Dests(pl, o, linked) + {dest}
            && multiset(Dests(pl, o, linked + {s})) == multiset(Dests(pl, o, linked)) + multiset{dest}
  {
    var dest, dests := DestOf(pl.input, o.path, s), Dests(pl, o, linked);
    if dest in dests {
      var l :| l in linked && DestOf(pl.input, o.path, l) == dest;
      DestAndBack(pl.input, o.path, l);
      DestAndBack(pl.input, o.path, s);
    }
    assert Dests(pl, o, linked + {s}) == dests + {dest};
  }

  /** The destinations decided on so far: those expected, and those kept because their file could not be probed. */
  ghost predicate Decided(pl: Pipeline, o: Output, files: set<Path>, infos: map<Path, MediaInfo>, done: set<Path>,
                          expected: set<Path>, preserve: set<Path>)
    requires InInput(pl, files)
  {
    && done <= files
    && (SourcesInInput(pl, o, files, infos, done);
        expected == Dests(pl, o, WantedSources(pl, o, files, infos, done)) &&
        preserve == Dests(pl, o, KeptSources(pl, files, infos, done)))
  }

  lemma SourcesOfOne(pl: Pipeline, files: seq<Path>, m: Path, sources: seq<Path>)
    requires m in files && sources != [] && sources[0] == m
             && forall s :: s in sources[1..] <==> s in files && IsSidecarOf(pl, s, m)
    ensures Elements(sources) == Sources(pl, Elements(files), m) && Elements(sources) <= Elements(files)
  {
    assert sources == [m] + sources[1..];
    forall s ensures s in Elements(sources) <==> s in Sources(pl, Elements(files), m) {
      assert s in sources <==> s == m || s in sources[1..];
    }
  }

  lemma DecidedStep(pl: Pipeline, o: Output, files: seq<Path>, infos: map<Path, MediaInfo>, done: set<Path>,
                    expected: set<Path>, preserve: set<Path>, m: Path, sources: seq<Path>)
    requires InInput(pl, Elements(files)) && m in files && m != []
             && Decided(pl, o, Elements(files), infos, done, expected, preserve)
    requires sources != [] && sources[0] == m && forall s :: s in sources[1..] <==> s in files && IsSidecarOf(pl, s, m)
    ensures Elements(sources) == Sources(pl, Elements(files), m) && Elements(sources) <= Elements(files)
    ensures Distinct(sources[1..]) && Passes(pl, m) ==> Distinct(sources)
    ensures if m !in infos then Decided(pl, o, Elements(files), infos, done + {m}, expected,
                                        preserve + Dests(pl, o, Elements(sources)))
            else if !Wants(o, infos[m]) then Decided(pl, o, Elements(files), infos, done + {m}, expected, preserve)
            else Decided(pl, o, Elements(files), infos, done + {m}, expected + Dests(pl, o, Elements(sources)),
                         preserve)
  {
    var all, here := Elements(files), Elements(sources);
    SourcesOfOne(pl, files, m, sources);
    WantedStep(pl, o, all, infos, done, m);
    SourcesInInput(pl, o, all, infos, done);
    SourcesInInput(pl, o, all, infos, done + {m});
    DestsStep(pl, o, WantedSources(pl, o, all, infos, done), if m in infos && Wants(o, infos[m]) then here else {});
    DestsStep(pl, o, KeptSources(pl, all, infos, done), if m in infos then {} else here);
    assert Dests(pl, o, {}) == {};
    assert sources == [m] + sources[1..];
  }

  lemma NothingDecided(pl: Pipeline, o: Output, files: set<Path>, infos: map<Path, MediaInfo>)
    requires InInput(pl, files)
    ensures Decided(pl, o, files, infos, {}, {}, {})
  {
    assert WantedSources(pl, o, files, infos, {}) == {} && KeptSources(pl, files, infos, {}) == {};
    assert Dests(pl, o, {}) == {};
  }

  /** Linking is under way: u and tally are what has become of the tree and the counters. */
  ghost predicate LinkingOn(start: Start, u: Tree, tally: Tally, trail: Trail, dryRun: bool, calm: bool) {
    && Following(start.tree, start.wanted, u, trail, dryRun, calm) && (calm ==> Makeable(start.tree, start.wanted))
    && LinksCounted(start.tally, tally, trail) && |tally.changes| <= MAX_RECORDED_CHANGES
  }

  lemma LinkingStarts(start: Start, dryRun: bool, calm: bool)
    requires |start.tally.changes| <= MAX_RECORDED_CHANGES && (calm ==> Makeable(start.tree, start.wanted))
    ensures LinkingOn(start, start.tree, start.tally, NO_LINKS_YET, dryRun, calm)
  {
    OverNone(start.tree);
    assert Feasible(start.tree, map[]) == map[] && Reported([]) == {} == Outdated(start.tree, map[]);
    assert start.tally.changes + [] == start.tally.changes;
  }

  lemma CourseStarts(files: seq<Path>, start: Start, dryRun: bool) returns (at: Course)
    requires |start.tally.changes| <= MAX_RECORDED_CHANGES
    ensures at == Course(files, start, NO_LINKS_YET, at.calm) && at.calm == Makeable(start.tree, start.wanted)
    ensures LinkingOn(start, start.tree, start.tally, at.trail, dryRun, at.calm)
  {
    at := Course(files, start, NO_LINKS_YET, Makeable(start.tree, start.wanted));
    LinkingStarts(start, dryRun, at.calm);
  }

  // ---------------------------------------------------------------- links several media files ask for

  /** The links a media file asks for: if it is wanted, its own and those of its sidecars. */
  function AskedBy(pl: Pipeline, o: Output, files: set<Path>, infos: map<Path, MediaInfo>, m: Path): set<Path>
    requires InInput(pl, files) && m in files
  {
    if m in infos && Wants(o, infos[m]) then Dests(pl, o, Sources(pl, files, m)) else {}
  }

  function Asked(pl: Pipeline, o: Output, files: set<Path>, infos: map<Path, MediaInfo>,
                 media: seq<Path>): seq<set<Path>>
    requires InInput(pl, files) && forall m :: m in media ==> m in files
  {
    seq(|media|, i requires 0 <= i < |media| => assert media[i] in media; AskedBy(pl, o, files, infos, media[i]))
  }

  /** No link among stale is asked for by two media files. */
  ghost predicate AskedOnce(pl: Pipeline, o: Output, files: set<Path>, infos: map<Path, MediaInfo>, stale: set<Path>)
    requires InInput(pl, files)
  {
    forall a, b, d :: a in Media(pl, files) && b in Media(pl, files) && d in stale ==>
                        d in AskedBy(pl, o, files, infos, a) && d in AskedBy(pl, o, files, infos, b) ==> a == b
  }

  lemma PlainFile(t: Tree, f: Path)
    requires f != [] && ProperName(Name(f)) && f in t && t[f].File?
    ensures IsFile(t, f) && StatOf(t, f) == FileStat(t[f].size, t[f].mtime)
  {
    assert Parent(f) + [Name(f)] == f && [Name(f)][1..] == [];
  }

  /** An input directory that holds nothing but files, and an empty output directory. */
  ghost predicate FlatLibrary(t: Tree, input: Path, output: Path, files: set<Path>) {
    && |input| == 1 && |output| == 1 && input[0] != output[0] && Normal(input) && Normal(output)
    && t.Keys == {[], input, output} + files && IsDir(t, []) && IsDir(t, input) && IsDir(t, output)
    && forall f :: f in files ==> FlatFile(t, input, f)
  }

  ghost predicate FlatFile(t: Tree, input: Path, f: Path) {
    && |f| == 2 && f == input + [f[1]] && ProperName(f[1]) && |f[1]| <= |TMP_SUFFIX|
    && f in t && t[f] == File(0, 0)
  }

  lemma FlatFileFound(t: Tree, pl: Pipeline, files: set<Path>, output: Path, f: Path)
    requires FlatLibrary(t, pl.input, output, files) && forall name :: !pl.ignored(name)
    ensures f in FilesOf(t, pl) <==> f in files
    ensures f in files ==> IsFile(t, f) && StatOf(t, f) == FileStat(0, 0)
  {
    if f in files {
      assert FlatFile(t, pl.input, f) && Parent(f) == pl.input && Name(f) == f[1];
      PlainFile(t, f);
    } else if f in t && f != [] {
      assert Parent(f) == [] && !(pl.input <= []);
    }
  }

  lemma FlatIsWellFormed(t: Tree, input: Path, output: Path, files: set<Path>)
    requires FlatLibrary(t, input, output, files)
    ensures WellFormed(t)
  {
    forall p | p in t && p != [] ensures Normal(p) && Parent(p) in t && t[Parent(p)].Dir? {
      if p in files {
        assert FlatFile(t, input, p) && Parent(p) == input;
      } else {
        assert Parent(p) == [];
      }
    }
  }

  lemma FlatHasNoClash(t: Tree, input: Path, output: Path, files: set<Path>, f: Path, g: Path)
    requires FlatLibrary(t, input, output, files) && f in files && g in files
    ensures !(TmpOf(f) <= g)
  {
    assert FlatFile(t, input, f) && FlatFile(t, input, g);
    assert Name(f) == f[1] && TmpOf(f)[1] == TmpName(f[1]) && |TmpName(f[1])| > |g[1]|;
  }

  lemma FlatIsUnobstructed(t: Tree, input: Path, output: Path, files: set<Path>, f: Path)
    requires FlatLibrary(t, input, output, files) && f in files && Within(f, input)
    ensures var d := DestOf(input, output, f); d != [] && d !in t && Unobstructed(t, d)
  {
    assert FlatFile(t, input, f);
    var d := DestOf(input, output, f);
    assert |d| == 2 && d[0] == output[0] && |TmpOf(d)| == 2 && TmpOf(d)[0] == output[0];
    forall p | p in t && |p| == 2 ensures p[0] == input[0] { assert FlatFile(t, input, p); }
    forall p | p < d && p in t ensures t[p].Dir? { assert p !in files by { assert |p| < 2; } }
  }

  /** In such a library every wanted link is missing, and clear to be made. */
  lemma FlatIsClear(t: Tree, pl: Pipeline, o: Output, files: set<Path>, infos: map<Path, MediaInfo>)
    requires FlatLibrary(t, pl.input, o.path, files) && forall name :: !pl.ignored(name)
    ensures WellFormed(t) && FilesOf(t, pl) == files && Clear(t, JobOf(pl, o, FilesOf(t, pl), infos).wanted)
    ensures var wanted := JobOf(pl, o, FilesOf(t, pl), infos).wanted; Outdated(t, wanted) == wanted.Keys
  {
    FlatIsWellFormed(t, pl.input, o.path, files);
    forall f ensures f in FilesOf(t, pl) <==> f in files { FlatFileFound(t, pl, files, o.path, f); }
    assert FilesOf(t, pl) == files;
    forall f, g | f in files && g in files && f != [] ensures !(TmpOf(f) <= g) {
      FlatHasNoClash(t, pl.input, o.path, files, f, g);
    }
    forall d | d in JobOf(pl, o, files, infos).wanted ensures d != [] && d !in t && Unobstructed(t, d) {
      WantedHasSource(pl, o, files, infos, d);
      var f :| f in files && d == DestOf(pl.input, o.path, f);
      FlatIsUnobstructed(t, pl.input, o.path, files, f);
    }
    WantedIsClear(t, pl, o, infos);
  }

  lemma FlatTree(t: Tree, i: Path, o: Path, a: Path, b: Path, s: Path)
    requires t == map[[] := Dir, i := Dir, o := Dir, a := File(0, 0), b := File(0, 0), s := File(0, 0)]
    requires |i| == 1 && |o| == 1 && i[0] != o[0] && Normal(i) && Normal(o)
    requires |a| == 2 && |b| == 2 && |s| == 2 && i <= a && i <= b && i <= s && Normal(a) && Normal(b) && Normal(s)
    requires |a[1]| <= |TMP_SUFFIX| && |b[1]| <= |TMP_SUFFIX| && |s[1]| <= |TMP_SUFFIX|
    ensures FlatLibrary(t, i, o, {a, b, s})
  {
    assert i + [a[1]] == a && i + [b[1]] == b && i + [s[1]] == s;
    assert FlatFile(t, i, a) && FlatFile(t, i, b) && FlatFile(t, i, s);
    assert t.Keys == {[], i, o} + {a, b, s};
  }

  /** Such media files exist: a.mkv and a.b.mkv share the sidecar a.b.srt, whose link is missing in an empty output. */
  lemma SidecarsCanBeShared() returns (t: Tree, pl: Pipeline)
    ensures WellFormed(t) && |pl.outputs| == 1
    ensures var files := FilesOf(t, pl);
            var infos := InfosOf(pl, StatsOf(t, files), Media(pl, files));
            var wanted := JobOf(pl, pl.outputs[0], files, infos).wanted;
            && files == {["i", "a.mkv"], ["i", "a.b.mkv"], ["i", "a.b.srt"]} && Clear(t, wanted)
            && !AskedOnce(pl, pl.outputs[0], files, infos, Outdated(t, wanted))
  {
    var i: Path, o: Path := ["i"], ["o"];
    var a: Path, b: Path, s: Path := ["i", "a.mkv"], ["i", "a.b.mkv"], ["i", "a.b.srt"];
    t := map[[] := Dir, i := Dir, o := Dir, a := File(0, 0), b := File(0, 0), s := File(0, 0)];
    var out := Output(o, info => true);
    pl := Pipeline(i, [out], name => false, f => f != s, name => name == Name(s),
      name => if name == Name(a) then "a" else "a.b", [(f, size, mtime) => Some(Tracks([], []))], false, None, false);
    FlatTree(t, i, o, a, b, s);
    assert Stem(pl, a) == "a" && Stem(pl, b) == "a.b" && Name(s) == "a.b.srt";
    assert "a" + "." == Name(s)[..2] && "a.b" + "." == Name(s)[..4];
    ClaimedByStem(pl, out, a, s, "a");
    ClaimedByStem(pl, out, b, s, "a.b");
    TwoClaim(t, pl, out, a, b, s);
  }

  lemma ClaimedByStem(pl: Pipeline, o: Output, m: Path, s: Path, stem: string)
    requires m != [] && s != [] && Parent(s) == Parent(m) && Stem(pl, m) == stem && stem + "." <= Name(s)
    requires Passes(pl, m) && IsSidecar(pl, s) && |pl.probers| > 0 && pl.probers[0](m, 0, 0).Some?
    requires forall info :: Wants(o, info)
    ensures Claims(pl, o, m, s)
  {}

  /** The output wants m, whatever the cache says, and m claims s as its sidecar. */
  ghost predicate Claims(pl: Pipeline, o: Output, m: Path, s: Path) {
    var info := Answer(pl, m, FileStat(0, 0));
    Passes(pl, m) && IsSidecarOf(pl, s, m) && info.Some? && Wants(o, info.value)
  }

  lemma ClaimerIsKnown(t: Tree, pl: Pipeline, o: Output, files: set<Path>, m: Path, s: Path)
    requires FlatLibrary(t, pl.input, o.path, files) && (forall name :: !pl.ignored(name))
    requires FilesOf(t, pl) == files && m in files && Claims(pl, o, m, s)
    ensures var infos := InfosOf(pl, StatsOf(t, files), Media(pl, files)); m in infos && Wants(o, infos[m])
  {
    FlatFileFound(t, pl, files, o.path, m);
  }

  lemma TwoClaim(t: Tree, pl: Pipeline, o: Output, a: Path, b: Path, s: Path)
    requires FlatLibrary(t, pl.input, o.path, {a, b, s}) && (forall name :: !pl.ignored(name)) && a != b
    requires Claims(pl, o, a, s) && Claims(pl, o, b, s)
    ensures var files := FilesOf(t, pl);
            var infos := InfosOf(pl, StatsOf(t, files), Media(pl, files));
            var wanted := JobOf(pl, o, files, infos).wanted;
            && WellFormed(t) && files == {a, b, s} && Clear(t, wanted)
            && !AskedOnce(pl, o, files, infos, Outdated(t, wanted))
  {
    var files := FilesOf(t, pl);
    var infos := InfosOf(pl, StatsOf(t, files), Media(pl, files));
    FlatIsClear(t, pl, o, {a, b, s}, infos);
    ClaimerIsKnown(t, pl, o, {a, b, s}, a, s);
    ClaimerIsKnown(t, pl, o, {a, b, s}, b, s);
    SharedSidecar(pl, o, files, infos, a, b, s, JobOf(pl, o, files, infos).wanted.Keys);
  }

  lemma SharedSidecar(pl: Pipeline, o: Output, files: set<Path>, infos: map<Path, MediaInfo>, a: Path, b: Path, s: Path,
                      stale: set<Path>)
    requires InInput(pl, files) && a in Media(pl, files) && b in Media(pl, files) && a != b && s in files
    requires a in infos && Wants(o, infos[a]) && IsSidecarOf(pl, s, a) && b in infos && Wants(o, infos[b])
             && IsSidecarOf(pl, s, b)
    requires stale == JobOf(pl, o, files, infos).wanted.Keys
    ensures !AskedOnce(pl, o, files, infos, stale)
  {
    var d := DestOf(pl.input, o.path, s);
    SourcesInInput(pl, o, files, infos, Media(pl, files));
    assert s in Sources(pl, files, a) && s in Sources(pl, files, b);
    assert d in AskedBy(pl, o, files, infos, a) && d in AskedBy(pl, o, files, infos, b);
    assert s in WantedSources(pl, o, files, infos, Media(pl, files));
    assert d in stale;
  }

  /** A dry run reports every link once exactly if no outdated link is asked for by two media files. */
  ghost predicate ReportedAsAsked(pl: Pipeline, o: Output, files: set<Path>, infos: map<Path, MediaInfo>,
                                  stale: set<Path>, log: seq<Change>)
    requires InInput(pl, files)
  {
    ReportedOnce(log) <==> AskedOnce(pl, o, files, infos, stale)
  }

  function Summed(sets: seq<set<Path>>): multiset<Path> {
    if sets == [] then multiset{} else Summed(sets[..|sets| - 1]) + multiset(sets[|sets| - 1])
  }

  lemma SummedStep(sets: seq<set<Path>>, more: set<Path>)
    ensures Summed(sets + [more]) == Summed(sets) + multiset(more)
  {
    assert (sets + [more])[..|sets|] == sets;
  }

  lemma NextAsked(sets: seq<set<Path>>, i: nat)
    requires i < |sets|
    ensures Summed(sets[..i + 1]) == Summed(sets[..i]) + multiset(sets[i])
  {
    assert sets[..i + 1] == sets[..i] + [sets[i]];
    SummedStep(sets[..i], sets[i]);
  }

  /** A member of several sets is counted several times. */
  lemma {:induction false} SummedTells(sets: seq<set<Path>>, d: Path)
    ensures d in Summed(sets) <==> exists i :: 0 <= i < |sets| && d in sets[i]
    ensures Summed(sets)[d] <= 1 <==> forall i, j :: 0 <= i < j < |sets| && d in sets[i] ==> d !in sets[j]
    decreases |sets|
  {
    if sets != [] {
      SummedTells(sets[..|sets| - 1], d);
    }
  }

  /** A dry run reports a link twice exactly if it is outdated and two media files ask for it: a sidecar they share. */
  lemma DryReportsOnce(pl: Pipeline, o: Output, files: set<Path>, infos: map<Path, MediaInfo>, media: seq<Path>,
                       stale: set<Path>, log: seq<Change>)
    requires InInput(pl, files) && Distinct(media) && forall m :: m in media <==> m in Media(pl, files)
    requires forall d :: Times(log)[d] == if d in stale then Summed(Asked(pl, o, files, infos, media))[d] else 0
    ensures ReportedAsAsked(pl, o, files, infos, stale, log)
  {
    TimesTell(log);
    var asked := Asked(pl, o, files, infos, media);
    if AskedOnce(pl, o, files, infos, stale) {
      forall d | d in stale ensures Times(log)[d] <= 1 { OneAsks(pl, o, files, infos, media, stale, d); }
    }
    if ReportedOnce(log) {
      forall a, b, d | a in Media(pl, files) && b in Media(pl, files) && d in stale &&
                       d in AskedBy(pl, o, files, infos, a) && d in AskedBy(pl, o, files, infos, b)
        ensures a == b
      {
        assert Summed(asked)[d] <= 1;
        AskersAreOne(pl, o, files, infos, media, a, b, d);
      }
    }
  }

  lemma AskersAreOne(pl: Pipeline, o: Output, files: set<Path>, infos: map<Path, MediaInfo>, media: seq<Path>, a: Path,
                     b: Path, d: Path)
    requires InInput(pl, files) && Distinct(media) && forall m :: m in media <==> m in Media(pl, files)
    requires a in media && b in media && Summed(Asked(pl, o, files, infos, media))[d] <= 1
    requires d in AskedBy(pl, o, files, infos, a) && d in AskedBy(pl, o, files, infos, b)
    ensures a == b
  {
    var i :| 0 <= i < |media| && media[i] == a;
    var j :| 0 <= j < |media| && media[j] == b;
    AskedAt(pl, o, files, infos, media, i);
    AskedAt(pl, o, files, infos, media, j);
    SameAsker(Asked(pl, o, files, infos, media), i, j, d);
  }

  lemma SameAsker(asked: seq<set<Path>>, i: nat, j: nat, d: Path)
    requires i < |asked| && j < |asked| && d in asked[i] && d in asked[j] && Summed(asked)[d] <= 1
    ensures i == j
  {
    SummedTells(asked, d);
  }

  lemma AskedAt(pl: Pipeline, o: Output, files: set<Path>, infos: map<Path, MediaInfo>, media: seq<Path>, i: nat)
    requires InInput(pl, files) && (forall m :: m in media ==> m in files) && i < |media|
    ensures media[i] in files && Asked(pl, o, files, infos, media)[i] == AskedBy(pl, o, files, infos, media[i])
  {
    assert media[i] in media;
  }

  lemma OneAsks(pl: Pipeline, o: Output, files: set<Path>, infos: map<Path, MediaInfo>, media: seq<Path>,
                stale: set<Path>, d: Path)
    requires InInput(pl, files) && Distinct(media) && forall m :: m in media <==> m in Media(pl, files)
    requires AskedOnce(pl, o, files, infos, stale) && d in stale
    ensures Summed(Asked(pl, o, files, infos, media))[d] <= 1
  {
    var asked := Asked(pl, o, files, infos, media);
    SummedTells(asked, d);
    forall i, j | 0 <= i < j < |asked| && d in asked[i] ensures d !in asked[j] {
      assert media[i] in media && media[j] in media;
    }
  }

  lemma SourceHasLink(pl: Pipeline, o: Output, sources: set<Path>, s: Path)
    requires (forall p :: p in sources ==> Within(p, pl.input)) && s in sources
    requires Below(s, pl.input) && Normal(s) && Normal(o.path)
    ensures HasLink(pl, o, LinksFor(pl, o, sources), s)
  {
    var dest := DestOf(pl.input, o.path, s);
    assert dest in Dests(pl, o, sources);
    DestAndBack(pl.input, o.path, s);
  }

  lemma WantedHasLink(pl: Pipeline, o: Output, files: set<Path>, infos: map<Path, MediaInfo>, m: Path, s: Path)
    requires InInput(pl, files) && Normal(o.path) && forall f :: f in files ==> f != [] && Normal(f)
    requires m in files && Passes(pl, m) && m in infos && Wants(o, infos[m]) && s in Sources(pl, files, m)
    ensures HasLink(pl, o, JobOf(pl, o, files, infos).wanted, s)
  {
    var media := Media(pl, files);
    SourcesInInput(pl, o, files, infos, media);
    assert s in WantedSources(pl, o, files, infos, media) by { assert m in media; }
    assert s in files && Below(s, pl.input);
    SourceHasLink(pl, o, WantedSources(pl, o, files, infos, media), s);
  }

  lemma NextMedia(pl: Pipeline, o: Output, media: seq<Path>, files: seq<Path>, infos: map<Path, MediaInfo>, job: Job,
                  i: nat)
    requires InInput(pl, Elements(files)) && Normal(o.path) && i < |media|
    requires forall f :: f in files ==> f != [] && Normal(f)
    requires forall f :: f in media <==> f in files && Passes(pl, f)
    requires job == JobOf(pl, o, Elements(files), infos)
    ensures var m := media[i];
            && m in files && m != [] && Passes(pl, m)
            && (m in infos && Wants(o, infos[m]) ==>
                forall s :: s in Sources(pl, Elements(files), m) ==> HasLink(pl, o, job.wanted, s))
  {
    var m, all := media[i], Elements(files);
    assert m in media;
    if m in infos && Wants(o, infos[m]) {
      forall s | s in Sources(pl, all, m)
        ensures HasLink(pl, o, job.wanted, s)
      {
        WantedHasLink(pl, o, all, infos, m, s);
      }
    }
  }

  lemma AreMedia(pl: Pipeline, media: seq<Path>, files: seq<Path>)
    requires forall f :: f in media <==> f in files && Passes(pl, f)
    ensures Elements(media[..|media|]) == Media(pl, Elements(files))
  {
    assert media[..|media|] == media;
  }

  lemma SameLinks(made: Wanted, wanted: Wanted)
    requires made.Keys == wanted.Keys && forall d :: d in made ==> made[d] == wanted[d]
    ensures made == wanted
  {}

  lemma DecidedAll(pl: Pipeline, o: Output, files: set<Path>, infos: map<Path, MediaInfo>, expected: set<Path>,
                   preserve: set<Path>)
    requires InInput(pl, files) && Decided(pl, o, files, infos, Media(pl, files), expected, preserve)
    ensures expected == JobOf(pl, o, files, infos).wanted.Keys && preserve == JobOf(pl, o, files, infos).preserve
  {}

  /** The first i media files are decided upon, and linked if they are wanted. */
  ghost predicate MediaDone(pl: Pipeline, o: Output, media: seq<Path>, files: seq<Path>, infos: map<Path, MediaInfo>,
                            i: nat, expected: set<Path>, preserve: set<Path>, trail: Trail)
    requires InInput(pl, Elements(files)) && forall m :: m in media ==> m in files
  {
    && i <= |media| && Decided(pl, o, Elements(files), infos, Elements(media[..i]), expected, preserve)
    && trail.made.Keys == expected && trail.tries == Summed(Asked(pl, o, Elements(files), infos, media)[..i])
  }

  lemma NoMediaDone(pl: Pipeline, o: Output, media: seq<Path>, files: seq<Path>, infos: map<Path, MediaInfo>)
    requires InInput(pl, Elements(files)) && forall m :: m in media ==> m in files
    ensures MediaDone(pl, o, media, files, infos, 0, {}, {}, NO_LINKS_YET)
  {
    NothingDecided(pl, o, Elements(files), infos);
    assert Elements(media[..0]) == {};
  }

  lemma OneMoreMediaDone(pl: Pipeline, o: Output, media: seq<Path>, files: seq<Path>, infos: map<Path, MediaInfo>,
                         i: nat, expected: set<Path>, preserve: set<Path>, trail: Trail, more: set<Path>,
                         kept: set<Path>, next: Trail)
    requires InInput(pl, Elements(files)) && (forall m :: m in media ==> m in files) && i < |media|
    requires MediaDone(pl, o, media, files, infos, i, expected, preserve, trail)
    requires Decided(pl, o, Elements(files), infos, Elements(media[..i]) + {media[i]}, more, kept)
             && next.made.Keys == more
    requires media[i] in files && next.tries == trail.tries + multiset(AskedBy(pl, o, Elements(files), infos, media[i]))
    ensures MediaDone(pl, o, media, files, infos, i + 1, more, kept, next)
  {
    assert media[..i + 1] == media[..i] + [media[i]];
    assert Elements(media[..i + 1]) == Elements(media[..i]) + {media[i]};
    NextAsked(Asked(pl, o, Elements(files), infos, media), i);
  }

  /** Linking is over: all wanted links have been attempted, and all is counted. */
  ghost predicate LinkingDone(start: Start, u: Tree, tally: Tally, trail: Trail, job: Job, dryRun: bool, calm: bool) {
    && Following(start.tree, job.wanted, u, trail, dryRun, calm) && trail.made == job.wanted
    && LinkingCounted(start.tally, tally, trail, job) && |tally.changes| <= MAX_RECORDED_CHANGES
    && (calm ==> Makeable(start.tree, job.wanted))
  }

  lemma AllMediaDone(pl: Pipeline, o: Output, media: seq<Path>, files: seq<Path>, infos: map<Path, MediaInfo>, job: Job,
                     expected: set<Path>, preserve: set<Path>, trail: Trail)
    requires InInput(pl, Elements(files)) && job == JobOf(pl, o, Elements(files), infos)
    requires forall f :: f in media <==> f in files && Passes(pl, f)
    requires MediaDone(pl, o, media, files, infos, |media|, expected, preserve, trail)
    requires forall d :: d in trail.made ==> d in job.wanted && trail.made[d] == job.wanted[d]
    ensures expected == job.wanted.Keys && preserve == job.preserve && trail.made == job.wanted
    ensures trail.tries == Summed(Asked(pl, o, Elements(files), infos, media))
  {
    var asked := Asked(pl, o, Elements(files), infos, media);
    assert asked[..|media|] == asked;
    AreMedia(pl, media, files);
    DecidedAll(pl, o, Elements(files), infos, expected, preserve);
    SameLinks(trail.made, job.wanted);
  }

  lemma LinkingEnds(pl: Pipeline, o: Output, finds: Finds, files: seq<Path>, job: Job, expected: set<Path>,
                    preserve: set<Path>, u: Tree, tally: Tally, at: Course, dryRun: bool)
    requires Prepared(pl, finds.media, finds.sidecars, files) && job == JobOf(pl, o, Elements(files), finds.infos)
    requires MediaDone(pl, o, finds.media, files, finds.infos, |finds.media|, expected, preserve, at.trail)
    requires LinkingOn(at.start, u, tally, at.trail, dryRun, at.calm) && at.start.wanted == job.wanted
    ensures expected == job.wanted.Keys && preserve == job.preserve
    ensures dryRun && at.calm ==>
              ReportedAsAsked(pl, o, Elements(files), finds.infos,
                              Outdated(at.start.tree, Feasible(at.start.tree, job.wanted)), at.trail.log)
    ensures LinkingDone(at.start, u, tally.(links := tally.links[job.output := |job.wanted.Keys|]), at.trail, job,
                        dryRun, at.calm)
  {
    AllMediaDone(pl, o, finds.media, files, finds.infos, job, expected, preserve, at.trail);
    if dryRun && at.calm {
      DryReportsOnce(pl, o, Elements(files), finds.infos, finds.media,
                     Outdated(at.start.tree, Feasible(at.start.tree, job.wanted)), at.trail.log);
    }
  }

  // ---------------------------------------------------------------- removals

  /** What a job removes from a linked tree. */
  function Condemned(t: Tree, job: Job): set<Path> {
    if Blocked(t, job) then {} else PlanOf(t, job)
  }

  /** So many removals among so many links are within one of the limits, or the limits do not apply. */
  predicate Permitted(pl: Pipeline, removals: nat, existing: nat) {
    || pl.force || pl.guard.None? || removals <= pl.guard.value.minCount
    || (100 * removals) as real <= pl.guard.value.maxPercent * existing as real
  }

  lemma LimitsExceeded(pl: Pipeline, removals: nat, existing: nat)
    requires removals <= existing
    ensures Permitted(pl, removals, existing) <==>
            pl.force || pl.guard.None? || !pl.guard.value.Blocks(removals, existing)
  {
    if pl.guard.Some? {
      BlocksExactly(pl.guard.value, removals, existing);
    }
  }

  lemma NoMore(a: set<Path>, b: set<Path>)
    requires a <= b
    ensures |a| <= |b|
  {
    assert b == a + (b - a);
  }

  /** A job is refused exactly if its removals are not within the limits. */
  lemma RefusedExactly(t: Tree, pl: Pipeline, o: Output, job: Job)
    requires JobFits(pl, o, job)
    ensures Blocked(t, job) <==> !Permitted(pl, |PlanOf(t, job)|, |LinksBelow(t, o.path)|)
  {
    NoMore(PlanOf(t, job), LinksBelow(t, o.path));
    LimitsExceeded(pl, |PlanOf(t, job)|, |LinksBelow(t, o.path)|);
  }

  ghost predicate RemovalsCounted(a: Tally, b: Tally, log: seq<Change>, blocked: bool, made: bool, output: Path) {
    b == a.(removed := a.removed + |log|,
            changes := Capped(a.changes + log),
            blocked := a.blocked + (if blocked then 1 else 0),
            changedOutputs := if made || log != [] then a.changedOutputs + {output} else a.changedOutputs)
  }

  function RemovedLog(removed: seq<Path>): seq<Change> {
    seq(|removed|, i requires 0 <= i < |removed| => Removed(removed[i]))
  }

  lemma RemovedLogStep(changes: seq<Change>, removed: seq<Path>, i: nat)
    requires i < |removed|
    ensures Capped(Capped(changes + RemovedLog(removed[..i])) + [Removed(removed[i])]) ==
            Capped(changes + RemovedLog(removed[..i + 1]))
  {
    assert RemovedLog(removed[..i + 1]) == RemovedLog(removed[..i]) + [Removed(removed[i])];
    CappedTwice(changes + RemovedLog(removed[..i]), [Removed(removed[i])]);
    assert changes + RemovedLog(removed[..i]) + [Removed(removed[i])] == changes + RemovedLog(removed[..i + 1]);
  }

  lemma RemovedIsReported(removals: seq<Removal>)
    ensures Reported(RemovedLog(LinkSeq(removals))) == LinksOf(removals)
  {
    var log := RemovedLog(LinkSeq(removals));
    forall p ensures p in Reported(log) <==> p in LinksOf(removals) {
      if p in Reported(log) {
        var i :| 0 <= i < |log| && log[i].path == p;
        assert removals[i] in removals;
      }
      if p in LinksOf(removals) {
        var i :| 0 <= i < |removals| && removals[i].link == p;
        assert log[i] in log;
      }
    }
  }

  lemma {:induction false} RemovedTimes(removed: seq<Path>, lost: set<Path>)
    requires Distinct(removed) && forall p :: p in removed <==> p in lost
    ensures Times(RemovedLog(removed)) == multiset(lost)
    decreases |removed|
  {
    if removed != [] {
      var front, last := removed[..|removed| - 1], removed[|removed| - 1];
      RemovedTimes(front, lost - {last});
      assert RemovedLog(removed) == RemovedLog(front) + [Removed(last)];
      TimesStep(RemovedLog(front), Removed(last));
      assert multiset(lost) == multiset(lost - {last}) + multiset{last};
    } else {
      assert lost == {};
    }
  }

  lemma RemovedOnce(removed: seq<Path>)
    requires Distinct(removed)
    ensures ReportedOnce(RemovedLog(removed))
  {}

  lemma PlannedAreLinks(t: Tree, removals: seq<Removal>, job: Job)
    requires LinksOf(removals) == PlanOf(t, job)
    ensures forall r :: r in removals ==> IsLink(t, r.link)
    ensures forall p ::
            p in LinksOf(removals) ==>
              IsLink(t, p) && Below(p, job.output) && (!Live(t, p) || Owned(p, t[p].raw, job.root))
  {
    forall r | r in removals ensures IsLink(t, r.link) { assert r.link in LinksOf(removals); }
  }

  lemma NothingRemoved(t: Tree, output: Path, root: Path)
    ensures StepBy(t, t, Act.Remove(output, {}, root)) && Reported([]) == {} && LostLinks(t, t) == {}
  {
    forall p ensures RemovalStepAt(t, t, output, {}, p) {}
  }

  // ---------------------------------------------------------------- one output

  /** What a scan reports about one output: its links, those made and removed, and how many were left alone or failed;
      faults: how many operations have failed. */
  datatype Report = Report(output: Path, links: nat, created: seq<Change>, removed: seq<Change>, blocked: bool,
                           unaltered: nat, failed: nat, faults: nat)

  function ReportOf(job: Job, trail: Trail, removed: seq<Change>, blocked: bool, faults: nat): Report {
    Report(job.output, |job.wanted.Keys|, trail.log, removed, blocked, trail.unaltered, trail.failed, faults)
  }

  ghost predicate IsFor(report: Report, job: Job) {
    report.output == job.output && report.links == |job.wanted.Keys|
  }

  function Told(report: Report): Deeds {
    Deeds(Times(report.created), Times(report.removed))
  }

  /** Whatever has failed, a real run reports exactly the links it has made and removed. A dry run reports the links
      that are condemned in the tree it leaves alone. */
  ghost predicate ToldTruly(t: Tree, steps: seq<Step>, job: Job, report: Report, dryRun: bool) {
    && ReportedOnce(report.removed)
    && if dryRun then Reported(report.removed) == Condemned(t, job) else DeedsOf(t, steps) == Told(report)
  }

  /** The attempts at links, whatever became of them. */
  function Attempts(report: Report): nat {
    |report.created| + report.unaltered + report.failed
  }

  /** A report in numbers. */
  function TallyOf(report: Report): Tally {
    var changed := report.created != [] || report.removed != [];
    EMPTY_TALLY.(created := |report.created|, removed := |report.removed|, unaltered := report.unaltered,
                 errors := report.failed, blocked := if report.blocked then 1 else 0,
                 links := map[report.output := report.links],
                 changedOutputs := if changed then {report.output} else {},
                 changes := Capped(report.created + report.removed))
  }

  /** Nothing has failed: created are the outdated links, removed are the condemned ones of the linked tree. */
  ghost predicate DoneWell(t: Tree, u: Tree, job: Job, report: Report, dryRun: bool) {
    var linked := if dryRun then t else LinkedOver(t, job.wanted);
    && Reported(report.created) == Outdated(t, job.wanted)
    && Reported(report.removed) == Condemned(linked, job)
    && report.blocked == Blocked(linked, job)
    && report.failed == 0
    && (!dryRun ==> u == Swept(linked, job) && ReportedOnce(report.created))
  }

  lemma WellDone(t: Tree, linked: Tree, u: Tree, job: Job, trail: Trail, removed: seq<Change>, faults: nat,
                 dryRun: bool)
    requires Following(t, job.wanted, linked, trail, dryRun, true) && trail.made == job.wanted
             && Makeable(t, job.wanted)
    requires Reported(removed) == Condemned(linked, job) && (!dryRun ==> u == Swept(linked, job))
    ensures DoneWell(t, u, Narrowed(t, job), ReportOf(job, trail, removed, Blocked(linked, job), faults), dryRun)
  {
    forall d ensures Obstructed(t, d) ==> Obstructed(linked, d) {
      StillInTheWay(t, job.wanted, linked, trail, dryRun, d);
    }
    NarrowedAlike(t, linked, job);
  }

  /** Of links that cannot be made there is nothing to judge. */
  lemma NarrowedAlike(t: Tree, linked: Tree, job: Job)
    requires forall d :: Obstructed(t, d) ==> Obstructed(linked, d)
    ensures PlanOf(linked, Narrowed(t, job)) == PlanOf(linked, job)
    ensures Blocked(linked, Narrowed(t, job)) == Blocked(linked, job)
    ensures Condemned(linked, Narrowed(t, job)) == Condemned(linked, job)
    ensures Swept(linked, Narrowed(t, job)) == Swept(linked, job)
  {
    forall p ensures p in PlanOf(linked, Narrowed(t, job)) <==> p in PlanOf(linked, job) {}
    assert PlanOf(linked, Narrowed(t, job)) == PlanOf(linked, job);
  }

  /** The act is one the job may take. */
  ghost predicate Serves(act: Act, job: Job) {
    match act
    case Make(dest, raw) => dest in job.wanted && raw == job.wanted[dest]
    case Remove(output, links, root) => output == job.output && root == job.root && links !! job.Keep()
  }

  lemma CappedParts(x: seq<Change>, y: seq<Change>, z: seq<Change>)
    ensures Capped(Capped(x + y) + z) == Capped(x + Capped(y + z))
  {
    CappedTwice(x + y, z);
    CappedTail(x, y + z);
    assert x + y + z == x + (y + z);
  }

  lemma OneMore(links: map<Path, nat>, outputs: set<Path>, output: Path, n: nat)
    ensures links[output := n] == links + map[output := n] && outputs == outputs + {}
  {}

  /** Linking and removing have been counted as the report says. */
  lemma CountedTogether(a: Tally, c: Tally, d: Tally, trail: Trail, removed: seq<Change>, blocked: bool, job: Job,
                        faults: nat)
    requires LinkingCounted(a, c, trail, job)
    requires RemovalsCounted(c, d, removed, blocked, c.created > a.created, job.output)
    ensures d == Merged(a, TallyOf(ReportOf(job, trail, removed, blocked, faults)))
  {
    CappedParts(a.changes, trail.log, removed);
    OneMore(a.links, a.changedOutputs, job.output, |job.wanted.Keys|);
  }

  lemma TrailServes(t: Tree, job: Job, linked: Tree, trail: Trail, dryRun: bool, step: Step)
    requires Following(t, job.wanted, linked, trail, dryRun, false)
    requires StepBy(linked, step.after, step.act) && Serves(step.act, job)
    ensures Reaches(t, trail.steps + [step], step.after)
    ensures forall s :: s in trail.steps + [step] ==> Serves(s.act, job)
  {
    OneStep(linked, step.after, step.act);
    ReachesOn(t, trail.steps, linked, [step], step.after);
  }

  /** The tree the steps lead to. */
  function TreeAfter(t: Tree, steps: seq<Step>): Tree {
    if steps == [] then t else steps[|steps| - 1].after
  }

  lemma {:induction false} EndOfSteps(t: Tree, steps: seq<Step>, u: Tree)
    requires Reaches(t, steps, u)
    ensures TreeAfter(t, steps) == u
    decreases |steps|
  {
    if steps != [] {
      EndOfSteps(steps[0].after, steps[1..], u);
    }
  }

  /** The last of the steps, and no other, sweeps the output. It is aimed at the links the job condemns in the tree it
      finds, none of them expected or preserved; where the guard refuses, nothing goes, and nothing is reported gone. */
  ghost predicate SweptLast(t: Tree, steps: seq<Step>, job: Job, report: Report) {
    && steps != [] && (forall step :: step in steps[..|steps| - 1] ==> step.act.Make?)
    && var linked, last := TreeAfter(t, steps[..|steps| - 1]), steps[|steps| - 1];
       && last.act == Act.Remove(job.output, Condemned(linked, job), job.root)
       && report.blocked == Blocked(linked, job)
       && (report.blocked ==> last.after == linked && report.removed == [])
  }

  /** An output has been reconciled. Whatever failed, only steps allowed to a run were taken, the sweep last, and they
      are reported; if nothing has failed, it has ended well. A dry run changes nothing and fails at nothing. */
  ghost predicate OutputRun(t: Tree, steps: seq<Step>, u: Tree, job: Job, report: Report, dryRun: bool) {
    && (dryRun ==> u == t) && WellFormed(u)
    && Reaches(t, steps, u) && (forall step :: step in steps ==> Serves(step.act, job))
    && |steps| == Attempts(report) + 1 && IsFor(report, job)
    && ToldTruly(t, steps, job, report, dryRun) && SweptLast(t, steps, job, report)
    && (dryRun ==> report.faults == 0) && (report.faults == 0 ==> EndedWell(t, u, job, report, dryRun))
  }

  /** If the destinations were clear but for what cannot be replaced, the job without these links is done well. */
  ghost predicate EndedWell(t: Tree, u: Tree, job: Job, report: Report, dryRun: bool) {
    Makeable(t, job.wanted) ==> DoneWell(t, u, Narrowed(t, job), report, dryRun)
  }

  /** The same of the removals alone. */
  ghost predicate RemovalsTold(t: Tree, step: Step, job: Job, log: seq<Change>, dryRun: bool) {
    && step.act.Remove? && ReportedOnce(log)
    && if dryRun then Reported(log) == Condemned(t, job) else Times(log) == multiset(LostLinks(t, step.after))
  }

  lemma OutputTold(t: Tree, job: Job, linked: Tree, trail: Trail, step: Step, removed: seq<Change>, faults: nat,
                   dryRun: bool)
    requires Reaches(t, trail.steps, linked) && (dryRun ==> linked == t) && Honest(t, trail, dryRun, false)
    requires RemovalsTold(linked, step, job, removed, dryRun)
    ensures ToldTruly(t, trail.steps + [step], job, ReportOf(job, trail, removed, Blocked(linked, job), faults), dryRun)
  {
    if !dryRun {
      DeedsOfOne(t, trail.steps, linked, step);
    }
  }

  /** What is to be said of the removal, whatever fails; calm: nothing has failed. */
  ghost predicate RemovalDone(linked: Tree, u: Tree, job: Job, step: Step, log: seq<Change>, dryRun: bool, calm: bool) {
    && (dryRun ==> u == linked)
    && step == Step(Act.Remove(job.output, Condemned(linked, job), job.root), u) && StepBy(linked, u, step.act)
    && (Blocked(linked, job) ==> u == linked && log == [])
    && RemovalsTold(linked, step, job, log, dryRun)
    && (calm ==> Reported(log) == Condemned(linked, job) && (!dryRun ==> u == Swept(linked, job)))
  }

  lemma PlanIsGone(t: Tree, job: Job)
    requires !Blocked(t, job)
    ensures PlanOf(t, job) !! Swept(t, job).Keys
  {}

  /** Within the limits all condemned links go if nothing fails; beyond them nothing does, whatever fails. */
  ghost predicate GuardHeeded(pl: Pipeline, t: Tree, u: Tree, job: Job, blocked: int, dryRun: bool, calm: bool) {
    if Permitted(pl, |PlanOf(t, job)|, |LinksBelow(t, job.output)|) then
      blocked == 0 && (calm && !dryRun ==> PlanOf(t, job) !! u.Keys)
    else blocked == 1 && u == t
  }

  lemma GuardIsHeeded(t: Tree, u: Tree, pl: Pipeline, o: Output, job: Job, step: Step, log: seq<Change>, dryRun: bool,
                      calm: bool)
    requires JobFits(pl, o, job) && RemovalDone(t, u, job, step, log, dryRun, calm)
    ensures GuardHeeded(pl, t, u, job, if Blocked(t, job) then 1 else 0, dryRun, calm)
  {
    RefusedExactly(t, pl, o, job);
    if !Blocked(t, job) {
      PlanIsGone(t, job);
    }
  }

  lemma SweepServes(linked: Tree, job: Job)
    ensures Serves(Act.Remove(job.output, Condemned(linked, job), job.root), job)
  {}

  lemma SweptAtEnd(t: Tree, linked: Tree, u: Tree, job: Job, trail: Trail, step: Step, log: seq<Change>, faults: nat,
                   dryRun: bool, calm: bool)
    requires Following(t, job.wanted, linked, trail, dryRun, false)
    requires RemovalDone(linked, u, job, step, log, dryRun, calm)
    ensures SweptLast(t, trail.steps + [step], job, ReportOf(job, trail, log, Blocked(linked, job), faults))
  {
    assert (trail.steps + [step])[..|trail.steps|] == trail.steps;
    EndOfSteps(t, trail.steps, linked);
  }

  /** Linking and removing make up the whole. linkedWell, removedWell: that part has gone well. */
  lemma OutputFinished(start: Start, linked: Tree, b: Tally, u: Tree, c: Tally, job: Job, trail: Trail, step: Step,
                       log: seq<Change>, dryRun: bool, linkedWell: bool, removedWell: bool, faults: nat)
      returns (steps: seq<Step>, report: Report)
    requires LinkingDone(start, linked, b, trail, job, dryRun, linkedWell)
    requires RemovalDone(linked, u, job, step, log, dryRun, removedWell)
    requires RemovalsCounted(b, c, log, Blocked(linked, job), b.created > start.tally.created, job.output)
    requires WellFormed(u) && (faults == 0 && Makeable(start.tree, job.wanted) ==> linkedWell && removedWell)
             && (dryRun ==> faults == 0)
    ensures OutputRun(start.tree, steps, u, job, report, dryRun) && c == Merged(start.tally, TallyOf(report))
    ensures report.faults == faults && report.created == trail.log
  {
    steps, report := trail.steps + [step], ReportOf(job, trail, log, Blocked(linked, job), faults);
    CountedTogether(start.tally, b, c, trail, log, Blocked(linked, job), job, faults);
    OutputIsRun(start, linked, b, u, job, trail, step, log, dryRun, linkedWell, removedWell, faults);
  }

  lemma OutputIsRun(start: Start, linked: Tree, b: Tally, u: Tree, job: Job, trail: Trail, step: Step,
                    log: seq<Change>, dryRun: bool, linkedWell: bool, removedWell: bool, faults: nat)
    requires LinkingDone(start, linked, b, trail, job, dryRun, linkedWell)
    requires RemovalDone(linked, u, job, step, log, dryRun, removedWell)
    requires WellFormed(u) && (faults == 0 && Makeable(start.tree, job.wanted) ==> linkedWell && removedWell)
             && (dryRun ==> faults == 0)
    ensures OutputRun(start.tree, trail.steps + [step], u, job,
                      ReportOf(job, trail, log, Blocked(linked, job), faults), dryRun)
  {
    OutputServes(start, linked, b, u, job, trail, step, log, dryRun, linkedWell, removedWell, faults);
    OutputEndsWell(start, linked, b, u, job, trail, step, log, dryRun, linkedWell, removedWell, faults);
  }

  lemma OutputServes(start: Start, linked: Tree, b: Tally, u: Tree, job: Job, trail: Trail, step: Step,
                     log: seq<Change>, dryRun: bool, linkedWell: bool, removedWell: bool, faults: nat)
    requires LinkingDone(start, linked, b, trail, job, dryRun, linkedWell)
    requires RemovalDone(linked, u, job, step, log, dryRun, removedWell)
    ensures var steps, report := trail.steps + [step], ReportOf(job, trail, log, Blocked(linked, job), faults);
            && (dryRun ==> u == start.tree)
            && Reaches(start.tree, steps, u) && (forall s :: s in steps ==> Serves(s.act, job))
            && |steps| == Attempts(report) + 1 && IsFor(report, job)
            && ToldTruly(start.tree, steps, job, report, dryRun) && SweptLast(start.tree, steps, job, report)
  {
    SweepServes(linked, job);
    TrailServes(start.tree, job, linked, trail, dryRun, step);
    OutputTold(start.tree, job, linked, trail, step, log, faults, dryRun);
    SweptAtEnd(start.tree, linked, u, job, trail, step, log, faults, dryRun, removedWell);
  }

  lemma OutputEndsWell(start: Start, linked: Tree, b: Tally, u: Tree, job: Job, trail: Trail, step: Step,
                       log: seq<Change>, dryRun: bool, linkedWell: bool, removedWell: bool, faults: nat)
    requires LinkingDone(start, linked, b, trail, job, dryRun, linkedWell)
    requires RemovalDone(linked, u, job, step, log, dryRun, removedWell)
    requires faults == 0 && Makeable(start.tree, job.wanted) ==> linkedWell && removedWell
    ensures faults == 0 ==>
              EndedWell(start.tree, u, job, ReportOf(job, trail, log, Blocked(linked, job), faults), dryRun)
  {
    if linkedWell && removedWell {
      WellDone(start.tree, linked, u, job, trail, log, faults, dryRun);
    }
  }

  // ---------------------------------------------------------------- all outputs

  ghost predicate AllServe(steps: seq<Step>, jobs: seq<Job>) {
    forall step :: step in steps ==> exists job :: job in jobs && Serves(step.act, job)
  }

  /** What the reports come to. */
  function Sum(reports: seq<Report>): (r: Tally)
    ensures |r.changes| <= MAX_RECORDED_CHANGES && r.filtered == r.skipped == r.probed == 0
  {
    if reports == [] then EMPTY_TALLY else Merged(Sum(reports[..|reports| - 1]), TallyOf(reports[|reports| - 1]))
  }

  function AllAttempts(reports: seq<Report>): nat {
    if reports == [] then 0 else AllAttempts(reports[..|reports| - 1]) + Attempts(reports[|reports| - 1])
  }

  lemma SumStep(a: Tally, reports: seq<Report>, last: Report)
    requires |a.changes| <= MAX_RECORDED_CHANGES
    ensures Merged(Merged(a, Sum(reports)), TallyOf(last)) == Merged(a, Sum(reports + [last]))
    ensures AllAttempts(reports + [last]) == AllAttempts(reports) + Attempts(last)
  {
    assert (reports + [last])[..|reports|] == reports;
    MergeAssociative(a, Sum(reports), TallyOf(last));
  }

  /** Every attempt at a link shows in exactly one counter. */
  lemma {:induction false} AttemptsAreCounted(reports: seq<Report>)
    ensures var s := Sum(reports); s.created + s.unaltered + s.errors == AllAttempts(reports)
    decreases |reports|
  {
    if reports != [] {
      AttemptsAreCounted(reports[..|reports| - 1]);
    }
  }

  function Changes(report: Report): seq<Change> {
    report.created + report.removed
  }

  function AllChanges(reports: seq<Report>): seq<Change> {
    if reports == [] then [] else AllChanges(reports[..|reports| - 1]) + Changes(reports[|reports| - 1])
  }

  /** The positions of the reports on refused outputs. */
  function RefusedOnes(reports: seq<Report>): set<nat> {
    set i | 0 <= i < |reports| && reports[i].blocked
  }

  /** What the reports come to: the links made and removed, the refusals, the outputs in which anything was made or
      removed, the number of links each output is to hold by the last report on it, and the first 500 changes. */
  ghost predicate AddsUp(reports: seq<Report>, sum: Tally) {
    && sum.created + sum.removed == |AllChanges(reports)| && sum.blocked == |RefusedOnes(reports)|
    && (forall o :: o in sum.changedOutputs <==> exists i :: HasChanged(reports, i, o))
    && LinksToldLast(reports, sum.links)
    && sum.changes <= AllChanges(reports)
    && |sum.changes| == if |AllChanges(reports)| <= 500 then |AllChanges(reports)| else 500
  }

  ghost predicate LinksToldLast(reports: seq<Report>, links: map<Path, nat>) {
    && (forall o :: o in links <==> exists i :: IsLastFor(reports, i, o))
    && (forall i, o :: IsLastFor(reports, i, o) ==> o in links && links[o] == reports[i].links)
  }

  ghost predicate HasChanged(reports: seq<Report>, i: int, o: Path) {
    0 <= i < |reports| && reports[i].output == o && (reports[i].created != [] || reports[i].removed != [])
  }

  ghost predicate IsLastFor(reports: seq<Report>, i: int, o: Path) {
    0 <= i < |reports| && reports[i].output == o && forall j :: i < j < |reports| ==> reports[j].output != o
  }

  lemma {:induction false} ReportsAddUp(reports: seq<Report>)
    ensures AddsUp(reports, Sum(reports))
    decreases |reports|
  {
    if reports != [] {
      var front, last := reports[..|reports| - 1], reports[|reports| - 1];
      ReportsAddUp(front);
      CountsAddUp(front, last, reports);
      ChangedAddUp(front, Sum(front).changedOutputs, last, reports);
      LinksAddUp(front, Sum(front).links, last, reports);
      ChangesAddUp(front, Sum(front), last);
    }
  }

  lemma SumOfLast(reports: seq<Report>)
    requires reports != []
    ensures Sum(reports) == Merged(Sum(reports[..|reports| - 1]), TallyOf(reports[|reports| - 1]))
    ensures |TallyOf(reports[|reports| - 1]).changes| <= MAX_RECORDED_CHANGES
  {}

  lemma {:induction false} SumOfBoth(a: seq<Report>, b: seq<Report>)
    ensures Sum(a + b) == Merged(Sum(a), Sum(b))
    decreases |b|
  {
    if b == [] {
      assert a + b == a;
      NothingMerged(Sum(a));
    } else {
      var front, last := b[..|b| - 1], b[|b| - 1];
      SumOfBoth(a, front);
      assert (a + b)[..|a + b| - 1] == a + front && (a + b)[|a + b| - 1] == last;
      SumOfLast(a + b);
      SumOfLast(b);
      MergeAssociative(Sum(a), Sum(front), TallyOf(last));
    }
  }

  lemma CountsAddUp(front: seq<Report>, last: Report, reports: seq<Report>)
    requires reports == front + [last]
    ensures AllChanges(reports) == AllChanges(front) + Changes(last)
    ensures |RefusedOnes(reports)| == |RefusedOnes(front)| + if last.blocked then 1 else 0
  {
    assert reports[..|front|] == front;
    assert RefusedOnes(reports) == RefusedOnes(front) + if last.blocked then {|front|} else {};
  }

  lemma ChangedAddUp(front: seq<Report>, outputs: set<Path>, last: Report, reports: seq<Report>)
    requires reports == front + [last] && forall o :: o in outputs <==> exists i :: HasChanged(front, i, o)
    ensures forall o :: o in outputs + TallyOf(last).changedOutputs <==> exists i :: HasChanged(reports, i, o)
  {
    forall i, o | i < |front| ensures HasChanged(reports, i, o) <==> HasChanged(front, i, o) {}
    forall o ensures o in outputs + TallyOf(last).changedOutputs <==> exists i :: HasChanged(reports, i, o) {
      assert HasChanged(reports, |front|, o) <==> o in TallyOf(last).changedOutputs;
      if i :| HasChanged(front, i, o) {
        assert HasChanged(reports, i, o);
      }
    }
  }

  lemma LinksAddUp(front: seq<Report>, links: map<Path, nat>, last: Report, reports: seq<Report>)
    requires reports == front + [last] && LinksToldLast(front, links)
    ensures LinksToldLast(reports, links + map[last.output := last.links])
  {
    var n := |front|;
    forall i, o | i < n ensures IsLastFor(reports, i, o) <==> IsLastFor(front, i, o) && o != last.output {
      if IsLastFor(reports, i, o) {
        assert reports[n] == last;
        forall j | i < j < n ensures front[j].output != o { assert reports[j] == front[j]; }
      }
    }
    assert IsLastFor(reports, n, last.output);
    forall o ensures o in links + map[last.output := last.links] <==> exists i :: IsLastFor(reports, i, o) {
      if i :| IsLastFor(front, i, o) {
        assert o != last.output ==> IsLastFor(reports, i, o);
      }
    }
  }

  lemma ChangesAddUp(front: seq<Report>, sum: Tally, last: Report)
    requires sum.changes == Capped(AllChanges(front))
    ensures Merged(sum, TallyOf(last)).changes == Capped(AllChanges(front) + Changes(last))
  {
    CappedTwice(AllChanges(front), Changes(last));
    CappedTail(sum.changes, Changes(last));
  }

  function AllTold(reports: seq<Report>): Deeds {
    if reports == [] then NO_DEEDS else Both(AllTold(reports[..|reports| - 1]), Told(reports[|reports| - 1]))
  }

  /** Whatever has failed, the reports of a real run tell exactly which links were made and removed; those of a dry run
      tell which links it would remove. */
  ghost predicate AllToldTruly(t: Tree, steps: seq<Step>, jobs: seq<Job>, reports: seq<Report>, dryRun: bool) {
    && |reports| <= |jobs|
    && (!dryRun ==> DeedsOf(t, steps) == AllTold(reports))
    && (dryRun ==> forall k :: 0 <= k < |reports| ==> Reported(reports[k].removed) == Condemned(t, jobs[k]))
  }

  lemma ToldStep(t: Tree, u: Tree, jobs: seq<Job>, steps: seq<Step>, more: seq<Step>, reports: seq<Report>,
                 report: Report, dryRun: bool)
    requires Reaches(t, steps, u) && AllToldTruly(t, steps, jobs, reports, dryRun) && |reports| < |jobs|
             && (dryRun ==> u == t)
    requires ToldTruly(u, more, jobs[|reports|], report, dryRun)
    ensures AllToldTruly(t, steps + more, jobs, reports + [report], dryRun)
  {
    assert (reports + [report])[..|reports|] == reports;
    DeedsOn(t, steps, u, more);
  }

  /** What the k-th job finds, if all are ready. */
  ghost function TreeAt(t: Tree, jobs: seq<Job>, k: nat, dryRun: bool): Tree
    requires k <= |jobs|
  {
    if dryRun then t else RunJobs(t, jobs[..k])
  }

  /** What the k-th job finds. */
  ghost function OverAt(t: Tree, jobs: seq<Job>, k: nat, dryRun: bool): Tree
    requires k <= |jobs|
  {
    if dryRun then t else RunOver(t, jobs[..k])
  }

  /** Every job can make its links when its turn comes. */
  ghost predicate AllLinkable(t: Tree, jobs: seq<Job>, dryRun: bool) {
    forall k :: 0 <= k < |jobs| ==> Linkable(OverAt(t, jobs, k, dryRun), jobs[k].wanted)
  }

  lemma OverNext(t: Tree, jobs: seq<Job>, k: nat, dryRun: bool)
    requires k < |jobs|
    ensures var u := OverAt(t, jobs, k, dryRun);
            OverAt(t, jobs, k + 1, dryRun) == if dryRun then u else OverResult(u, jobs[k])
  {
    assert jobs[..k + 1][..k] == jobs[..k];
  }

  lemma RunNext(t: Tree, jobs: seq<Job>, k: nat)
    requires k < |jobs|
    ensures RunJobs(t, jobs[..k + 1]) == JobResult(RunJobs(t, jobs[..k]), jobs[k])
  {
    assert jobs[..k + 1][..k] == jobs[..k];
  }

  /** Where everything is ready, nothing is left over. */
  lemma {:induction false} ReadyInOrder(t: Tree, jobs: seq<Job>, k: nat, dryRun: bool)
    requires WellFormed(t) && AllReady(t, jobs) && Separate(jobs) && k <= |jobs|
    ensures OverAt(t, jobs, k, dryRun) == TreeAt(t, jobs, k, dryRun)
    ensures k < |jobs| ==> Clear(TreeAt(t, jobs, k, dryRun), jobs[k].wanted)
  {
    if k < |jobs| {
      TurnOf(t, jobs, k);
    }
    if k > 0 {
      var u, job := TreeAt(t, jobs, k - 1, dryRun), jobs[k - 1];
      ReadyInOrder(t, jobs, k - 1, dryRun);
      ClearIsLinkable(u, job.wanted, job.wanted);
      OverNext(t, jobs, k - 1, dryRun);
      RunNext(t, jobs, k - 1);
    }
  }

  lemma ReadyIsLinkable(t: Tree, jobs: seq<Job>, dryRun: bool)
    requires WellFormed(t) && AllReady(t, jobs) && Separate(jobs)
    ensures AllLinkable(t, jobs, dryRun)
    ensures forall k :: 0 <= k <= |jobs| ==> OverAt(t, jobs, k, dryRun) == TreeAt(t, jobs, k, dryRun)
  {
    forall k | 0 <= k <= |jobs|
      ensures OverAt(t, jobs, k, dryRun) == TreeAt(t, jobs, k, dryRun)
      ensures k < |jobs| ==> Linkable(OverAt(t, jobs, k, dryRun), jobs[k].wanted)
    {
      ReadyInOrder(t, jobs, k, dryRun);
      if k < |jobs| {
        ClearIsLinkable(TreeAt(t, jobs, k, dryRun), jobs[k].wanted, jobs[k].wanted);
      }
    }
  }

  /** The report is true of the tree the job finds. */
  ghost predicate TrueReport(u: Tree, job: Job, report: Report, dryRun: bool) {
    var linked := if dryRun then u else LinkedOver(u, job.wanted);
    && Reported(report.created) == Outdated(u, job.wanted)
    && Reported(report.removed) == Condemned(linked, job)
    && report.blocked == Blocked(linked, job)
    && report.failed == 0
    && (!dryRun ==> ReportedOnce(report.created))
  }

  ghost predicate AllTrue(t: Tree, jobs: seq<Job>, reports: seq<Report>, dryRun: bool) {
    |reports| <= |jobs|
      && forall k :: 0 <= k < |reports| ==> TrueReport(OverAt(t, jobs, k, dryRun), jobs[k], reports[k], dryRun)
  }

  ghost predicate AllFor(reports: seq<Report>, jobs: seq<Job>) {
    |reports| <= |jobs| && forall i :: 0 <= i < |reports| ==> IsFor(reports[i], jobs[i])
  }

  lemma OneMoreFor(reports: seq<Report>, jobs: seq<Job>, report: Report)
    requires AllFor(reports, jobs) && |reports| < |jobs| && IsFor(report, jobs[|reports|])
    ensures AllFor(reports + [report], jobs)
  {}

  /** How many operations have failed. */
  function FaultsIn(reports: seq<Report>): nat {
    if reports == [] then 0 else FaultsIn(reports[..|reports| - 1]) + reports[|reports| - 1].faults
  }

  /** Outputs have been reconciled one after the other, each of them as OutputRun says. */
  ghost predicate Chained(t: Tree, steps: seq<Step>, u: Tree, jobs: seq<Job>, reports: seq<Report>, dryRun: bool)
    decreases |reports|
  {
    |reports| <= |jobs| &&
    if reports == [] then steps == [] && u == t
    else
      var k, n := |reports| - 1, LastCut(steps, reports);
      && 0 <= n
      && Chained(t, steps[..n], TreeAfter(t, steps[..n]), jobs, reports[..k], dryRun)
      && OutputRun(TreeAfter(t, steps[..n]), steps[n..], u, jobs[k], reports[k], dryRun)
  }

  /** Where the steps for the last output begin: each attempt at a link is a step, and so is the sweep. */
  function LastCut(steps: seq<Step>, reports: seq<Report>): int
    requires reports != []
  {
    |steps| - Attempts(reports[|reports| - 1]) - 1
  }

  lemma ChainStep(t: Tree, steps: seq<Step>, u: Tree, jobs: seq<Job>, reports: seq<Report>, more: seq<Step>, v: Tree,
                  report: Report, dryRun: bool)
    requires Chained(t, steps, u, jobs, reports, dryRun) && TreeAfter(t, steps) == u && |reports| < |jobs|
    requires OutputRun(u, more, v, jobs[|reports|], report, dryRun)
    ensures Chained(t, steps + more, v, jobs, reports + [report], dryRun)
  {
    assert |more| == Attempts(report) + 1;
    CutHere(steps, reports, more, report);
  }

  lemma CutHere(steps: seq<Step>, reports: seq<Report>, more: seq<Step>, report: Report)
    requires |more| == Attempts(report) + 1
    ensures LastCut(steps + more, reports + [report]) == |steps|
    ensures (steps + more)[..|steps|] == steps && (steps + more)[|steps|..] == more
    ensures (reports + [report])[..|reports|] == reports && (reports + [report])[|reports|] == report
  {}

  lemma FrontAndLast<T>(s: seq<T>)
    requires s != []
    ensures s == s[..|s| - 1] + [s[|s| - 1]]
  {}

  lemma SplitAt<T>(s: seq<T>, n: nat)
    requires n <= |s|
    ensures s == s[..n] + s[n..]
  {}

  /** The last output of a chain, and the chain before it. */
  lemma LastOfChain(t: Tree, steps: seq<Step>, u: Tree, jobs: seq<Job>, reports: seq<Report>, dryRun: bool)
      returns (first: seq<Step>, mid: Tree, last: seq<Step>, front: seq<Report>, report: Report, job: Job)
    requires Chained(t, steps, u, jobs, reports, dryRun) && reports != []
    ensures steps == first + last && reports == front + [report] && |reports| <= |jobs| && job == jobs[|front|]
    ensures mid == TreeAfter(t, first) && Chained(t, first, mid, jobs, front, dryRun)
    ensures WellFormed(u) && (dryRun ==> u == mid) && Reaches(mid, last, u)
    ensures forall step :: step in last ==> Serves(step.act, job)
    ensures |last| == Attempts(report) + 1 && IsFor(report, job) && ToldTruly(mid, last, job, report, dryRun)
    ensures SweptLast(mid, last, job, report)
    ensures (dryRun ==> report.faults == 0) && (report.faults == 0 ==> EndedWell(mid, u, job, report, dryRun))
  {
    var k, n := |reports| - 1, LastCut(steps, reports);
    FrontAndLast(reports);
    SplitAt(steps, n);
    first, last, front, report, job := steps[..n], steps[n..], reports[..k], reports[k], jobs[k];
    mid := TreeAfter(t, first);
  }

  lemma AttemptsStep(reports: seq<Report>, report: Report)
    ensures AllAttempts(reports + [report]) == AllAttempts(reports) + Attempts(report)
  {
    assert (reports + [report])[..|reports|] == reports;
  }

  /** All steps serve the jobs and lead from t to u, and the reports tell what they have done. */
  ghost predicate Served(t: Tree, steps: seq<Step>, u: Tree, jobs: seq<Job>, reports: seq<Report>, dryRun: bool) {
    && (dryRun ==> u == t) && Reaches(t, steps, u) && AllServe(steps, jobs) && AllFor(reports, jobs)
    && |steps| == AllAttempts(reports) + |reports| && AllToldTruly(t, steps, jobs, reports, dryRun)
  }

  lemma ServedStep(t: Tree, steps: seq<Step>, u: Tree, jobs: seq<Job>, reports: seq<Report>, more: seq<Step>, v: Tree,
                   report: Report, dryRun: bool)
    requires Served(t, steps, u, jobs, reports, dryRun) && |reports| < |jobs| && (dryRun ==> v == u)
    requires Reaches(u, more, v) && (forall step :: step in more ==> Serves(step.act, jobs[|reports|]))
    requires |more| == Attempts(report) + 1 && IsFor(report, jobs[|reports|])
    requires ToldTruly(u, more, jobs[|reports|], report, dryRun)
    ensures Served(t, steps + more, v, jobs, reports + [report], dryRun)
  {
    OneMoreOutput(t, u, v, jobs, |reports|, steps, more);
    OneMoreFor(reports, jobs, report);
    ToldStep(t, u, jobs, steps, more, reports, report, dryRun);
    AttemptsStep(reports, report);
  }

  /** Whatever fails, a chain is served. */
  lemma {:induction false} ChainServes(t: Tree, steps: seq<Step>, u: Tree, jobs: seq<Job>, reports: seq<Report>,
                                       dryRun: bool)
    requires Chained(t, steps, u, jobs, reports, dryRun)
    ensures Served(t, steps, u, jobs, reports, dryRun)
    decreases |reports|
  {
    if reports != [] {
      var first, mid, last, front, report, job := LastOfChain(t, steps, u, jobs, reports, dryRun);
      ChainServes(t, first, mid, jobs, front, dryRun);
      ServedStep(t, first, mid, jobs, front, last, u, report, dryRun);
    }
  }

  lemma OneMoreOutput(t: Tree, u: Tree, v: Tree, jobs: seq<Job>, k: nat, steps: seq<Step>, more: seq<Step>)
    requires k < |jobs| && Reaches(t, steps, u) && Reaches(u, more, v)
    requires AllServe(steps, jobs) && forall step :: step in more ==> Serves(step.act, jobs[k])
    ensures Reaches(t, steps + more, v) && AllServe(steps + more, jobs)
  {
    ReachesOn(t, steps, u, more, v);
    assert jobs[k] in jobs;
  }

  lemma WellMeansTrue(u: Tree, v: Tree, job: Job, report: Report, dryRun: bool)
    requires Linkable(u, job.wanted) && EndedWell(u, v, job, report, dryRun)
    ensures TrueReport(u, job, report, dryRun) && (!dryRun ==> v == OverResult(u, job))
  {
    LinkableIsMakeable(u, job.wanted);
    assert Narrowed(u, job) == job;
  }

  lemma TrueStep(t: Tree, u: Tree, jobs: seq<Job>, reports: seq<Report>, v: Tree, report: Report, dryRun: bool)
    requires |reports| < |jobs| && u == OverAt(t, jobs, |reports|, dryRun) && AllTrue(t, jobs, reports, dryRun)
    requires TrueReport(u, jobs[|reports|], report, dryRun)
    requires if dryRun then v == u else v == OverResult(u, jobs[|reports|])
    ensures v == OverAt(t, jobs, |reports| + 1, dryRun) && AllTrue(t, jobs, reports + [report], dryRun)
  {
    OverNext(t, jobs, |reports|, dryRun);
    OneMoreTrue(t, jobs, reports, report, dryRun);
  }

  lemma LinkableInTurn(t: Tree, jobs: seq<Job>, k: nat, dryRun: bool)
    requires AllLinkable(t, jobs, dryRun) && k < |jobs|
    ensures Linkable(OverAt(t, jobs, k, dryRun), jobs[k].wanted)
  {}

  lemma OneMoreTrue(t: Tree, jobs: seq<Job>, reports: seq<Report>, report: Report, dryRun: bool)
    requires AllTrue(t, jobs, reports, dryRun) && |reports| < |jobs|
    requires TrueReport(OverAt(t, jobs, |reports|, dryRun), jobs[|reports|], report, dryRun)
    ensures AllTrue(t, jobs, reports + [report], dryRun)
  {
    forall i | 0 <= i < |reports| + 1
      ensures TrueReport(OverAt(t, jobs, i, dryRun), jobs[i], (reports + [report])[i], dryRun)
    {
      if i < |reports| {
        assert (reports + [report])[i] == reports[i];
      }
    }
  }

  /** If nothing fails and all links can be made, the jobs make of the tree what they should, and all reports are
      true. */
  lemma {:induction false} ChainIsTrue(t: Tree, steps: seq<Step>, u: Tree, jobs: seq<Job>, reports: seq<Report>,
                                       dryRun: bool)
    requires Chained(t, steps, u, jobs, reports, dryRun) && FaultsIn(reports) == 0 && AllLinkable(t, jobs, dryRun)
    ensures |reports| <= |jobs| && u == OverAt(t, jobs, |reports|, dryRun) && AllTrue(t, jobs, reports, dryRun)
    decreases |reports|
  {
    if reports == [] {
      assert jobs[..0] == [];
    } else {
      var first, mid, last, front, report, job := LastOfChain(t, steps, u, jobs, reports, dryRun);
      FaultsStep(front, report);
      ChainIsTrue(t, first, mid, jobs, front, dryRun);
      LinkableInTurn(t, jobs, |front|, dryRun);
      WellMeansTrue(mid, u, job, report, dryRun);
      TrueStep(t, mid, jobs, front, u, report, dryRun);
    }
  }

  /** The first k outputs are done, and counted. */
  ghost predicate OutputsDone(t: Tree, u: Tree, a: Tally, b: Tally, jobs: seq<Job>, k: nat, steps: seq<Step>,
                              reports: seq<Report>, dryRun: bool)
  {
    Chained(t, steps, u, jobs, reports, dryRun) && |reports| == k && b == Merged(a, Sum(reports))
  }

  /** Whatever fails, reconciling outputs changes nothing in a directory apart from them: no other output, and no
      input. */
  lemma OutputsDoNotInterfere(t: Tree, steps: seq<Step>, u: Tree, jobs: seq<Job>, dir: Path, p: Path)
    requires Reaches(t, steps, u) && AllServe(steps, jobs) && dir <= p
    requires forall job :: job in jobs ==> Proper(job) && !(job.output <= dir) && !(dir <= job.output)
    ensures Same(t, u, p)
  {
    forall step | step in steps ensures Confined(step.act, Outputs(jobs)) {
      var job :| job in jobs && Serves(step.act, job);
      assert job.output in Outputs(jobs);
    }
    ApartIsUntouched(t, steps, u, Outputs(jobs), dir, p);
  }

  /** Where phase 3 starts from. */
  datatype Phase = Phase(tally: Tally, tree: Tree, jobs: seq<Job>)

  /** How far it has got. */
  datatype Progress = Progress(steps: seq<Step>, reports: seq<Report>)

  /** Phase 3 is under way, k outputs are done. */
  ghost predicate PhaseOn(pl: Pipeline, files: set<Path>, infos: map<Path, MediaInfo>, phase: Phase, u: Tree,
                          tally: Tally, k: nat, done: Progress, dryRun: bool)
    requires InInput(pl, files)
  {
    && OutputsDone(phase.tree, u, phase.tally, tally, phase.jobs, k, done.steps, done.reports, dryRun)
    && |phase.tally.changes| <= MAX_RECORDED_CHANGES && |tally.changes| <= MAX_RECORDED_CHANGES
    && (dryRun ==> AllReportedAsAsked(phase.tree, pl, files, infos, phase.jobs, done.reports))
  }

  lemma PhaseStarts(pl: Pipeline, files: set<Path>, infos: map<Path, MediaInfo>, phase: Phase, dryRun: bool)
    requires InInput(pl, files) && phase.jobs == JobsFrom(pl, files, infos)
    requires |phase.tally.changes| <= MAX_RECORDED_CHANGES
    ensures PhaseOn(pl, files, infos, phase, phase.tree, phase.tally, 0, Progress([], []), dryRun)
  {
    NothingMerged(phase.tally);
  }

  function NextProgress(done: Progress, steps: seq<Step>, report: Report): Progress {
    Progress(done.steps + steps, done.reports + [report])
  }

  lemma PhaseStep(pl: Pipeline, files: set<Path>, infos: map<Path, MediaInfo>, phase: Phase, u: Tree, v: Tree, b: Tally,
                  c: Tally, k: nat, done: Progress, steps: seq<Step>, report: Report, dryRun: bool)
    requires InInput(pl, files) && k < |pl.outputs| == |phase.jobs| && |c.changes| <= MAX_RECORDED_CHANGES
    requires PhaseOn(pl, files, infos, phase, u, b, k, done, dryRun)
    requires OutputRun(u, steps, v, phase.jobs[k], report, dryRun) && c == Merged(b, TallyOf(report))
    requires dryRun && report.faults == 0 && Makeable(u, phase.jobs[k].wanted) ==>
               ReportedAsAsked(pl, pl.outputs[k], files, infos, Outdated(u, Feasible(u, phase.jobs[k].wanted)),
                               report.created)
    ensures PhaseOn(pl, files, infos, phase, v, c, k + 1, NextProgress(done, steps, report), dryRun)
  {
    ChainServes(phase.tree, done.steps, u, phase.jobs, done.reports, dryRun);
    EndOfSteps(phase.tree, done.steps, u);
    ChainStep(phase.tree, done.steps, u, phase.jobs, done.reports, steps, v, report, dryRun);
    SumStep(phase.tally, done.reports, report);
    if dryRun {
      AsAskedStep(u, pl, files, infos, phase.jobs, done.reports, report);
    }
  }

  lemma AsAskedStep(t: Tree, pl: Pipeline, files: set<Path>, infos: map<Path, MediaInfo>, jobs: seq<Job>,
                    reports: seq<Report>, report: Report)
    requires InInput(pl, files) && AllReportedAsAsked(t, pl, files, infos, jobs, reports) && |reports| < |jobs|
    requires report.faults == 0 && Makeable(t, jobs[|reports|].wanted) ==>
               ReportedAsAsked(pl, pl.outputs[|reports|], files, infos,
                               Outdated(t, Feasible(t, jobs[|reports|].wanted)), report.created)
    ensures AllReportedAsAsked(t, pl, files, infos, jobs, reports + [report])
  {
    var more := reports + [report];
    forall k | 0 <= k < |reports| + 1 && more[k].faults == 0 && Makeable(t, jobs[k].wanted)
      ensures ReportedAsAsked(pl, pl.outputs[k], files, infos, Outdated(t, Feasible(t, jobs[k].wanted)),
                              more[k].created)
    {
      if k < |reports| {
        assert more[k] == reports[k];
      }
    }
  }

  lemma FaultsStep(reports: seq<Report>, report: Report)
    ensures FaultsIn(reports + [report]) == FaultsIn(reports) + report.faults
  {
    assert (reports + [report])[..|reports|] == reports;
  }

  /** In a dry run: so it is for every output. */
  ghost predicate AllReportedAsAsked(t: Tree, pl: Pipeline, files: set<Path>, infos: map<Path, MediaInfo>,
                                     jobs: seq<Job>, reports: seq<Report>)
    requires InInput(pl, files)
  {
    && |reports| <= |jobs| == |pl.outputs|
    && forall k :: 0 <= k < |reports| && reports[k].faults == 0 && Makeable(t, jobs[k].wanted) ==>
         ReportedAsAsked(pl, pl.outputs[k], files, infos, Outdated(t, Feasible(t, jobs[k].wanted)), reports[k].created)
  }
}
