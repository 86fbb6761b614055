/** What a scan in which nothing fails leaves for those who look at its outputs: every link that is wished for leads to
    its file, and no others of the program's own are there. */
module Delivery {
  import opened Paths
  import opened Trees
  import opened Reconcile
  import opened FileSystem
  import opened Liveness
  import opened Selection
  import opened Interference
  import opened Gathering
  import opened Linking
  import opened Processor
  import opened Libraries
  import opened Runner
  import opened Recovery
  import opened Isolation
  import opened Intent

  /** Nothing has failed in the i-th library of the scan, which it could use and was not told to leave. */
  ghost predicate WentWell(t: World, pls: seq<Pipeline>, parts: seq<Part>, v: World, i: nat) {
    && AllWasReady(t.tree, pls) && CacheServes(t.cache, pls) && OneScan(t, pls, parts, v) && i < |parts| <= |pls|
    && !parts[i].scan.stage.Cancelled? && ScanFaults(parts[i].scan) == 0 && IsUsable(t.tree, pls[i])
  }

  lemma AllIsWell(t: World, pls: seq<Pipeline>, parts: seq<Part>, v: World, i: nat)
    requires WentWell(t, pls, parts, v, i)
    ensures WellFormed(v.tree) && Drift(t.tree, v.tree, Outputs(AllJobs(t.tree, pls)))
  {
    NothingDoesNoHarm(t, pls);
    ScanDoesNoHarm(t.tree, pls, t, parts, v);
  }

  lemma OutputLeft(t: World, pls: seq<Pipeline>, parts: seq<Part>, v: World, i: nat, k: nat, d: Path)
    requires AllWasReady(t.tree, pls) && CacheServes(t.cache, pls) && OneScan(t, pls, parts, v) && i < |parts|
    requires !parts[i].scan.stage.Cancelled? && ScanFaults(parts[i].scan) == 0
    requires k < |JobsFound(t.tree, pls[i])| && JobsFound(t.tree, pls[i])[k].output <= d
    ensures Same(JobResult(t.tree, JobsFound(t.tree, pls[i])[k]), v.tree, d)
  {
    LibraryIsExact(t, pls, parts, v, i, k);
  }

  lemma OutputAfter(t: World, pls: seq<Pipeline>, parts: seq<Part>, v: World, i: nat, k: nat, d: Path)
    requires WentWell(t, pls, parts, v, i) && k < |pls[i].outputs| && pls[i].outputs[k].path <= d
    ensures Same(JobResult(t.tree, JobsOf(t.tree, pls[i])[k]), v.tree, d)
  {
    JobAt(t.tree, pls[i], k);
    OutputLeft(t, pls, parts, v, i, k, d);
  }

  lemma JobAt(t: Tree, pl: Pipeline, k: nat)
    requires IsUsable(t, pl) && k < |pl.outputs|
    ensures k < |JobsFound(t, pl)| && JobsFound(t, pl)[k] == JobsOf(t, pl)[k]
    ensures JobsFound(t, pl)[k].output == pl.outputs[k].path
  {}

  lemma SourceAfter(t: World, pls: seq<Pipeline>, parts: seq<Part>, v: World, i: nat, s: Path)
    requires WentWell(t, pls, parts, v, i) && pls[i].input <= s
    ensures Same(t.tree, v.tree, s) && WellFormed(t.tree) && WellFormed(v.tree)
  {
    AllIsWell(t, pls, parts, v, i);
    DriftIsAway(t.tree, v.tree, Outputs(AllJobs(t.tree, pls)));
    InputSame(t.tree, v.tree, pls[i], Outputs(AllJobs(t.tree, pls)), s);
  }

  lemma ClearAtStart(t: Tree, pls: seq<Pipeline>, i: nat, k: nat)
    requires AllWasReady(t, pls) && i < |pls| && IsUsable(t, pls[i]) && k < |pls[i].outputs|
    ensures WellFormed(t) && Clear(t, JobsOf(t, pls[i])[k].wanted)
  {
    JobAt(t, pls[i], k);
    ReadyAtStart(t, pls, i, JobsOf(t, pls[i])[k], {});
  }

  /** After a scan every link that an output is to hold is there, says what links of this mode say, and leads to its
      file; this holds for every library in which nothing has failed, whatever has failed in others. */
  lemma WishesAreGranted(t: World, pls: seq<Pipeline>, parts: seq<Part>, v: World, i: nat, k: nat, s: Path)
    requires WentWell(t, pls, parts, v, i) && k < |pls[i].outputs|
    requires Wished(t.tree, pls[i], pls[i].outputs[k], s) && s in t.tree && t.tree[s].File?
    ensures Below(s, pls[i].input)
    ensures var d := PlaceOf(pls[i], pls[i].outputs[k], s);
            MadeFor(v.tree, d, s, pls[i].relative) && LeadsTo(v.tree, d, s) && IsFile(v.tree, d)
  {
    WishedIsBelow(t.tree, pls[i], pls[i].outputs[k], s);
    OutputAfter(t, pls, parts, v, i, k, PlaceOf(pls[i], pls[i].outputs[k], s));
    SourceAfter(t, pls, parts, v, i, s);
    Granted(t.tree, v.tree, pls[i], k, s);
  }

  /** If the guard has not refused, every link into the input that is in an output is wished for, or spared. */
  lemma NothingElseIsThere(t: World, pls: seq<Pipeline>, parts: seq<Part>, v: World, i: nat, k: nat, d: Path, s: Path,
                           relative: bool)
    requires WentWell(t, pls, parts, v, i) && k < |pls[i].outputs| && !Refused(t.tree, pls[i], k)
    requires MadeFor(v.tree, d, s, relative) && Within(s, pls[i].input) && Below(d, pls[i].outputs[k].path)
    ensures WishedAt(t.tree, pls[i], pls[i].outputs[k], d, v.tree[d].raw)
            || SparedAt(t.tree, pls[i], pls[i].outputs[k], d)
  {
    OutputAfter(t, pls, parts, v, i, k, d);
    ClearAtStart(t.tree, pls, i, k);
    NoOthers(t.tree, v.tree, pls[i], k, d, s, relative);
  }

  /** The clean command looks at a library exactly if its input is a directory and, unless there is any entry in it, no
      link lies below any of its outputs. */
  lemma CleanableExactly(t: Tree, pl: Pipeline)
    requires WellFormed(t)
    ensures Usable(t, pl, HoldsEntries(t, pl.input)) <==>
            IsDir(t, pl.input) && ((exists p :: p in t && Below(p, pl.input)) || HoldNoLinks(t, pl.outputs))
  {
    NoLinksExactly(t, pl.outputs);
    if IsDir(t, pl.input) {
      if p :| p in t && Below(p, pl.input) {
        ChildOnTheWay(t, pl.input, p);
      }
    }
  }
}
