/** What the probe cache is for: no file is probed twice. */
module Caching {
  import opened Paths
  import opened Trees
  import opened Reconcile
  import opened Safety
  import opened Models
  import opened State
  import opened Selection
  import opened Gathering
  import opened Processor
  import opened Libraries
  import opened Runner

  // ---------------------------------------------------------------- one library

  /** The library finds the same files, and a stat of each says the same. */
  ghost predicate SameFiles(t: Tree, u: Tree, pl: Pipeline) {
    FilesOf(u, pl) == FilesOf(t, pl) && StatsOf(u, FilesOf(t, pl)) == StatsOf(t, FilesOf(t, pl))
  }

  /** The two caches hold the same about the files of the library. */
  ghost predicate SameEntries(t: Tree, pl: Pipeline, a: Memory, b: Memory) {
    forall f :: f in FilesOf(t, pl) ==> SameEntry(a, b, f)
  }

  /** What was learned of a file is known from then on. */
  lemma LearnedIsKnown(m: Memory, now: Memory, pl: Pipeline, f: Path, stat: FileStat)
    requires Entry(now, f) == Learned(m, pl, f, stat)
    ensures InCache(now, f, stat) == Learned(m, pl, f, stat) == Learned(now, pl, f, stat)
  {}

  lemma FateInNextScan(t: Tree, pl: Pipeline, first: Scan, now: Memory, known: Memory, f: Path)
    requires CacheKept(first.known, now, t, pl, first.unread) && SameEntries(t, pl, now, known)
    requires f in Media(pl, FilesOf(t, pl)) - first.unread && f in StatsOf(t, FilesOf(t, pl))
    ensures var stat := StatsOf(t, FilesOf(t, pl))[f];
            InCache(known, f, stat) == Learned(first.known, pl, f, stat) == Learned(known, pl, f, stat)
  {
    var files := FilesOf(t, pl);
    assert EntryLearned(first.known, now, pl, StatsOf(t, files), Media(pl, files) - first.unread, f);
    assert SameEntry(now, known, f);
    LearnedIsKnown(first.known, known, pl, f, StatsOf(t, files)[f]);
  }

  lemma LearnedThenKnown(t: Tree, u: Tree, pl: Pipeline, first: Scan, now: Memory, second: Scan, f: Path)
    requires SameFiles(t, u, pl) && CacheKept(first.known, now, t, pl, first.unread)
    requires SameEntries(t, pl, now, second.known)
    ensures f in ScanInfos(t, pl, first) && f !in second.unread ==>
              f in KnownFiles(second.known, u, pl, second.unread)
    ensures first.unread == {} && f in ScanInfos(u, pl, second) ==>
              f in KnownFiles(second.known, u, pl, second.unread)
    ensures first.unread == {} && f in KnownFiles(second.known, u, pl, second.unread) ==>
              f in ScanInfos(t, pl, first) && f !in second.unread
  {
    if f in Media(pl, FilesOf(t, pl)) - first.unread && f in StatsOf(t, FilesOf(t, pl)) {
      FateInNextScan(t, pl, first, now, second.known, f);
    }
  }

  /** The next scan of unchanged files skips every file the first one had an info for and that it can read. If the first
      one could read all, it probes nothing. */
  lemma LibraryIsProbedOnce(t: Tree, u: Tree, pl: Pipeline, first: Scan, now: Memory, second: Scan, tally: Tally)
    requires SameFiles(t, u, pl) && CacheKept(first.known, now, t, pl, first.unread)
    requires SameEntries(t, pl, now, second.known) && ScanCounted(u, pl, second, tally)
    ensures var learned := ScanInfos(t, pl, first).Keys;
            && learned - second.unread <= KnownFiles(second.known, u, pl, second.unread)
            && (first.unread == {} ==> tally.probed == 0 && tally.skipped == |learned - second.unread|)
  {
    var learned, known, infos := ScanInfos(t, pl, first).Keys, KnownFiles(second.known, u, pl, second.unread),
      ScanInfos(u, pl, second).Keys;
    forall f
      ensures f in learned - second.unread ==> f in known
      ensures first.unread == {} && f in infos ==> f in known
      ensures first.unread == {} && f in known ==> f in learned - second.unread
    {
      LearnedThenKnown(t, u, pl, first, now, second, f);
    }
    NoFilesInReports(u, pl, second, tally);
    Counts(learned - second.unread, known, infos, first.unread == {});
  }

  lemma Counts(learned: set<Path>, known: set<Path>, infos: set<Path>, all: bool)
    requires learned <= known && (all ==> infos <= known && known <= learned)
    ensures all ==> |infos - known| == 0 && |known| == |learned|
  {
    if all {
      assert infos - known == {} && known == learned;
    }
  }

  lemma NoFilesInReports(t: Tree, pl: Pipeline, scan: Scan, tally: Tally)
    requires ScanCounted(t, pl, scan, tally)
    ensures tally.skipped == |KnownFiles(scan.known, t, pl, scan.unread)|
    ensures tally.probed == |ScanInfos(t, pl, scan).Keys - KnownFiles(scan.known, t, pl, scan.unread)|
  {}

  // ---------------------------------------------------------------- all libraries

  /** No input lies in another one. */
  ghost predicate InputsApart(pls: seq<Pipeline>) {
    forall i, j :: 0 <= i < |pls| && 0 <= j < |pls| && i != j ==> !Within(pls[i].input, pls[j].input)
  }

  lemma FileOfOne(pls: seq<Pipeline>, k: nat, j: nat, f: Path)
    requires InputsApart(pls) && k < |pls| && j < |pls| && j != k && Within(f, pls[k].input)
    ensures !Within(f, pls[j].input)
  {
    if Within(f, pls[j].input) {
      PrefixesCompare(pls[j].input, pls[k].input, f);
    }
  }

  /** Scans of other libraries leave the entries of a library alone. */
  lemma {:induction false} OthersLeaveEntry(a: World, pls: seq<Pipeline>, parts: seq<Part>, b: World, f: Path)
    requires |parts| <= |pls| && InTurn(a, pls, parts, b)
    requires forall j :: 0 <= j < |parts| ==> !Within(f, pls[j].input)
    ensures SameEntry(a.cache, b.cache, f)
    decreases |parts|
  {
    if parts != [] {
      var front, last := BackInTurn(a, pls, parts, b);
      OthersLeaveEntry(a, pls, front, World(last.before, last.scan.known), f);
    }
  }

  /** What the k-th library has learned is in the cache when the scan of all libraries ends: after stands for the cache
      the library has left. */
  lemma {:induction false} LearnedUntilEnd(a: World, pls: seq<Pipeline>, parts: seq<Part>, b: World, k: nat)
      returns (after: Memory)
    requires |parts| <= |pls| && InTurn(a, pls, parts, b) && InputsApart(pls) && k < |parts|
    requires parts[k].scan.stage.Complete?
    ensures CacheKept(parts[k].scan.known, after, parts[k].before, pls[k], parts[k].scan.unread)
    ensures forall f :: Within(f, pls[k].input) ==> SameEntry(after, b.cache, f)
    decreases |parts|
  {
    var front, last := BackInTurn(a, pls, parts, b);
    FirstOf(front, last, k);
    if k == |front| {
      after := b.cache;
    } else {
      var mid := World(last.before, last.scan.known);
      after := LearnedUntilEnd(a, pls, front, mid, k);
      forall f | Within(f, pls[k].input) ensures SameEntry(after, b.cache, f) {
        FileOfOne(pls, k, |front|, f);
        assert SameEntry(after, mid.cache, f) && SameEntry(mid.cache, b.cache, f);
      }
    }
  }

  /** The cache the k-th library finds. */
  lemma {:induction false} FoundInCache(a: World, pls: seq<Pipeline>, parts: seq<Part>, b: World, k: nat)
    requires |parts| <= |pls| && InTurn(a, pls, parts, b) && InputsApart(pls) && k < |parts|
    ensures forall f :: Within(f, pls[k].input) ==> SameEntry(a.cache, parts[k].scan.known, f)
    decreases |parts|
  {
    var front, last := BackInTurn(a, pls, parts, b);
    FirstOf(front, last, k);
    if k < |front| {
      FoundInCache(a, pls, front, World(last.before, last.scan.known), k);
    } else {
      forall f | Within(f, pls[k].input) ensures SameEntry(a.cache, last.scan.known, f) {
        forall j | 0 <= j < |front| ensures !Within(f, pls[j].input) { FileOfOne(pls, k, j, f); }
        OthersLeaveEntry(a, pls, front, World(last.before, last.scan.known), f);
      }
    }
  }

  /** A scan of all libraries, and whatever came before it, leaves the files of a library as they were. */
  lemma FilesInTurn(t: Tree, a: World, b: World, pls: seq<Pipeline>, parts: seq<Part>, dryRun: bool, k: nat)
    requires WellFormed(t) && Drift(t, a.tree, AllOutputs(pls)) && k < |parts|
    requires AllKept(pls, parts, dryRun) && InTurn(a, pls, parts, b) && InputAway(t, pls[k], AllOutputs(pls))
    ensures SameFiles(t, parts[k].before, pls[k])
  {
    ReachedInTurn(a, pls, parts, b, k);
    KeptFront(pls, parts, k, dryRun);
    StepsAreConfined(a.tree, pls, parts[..k], parts[k].before, dryRun);
    DriftTransitive(t, a.tree, parts[k].before, AllOutputs(pls));
    DriftIsAway(t, parts[k].before, AllOutputs(pls));
    JobsSame(t, parts[k].before, pls[k], AllOutputs(pls));
  }

  /** A scan of all libraries that follows another one skips every file the first one had an info for and that it can
      read; what the first one could read completely is not probed at all. */
  lemma NothingIsProbedTwice(a: World, b: World, c: World, pls: seq<Pipeline>, parts: seq<Part>, total: Tally,
                             again: seq<Part>, sum: Tally, dryRun: (bool, bool), calm: (bool, bool), k: nat)
    requires LibrariesScanned(a, b, pls, |parts|, parts, total, dryRun.0, calm.0) && WellFormed(a.tree)
    requires LibrariesScanned(b, c, pls, |again|, again, sum, dryRun.1, calm.1)
    requires InputsApart(pls) && k < |parts| && k < |again| && InputAway(a.tree, pls[k], AllOutputs(pls))
    requires parts[k].scan.stage.Complete? && again[k].scan.stage.Complete?
    ensures var first, second := parts[k], again[k];
            var learned := ScanInfos(first.before, pls[k], first.scan).Keys;
            && learned - second.scan.unread
               <= KnownFiles(second.scan.known, second.before, pls[k], second.scan.unread)
            && (first.scan.unread == {} ==>
                  second.tally.probed == 0 && second.tally.skipped == |learned - second.scan.unread|)
  {
    var after := LearnedUntilEnd(a, pls, parts, b, k);
    FoundInCache(b, pls, again, c, k);
    ScanIsConfined(a, b, pls, parts, total, dryRun.0, calm.0);
    NoDrift(a.tree, AllOutputs(pls));
    FilesInTurn(a.tree, a, b, pls, parts, dryRun.0, k);
    FilesInTurn(a.tree, b, c, pls, again, dryRun.1, k);
    EntriesCarriedOver(parts[k].before, pls[k], after, b.cache, again[k].scan.known);
    KeptAt(pls, again, k, dryRun.1);
    LibraryIsProbedOnce(parts[k].before, again[k].before, pls[k], parts[k].scan, after, again[k].scan, again[k].tally);
  }

  lemma NoDrift(t: Tree, outs: set<Path>)
    ensures Drift(t, t, outs)
  {}

  lemma EntriesCarriedOver(t: Tree, pl: Pipeline, after: Memory, mid: Memory, known: Memory)
    requires forall f :: Within(f, pl.input) ==> SameEntry(after, mid, f)
    requires forall f :: Within(f, pl.input) ==> SameEntry(mid, known, f)
    ensures SameEntries(t, pl, after, known)
  {
    forall f | f in FilesOf(t, pl) ensures SameEntry(after, known, f) {
      assert SameEntry(after, mid, f) && SameEntry(mid, known, f);
    }
  }

  lemma {:induction false} NothingProbed(parts: seq<Part>)
    requires forall part :: part in parts ==> part.tally.probed == 0
    ensures MergedAll(parts).probed == 0
    decreases |parts|
  {
    if parts != [] {
      NothingProbed(parts[..|parts| - 1]);
    }
  }

  lemma NotCompleted(pls: seq<Pipeline>, parts: seq<Part>, dryRun: bool, k: nat)
    requires AllKept(pls, parts, dryRun) && k < |parts| && !parts[k].scan.stage.Cancelled?
    requires !parts[k].scan.stage.Complete?
    ensures parts[k].tally.probed == 0
  {
    KeptAt(pls, parts, k, dryRun);
  }

  /** If the first scan could read all media files of every library that the second one completes, the second one, if it
      is not cancelled, probes nothing. */
  lemma SecondScanProbesNothing(a: World, b: World, c: World, pls: seq<Pipeline>, parts: seq<Part>, total: Tally,
                                again: seq<Part>, sum: Tally, dryRun: (bool, bool), calm: (bool, bool))
    requires LibrariesScanned(a, b, pls, |pls|, parts, total, dryRun.0, calm.0) && WellFormed(a.tree)
    requires LibrariesScanned(b, c, pls, |again|, again, sum, dryRun.1, calm.1)
    requires InputsApart(pls) && forall pl :: pl in pls ==> InputAway(a.tree, pl, AllOutputs(pls))
    requires forall k :: 0 <= k < |again| ==> !again[k].scan.stage.Cancelled?
    requires forall k :: 0 <= k < |again| && again[k].scan.stage.Complete? ==>
               parts[k].scan.stage.Complete? && parts[k].scan.unread == {}
    ensures sum.probed == 0
  {
    forall k | 0 <= k < |again| ensures again[k].tally.probed == 0 {
      if again[k].scan.stage.Complete? {
        assert pls[k] in pls;
        NothingIsProbedTwice(a, b, c, pls, parts, total, again, sum, dryRun, calm, k);
      } else {
        NotCompleted(pls, again, dryRun.1, k);
      }
    }
    NothingProbed(again);
  }
}
