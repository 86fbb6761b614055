/** What a scan knows of the files of a library: the ones it finds, what the cache and the probers say about them. */
module Gathering {
  import opened Paths
  import opened Trees
  import opened Reconcile
  import opened FileSystem
  import opened Symlinks
  import opened Models
  import opened State
  import opened Selection

  // ---------------------------------------------------------------- finding files

  function Elements(s: seq<Path>): (r: set<Path>)
    ensures forall p :: p in r <==> p in s
  {
    set p | p in s
  }

  ghost predicate AreFilesAmong(found: seq<Path>, entries: seq<Path>, files: set<Path>) {
    Distinct(found) && forall f :: f in found <==> f in entries && f in files
  }

  lemma AreFilesStep(found: seq<Path>, entries: seq<Path>, files: set<Path>, e: Path)
    requires AreFilesAmong(found, entries, files) && e !in entries
    ensures AreFilesAmong(if e in files then found + [e] else found, entries + [e], files)
  {}

  lemma NextEntry(t: Tree, pl: Pipeline, dir: Path, entries: seq<Path>, j: nat, found: seq<Path>)
    requires Distinct(entries) && forall q :: q in entries <==> q in t && q != [] && Parent(q) == dir
    requires Walked(t, pl.input, pl.ignored, dir) && j < |entries| && AreFilesAmong(found, entries[..j], FilesOf(t, pl))
    ensures var e := entries[j];
            e != [] && AreFilesAmong(if !Ignored(pl, Name(e)) && IsFile(t, e) then found + [e] else found,
                                     entries[..j + 1], FilesOf(t, pl))
  {
    var e := entries[j];
    assert e in entries && e !in entries[..j] && entries[..j + 1] == entries[..j] + [e];
    assert e in FilesOf(t, pl) <==> !Ignored(pl, Name(e)) && IsFile(t, e);
    AreFilesStep(found, entries[..j], FilesOf(t, pl), e);
  }

  lemma AllEntries(t: Tree, pl: Pipeline, dir: Path, entries: seq<Path>)
    requires forall q :: q in entries <==> q in t && q != [] && Parent(q) == dir
    ensures entries[..|entries|] == entries
    ensures forall f :: f in FilesOf(t, pl) ==> (f in entries <==> Parent(f) == dir)
  {}

  lemma BothDistinct(a: seq<Path>, b: seq<Path>)
    requires Distinct(a) && Distinct(b) && forall f :: f in a ==> f !in b
    ensures Distinct(a + b)
  {
    forall i, j | 0 <= i < j < |a + b| ensures (a + b)[i] != (a + b)[j] {
      if i < |a| <= j {
        assert a[i] in a && b[j - |a|] in b;
      }
    }
  }

  lemma NoInputNoFiles(t: Tree, pl: Pipeline)
    requires WellFormed(t) && !IsDir(t, pl.input)
    ensures FilesOf(t, pl) == {}
  {
    forall f | f in FilesOf(t, pl) ensures false {
      AncestorsAreDirs(t, f, pl.input);
    }
  }

  /** The input is there and, if it holds no file, no output holds a link. */
  ghost predicate Usable(t: Tree, pl: Pipeline, hasFiles: bool) {
    IsDir(t, pl.input) && (hasFiles || NoLinks(t, pl.outputs))
  }

  /** The library can be scanned. */
  ghost predicate IsUsable(t: Tree, pl: Pipeline) {
    Usable(t, pl, FilesOf(t, pl) != {})
  }

  ghost predicate NoLinks(t: Tree, outputs: seq<Output>) {
    forall o :: o in outputs ==> LinksBelow(t, o.path) == {}
  }

  lemma NoLinksStep(t: Tree, outputs: seq<Output>, i: nat, links: seq<Path>)
    requires i < |outputs| && NoLinks(t, outputs[..i])
    requires forall p :: p in links <==> p in LinksBelow(t, outputs[i].path)
    ensures if links == [] then NoLinks(t, outputs[..i + 1]) else !NoLinks(t, outputs)
  {
    assert outputs[..i + 1] == outputs[..i] + [outputs[i]] && outputs[i] in outputs;
    assert links != [] ==> links[0] in links;
  }

  // ---------------------------------------------------------------- phase 1: sorting and looking up

  datatype LookedUp = Known(info: MediaInfo) | Fresh(stat: FileStat) | Unread

  /** What phase 1 has sorted so far. */
  datatype Sorted = Sorted(media: seq<Path>, sidecars: map<Path, seq<Path>>, infos: map<Path, MediaInfo>,
                           toProbe: map<Path, FileStat>)

  const NOTHING_SORTED := Sorted([], map[], map[], map[])

  /** The sidecars among the files, by directory. */
  ghost predicate Grouped(pl: Pipeline, sidecars: map<Path, seq<Path>>, files: seq<Path>) {
    && (forall d, s :: d in sidecars && s in sidecars[d] ==> IsSidecar(pl, s) && Parent(s) == d && s in files)
    && (forall s :: s in files && IsSidecar(pl, s) ==> Parent(s) in sidecars && s in sidecars[Parent(s)])
    && (forall d :: d in sidecars ==> Distinct(sidecars[d]))
  }

  /** A stat of the file says this. */
  ghost predicate Reports(t: Tree, f: Path, stat: FileStat) {
    IsFile(t, f) && stat == StatOf(t, f)
  }

  function InCache(m: Memory, f: Path, stat: FileStat): Option<MediaInfo> {
    Found(m, f, stat.size, stat.mtime)
  }

  /** The entries of files that wait to be probed have been forgotten; nothing else has changed in the cache. */
  ghost predicate FreshForgotten(m: Memory, now: Memory, s: Sorted) {
    forall g :: if g in s.toProbe then g !in now.entries else SameEntry(m, now, g)
  }

  /** One more media file has been looked up. */
  function WithMedia(s: Sorted, f: Path, r: LookedUp): Sorted {
    match r
    case Known(info) => s.(media := s.media + [f], infos := s.infos[f := info])
    case Fresh(stat) => s.(media := s.media + [f], toProbe := s.toProbe[f := stat])
    case Unread => s.(media := s.media + [f])
  }

  lemma OneMoreAsked(m: Memory, now: Memory, next: Memory, s: Sorted, f: Path, r: LookedUp)
    requires FreshForgotten(m, now, s) && OnlyEntry(now, next, f) && f !in s.toProbe
    requires if r.Fresh? then f !in next.entries else SameEntry(now, next, f)
    ensures FreshForgotten(m, next, WithMedia(s, f, r))
  {
    var after := WithMedia(s, f, r);
    forall g ensures if g in after.toProbe then g !in next.entries else SameEntry(m, next, g) {
      if g != f {
        assert SameEntry(now, next, g);
      }
    }
  }

  lemma NotYetAsked(m: Memory, now: Memory, s: Sorted, f: Path, stat: FileStat)
    requires FreshForgotten(m, now, s) && f !in s.toProbe
    ensures InCache(now, f, stat) == InCache(m, f, stat)
  {
    assert SameEntry(m, now, f);
  }

  /** Every media file is known, waits to be probed or could not be read. */
  ghost predicate SortedOut(m: Memory, stats: map<Path, FileStat>, pl: Pipeline, files: seq<Path>, s: Sorted,
                            unread: set<Path>)
  {
    && Grouped(pl, s.sidecars, files)
    && Distinct(s.media) && (forall f :: f in s.media <==> f in files && Passes(pl, f))
    && (forall f :: f in s.infos ==> f in s.media && f in stats && InCache(m, f, stats[f]) == Some(s.infos[f]))
    && (forall f :: f in s.toProbe ==>
          f in s.media && f in stats && stats[f] == s.toProbe[f] && InCache(m, f, stats[f]) == None && f !in s.infos)
    && (forall f :: f in unread ==> f in s.media && f !in s.infos && f !in s.toProbe)
    && (forall f :: f in s.media ==> f in s.infos || f in s.toProbe || f in unread)
  }

  /** The first n files have been sorted; now is what has become of the cache. */
  ghost predicate LookingUp(m: Memory, now: Memory, pl: Pipeline, stats: map<Path, FileStat>, files: seq<Path>, n: nat,
                            s: Sorted, unread: set<Path>)
  {
    n <= |files| && Tended(m, now, pl) && FreshForgotten(m, now, s)
      && SortedOut(m, stats, pl, files[..n], s, unread)
  }

  lemma NothingLookedUp(m: Memory, pl: Pipeline, stats: map<Path, FileStat>, files: seq<Path>)
    ensures LookingUp(m, m, pl, stats, files, 0, NOTHING_SORTED, {})
  {
    NotTouched(m, pl);
    assert files[..0] == [];
  }

  lemma AllLookedUp(m: Memory, now: Memory, pl: Pipeline, stats: map<Path, FileStat>, files: seq<Path>, s: Sorted,
                    unread: set<Path>)
    requires LookingUp(m, now, pl, stats, files, |files|, s, unread)
    ensures Tended(m, now, pl) && FreshForgotten(m, now, s) && SortedOut(m, stats, pl, files, s, unread)
  {
    assert files[..|files|] == files;
  }

  /** n more files have been sorted, and counted. */
  ghost predicate Counted(a: Tally, before: Sorted, b: Tally, after: Sorted, n: nat) {
    && b == a.(filtered := b.filtered, skipped := b.skipped, errors := b.errors)
    && b.filtered + |after.media| == a.filtered + |before.media| + n
    && b.skipped + |before.infos| == a.skipped + |after.infos|
    && b.skipped + b.errors + |after.toProbe| + |before.media| ==
       a.skipped + a.errors + |before.toProbe| + |after.media|
  }

  lemma OtherStep(m: Memory, stats: map<Path, FileStat>, pl: Pipeline, files: seq<Path>, s: Sorted, unread: set<Path>,
                  f: Path)
    requires SortedOut(m, stats, pl, files, s, unread) && !Passes(pl, f) && !IsSidecar(pl, f)
    ensures SortedOut(m, stats, pl, files + [f], s, unread)
  {}

  function WithSidecar(sidecars: map<Path, seq<Path>>, f: Path): map<Path, seq<Path>> {
    sidecars[Parent(f) := (if Parent(f) in sidecars then sidecars[Parent(f)] else []) + [f]]
  }

  lemma GroupedStep(pl: Pipeline, sidecars: map<Path, seq<Path>>, files: seq<Path>, f: Path)
    requires Grouped(pl, sidecars, files) && IsSidecar(pl, f) && f !in files
    ensures Grouped(pl, WithSidecar(sidecars, f), files + [f])
  {}

  lemma SidecarStep(m: Memory, stats: map<Path, FileStat>, pl: Pipeline, files: seq<Path>, s: Sorted, unread: set<Path>,
                    f: Path)
    requires SortedOut(m, stats, pl, files, s, unread) && IsSidecar(pl, f) && f !in files
    ensures SortedOut(m, stats, pl, files + [f], s.(sidecars := WithSidecar(s.sidecars, f)), unread)
  {
    GroupedStep(pl, s.sidecars, files, f);
  }

  ghost predicate AllReported(t: Tree, input: Path, files: seq<Path>, stats: map<Path, FileStat>) {
    forall f :: f in files ==> f != [] && Within(f, input) && f in stats && Reports(t, f, stats[f])
  }

  lemma NextFile(t: Tree, input: Path, files: seq<Path>, stats: map<Path, FileStat>, i: nat)
    requires Distinct(files) && i < |files| && AllReported(t, input, files, stats)
    ensures var f := files[i];
            f != [] && Within(f, input) && f in stats && Reports(t, f, stats[f]) && f !in files[..i]
              && files[..i + 1] == files[..i] + [f]
  {
    assert files[i] in files;
  }

  lemma KnownStep(m: Memory, stats: map<Path, FileStat>, pl: Pipeline, files: seq<Path>, s: Sorted, unread: set<Path>,
                  f: Path)
    requires SortedOut(m, stats, pl, files, s, unread) && f !in files && Passes(pl, f) && f in stats
    requires InCache(m, f, stats[f]).Some?
    ensures SortedOut(m, stats, pl, files + [f],
                      s.(media := s.media + [f], infos := s.infos[f := InCache(m, f, stats[f]).value]), unread)
    ensures f !in s.infos
  {
    assert f !in s.media;
  }

  lemma FreshStep(m: Memory, stats: map<Path, FileStat>, pl: Pipeline, files: seq<Path>, s: Sorted, unread: set<Path>,
                  f: Path)
    requires SortedOut(m, stats, pl, files, s, unread) && f !in files && Passes(pl, f) && f in stats
    requires InCache(m, f, stats[f]) == None
    ensures SortedOut(m, stats, pl, files + [f], s.(media := s.media + [f], toProbe := s.toProbe[f := stats[f]]),
                      unread)
    ensures f !in s.toProbe
  {
    assert f !in s.media;
  }

  lemma UnreadStep(m: Memory, stats: map<Path, FileStat>, pl: Pipeline, files: seq<Path>, s: Sorted, unread: set<Path>,
                   f: Path)
    requires SortedOut(m, stats, pl, files, s, unread) && f !in files && Passes(pl, f)
    ensures SortedOut(m, stats, pl, files + [f], s.(media := s.media + [f]), unread + {f})
  {
    assert f !in s.media;
  }

  lemma MediaStep(m: Memory, stats: map<Path, FileStat>, pl: Pipeline, files: seq<Path>, s: Sorted, unread: set<Path>,
                  f: Path, r: LookedUp)
    requires SortedOut(m, stats, pl, files, s, unread) && f !in files && Passes(pl, f) && f in stats
    requires r.Known? ==> InCache(m, f, stats[f]) == Some(r.info)
    requires r.Fresh? ==> r.stat == stats[f] && InCache(m, f, stats[f]) == None
    ensures SortedOut(m, stats, pl, files + [f], WithMedia(s, f, r), if r.Unread? then unread + {f} else unread)
    ensures f !in s.infos && f !in s.toProbe && f !in unread
  {
    match r
    case Known(_) => KnownStep(m, stats, pl, files, s, unread, f);
    case Fresh(_) => FreshStep(m, stats, pl, files, s, unread, f);
    case Unread => UnreadStep(m, stats, pl, files, s, unread, f);
    assert f !in s.media;
  }

  // ---------------------------------------------------------------- phase 2: probing

  ghost predicate ProbesCounted(a: Tally, b: Tally, found: nat, asked: nat) {
    b == a.(probed := a.probed + found, errors := b.errors) && b.errors + found == a.errors + asked
  }

  predicate Answers(pl: Pipeline, stats: map<Path, FileStat>, f: Path) {
    f in stats && Answer(pl, f, stats[f]).Some?
  }

  function WithProbe(pl: Pipeline, stats: map<Path, FileStat>, infos: map<Path, MediaInfo>,
                     f: Path): map<Path, MediaInfo>
  {
    if Answers(pl, stats, f) then infos[f := Answer(pl, f, stats[f]).value] else infos
  }

  /** found is what the files that are no longer pending have yielded; both are counted. */
  ghost predicate Underway(pl: Pipeline, toProbe: map<Path, FileStat>, pending: set<Path>, found: map<Path, MediaInfo>,
                           hits: nat, asked: nat)
  {
    && pending <= toProbe.Keys && asked + |pending| == |toProbe|
    && found == InfosOf(pl, toProbe, toProbe.Keys - pending) && hits == |found|
  }

  lemma NothingProbed(pl: Pipeline, toProbe: map<Path, FileStat>, infos: map<Path, MediaInfo>,
                      entries: map<Path, MediaInfo>)
    ensures Underway(pl, toProbe, toProbe.Keys, map[], 0, 0) && infos + map[] == infos && entries + map[] == entries
  {}

  lemma FoundStep(pl: Pipeline, toProbe: map<Path, FileStat>, pending: set<Path>, found: map<Path, MediaInfo>,
                  hits: nat, asked: nat, f: Path, infos: map<Path, MediaInfo>, entries: map<Path, MediaInfo>)
    requires Underway(pl, toProbe, pending, found, hits, asked) && f in pending
    ensures f in toProbe && |pending - {f}| < |pending|
    ensures var more := WithProbe(pl, toProbe, found, f);
            && Underway(pl, toProbe, pending - {f}, more, hits + (if Answers(pl, toProbe, f) then 1 else 0), asked + 1)
            && WithProbe(pl, toProbe, infos + found, f) == infos + more
            && WithProbe(pl, toProbe, entries + found, f) == entries + more
  {
    var done := toProbe.Keys - pending;
    assert toProbe.Keys - (pending - {f}) == done + {f};
    MoreFound(pl, toProbe, done, f);
    PutAfter(pl, toProbe, infos, found, f);
    PutAfter(pl, toProbe, entries, found, f);
  }

  lemma AllProbed(pl: Pipeline, toProbe: map<Path, FileStat>, found: map<Path, MediaInfo>, hits: nat, asked: nat)
    requires Underway(pl, toProbe, {}, found, hits, asked)
    ensures found == InfosOf(pl, toProbe, toProbe.Keys) && hits == |found| && asked == |toProbe|
  {
    assert toProbe.Keys - {} == toProbe.Keys;
  }

  lemma MoreFound(pl: Pipeline, stats: map<Path, FileStat>, files: set<Path>, f: Path)
    requires f !in files
    ensures var found := InfosOf(pl, stats, files);
            InfosOf(pl, stats, files + {f}) == WithProbe(pl, stats, found, f) && f !in found
  {}

  lemma PutAfter(pl: Pipeline, stats: map<Path, FileStat>, infos: map<Path, MediaInfo>, found: map<Path, MediaInfo>,
                 f: Path)
    requires f !in found
    ensures infos + WithProbe(pl, stats, found, f) == WithProbe(pl, stats, infos + found, f)
    ensures |WithProbe(pl, stats, found, f)| == |found| + if Answers(pl, stats, f) then 1 else 0
  {}

  // ---------------------------------------------------------------- both phases

  /** The infos are what cache and probers tell of all media files whose stat worked. */
  ghost predicate Gathered(m: Memory, t: Tree, pl: Pipeline, infos: map<Path, MediaInfo>, unread: set<Path>) {
    var files := FilesOf(t, pl);
    infos == InfosLearned(m, pl, StatsOf(t, files), Media(pl, files) - unread)
  }

  /** The files whose stat worked and which the cache knows in their size and time. */
  function KnownOf(m: Memory, stats: map<Path, FileStat>, read: set<Path>): set<Path> {
    set f | f in read && f in stats && InCache(m, f, stats[f]).Some?
  }

  /** What a scan leaves of the entry of f, before it forgets files that have vanished: what was learned of a file that
      was read, and what there was of any other. */
  ghost predicate EntryLearned(m: Memory, now: Memory, pl: Pipeline, stats: map<Path, FileStat>, read: set<Path>,
                               f: Path)
  {
    if f in read && f in stats then Entry(now, f) == Learned(m, pl, f, stats[f]) else SameEntry(m, now, f)
  }

  /** All media files have been looked up and probed. */
  ghost predicate CacheLearned(m: Memory, now: Memory, t: Tree, pl: Pipeline, unread: set<Path>) {
    var files := FilesOf(t, pl);
    forall f :: EntryLearned(m, now, pl, StatsOf(t, files), Media(pl, files) - unread, f)
  }

  /** What a complete scan leaves of the cache: besides, files of the library that have vanished are forgotten. */
  ghost predicate CacheKept(m: Memory, now: Memory, t: Tree, pl: Pipeline, unread: set<Path>) {
    var files := FilesOf(t, pl);
    forall f ::
      if Within(f, pl.input) && f !in files then f !in now.entries
      else EntryLearned(m, now, pl, StatsOf(t, files), Media(pl, files) - unread, f)
  }

  lemma LearnedByProbing(m: Memory, mid: Memory, now: Memory, t: Tree, pl: Pipeline, files: seq<Path>, s: Sorted,
                         unread: set<Path>)
    requires Elements(files) == FilesOf(t, pl) && SortedOut(m, StatsOf(t, FilesOf(t, pl)), pl, files, s, unread)
    requires FreshForgotten(m, mid, s)
    requires now.entries == mid.entries + InfosOf(pl, s.toProbe, s.toProbe.Keys)
    ensures CacheLearned(m, now, t, pl, unread)
  {
    var stats, read := StatsOf(t, FilesOf(t, pl)), Media(pl, FilesOf(t, pl)) - unread;
    forall f ensures EntryLearned(m, now, pl, stats, read, f) {
      FateOfFile(m, stats, pl, files, s, unread, f);
      assert Media(pl, Elements(files)) == Media(pl, FilesOf(t, pl));
      assert if f in s.toProbe then f !in mid.entries else SameEntry(m, mid, f);
    }
  }

  lemma KeptByPruning(m: Memory, mid: Memory, t: Tree, pl: Pipeline, unread: set<Path>)
    ensures CacheLearned(m, mid, t, pl, unread) ==>
              CacheKept(m, AfterPrune(mid, pl.input, FilesOf(t, pl)), t, pl, unread)
  {
    if CacheLearned(m, mid, t, pl, unread) {
      PruningKeeps(m, mid, t, pl, unread);
    }
  }

  lemma PruningKeeps(m: Memory, mid: Memory, t: Tree, pl: Pipeline, unread: set<Path>)
    requires CacheLearned(m, mid, t, pl, unread)
    ensures CacheKept(m, AfterPrune(mid, pl.input, FilesOf(t, pl)), t, pl, unread)
  {
    var files, now := FilesOf(t, pl), AfterPrune(mid, pl.input, FilesOf(t, pl));
    PruneTends(mid, pl, files);
    forall f
      ensures if Within(f, pl.input) && f !in files then f !in now.entries
              else EntryLearned(m, now, pl, StatsOf(t, files), Media(pl, files) - unread, f)
    {
      assert EntryLearned(m, mid, pl, StatsOf(t, files), Media(pl, files) - unread, f);
    }
  }

  /** Nothing has been counted but files. */
  ghost predicate OnlyFiles(a: Tally, b: Tally) {
    b == a.(filtered := b.filtered, skipped := b.skipped, probed := b.probed, errors := b.errors)
  }

  /** Every file has been counted once: as filtered if it is no media file, as skipped if the cache knows it, as probed
      if a prober does, as an error otherwise. */
  ghost predicate FilesCounted(a: Tally, b: Tally, files: set<Path>, media: set<Path>, infos: map<Path, MediaInfo>,
                               known: set<Path>)
  {
    b == a.(filtered := a.filtered + |files - media|, skipped := a.skipped + |known|,
            probed := a.probed + |infos.Keys - known|, errors := a.errors + |media - infos.Keys|)
  }

  lemma FilesAsSet(files: seq<Path>, all: set<Path>)
    requires Distinct(files) && forall f :: f in files <==> f in all
    ensures Elements(files) == all && |files| == |all| && (files == [] <==> all == {})
  {
    SeqCardinality(files, all);
    assert files != [] ==> files[0] in all;
  }

  lemma FilesAreReported(t: Tree, pl: Pipeline, files: seq<Path>)
    requires Elements(files) == FilesOf(t, pl)
    ensures AllReported(t, pl.input, files, StatsOf(t, FilesOf(t, pl)))
  {
    forall f | f in files
      ensures f != [] && Within(f, pl.input) && f in StatsOf(t, FilesOf(t, pl))
              && Reports(t, f, StatsOf(t, FilesOf(t, pl))[f])
    {
      assert f in Elements(files);
    }
  }

  lemma MediaInInput(m: Memory, t: Tree, pl: Pipeline, files: seq<Path>, s: Sorted, unread: set<Path>)
    requires Elements(files) == FilesOf(t, pl) && SortedOut(m, StatsOf(t, FilesOf(t, pl)), pl, files, s, unread)
    ensures forall f :: f in s.toProbe ==> Within(f, pl.input)
  {
    forall f | f in s.toProbe ensures Within(f, pl.input) {
      assert f in s.media && f in Elements(files);
    }
  }

  lemma FilesAreNormal(t: Tree, pl: Pipeline)
    requires WellFormed(t)
    ensures forall f :: f in FilesOf(t, pl) ==> f != [] && Normal(f)
  {}

  lemma ProbedIsGathered(m: Memory, t: Tree, pl: Pipeline, files: seq<Path>, s: Sorted, unread: set<Path>)
    requires Elements(files) == FilesOf(t, pl) && SortedOut(m, StatsOf(t, FilesOf(t, pl)), pl, files, s, unread)
    ensures Gathered(m, t, pl, s.infos + InfosOf(pl, s.toProbe, s.toProbe.Keys), unread)
  {
    ProbedIsInfos(m, StatsOf(t, FilesOf(t, pl)), pl, files, s, unread);
    assert Media(pl, FilesOf(t, pl)) == Media(pl, Elements(files));
  }

  lemma ProbedIsInfos(m: Memory, stats: map<Path, FileStat>, pl: Pipeline, files: seq<Path>, s: Sorted,
                      unread: set<Path>)
    requires SortedOut(m, stats, pl, files, s, unread)
    ensures s.infos + InfosOf(pl, s.toProbe, s.toProbe.Keys) ==
            InfosLearned(m, pl, stats, Media(pl, Elements(files)) - unread)
  {
    var a, b := s.infos + InfosOf(pl, s.toProbe, s.toProbe.Keys),
      InfosLearned(m, pl, stats, Media(pl, Elements(files)) - unread);
    forall f
      ensures f in a <==> f in b
      ensures f in a ==> a[f] == b[f]
    {
      FateOfFile(m, stats, pl, files, s, unread, f);
    }
  }

  lemma FateOfFile(m: Memory, stats: map<Path, FileStat>, pl: Pipeline, files: seq<Path>, s: Sorted, unread: set<Path>,
                   f: Path)
    requires SortedOut(m, stats, pl, files, s, unread)
    ensures f in Media(pl, Elements(files)) - unread <==> f in s.infos || f in s.toProbe
    ensures f in s.infos ==> f in stats && InCache(m, f, stats[f]) == Some(s.infos[f]) && f !in s.toProbe
    ensures f in s.toProbe ==> f in stats && stats[f] == s.toProbe[f] && InCache(m, f, stats[f]) == None
  {
    assert f in s.media <==> f in files && Passes(pl, f);
  }

  lemma PartsAddUp(whole: set<Path>, part: set<Path>, rest: set<Path>)
    requires part + rest <= whole && part !! rest
    ensures |whole - (part + rest)| == |whole| - |part| - |rest|
  {
    assert whole == (whole - (part + rest)) + (part + rest);
    assert |part + rest| == |part| + |rest|;
  }

  lemma InfosAddUp(media: set<Path>, known: map<Path, MediaInfo>, found: map<Path, MediaInfo>)
    requires known.Keys + found.Keys <= media && known.Keys !! found.Keys
    ensures |known + found| == |known| + |found|
    ensures |media - (known + found).Keys| == |media| - |known| - |found|
    ensures |(known + found).Keys - known.Keys| == |found|
  {
    assert (known + found).Keys - known.Keys == found.Keys;
    PartsAddUp(media, known.Keys, found.Keys);
    assert (known + found).Keys == known.Keys + found.Keys;
  }

  lemma MediaAddUp(pl: Pipeline, files: seq<Path>, media: seq<Path>)
    requires Distinct(files) && Distinct(media) && forall f :: f in media <==> f in files && Passes(pl, f)
    ensures Elements(media) == Media(pl, Elements(files)) && |Elements(media)| == |media|
    ensures |Elements(files) - Media(pl, Elements(files))| == |files| - |media|
  {
    var all, part := Elements(files), Media(pl, Elements(files));
    FilesAsSet(files, all);
    FilesAsSet(media, part);
    PartsAddUp(all, part, {});
    assert all - (part + {}) == all - part;
  }

  lemma FoundIsNew(m: Memory, stats: map<Path, FileStat>, pl: Pipeline, files: seq<Path>, s: Sorted, unread: set<Path>)
    requires SortedOut(m, stats, pl, files, s, unread)
    ensures var found := InfosOf(pl, s.toProbe, s.toProbe.Keys);
            s.infos.Keys + found.Keys <= Elements(s.media) && s.infos.Keys !! found.Keys
  {}

  lemma KnownAreSkipped(m: Memory, stats: map<Path, FileStat>, pl: Pipeline, files: seq<Path>, s: Sorted,
                        unread: set<Path>)
    requires SortedOut(m, stats, pl, files, s, unread)
    ensures s.infos.Keys == KnownOf(m, stats, Media(pl, Elements(files)) - unread)
  {
    forall f ensures f in s.infos <==> f in KnownOf(m, stats, Media(pl, Elements(files)) - unread) {
      FateOfFile(m, stats, pl, files, s, unread, f);
    }
  }

  /** The numbers of both phases, put together. */
  lemma NumbersAddUp(a: Tally, b: Tally, c: Tally, n: nat, s: Sorted, found: nat, files: set<Path>, media: set<Path>,
                     infos: map<Path, MediaInfo>)
    requires Counted(a, NOTHING_SORTED, b, s, n) && ProbesCounted(b, c, found, |s.toProbe|)
    requires |files - media| == n - |s.media| && |infos.Keys - s.infos.Keys| == found
    requires |media - infos.Keys| == |s.media| - |s.infos| - found
    ensures FilesCounted(a, c, files, media, infos, s.infos.Keys)
  {}

  lemma AllFilesCounted(m: Memory, a: Tally, b: Tally, c: Tally, stats: map<Path, FileStat>, pl: Pipeline,
                        files: seq<Path>, s: Sorted, unread: set<Path>)
    requires Distinct(files) && SortedOut(m, stats, pl, files, s, unread) && Counted(a, NOTHING_SORTED, b, s, |files|)
    requires ProbesCounted(b, c, |InfosOf(pl, s.toProbe, s.toProbe.Keys)|, |s.toProbe|)
    ensures FilesCounted(a, c, Elements(files), Media(pl, Elements(files)),
                         s.infos + InfosOf(pl, s.toProbe, s.toProbe.Keys),
                         KnownOf(m, stats, Media(pl, Elements(files)) - unread))
  {
    var found, all, media := InfosOf(pl, s.toProbe, s.toProbe.Keys), Elements(files), Media(pl, Elements(files));
    KnownAreSkipped(m, stats, pl, files, s, unread);
    MediaAddUp(pl, files, s.media);
    FoundIsNew(m, stats, pl, files, s, unread);
    InfosAddUp(Elements(s.media), s.infos, found);
    NumbersAddUp(a, b, c, |files|, s, |found|, all, media, s.infos + found);
  }
}
