/** Scanning one library: find its files, look them up or probe them, and bring its output directories in line. */
module Processor {
  import opened Paths
  import opened Trees
  import opened Reconcile
  import opened Replacements
  import opened FileSystem
  import opened Symlinks
  import opened Safety
  import opened Models
  import opened State
  import opened Selection
  import opened Gathering
  import opened Linking

  /** A flag another thread may set at any moment; nobody clears it. */
  class Event {
    var flag: bool

    constructor ()
      ensures !flag
    {
      flag := false;
    }

    method IsSet() returns (b: bool)
      modifies this
      ensures b == flag && (old(flag) ==> flag)
    {
      var other := *;
      flag := flag || other;
      b := flag;
    }
  }

  class LibraryProcessor {
    const pl: Pipeline
    const disk: Disk
    const symlinks: SymlinkManager
    const state: InMemoryStateStore
    const cancel: Event

    ghost predicate Valid()
      reads disk
    {
      symlinks.disk == disk && disk.Valid()
    }

    constructor (pl: Pipeline, symlinks: SymlinkManager, state: InMemoryStateStore, cancel: Event)
      requires symlinks.disk.Valid()
      ensures Valid() && this.pl == pl && this.symlinks == symlinks && this.state == state && this.cancel == cancel
      ensures disk == symlinks.disk
    {
      this.pl, this.disk, this.symlinks, this.state, this.cancel := pl, symlinks.disk, symlinks, state, cancel;
    }

    // -------------------------------------------------------------- finding files

    /** The files of one directory that are not ignored, each once. */
    method FilesInDir(dir: Path) returns (found: seq<Path>)
      requires Valid() && Walked(disk.tree, pl.input, pl.ignored, dir)
      ensures Distinct(found)
      ensures forall f :: f in found <==> f in FilesOf(disk.tree, pl) && Parent(f) == dir
    {
      found := [];
      var entries := disk.ListDir(dir);
      ghost var t, files := disk.tree, FilesOf(disk.tree, pl);
      for j := 0 to |entries|
        invariant disk.tree == t && AreFilesAmong(found, entries[..j], files)
      {
        NextEntry(t, pl, dir, entries, j, found);
        if !Ignored(pl, Name(entries[j])) && IsFile(disk.tree, entries[j]) {
          found := found + [entries[j]];
        }
      }
      AllEntries(t, pl, dir, entries);
    }

    /** All files below the input that are not ignored, each once. */
    method DiscoverFiles() returns (found: seq<Path>)
      requires Valid()
      ensures Distinct(found)
      ensures forall f :: f in found <==> f in FilesOf(disk.tree, pl)
    {
      found := [];
      if !IsDir(disk.tree, pl.input) {
        NoInputNoFiles(disk.tree, pl);
        return;
      }
      var dirs := disk.Walk(pl.input, true, pl.ignored);
      ghost var files := FilesOf(disk.tree, pl);
      for i := 0 to |dirs|
        invariant Distinct(found)
        invariant forall f :: f in found <==> f in files && Parent(f) in dirs[..i]
      {
        assert dirs[i] in dirs && dirs[i] !in dirs[..i] && dirs[..i + 1] == dirs[..i] + [dirs[i]];
        var more := FilesInDir(dirs[i]);
        BothDistinct(found, more);
        found := found + more;
      }
      assert dirs[..|dirs|] == dirs;
    }

    method HasLinks() returns (r: bool)
      requires Valid()
      ensures r <==> !NoLinks(disk.tree, pl.outputs)
    {
      ghost var t := disk.tree;
      for i := 0 to |pl.outputs|
        invariant disk.tree == t && NoLinks(t, pl.outputs[..i])
      {
        var links := symlinks.IterLinks(pl.outputs[i].path);
        NoLinksStep(t, pl.outputs, i, links);
        if links != [] {
          return true;
        }
      }
      assert pl.outputs[..|pl.outputs|] == pl.outputs;
      return false;
    }

    /** Tells a library that has been emptied, or is not mounted, from one that has never been linked. */
    method InputIsUsable(hasFiles: bool) returns (usable: bool)
      requires Valid()
      ensures usable <==> Usable(disk.tree, pl, hasFiles)
    {
      if !IsDir(disk.tree, pl.input) {
        return false;
      }
      if !hasFiles {
        var links := HasLinks();
        return !links;
      }
      return true;
    }

    // -------------------------------------------------------------- phase 1: cache lookup

    /** Stats a media file and asks the cache. */
    method LookUpFile(f: Path, ghost stat: FileStat) returns (r: LookedUp)
      requires Reports(disk.tree, f, stat) && Within(f, pl.input)
      modifies disk`faults, state
      ensures Tended(old(state.View()), state.View(), pl) && OnlyEntry(old(state.View()), state.View(), f)
      ensures r.Known? ==> InCache(old(state.View()), f, stat) == Some(r.info)
      ensures r.Fresh? ==> r.stat == stat && InCache(old(state.View()), f, stat) == None
      ensures disk.faults == old(disk.faults) + (if r.Unread? then 1 else 0)
      ensures state.View() ==
              if r.Unread? then old(state.View()) else AfterGet(old(state.View()), f, stat.size, stat.mtime)
    {
      NotTouched(state.View(), pl);
      var ok := disk.Works();
      if !ok {
        return Unread;
      }
      GetTends(state.View(), pl, f, stat.size, stat.mtime);
      var st := StatOf(disk.tree, f);
      var cached := state.Get(f, st.size, st.mtime);
      return if cached.Some? then Known(cached.value) else Fresh(st);
    }

    /** Looks one more media file up. m: the cache before the scan; unread: the media files whose stat failed. */
    method SortMedia(f: Path, s: Sorted, result: ScanResult, ghost m: Memory, ghost stats: map<Path, FileStat>,
                     ghost done: seq<Path>, ghost unread: set<Path>)
      returns (next: Sorted, ghost failed: set<Path>)
      requires FreshForgotten(m, state.View(), s) && SortedOut(m, stats, pl, done, s, unread) && Passes(pl, f)
      requires f != [] && Within(f, pl.input) && f !in done && f in stats && Reports(disk.tree, f, stats[f])
      modifies disk`faults, state, result
      ensures Tended(old(state.View()), state.View(), pl) && FreshForgotten(m, state.View(), next)
      ensures disk.faults + |unread| == old(disk.faults) + |failed|
      ensures SortedOut(m, stats, pl, done + [f], next, failed)
      ensures Counted(old(result.tally), s, result.tally, next, 1)
    {
      ghost var before := state.View();
      NotYetAsked(m, before, s, f, stats[f]);
      var r := LookUpFile(f, stats[f]);
      MediaStep(m, stats, pl, done, s, unread, f, r);
      OneMoreAsked(m, before, state.View(), s, f, r);
      next := RecordMedia(f, s, r, result);
      failed := if r.Unread? then unread + {f} else unread;
    }

    method RecordMedia(f: Path, s: Sorted, r: LookedUp, result: ScanResult) returns (next: Sorted)
      requires f !in s.infos && f !in s.toProbe
      modifies result
      ensures next == WithMedia(s, f, r) && Counted(old(result.tally), s, result.tally, next, 1)
    {
      next := WithMedia(s, f, r);
      match r
      case Known(_) =>
        result.tally := result.tally.(skipped := result.tally.skipped + 1);
      case Fresh(_) =>
      case Unread =>
        result.tally := result.tally.(errors := result.tally.errors + 1);
    }

    /** Sorts one more file in. */
    method SortFile(f: Path, s: Sorted, result: ScanResult, ghost m: Memory, ghost stats: map<Path, FileStat>,
                    ghost done: seq<Path>, ghost unread: set<Path>)
      returns (next: Sorted, ghost failed: set<Path>)
      requires FreshForgotten(m, state.View(), s) && SortedOut(m, stats, pl, done, s, unread)
      requires f != [] && Within(f, pl.input) && f !in done && f in stats && Reports(disk.tree, f, stats[f])
      modifies disk`faults, state, result
      ensures Tended(old(state.View()), state.View(), pl) && FreshForgotten(m, state.View(), next)
      ensures disk.faults + |unread| == old(disk.faults) + |failed|
      ensures SortedOut(m, stats, pl, done + [f], next, failed)
      ensures Counted(old(result.tally), s, result.tally, next, 1)
    {
      if Passes(pl, f) {
        next, failed := SortMedia(f, s, result, m, stats, done, unread);
        return;
      }
      failed := unread;
      NotTouched(state.View(), pl);
      result.tally := result.tally.(filtered := result.tally.filtered + 1);
      if IsSidecar(pl, f) {
        SidecarStep(m, stats, pl, done, s, unread, f);
        next := s.(sidecars := WithSidecar(s.sidecars, f));
      } else {
        OtherStep(m, stats, pl, done, s, unread, f);
        next := s;
      }
    }

    /** Phase 1: sorts the files into media and sidecars and looks the media up. */
    method LookUp(files: seq<Path>, result: ScanResult, ghost stats: map<Path, FileStat>)
      returns (s: Sorted, ghost unread: set<Path>)
      requires Distinct(files) && AllReported(disk.tree, pl.input, files, stats)
      modifies disk`faults, state, result
      ensures Tended(old(state.View()), state.View(), pl) && FreshForgotten(old(state.View()), state.View(), s)
      ensures disk.faults == old(disk.faults) + |unread|
      ensures SortedOut(old(state.View()), stats, pl, files, s, unread)
      ensures Counted(old(result.tally), NOTHING_SORTED, result.tally, s, |files|)
    {
      ghost var m := state.View();
      s, unread := SortAll(files, result, m, stats);
      AllLookedUp(m, state.View(), pl, stats, files, s, unread);
    }

    method SortAll(files: seq<Path>, result: ScanResult, ghost m: Memory, ghost stats: map<Path, FileStat>)
      returns (s: Sorted, ghost unread: set<Path>)
      requires Distinct(files) && AllReported(disk.tree, pl.input, files, stats) && m == state.View()
      modifies disk`faults, state, result
      ensures LookingUp(m, state.View(), pl, stats, files, |files|, s, unread)
      ensures disk.faults == old(disk.faults) + |unread|
      ensures Counted(old(result.tally), NOTHING_SORTED, result.tally, s, |files|)
    {
      s, unread := NOTHING_SORTED, {};
      ghost var t, faults, tally := disk.tree, disk.faults, result.tally;
      NothingLookedUp(m, pl, stats, files);
      for i := 0 to |files|
        invariant disk.tree == t && disk.faults == faults + |unread|
        invariant LookingUp(m, state.View(), pl, stats, files, i, s, unread)
        invariant Counted(tally, NOTHING_SORTED, result.tally, s, i)
      {
        s, unread := SortNext(files, i, s, result, m, stats, unread);
      }
    }

    /** Sorts the next file in. */
    method SortNext(files: seq<Path>, i: nat, s: Sorted, result: ScanResult, ghost m: Memory,
                    ghost stats: map<Path, FileStat>, ghost unread: set<Path>)
      returns (next: Sorted, ghost failed: set<Path>)
      requires Distinct(files) && AllReported(disk.tree, pl.input, files, stats) && i < |files|
      requires LookingUp(m, state.View(), pl, stats, files, i, s, unread)
      modifies disk`faults, state, result
      ensures disk.faults + |unread| == old(disk.faults) + |failed|
      ensures LookingUp(m, state.View(), pl, stats, files, i + 1, next, failed)
      ensures Counted(old(result.tally), s, result.tally, next, 1)
    {
      NextFile(disk.tree, pl.input, files, stats, i);
      ghost var mid := state.View();
      next, failed := SortFile(files[i], s, result, m, stats, files[..i], unread);
      TendedOn(m, mid, state.View(), pl);
    }

    // -------------------------------------------------------------- phase 2: probing

    method Probe(f: Path, stat: FileStat) returns (info: Option<MediaInfo>)
      modifies cancel
      ensures old(cancel.flag) ==> cancel.flag
      ensures !cancel.flag ==> info == Answer(pl, f, stat)
      ensures info.Some? ==>
                && info.value == MediaInfo(f, stat.size, stat.mtime, info.value.tracks)
                && exists i :: AnswersFirst(pl.probers, i, f, stat.size, stat.mtime)
                               && pl.probers[i](f, stat.size, stat.mtime) == Some(info.value.tracks)
      ensures !cancel.flag && info.None? ==>
                forall i :: 0 <= i < |pl.probers| ==> pl.probers[i](f, stat.size, stat.mtime).None?
    {
      AskIsFirst(pl.probers, f, stat.size, stat.mtime);
      var stop := cancel.IsSet();
      if stop {
        return None;
      }
      for i := 0 to |pl.probers|
        invariant Ask(pl.probers[i..], f, stat.size, stat.mtime) == Ask(pl.probers, f, stat.size, stat.mtime)
        invariant forall j :: 0 <= j < i ==> pl.probers[j](f, stat.size, stat.mtime).None?
      {
        assert pl.probers[i..][0] == pl.probers[i] && pl.probers[i..][1..] == pl.probers[i + 1..];
        var tracks := pl.probers[i](f, stat.size, stat.mtime);
        if tracks.Some? {
          assert AnswersFirst(pl.probers, i, f, stat.size, stat.mtime);
          return Some(MediaInfo(f, stat.size, stat.mtime, tracks.value));
        }
      }
      return None;
    }

    /** Awaits one probe, counts it and remembers what it found, unless the scan has been cancelled. */
    method ProbeNext(toProbe: map<Path, FileStat>, f: Path, infos: map<Path, MediaInfo>, result: ScanResult,
                     ghost before: Tally, ghost hits: nat, ghost asked: nat)
      returns (stop: bool, next: map<Path, MediaInfo>)
      requires f in toProbe && Within(f, pl.input) && ProbesCounted(before, result.tally, hits, asked)
      modifies state, cancel, result
      ensures Tended(old(state.View()), state.View(), pl) && (old(cancel.flag) ==> cancel.flag)
              && (stop <==> cancel.flag)
      ensures stop ==> result.tally == old(result.tally)
      ensures !stop ==>
                && next == WithProbe(pl, toProbe, infos, f)
                && state.View() == old(state.View()).(entries := WithProbe(pl, toProbe, old(state.View()).entries, f))
                && ProbesCounted(before, result.tally, hits + (if Answers(pl, toProbe, f) then 1 else 0), asked + 1)
    {
      NotTouched(state.View(), pl);
      var info := Probe(f, toProbe[f]);
      stop := cancel.IsSet();
      if stop {
        return true, infos;
      }
      if info.None? {
        result.tally := result.tally.(errors := result.tally.errors + 1);
        return false, infos;
      }
      PutTends(state.View(), pl, f, toProbe[f]);
      state.Put(info.value);
      result.tally := result.tally.(probed := result.tally.probed + 1);
      return false, infos[f := info.value];
    }

    /** Phase 2: probes the files. Whatever order the probes finish in, they yield the same infos, the same cache and
        the same counts. */
    method ProbeAll(toProbe: map<Path, FileStat>, infos: map<Path, MediaInfo>, result: ScanResult)
      returns (probed: map<Path, MediaInfo>)
      requires forall f :: f in toProbe ==> Within(f, pl.input)
      modifies state, cancel, result
      ensures old(cancel.flag) ==> cancel.flag
      ensures Tended(old(state.View()), state.View(), pl) && OnlyFiles(old(result.tally), result.tally)
      ensures !cancel.flag ==> var found := InfosOf(pl, toProbe, toProbe.Keys);
                && probed == infos + found
                && state.View() == old(state.View()).(entries := old(state.View()).entries + found)
                && ProbesCounted(old(result.tally), result.tally, |found|, |toProbe|)
    {
      ghost var before, tally := state.View(), result.tally;
      ghost var found, asked: nat, hits: nat := map[], 0, 0;
      var pending := toProbe.Keys;
      probed := infos;
      NothingProbed(pl, toProbe, infos, before.entries);
      NotTouched(before, pl);
      while pending != {}
        invariant old(cancel.flag) ==> cancel.flag
        invariant Underway(pl, toProbe, pending, found, hits, asked)
        invariant Tended(before, state.View(), pl)
        invariant probed == infos + found
        invariant state.View() == before.(entries := before.entries + found)
        invariant ProbesCounted(tally, result.tally, hits, asked)
        decreases |pending|
      {
        var f :| f in pending;
        FoundStep(pl, toProbe, pending, found, hits, asked, f, infos, before.entries);
        ghost var mid := state.View();
        var stop;
        stop, probed := ProbeNext(toProbe, f, probed, result, tally, hits, asked);
        TendedOn(before, mid, state.View(), pl);
        if stop {
          return;
        }
        pending, found := pending - {f}, WithProbe(pl, toProbe, found, f);
        hits, asked := hits + (if Answers(pl, toProbe, f) then 1 else 0), asked + 1;
      }
      AllProbed(pl, toProbe, found, hits, asked);
    }

    // -------------------------------------------------------------- phase 3: links

    method SidecarsFor(m: Path, sidecars: map<Path, seq<Path>>, ghost files: seq<Path>) returns (found: seq<Path>)
      requires m != [] && Grouped(pl, sidecars, files)
      ensures Distinct(found) && forall s :: s in found <==> s in files && IsSidecarOf(pl, s, m)
    {
      found := [];
      var siblings := Siblings(sidecars, m);
      var prefix := Stem(pl, m) + ".";
      ghost var companions := Companions(pl, sidecars, m);
      for i := 0 to |siblings|
        invariant AreFilesAmong(found, siblings[..i], companions)
      {
        NextSibling(pl, sidecars, files, m, found, i);
        if prefix <= Name(siblings[i]) {
          found := found + [siblings[i]];
        }
      }
      AllSiblings(pl, sidecars, files, m, found);
    }

    /** Counts one attempt at a link. */
    method CountLink(r: Ensured, source: Path, dest: Path, result: ScanResult)
      requires |result.tally.changes| <= MAX_RECORDED_CHANGES
      modifies result
      ensures |result.tally.changes| <= MAX_RECORDED_CHANGES
      ensures OneCounted(old(result.tally), result.tally, r, LogEntry(dest, source, r))
    {
      assert result.tally.changes + [] == result.tally.changes;
      match r
      case Changed =>
        result.tally := result.tally.(created := result.tally.created + 1);
        result.RecordChange(Created(dest, source));
      case Unchanged =>
        result.tally := result.tally.(unaltered := result.tally.unaltered + 1);
      case Error =>
        result.tally := result.tally.(errors := result.tally.errors + 1);
    }

    /** Makes one link and counts it. */
    method LinkOne(source: Path, dest: Path, result: ScanResult, ghost at: Course) returns (ghost now: Course)
      requires Valid() && dest in at.start.wanted && dest != [] && Normal(dest)
      requires at.start.wanted[dest] == LinkTarget(source, dest, pl.relative)
      requires LinkingOn(at.start, disk.tree, result.tally, at.trail, symlinks.dryRun, at.calm)
      modifies disk, result
      ensures Valid() && disk.faults >= old(disk.faults)
      ensures symlinks.dryRun ==> disk.faults == old(disk.faults)
      ensures LinkingOn(now.start, disk.tree, result.tally, now.trail, symlinks.dryRun, now.calm)
      ensures now == at.(trail := now.trail, calm := at.calm && disk.faults == old(disk.faults))
      ensures now.trail.made.Keys == at.trail.made.Keys + {dest}
      ensures now.trail.tries == at.trail.tries + multiset{dest}
    {
      ghost var u, raw := disk.tree, at.start.wanted[dest];
      var r := symlinks.EnsureLink(source, dest, pl.relative);
      ghost var next, calm := NextTrail(at.trail, dest, raw, source, r, disk.tree), at.calm
        && disk.faults == old(disk.faults);
      FollowingStep(at.start.tree, at.start.wanted, u, disk.tree, at.trail, symlinks.dryRun, calm, dest, source, r);
      ghost var mid := result.tally;
      CountLink(r, source, dest, result);
      CountedStep(at.start.tally, mid, result.tally, at.trail, dest, raw, source, r, disk.tree);
      now := at.(trail := next, calm := calm);
    }

    /** Links the sources of one media file and adds their destinations to the expected ones. */
    method LinkSources(o: Output, sources: seq<Path>, expected: set<Path>, result: ScanResult, ghost at: Course)
      returns (more: set<Path>, ghost now: Course)
      requires Valid() && WantedHere(pl, o, at.start.wanted, sources) && Distinct(sources)
      requires LinkingOn(at.start, disk.tree, result.tally, at.trail, symlinks.dryRun, at.calm)
      requires at.trail.made.Keys == expected
      modifies disk, result
      ensures Valid() && disk.faults >= old(disk.faults)
      ensures symlinks.dryRun ==> disk.faults == old(disk.faults)
      ensures LinkingOn(now.start, disk.tree, result.tally, now.trail, symlinks.dryRun, now.calm)
      ensures now == at.(trail := now.trail, calm := at.calm && disk.faults == old(disk.faults))
      ensures more == expected + Dests(pl, o, Elements(sources)) && now.trail.made.Keys == more
      ensures now.trail.tries == at.trail.tries + multiset(Dests(pl, o, Elements(sources)))
    {
      more, now := expected, at;
      NoSourceDone(pl, o, at.start.wanted, sources, at.trail);
      for i := 0 to |sources|
        invariant Valid() && disk.faults >= old(disk.faults) && (symlinks.dryRun ==> disk.faults == old(disk.faults))
        invariant now == at.(trail := now.trail, calm := at.calm && disk.faults == old(disk.faults))
        invariant LinkingOn(now.start, disk.tree, result.tally, now.trail, symlinks.dryRun, now.calm)
        invariant SourcesDone(pl, o, sources, i, expected, at.trail.tries, more, now.trail)
      {
        var source := sources[i];
        assert HasLink(pl, o, at.start.wanted, source);
        var dest := DestOf(pl.input, o.path, source);
        ghost var before := now.trail;
        now := LinkOne(source, dest, result, now);
        OneMoreSourceDone(pl, o, sources, i, expected, at.trail.tries, more, before, now.trail);
        more := more + {dest};
      }
      AllSourcesDone(pl, o, sources, expected, at.trail.tries, more, now.trail);
    }

    /** Decides about one media file: links it, leaves it out, or keeps what links it has. */
    method LinkMedia(o: Output, m: Path, finds: Finds, expected: set<Path>, preserve: set<Path>, result: ScanResult,
                     ghost at: Course, ghost done: set<Path>)
      returns (more: set<Path>, kept: set<Path>, ghost now: Course)
      requires Valid() && Grouped(pl, finds.sidecars, at.files) && InInput(pl, Elements(at.files))
      requires m in at.files && m != [] && Passes(pl, m)
      requires m in finds.infos && Wants(o, finds.infos[m]) ==>
               forall s :: s in Sources(pl, Elements(at.files), m) ==> HasLink(pl, o, at.start.wanted, s)
      requires LinkingOn(at.start, disk.tree, result.tally, at.trail, symlinks.dryRun, at.calm)
      requires Decided(pl, o, Elements(at.files), finds.infos, done, expected, preserve)
      requires at.trail.made.Keys == expected
      modifies disk, result
      ensures Valid() && disk.faults >= old(disk.faults)
      ensures symlinks.dryRun ==> disk.faults == old(disk.faults)
      ensures LinkingOn(now.start, disk.tree, result.tally, now.trail, symlinks.dryRun, now.calm)
      ensures now == at.(trail := now.trail, calm := at.calm && disk.faults == old(disk.faults))
      ensures Decided(pl, o, Elements(at.files), finds.infos, done + {m}, more, kept) && now.trail.made.Keys == more
      ensures now.trail.tries == at.trail.tries + multiset(AskedBy(pl, o, Elements(at.files), finds.infos, m))
    {
      more, kept, now := expected, preserve, at;
      var companions := SidecarsFor(m, finds.sidecars, at.files);
      var sources := [m] + companions;
      DecidedStep(pl, o, at.files, finds.infos, done, expected, preserve, m, sources);
      if m !in finds.infos {
        kept := preserve + Dests(pl, o, Elements(sources));
        return;
      }
      if !Wants(o, finds.infos[m]) {
        return;
      }
      more, now := LinkSources(o, sources, expected, result, at);
    }

    /** The next media file, as one of all. */
    method LinkNext(o: Output, finds: Finds, i: nat, expected: set<Path>, preserve: set<Path>, result: ScanResult,
                    ghost at: Course, ghost job: Job)
      returns (more: set<Path>, kept: set<Path>, ghost now: Course)
      requires Valid() && Prepared(pl, finds.media, finds.sidecars, at.files) && Normal(o.path) && i < |finds.media|
      requires job == JobOf(pl, o, Elements(at.files), finds.infos) && at.start.wanted == job.wanted
      requires LinkingOn(at.start, disk.tree, result.tally, at.trail, symlinks.dryRun, at.calm)
      requires MediaDone(pl, o, finds.media, at.files, finds.infos, i, expected, preserve, at.trail)
      modifies disk, result
      ensures Valid() && disk.faults >= old(disk.faults)
      ensures symlinks.dryRun ==> disk.faults == old(disk.faults)
      ensures LinkingOn(now.start, disk.tree, result.tally, now.trail, symlinks.dryRun, now.calm)
      ensures now == at.(trail := now.trail, calm := at.calm && disk.faults == old(disk.faults))
      ensures MediaDone(pl, o, finds.media, at.files, finds.infos, i + 1, more, kept, now.trail)
    {
      NextMedia(pl, o, finds.media, at.files, finds.infos, job, i);
      more, kept, now :=
        LinkMedia(o, finds.media[i], finds, expected, preserve, result, at, Elements(finds.media[..i]));
      OneMoreMediaDone(pl, o, finds.media, at.files, finds.infos, i, expected, preserve, at.trail, more, kept,
                       now.trail);
    }

    /** All media files, one after the other. */
    method LinkMediaFiles(o: Output, finds: Finds, result: ScanResult, ghost at: Course, ghost job: Job)
      returns (expected: set<Path>, preserve: set<Path>, ghost now: Course)
      requires Valid() && Prepared(pl, finds.media, finds.sidecars, at.files) && Normal(o.path)
      requires job == JobOf(pl, o, Elements(at.files), finds.infos) && at.start.wanted == job.wanted
      requires LinkingOn(at.start, disk.tree, result.tally, at.trail, symlinks.dryRun, at.calm)
      requires at.trail == NO_LINKS_YET
      modifies disk, result
      ensures Valid() && disk.faults >= old(disk.faults)
      ensures symlinks.dryRun ==> disk.faults == old(disk.faults)
      ensures LinkingOn(now.start, disk.tree, result.tally, now.trail, symlinks.dryRun, now.calm)
      ensures now == at.(trail := now.trail, calm := at.calm && disk.faults == old(disk.faults))
      ensures MediaDone(pl, o, finds.media, at.files, finds.infos, |finds.media|, expected, preserve, now.trail)
    {
      expected, preserve, now := {}, {}, at;
      NoMediaDone(pl, o, finds.media, at.files, finds.infos);
      for i := 0 to |finds.media|
        invariant Valid() && disk.faults >= old(disk.faults) && (symlinks.dryRun ==> disk.faults == old(disk.faults))
        invariant now == at.(trail := now.trail, calm := at.calm && disk.faults == old(disk.faults))
        invariant LinkingOn(now.start, disk.tree, result.tally, now.trail, symlinks.dryRun, now.calm)
        invariant MediaDone(pl, o, finds.media, at.files, finds.infos, i, expected, preserve, now.trail)
      {
        expected, preserve, now := LinkNext(o, finds, i, expected, preserve, result, now, job);
      }
    }

    /** Counts the links the output is to hold. */
    method CountExpected(o: Output, finds: Finds, expected: set<Path>, preserve: set<Path>, result: ScanResult,
                         ghost files: seq<Path>, ghost job: Job, ghost at: Course)
      requires Prepared(pl, finds.media, finds.sidecars, files) && job == JobOf(pl, o, Elements(files), finds.infos)
      requires MediaDone(pl, o, finds.media, files, finds.infos, |finds.media|, expected, preserve, at.trail)
      requires LinkingOn(at.start, disk.tree, result.tally, at.trail, symlinks.dryRun, at.calm)
      requires at.start.wanted == job.wanted
      modifies result
      ensures expected == job.wanted.Keys && preserve == job.preserve
      ensures LinkingDone(at.start, disk.tree, result.tally, at.trail, job, symlinks.dryRun, at.calm)
      ensures symlinks.dryRun && at.calm ==>
                ReportedAsAsked(pl, o, Elements(files), finds.infos,
                                Outdated(at.start.tree, Feasible(at.start.tree, job.wanted)), at.trail.log)
    {
      ghost var tally := result.tally;
      result.tally := result.tally.(links := result.tally.links[o.path := |expected|]);
      LinkingEnds(pl, o, finds, files, job, expected, preserve, disk.tree, tally, at, symlinks.dryRun);
    }

    /** Links everything an output wants. files: all files of the library, media first looked up and probed. A dry run
        reports an outdated link once for each media file that asks for it. */
    method LinkAll(o: Output, finds: Finds, result: ScanResult, ghost files: seq<Path>, ghost job: Job)
      returns (expected: set<Path>, preserve: set<Path>, ghost now: Course)
      requires Valid() && Prepared(pl, finds.media, finds.sidecars, files) && Normal(o.path)
      requires job == JobOf(pl, o, Elements(files), finds.infos) && |result.tally.changes| <= MAX_RECORDED_CHANGES
      modifies disk, result
      ensures Valid() && disk.faults >= old(disk.faults)
      ensures symlinks.dryRun ==> disk.faults == old(disk.faults)
      ensures expected == job.wanted.Keys && preserve == job.preserve
      ensures now.start == Start(old(result.tally), old(disk.tree), job.wanted)
      ensures now.calm == (Makeable(old(disk.tree), job.wanted) && disk.faults == old(disk.faults))
      ensures LinkingDone(now.start, disk.tree, result.tally, now.trail, job, symlinks.dryRun, now.calm)
      ensures symlinks.dryRun && now.calm ==>
                ReportedAsAsked(pl, o, Elements(files), finds.infos,
                                Outdated(now.start.tree, Feasible(now.start.tree, job.wanted)), now.trail.log)
    {
      ghost var at := CourseStarts(files, Start(result.tally, disk.tree, job.wanted), symlinks.dryRun);
      expected, preserve, now := LinkMediaFiles(o, finds, result, at, job);
      CountExpected(o, finds, expected, preserve, result, files, job, now);
    }

    method RecordRemovals(removed: seq<Path>, result: ScanResult)
      requires |result.tally.changes| <= MAX_RECORDED_CHANGES
      modifies result
      ensures result.tally == old(result.tally).(changes := Capped(old(result.tally).changes + RemovedLog(removed)))
    {
      ghost var a := result.tally;
      assert a.changes + [] == a.changes;
      for i := 0 to |removed|
        invariant result.tally == a.(changes := Capped(a.changes + RemovedLog(removed[..i])))
      {
        RemovedLogStep(a.changes, removed, i);
        result.RecordChange(Removed(removed[i]));
      }
      assert removed[..|removed|] == removed;
    }

    method CountRemovals(o: Output, removed: seq<Path>, blocked: bool, made: bool, result: ScanResult)
      requires |result.tally.changes| <= MAX_RECORDED_CHANGES
      modifies result
      ensures RemovalsCounted(old(result.tally), result.tally, RemovedLog(removed), blocked, made, o.path)
    {
      RecordRemovals(removed, result);
      result.tally := result.tally.(removed := result.tally.removed + |removed|);
      if blocked {
        result.tally := result.tally.(blocked := result.tally.blocked + 1);
      }
      if removed != [] || made {
        result.tally := result.tally.(changedOutputs := result.tally.changedOutputs + {o.path});
      }
    }

    method PlanAndRemove(o: Output, expected: set<Path>, preserve: set<Path>, made: bool, result: ScanResult,
                         ghost job: Job)
      returns (ghost step: Step, ghost log: seq<Change>)
      requires Valid() && expected + preserve == job.Keep() && JobFits(pl, o, job)
      requires |result.tally.changes| <= MAX_RECORDED_CHANGES
      modifies disk, result
      ensures Valid() && disk.faults >= old(disk.faults)
      ensures symlinks.dryRun ==> disk.faults == old(disk.faults)
      ensures |result.tally.changes| <= MAX_RECORDED_CHANGES
      ensures RemovalsCounted(old(result.tally), result.tally, log, Blocked(old(disk.tree), job), made, o.path)
      ensures RemovalDone(old(disk.tree), disk.tree, job, step, log, symlinks.dryRun, disk.faults == old(disk.faults))
    {
      ghost var t := disk.tree;
      var plan := symlinks.PlanRemovals(o.path, expected, pl.input, preserve);
      var blocked := !pl.force && pl.guard.Some? && pl.guard.value.Blocks(|plan.removals|, plan.existing);
      assert blocked == Blocked(t, job);
      if blocked {
        NothingRemoved(t, o.path, pl.input);
        step, log := Step(Act.Remove(o.path, Condemned(t, job), pl.input), t), [];
        CountRemovals(o, [], true, made, result);
        return;
      }
      PlannedAreLinks(t, plan.removals, job);
      var removed := symlinks.ApplyRemovals(o.path, plan.removals);
      RemovedIsReported(plan.removals);
      RemovedOnce(removed);
      if !symlinks.dryRun {
        RemovedTimes(removed, LostLinks(t, disk.tree));
      }
      step, log := Step(Act.Remove(o.path, Condemned(t, job), pl.input), disk.tree), RemovedLog(removed);
      CountRemovals(o, removed, false, made, result);
    }

    /** Removes what is neither expected nor to be preserved, unless the guard objects: beyond both of its limits
        nothing goes, within one of them all that is condemned goes if nothing fails. made: links were made before. */
    method RemoveUnwanted(o: Output, expected: set<Path>, preserve: set<Path>, made: bool, result: ScanResult,
                          ghost job: Job)
      returns (ghost step: Step, ghost log: seq<Change>)
      requires Valid() && expected + preserve == job.Keep() && JobFits(pl, o, job)
      requires |result.tally.changes| <= MAX_RECORDED_CHANGES
      modifies disk, result
      ensures Valid() && disk.faults >= old(disk.faults)
      ensures symlinks.dryRun ==> disk.faults == old(disk.faults)
      ensures |result.tally.changes| <= MAX_RECORDED_CHANGES
      ensures RemovalsCounted(old(result.tally), result.tally, log, Blocked(old(disk.tree), job), made, o.path)
      ensures RemovalDone(old(disk.tree), disk.tree, job, step, log, symlinks.dryRun, disk.faults == old(disk.faults))
      ensures GuardHeeded(pl, old(disk.tree), disk.tree, job, result.tally.blocked - old(result.tally).blocked,
                          symlinks.dryRun, disk.faults == old(disk.faults))
    {
      ghost var t := disk.tree;
      step, log := PlanAndRemove(o, expected, preserve, made, result, job);
      GuardIsHeeded(t, disk.tree, pl, o, job, step, log, symlinks.dryRun, disk.faults == old(disk.faults));
    }

    /** Phase 3 for one output: whatever fails, only steps allowed to a run are taken, nothing goes if the guard
        refuses, and all is reported; if nothing fails, the tree becomes what the job makes of it. A dry run changes
        nothing and reports what it finds without having changed anything. */
    method ReconcileOutput(o: Output, finds: Finds, result: ScanResult, ghost files: seq<Path>, ghost job: Job)
      returns (ghost steps: seq<Step>, ghost report: Report)
      requires Valid() && Prepared(pl, finds.media, finds.sidecars, files) && Normal(o.path)
      requires job == JobOf(pl, o, Elements(files), finds.infos) && |result.tally.changes| <= MAX_RECORDED_CHANGES
      modifies disk, result
      ensures Valid() && |result.tally.changes| <= MAX_RECORDED_CHANGES
      ensures OutputRun(old(disk.tree), steps, disk.tree, job, report, symlinks.dryRun)
      ensures disk.faults == old(disk.faults) + report.faults
              && result.tally == Merged(old(result.tally), TallyOf(report))
      ensures symlinks.dryRun && report.faults == 0 && Makeable(old(disk.tree), job.wanted) ==>
                ReportedAsAsked(pl, o, Elements(files), finds.infos,
                                Outdated(old(disk.tree), Feasible(old(disk.tree), job.wanted)), report.created)
    {
      var createdBefore := result.tally.created;
      var expected, preserve;
      ghost var now, step, removed;
      expected, preserve, now := LinkAll(o, finds, result, files, job);
      ghost var linked, b, faults := disk.tree, result.tally, disk.faults;
      step, removed := RemoveUnwanted(o, expected, preserve, result.tally.created > createdBefore, result, job);
      ghost var failed := disk.faults - old(disk.faults);
      steps, report := OutputFinished(now.start, linked, b, disk.tree, result.tally, job, now.trail, step, removed,
                                      symlinks.dryRun, now.calm, disk.faults == faults, failed);
    }

    /** The next output, as one of all. */
    method ReconcileNext(k: nat, finds: Finds, result: ScanResult, ghost files: seq<Path>, ghost phase: Phase,
                         ghost done: Progress)
      returns (ghost next: Progress)
      requires Valid() && Prepared(pl, finds.media, finds.sidecars, files) && k < |pl.outputs|
      requires forall o :: o in pl.outputs ==> Normal(o.path)
      requires phase.jobs == JobsFrom(pl, Elements(files), finds.infos)
      requires PhaseOn(pl, Elements(files), finds.infos, phase, disk.tree, result.tally, k, done, symlinks.dryRun)
      modifies disk, result
      ensures Valid() && disk.faults == old(disk.faults) + FaultsIn(next.reports) - FaultsIn(done.reports)
      ensures PhaseOn(pl, Elements(files), finds.infos, phase, disk.tree, result.tally, k + 1, next, symlinks.dryRun)
    {
      ghost var u, b, job := disk.tree, result.tally, phase.jobs[k];
      ghost var steps, report;
      steps, report := ReconcileOutput(pl.outputs[k], finds, result, files, job);
      PhaseStep(pl, Elements(files), finds.infos, phase, u, disk.tree, b, result.tally, k, done, steps, report,
                symlinks.dryRun);
      FaultsStep(done.reports, report);
      next := NextProgress(done, steps, report);
    }

    /** Phase 3: reconciles the outputs one after the other. */
    method ReconcileOutputs(finds: Finds, result: ScanResult, ghost files: seq<Path>, ghost jobs: seq<Job>)
      returns (ghost done: Progress)
      requires Valid() && Prepared(pl, finds.media, finds.sidecars, files)
      requires forall o :: o in pl.outputs ==> Normal(o.path)
      requires jobs == JobsFrom(pl, Elements(files), finds.infos) && |result.tally.changes| <= MAX_RECORDED_CHANGES
      modifies disk, result
      ensures Valid() && disk.faults == old(disk.faults) + FaultsIn(done.reports)
      ensures PhaseOn(pl, Elements(files), finds.infos, Phase(old(result.tally), old(disk.tree), jobs), disk.tree,
                      result.tally, |jobs|, done, symlinks.dryRun)
    {
      ghost var faults, phase := disk.faults, Phase(result.tally, disk.tree, jobs);
      done := Progress([], []);
      PhaseStarts(pl, Elements(files), finds.infos, phase, symlinks.dryRun);
      for k := 0 to |pl.outputs|
        invariant Valid() && disk.faults == faults + FaultsIn(done.reports)
        invariant PhaseOn(pl, Elements(files), finds.infos, phase, disk.tree, result.tally, k, done, symlinks.dryRun)
      {
        done := ReconcileNext(k, finds, result, files, phase, done);
      }
    }

    // -------------------------------------------------------------- the whole library

    /** Phases 1 and 2. unread: the media files whose stat failed. */
    method Gather(files: seq<Path>, result: ScanResult) returns (finds: Finds, ghost unread: set<Path>)
      requires Valid() && Distinct(files) && Elements(files) == FilesOf(disk.tree, pl)
      modifies disk`faults, state, cancel, result
      ensures Tended(old(state.View()), state.View(), pl) && (old(cancel.flag) ==> cancel.flag)
      ensures OnlyFiles(old(result.tally), result.tally) && disk.faults == old(disk.faults) + |unread|
      ensures Prepared(pl, finds.media, finds.sidecars, files)
      ensures !cancel.flag ==>
                && Gathered(old(state.View()), disk.tree, pl, finds.infos, unread)
                && CacheLearned(old(state.View()), state.View(), disk.tree, pl, unread)
                && FilesCounted(old(result.tally), result.tally, FilesOf(disk.tree, pl),
                                Media(pl, FilesOf(disk.tree, pl)), finds.infos,
                                KnownFiles(old(state.View()), disk.tree, pl, unread))
    {
      ghost var t, a := disk.tree, result.tally;
      ghost var stats := StatsOf(t, FilesOf(t, pl));
      FilesAreReported(t, pl, files);
      FilesAreNormal(t, pl);
      ghost var before := state.View();
      var s;
      s, unread := LookUp(files, result, stats);
      ghost var b, mid := result.tally, state.View();
      MediaInInput(before, t, pl, files, s, unread);
      var infos := ProbeAll(s.toProbe, s.infos, result);
      TendedOn(before, mid, state.View(), pl);
      if !cancel.flag {
        ProbedIsGathered(before, t, pl, files, s, unread);
        LearnedByProbing(before, mid, state.View(), t, pl, files, s, unread);
        AllFilesCounted(before, a, b, result.tally, stats, pl, files, s, unread);
      }
      finds := Finds(s.media, infos, s.sidecars);
    }

    /** Phase 3 of a scan. m: the cache before the scan. */
    method LinkOutputs(files: seq<Path>, finds: Finds, result: ScanResult, ghost m: Memory, ghost unread: set<Path>)
      returns (ghost scan: Scan)
      requires Valid() && forall o :: o in pl.outputs ==> Normal(o.path)
      requires Elements(files) == FilesOf(disk.tree, pl) && Prepared(pl, finds.media, finds.sidecars, files)
      requires Gathered(m, disk.tree, pl, finds.infos, unread) && |result.tally.changes| <= MAX_RECORDED_CHANGES
      modifies disk, result
      ensures Valid() && disk.faults == old(disk.faults) + FaultsIn(scan.reports)
      ensures |result.tally.changes| <= MAX_RECORDED_CHANGES && scan.known == m && scan.unread == unread
      ensures ScanLinked(old(disk.tree), disk.tree, pl, scan, old(result.tally), result.tally, symlinks.dryRun)
    {
      ghost var t, a, jobs := disk.tree, result.tally, JobsFrom(pl, Elements(files), finds.infos);
      ghost var done;
      done := ReconcileOutputs(finds, result, files, jobs);
      scan := Scan(Complete, m, unread, jobs, done.steps, done.reports);
      PhaseIsOver(pl, Elements(files), finds.infos, t, a, jobs, disk.tree, result.tally, done, symlinks.dryRun, m,
                  unread);
    }

    /** Phases 3 and 4: reconciles the outputs and forgets the cache entries of vanished files. */
    method LinkAndForget(files: seq<Path>, finds: Finds, result: ScanResult, ghost m: Memory, ghost unread: set<Path>)
      returns (ghost scan: Scan)
      requires Valid() && forall o :: o in pl.outputs ==> Normal(o.path)
      requires Elements(files) == FilesOf(disk.tree, pl) && Prepared(pl, finds.media, finds.sidecars, files)
      requires Gathered(m, disk.tree, pl, finds.infos, unread) && |result.tally.changes| <= MAX_RECORDED_CHANGES
      modifies disk, state, result
      ensures Valid() && Tended(old(state.View()), state.View(), pl)
      ensures CacheLearned(m, old(state.View()), old(disk.tree), pl, unread) ==>
                CacheKept(m, state.View(), old(disk.tree), pl, unread)
      ensures disk.faults == old(disk.faults) + FaultsIn(scan.reports)
      ensures |result.tally.changes| <= MAX_RECORDED_CHANGES && scan.known == m && scan.unread == unread
      ensures ScanLinked(old(disk.tree), disk.tree, pl, scan, old(result.tally), result.tally, symlinks.dryRun)
    {
      ghost var t := disk.tree;
      scan := LinkOutputs(files, finds, result, m, unread);
      ForgetVanished(files, m, t, unread);
    }

    /** Phase 4. t: the tree in which the files were found. */
    method ForgetVanished(files: seq<Path>, ghost m: Memory, ghost t: Tree, ghost unread: set<Path>)
      requires Elements(files) == FilesOf(t, pl)
      modifies state
      ensures Tended(old(state.View()), state.View(), pl)
      ensures CacheLearned(m, old(state.View()), t, pl, unread) ==> CacheKept(m, state.View(), t, pl, unread)
    {
      PruneTends(state.View(), pl, Elements(files));
      KeptByPruning(m, state.View(), t, pl, unread);
      var pruned := state.Prune(pl.input, Elements(files));
    }

    /** A full scan of the library. If the cache is coherent, it cannot be noticed: it shows neither in the jobs nor in
        what becomes of the tree. */
    method ProcessLibrary() returns (result: ScanResult, ghost scan: Scan)
      requires Valid() && forall o :: o in pl.outputs ==> Normal(o.path)
      modifies disk, state, cancel
      ensures fresh(result) && Valid() && disk.faults == old(disk.faults) + ScanFaults(scan)
      ensures Tended(old(state.View()), state.View(), pl) && scan.known == old(state.View())
      ensures |result.tally.changes| <= MAX_RECORDED_CHANGES
      ensures (old(cancel.flag) ==> cancel.flag && !scan.stage.Complete?) && (scan.stage.Cancelled? ==> cancel.flag)
      ensures ScanIsSound(old(disk.tree), disk.tree, pl, scan, result.tally, symlinks.dryRun)
      ensures ScanIsSmooth(old(disk.tree), disk.tree, pl, scan, symlinks.dryRun)
      ensures scan.stage.Unusable? ==> state.View() == old(state.View())
      ensures scan.stage.Complete? ==>
                CacheKept(old(state.View()), state.View(), old(disk.tree), pl, scan.unread)
    {
      result := new ScanResult();
      ghost var t, m := disk.tree, state.View();
      NotTouched(m, pl);
      var files := DiscoverFiles();
      FilesAsSet(files, FilesOf(t, pl));
      var usable := InputIsUsable(files != []);
      if !usable {
        result.tally := result.tally.(errors := result.tally.errors + 1);
        scan := Scan(Unusable, m, {}, [], [], []);
        return;
      }
      var finds;
      ghost var unread;
      finds, unread := Gather(files, result);
      ghost var mid := state.View();
      var stop := cancel.IsSet();
      if stop {
        scan := Scan(Cancelled, m, unread, [], [], []);
        return;
      }
      ghost var a := result.tally;
      scan := LinkAndForget(files, finds, result, m, unread);
      ScanAddsUp(t, pl, finds.infos, a, result.tally, scan);
      TendedOn(m, mid, state.View(), pl);
      SmoothScan(t, disk.tree, pl, scan, a, result.tally, symlinks.dryRun);
    }

    method HasEntries() returns (r: bool)
      requires Valid()
      ensures r <==> HoldsEntries(disk.tree, pl.input)
    {
      if !IsDir(disk.tree, pl.input) {
        return false;
      }
      var entries := disk.ListDir(pl.input);
      assert entries != [] ==> entries[0] in entries;
      return entries != [];
    }

    /** Cleans the next output. calm: nothing has failed. */
    method CleanNext(i: nat, ghost t: Tree, ghost steps: seq<Step>, total: nat, ghost calm: bool)
      returns (sum: nat, ghost next: seq<Step>)
      requires Valid() && i < |pl.outputs| && Cleaned(t, disk.tree, pl, i, steps, total, symlinks.dryRun, calm)
      modifies disk
      ensures Valid() && disk.faults >= old(disk.faults)
      ensures Cleaned(t, disk.tree, pl, i + 1, next, sum, symlinks.dryRun, calm && disk.faults == old(disk.faults))
    {
      var o := pl.outputs[i];
      ghost var u := disk.tree;
      var removed := symlinks.CleanStale(o.path);
      CleanStep(t, u, disk.tree, pl, i, steps, total, removed, symlinks.dryRun, calm, disk.faults == old(disk.faults));
      sum, next := total + removed, steps + [CleaningStep(u, pl, o, disk.tree)];
    }

    /** The clean command: removes broken links, unless the input looks unmounted. Here any directory entry counts as a
        file. */
    method CleanLibrary() returns (total: nat, ghost steps: seq<Step>)
      requires Valid()
      modifies disk
      ensures Valid() && disk.faults >= old(disk.faults)
      ensures var t := old(disk.tree);
              if Usable(t, pl, HoldsEntries(t, pl.input))
              then Cleaned(t, disk.tree, pl, |pl.outputs|, steps, total, symlinks.dryRun,
                           disk.faults == old(disk.faults))
              else disk.tree == t && total == 0 && steps == []
    {
      ghost var t, faults := disk.tree, disk.faults;
      total, steps := 0, [];
      var hasFiles := HasEntries();
      var usable := InputIsUsable(hasFiles);
      if !usable {
        return;
      }
      NothingCleaned(t, pl, symlinks.dryRun);
      for i := 0 to |pl.outputs|
        invariant Valid() && disk.faults >= faults
        invariant Cleaned(t, disk.tree, pl, i, steps, total, symlinks.dryRun, disk.faults == faults)
      {
        total, steps := CleanNext(i, t, steps, total, disk.faults == faults);
      }
    }
  }

  // ---------------------------------------------------------------- the whole library

  datatype Stage = NotSetUp | Unusable | Cancelled | Complete

  /** How far a scan went, what the cache held before it, and what it did; NotSetUp: the pipeline could not be set
      up. */
  datatype Scan = Scan(stage: Stage, known: Memory, unread: set<Path>, jobs: seq<Job>, steps: seq<Step>,
                       reports: seq<Report>)

  /** What a complete scan knows of the media files it could read. */
  function ScanInfos(t: Tree, pl: Pipeline, scan: Scan): map<Path, MediaInfo> {
    InfosLearned(scan.known, pl, StatsOf(t, FilesOf(t, pl)), Media(pl, FilesOf(t, pl)) - scan.unread)
  }

  /** The media files that could be read and that the cache knew. */
  function KnownFiles(m: Memory, t: Tree, pl: Pipeline, unread: set<Path>): set<Path> {
    KnownOf(m, StatsOf(t, FilesOf(t, pl)), Media(pl, FilesOf(t, pl)) - unread)
  }

  /** The jobs are those determined by the tree, the configuration and what the cache held. */
  ghost predicate ScanJobs(t: Tree, pl: Pipeline, scan: Scan) {
    scan.stage.Complete? ==> scan.jobs == JobsFrom(pl, FilesOf(t, pl), ScanInfos(t, pl, scan))
  }

  /** Every file has been counted once, and so has every attempt at a link. */
  ghost predicate ScanCounted(t: Tree, pl: Pipeline, scan: Scan, tally: Tally) {
    var files, media, infos := FilesOf(t, pl), Media(pl, FilesOf(t, pl)), ScanInfos(t, pl, scan);
    var known := KnownFiles(scan.known, t, pl, scan.unread);
    && tally == Merged(EMPTY_TALLY.(filtered := |files - media|, skipped := |known|, probed := |infos.Keys - known|,
                                    errors := |media - infos.Keys|),
                       Sum(scan.reports))
    && |scan.reports| == |scan.jobs| && AllFor(scan.reports, scan.jobs)
    && |scan.steps| == AllAttempts(scan.reports) + |scan.jobs|
  }

  /** Nothing has failed: if all links could be made, the tree is what the jobs make of it and all reports are true. */
  ghost predicate WentWell(t: Tree, u: Tree, scan: Scan, dryRun: bool) {
    AllLinkable(t, scan.jobs, dryRun) ==>
      && |scan.reports| == |scan.jobs|
      && u == OverAt(t, scan.jobs, |scan.jobs|, dryRun)
      && AllTrue(t, scan.jobs, scan.reports, dryRun)
  }

  /** The outputs have been reconciled. Whatever failed, only steps that serve the jobs were taken, they are reported,
      and what the reports come to has been counted. */
  ghost predicate ScanLinked(t: Tree, u: Tree, pl: Pipeline, scan: Scan, a: Tally, b: Tally, dryRun: bool) {
    && scan.stage.Complete? && ScanJobs(t, pl, scan) && (dryRun ==> u == t)
    && Reaches(t, scan.steps, u) && AllServe(scan.steps, scan.jobs)
    && |scan.reports| == |scan.jobs| && AllFor(scan.reports, scan.jobs)
    && |scan.steps| == AllAttempts(scan.reports) + |scan.jobs| && b == Merged(a, Sum(scan.reports))
    && AllToldTruly(t, scan.steps, scan.jobs, scan.reports, dryRun)
    && Chained(t, scan.steps, u, scan.jobs, scan.reports, dryRun) && AllAsAsked(t, pl, scan, dryRun)
  }

  /** A dry run reports every link once but for shared sidecars. */
  ghost predicate AllAsAsked(t: Tree, pl: Pipeline, scan: Scan, dryRun: bool) {
    dryRun ==> AllReportedAsAsked(t, pl, FilesOf(t, pl), ScanInfos(t, pl, scan), scan.jobs, scan.reports)
  }

  /** How many operations have failed: setting the pipeline up, stats, and operations on links and directories. */
  function ScanFaults(scan: Scan): nat {
    (if scan.stage.NotSetUp? then 1 else 0) + |scan.unread| + FaultsIn(scan.reports)
  }

  lemma PhaseIsOver(pl: Pipeline, files: set<Path>, infos: map<Path, MediaInfo>, t: Tree, a: Tally, jobs: seq<Job>,
                    u: Tree, b: Tally, done: Progress, dryRun: bool, m: Memory, unread: set<Path>)
    requires files == FilesOf(t, pl) && Gathered(m, t, pl, infos, unread) && jobs == JobsFrom(pl, files, infos)
    requires PhaseOn(pl, files, infos, Phase(a, t, jobs), u, b, |jobs|, done, dryRun)
    ensures ScanLinked(t, u, pl, Scan(Complete, m, unread, jobs, done.steps, done.reports), a, b, dryRun)
  {
    ChainServes(t, done.steps, u, jobs, done.reports, dryRun);
  }

  /** Whatever fails: a library that cannot be scanned is an error, a scan that is not completed leaves the tree alone
      and reports no change, as does a dry run; a complete one takes only steps that serve its jobs, counts everything
      once and reports what it has done. */
  ghost predicate ScanIsSound(t: Tree, u: Tree, pl: Pipeline, scan: Scan, tally: Tally, dryRun: bool) {
    && (scan.stage.Unusable? <==> !IsUsable(t, pl)) && ScanJobs(t, pl, scan)
    && match scan.stage
       case NotSetUp => false
       case Unusable => tally == EMPTY_TALLY.(errors := 1) && u == t && scan.steps == [] && scan.jobs == []
         && scan.reports == []
       case Cancelled => OnlyFiles(EMPTY_TALLY, tally) && u == t && scan.steps == [] && scan.jobs == []
         && scan.reports == []
       case Complete =>
         && ScanCounted(t, pl, scan, tally) && (dryRun ==> u == t)
         && Reaches(t, scan.steps, u) && AllServe(scan.steps, scan.jobs)
         && AllToldTruly(t, scan.steps, scan.jobs, scan.reports, dryRun)
         && Chained(t, scan.steps, u, scan.jobs, scan.reports, dryRun)
  }

  /** If all media files could be read and the cache was coherent, the jobs are those determined by tree and
      configuration alone; if no operation on the outputs has failed, the jobs have gone well. A dry run reports every
      link once but for shared sidecars. */
  ghost predicate ScanIsSmooth(t: Tree, u: Tree, pl: Pipeline, scan: Scan, dryRun: bool) {
    scan.stage.Complete? ==>
      && (scan.unread == {} && Coherent(scan.known, pl) ==> scan.jobs == JobsOf(t, pl))
      && (FaultsIn(scan.reports) == 0 ==> WentWell(t, u, scan, dryRun))
      && AllAsAsked(t, pl, scan, dryRun)
  }

  lemma SmoothScan(t: Tree, u: Tree, pl: Pipeline, scan: Scan, a: Tally, b: Tally, dryRun: bool)
    requires ScanLinked(t, u, pl, scan, a, b, dryRun)
    ensures ScanIsSmooth(t, u, pl, scan, dryRun)
  {
    if scan.unread == {} {
      AllRead(t, pl, scan);
    }
    if FaultsIn(scan.reports) == 0 && AllLinkable(t, scan.jobs, dryRun) {
      ChainIsTrue(t, scan.steps, u, scan.jobs, scan.reports, dryRun);
    }
  }

  lemma AllRead(t: Tree, pl: Pipeline, scan: Scan)
    requires scan.stage.Complete? && scan.unread == {} && ScanJobs(t, pl, scan)
    ensures Coherent(scan.known, pl) ==> scan.jobs == JobsOf(t, pl)
  {
    var files := FilesOf(t, pl);
    assert Media(pl, files) - {} == Media(pl, files);
    if Coherent(scan.known, pl) {
      CacheIsUnseen(scan.known, pl, StatsOf(t, files), Media(pl, files));
    }
  }

  lemma ScanAddsUp(t: Tree, pl: Pipeline, infos: map<Path, MediaInfo>, a: Tally, b: Tally, scan: Scan)
    requires FilesCounted(EMPTY_TALLY, a, FilesOf(t, pl), Media(pl, FilesOf(t, pl)), infos,
                          KnownFiles(scan.known, t, pl, scan.unread))
             && infos == ScanInfos(t, pl, scan)
    requires b == Merged(a, Sum(scan.reports)) && |scan.steps| == AllAttempts(scan.reports) + |scan.jobs|
    requires |scan.reports| == |scan.jobs| && AllFor(scan.reports, scan.jobs)
    ensures ScanCounted(t, pl, scan, b)
  {}

  /** All that has been counted of files and links. */
  function Handled(tally: Tally): nat {
    tally.filtered + tally.skipped + tally.probed + tally.created + tally.unaltered + tally.errors
  }

  /** Nothing is lost: the counters of a complete scan add up to the files found and the links attempted. */
  lemma NothingIsLost(t: Tree, pl: Pipeline, scan: Scan, tally: Tally)
    requires ScanCounted(t, pl, scan, tally)
    ensures Handled(tally) == |FilesOf(t, pl)| + AllAttempts(scan.reports) && tally.removed == Sum(scan.reports).removed
  {
    AttemptsAreCounted(scan.reports);
    FilesAddUp(t, pl, scan);
  }

  lemma FilesAddUp(t: Tree, pl: Pipeline, scan: Scan)
    ensures var files, media, infos := FilesOf(t, pl), Media(pl, FilesOf(t, pl)), ScanInfos(t, pl, scan);
            var known := KnownFiles(scan.known, t, pl, scan.unread);
            |files - media| + |known| + |infos.Keys - known| + |media - infos.Keys| == |files|
  {
    var files, media, infos := FilesOf(t, pl), Media(pl, FilesOf(t, pl)), ScanInfos(t, pl, scan);
    Halves(files, media);
    Halves(media, infos.Keys);
    Halves(infos.Keys, KnownFiles(scan.known, t, pl, scan.unread));
  }

  lemma Halves(whole: set<Path>, part: set<Path>)
    requires part <= whole
    ensures |whole| == |whole - part| + |part|
  {
    assert whole == (whole - part) + part;
  }

  // ---------------------------------------------------------------- cleaning

  ghost predicate HoldsEntries(t: Tree, dir: Path) {
    IsDir(t, dir) && exists p :: p in t && p != [] && Parent(p) == dir
  }

  /** The sweep of one output: its broken links, and directories. */
  ghost function CleaningStep(t: Tree, pl: Pipeline, o: Output, u: Tree): Step {
    Step(Act.Remove(o.path, BrokenLinks(t, o.path), pl.input), u)
  }

  /** Every step removes nothing but links that are broken when it begins, and directories. */
  ghost predicate OnlyBroken(t: Tree, pl: Pipeline, steps: seq<Step>)
    decreases |steps|
  {
    steps != [] ==>
      && (exists o :: o in pl.outputs && steps[0] == CleaningStep(t, pl, o, steps[0].after))
      && OnlyBroken(steps[0].after, pl, steps[1..])
  }

  lemma {:induction false} OneMoreCleaning(t: Tree, pl: Pipeline, steps: seq<Step>, u: Tree, o: Output, v: Tree)
    requires Reaches(t, steps, u) && OnlyBroken(t, pl, steps) && o in pl.outputs
    ensures OnlyBroken(t, pl, steps + [CleaningStep(u, pl, o, v)])
    decreases |steps|
  {
    var more := steps + [CleaningStep(u, pl, o, v)];
    if steps == [] {
      assert more[1..] == [] && OnlyBroken(v, pl, more[1..]);
    } else {
      assert more[0] == steps[0] && more[1..] == steps[1..] + [CleaningStep(u, pl, o, v)];
      OneMoreCleaning(steps[0].after, pl, steps[1..], u, o, v);
    }
  }

  /** Every output, in turn, without its broken links and empty directories. */
  ghost function CleanedAll(t: Tree, outputs: seq<Output>): Tree {
    if outputs == [] then t
    else
      var u, o := CleanedAll(t, outputs[..|outputs| - 1]), outputs[|outputs| - 1];
      Pruned(u - BrokenLinks(u, o.path), o.path)
  }

  /** The broken links found when the outputs are cleaned in turn; a dry run finds every output as it was. */
  ghost function BrokenCount(t: Tree, outputs: seq<Output>, dryRun: bool): nat {
    if outputs == [] then 0
    else
      var front, o := outputs[..|outputs| - 1], outputs[|outputs| - 1];
      BrokenCount(t, front, dryRun) + |BrokenLinks(if dryRun then t else CleanedAll(t, front), o.path)|
  }

  /** The first n outputs are clean, and exactly the links that have gone are counted, whatever failed. calm: nothing
      has failed. */
  ghost predicate Cleaned(t: Tree, u: Tree, pl: Pipeline, n: nat, steps: seq<Step>, total: nat, dryRun: bool,
                          calm: bool)
  {
    && (dryRun ==> u == t) && Reaches(t, steps, u) && OnlyBroken(t, pl, steps) && n <= |pl.outputs|
    && (!dryRun ==> total == |DeedsOf(t, steps).removed|)
    && (calm ==> (dryRun || u == CleanedAll(t, pl.outputs[..n])) && total == BrokenCount(t, pl.outputs[..n], dryRun))
  }

  lemma NothingCleaned(t: Tree, pl: Pipeline, dryRun: bool)
    ensures Cleaned(t, t, pl, 0, [], 0, dryRun, true)
  {}

  /** What CleanStale says of one output. */
  ghost predicate OutputCleaned(u: Tree, v: Tree, o: Path, removed: nat, dryRun: bool, calm: bool) {
    var broken := BrokenLinks(u, o);
    && RemovalStep(u, v, o, broken) && (dryRun ==> v == u) && (!dryRun ==> removed == |LostLinks(u, v)|)
    && (calm ==> removed == |broken| && (dryRun || v == Pruned(u - broken, o)))
  }

  lemma CleanReaches(t: Tree, steps: seq<Step>, u: Tree, pl: Pipeline, o: Output, v: Tree)
    requires Reaches(t, steps, u) && RemovalStep(u, v, o.path, BrokenLinks(u, o.path))
    ensures Reaches(t, steps + [CleaningStep(u, pl, o, v)], v)
  {
    var act := Act.Remove(o.path, BrokenLinks(u, o.path), pl.input);
    OneStep(u, v, act);
    ReachesOn(t, steps, u, [Step(act, v)], v);
  }

  lemma CleanedOneMore(t: Tree, u: Tree, v: Tree, outputs: seq<Output>, i: nat, total: nat, removed: nat, dryRun: bool)
    requires i < |outputs| && (dryRun ==> u == t) && OutputCleaned(u, v, outputs[i].path, removed, dryRun, true)
    requires (dryRun || u == CleanedAll(t, outputs[..i])) && total == BrokenCount(t, outputs[..i], dryRun)
    ensures dryRun || v == CleanedAll(t, outputs[..i + 1])
    ensures total + removed == BrokenCount(t, outputs[..i + 1], dryRun)
  {
    assert outputs[..i + 1][..i] == outputs[..i];
  }

  lemma CleanStep(t: Tree, u: Tree, v: Tree, pl: Pipeline, i: nat, steps: seq<Step>, total: nat, removed: nat,
                  dryRun: bool, before: bool, here: bool)
    requires i < |pl.outputs| && Cleaned(t, u, pl, i, steps, total, dryRun, before)
    requires OutputCleaned(u, v, pl.outputs[i].path, removed, dryRun, here)
    ensures Cleaned(t, v, pl, i + 1, steps + [CleaningStep(u, pl, pl.outputs[i], v)], total + removed, dryRun,
                    before && here)
  {
    var o := pl.outputs[i];
    CleanReaches(t, steps, u, pl, o, v);
    assert o in pl.outputs;
    OneMoreCleaning(t, pl, steps, u, o, v);
    LostByOne(t, steps, u, CleaningStep(u, pl, o, v));
    if before && here {
      CleanedOneMore(t, u, v, pl.outputs, i, total, removed, dryRun);
    }
  }

  lemma {:induction false} LiveLinkSurvivesClean(first: Tree, t: Tree, pl: Pipeline, steps: seq<Step>, u: Tree,
                                                 outs: set<Path>, p: Path)
    requires Drift(first, t, outs) && Same(first, t, p) && (forall o :: o in pl.outputs ==> o.path in outs)
    requires Reaches(t, steps, u) && OnlyBroken(t, pl, steps)
    requires p != [] && ProperName(Name(p)) && IsLink(first, p) && Live(first, p) && LeadsAway(first, p, outs)
    ensures Same(first, u, p)
    decreases |steps|
  {
    if steps != [] {
      var next := steps[0].after;
      var o :| o in pl.outputs && steps[0] == CleaningStep(t, pl, o, next);
      LiveUnderDrift(first, t, p, outs);
      assert RemovalStepAt(t, next, o.path, BrokenLinks(t, o.path), p);
      ConfinedStepDrifts(t, next, steps[0].act, outs);
      DriftTransitive(first, t, next, outs);
      LiveLinkSurvivesClean(first, next, pl, steps[1..], u, outs, p);
    }
  }

  /** Whatever fails, no clean deletes or alters a live link that leads out of the outputs, not even one of Boomarr's
      own. */
  lemma LiveLinksSurviveClean(t: Tree, pl: Pipeline, steps: seq<Step>, u: Tree, outs: set<Path>, p: Path)
    requires Reaches(t, steps, u) && OnlyBroken(t, pl, steps) && forall o :: o in pl.outputs ==> o.path in outs
    requires p != [] && ProperName(Name(p)) && IsLink(t, p) && Live(t, p) && LeadsAway(t, p, outs)
    ensures Same(t, u, p)
  {
    LiveLinkSurvivesClean(t, t, pl, steps, u, outs, p);
  }
}
