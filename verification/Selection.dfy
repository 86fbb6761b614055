/** Which files of a library a scan finds, and what it wants to link for them. */
module Selection {
  import opened Paths
  import opened Trees
  import opened Reconcile
  import opened FileSystem
  import opened Models
  import opened State

  /** A symlink library: its directory, and whether all its filters match a probed file. */
  datatype Output = Output(path: Path, wants: MediaInfo -> bool)

  /** Everything a scan of one library is configured with. The probers, filters and ignore patterns are functions:
      whatever they are, they answer alike when asked alike. */
  datatype Pipeline = Pipeline(
    input: Path,
    outputs: seq<Output>,
    ignored: string -> bool,
    passes: Path -> bool,
    isSidecar: string -> bool,
    stem: string -> string,
    probers: seq<(Path, nat, int) -> Option<Tracks>>,
    relative: bool,
    guard: Option<Guard>,
    force: bool)

  predicate Ignored(pl: Pipeline, name: string) {
    pl.ignored(name)
  }

  /** All pre-probe filters match: the file is a media file. */
  predicate Passes(pl: Pipeline, f: Path) {
    pl.passes(f)
  }

  /** A file some media file may claim as its sidecar. */
  predicate IsSidecar(pl: Pipeline, s: Path) {
    s != [] && !pl.passes(s) && pl.isSidecar(Name(s))
  }

  function Stem(pl: Pipeline, f: Path): string
    requires f != []
  {
    pl.stem(Name(f))
  }

  predicate Wants(o: Output, info: MediaInfo) {
    o.wants(info)
  }

  // ---------------------------------------------------------------- files

  /** A file the walk of the input comes across. */
  predicate FoundAt(t: Tree, pl: Pipeline, f: Path) {
    f != [] && Walked(t, pl.input, pl.ignored, Parent(f)) && !Ignored(pl, Name(f)) && IsFile(t, f)
  }

  function FilesOf(t: Tree, pl: Pipeline): (files: set<Path>)
    ensures InInput(pl, files)
  {
    var files := set f | f in t && FoundAt(t, pl, f);
    assert InInput(pl, files) by {
      forall f | f in files ensures Below(f, pl.input) { assert pl.input <= Parent(f) < f; }
    }
    files
  }

  /** What a stat reports of a file. */
  datatype FileStat = FileStat(size: nat, mtime: int)

  function StatOf(t: Tree, f: Path): FileStat
    requires IsFile(t, f)
  {
    var node := t[Follow(t, Parent(f), [Name(f)], MAX_LINKS).value];
    FileStat(node.size, node.mtime)
  }

  function StatsOf(t: Tree, files: set<Path>): map<Path, FileStat> {
    map f | f in files && IsFile(t, f) :: StatOf(t, f)
  }

  /** Prober i answers, and none before it does. */
  ghost predicate AnswersFirst(probers: seq<(Path, nat, int) -> Option<Tracks>>, i: int, f: Path, size: nat, mtime: int)
  {
    && 0 <= i < |probers| && probers[i](f, size, mtime).Some?
    && forall j :: 0 <= j < i ==> probers[j](f, size, mtime).None?
  }

  lemma {:induction false} AskFinds(probers: seq<(Path, nat, int) -> Option<Tracks>>, i: nat, f: Path, size: nat,
                                    mtime: int)
    requires AnswersFirst(probers, i, f, size, mtime)
    ensures Ask(probers, f, size, mtime) == probers[i](f, size, mtime)
    decreases i
  {
    if i > 0 {
      assert forall j :: 0 <= j < i ==> probers[1..][j] == probers[j + 1];
      AskFinds(probers[1..], i - 1, f, size, mtime);
    }
  }

  lemma {:induction false} AskFindsOne(probers: seq<(Path, nat, int) -> Option<Tracks>>, f: Path, size: nat, mtime: int)
      returns (i: nat)
    ensures Ask(probers, f, size, mtime).Some? ==> AnswersFirst(probers, i, f, size, mtime)
    ensures Ask(probers, f, size, mtime).None? ==>
              forall j :: 0 <= j < |probers| ==> probers[j](f, size, mtime).None?
    decreases |probers|
  {
    i := 0;
    if probers != [] && probers[0](f, size, mtime).None? {
      var k := AskFindsOne(probers[1..], f, size, mtime);
      i := k + 1;
      forall j | 0 < j < |probers| ensures probers[j] == probers[1..][j - 1] {}
    }
  }

  /** What the chain says is what the first prober says that has an answer; it says nothing exactly if none has one. */
  lemma AskIsFirst(probers: seq<(Path, nat, int) -> Option<Tracks>>, f: Path, size: nat, mtime: int)
    ensures forall i :: AnswersFirst(probers, i, f, size, mtime) ==>
              Ask(probers, f, size, mtime) == probers[i](f, size, mtime)
    ensures Ask(probers, f, size, mtime).Some? <==> exists i :: AnswersFirst(probers, i, f, size, mtime)
    ensures Ask(probers, f, size, mtime).None? <==>
            forall i :: 0 <= i < |probers| ==> probers[i](f, size, mtime).None?
  {
    forall i | AnswersFirst(probers, i, f, size, mtime)
      ensures Ask(probers, f, size, mtime) == probers[i](f, size, mtime)
    {
      AskFinds(probers, i, f, size, mtime);
    }
    var k := AskFindsOne(probers, f, size, mtime);
  }

  /** The first answer of a chain of probers. */
  function Ask(probers: seq<(Path, nat, int) -> Option<Tracks>>, f: Path, size: nat, mtime: int): Option<Tracks> {
    if probers == [] then None
    else if probers[0](f, size, mtime).Some? then probers[0](f, size, mtime)
    else Ask(probers[1..], f, size, mtime)
  }

  /** What the probers say about a file of this size and time. */
  function Answer(pl: Pipeline, f: Path, stat: FileStat): Option<MediaInfo> {
    var tracks := Ask(pl.probers, f, stat.size, stat.mtime);
    if tracks.Some? then Some(MediaInfo(f, stat.size, stat.mtime, tracks.value)) else None
  }

  /** What probing the given files yields; files that cannot be probed are missing. */
  function InfosOf(pl: Pipeline, stats: map<Path, FileStat>, files: set<Path>): map<Path, MediaInfo> {
    map f | f in files && f in stats && Answer(pl, f, stats[f]).Some? :: Answer(pl, f, stats[f]).value
  }

  /** What a scan learns of a file of this size and time: what the cache holds, or else what the probers say. */
  function Learned(m: Memory, pl: Pipeline, f: Path, stat: FileStat): Option<MediaInfo> {
    var cached := Found(m, f, stat.size, stat.mtime);
    if cached.Some? then cached else Answer(pl, f, stat)
  }

  function InfosLearned(m: Memory, pl: Pipeline, stats: map<Path, FileStat>, files: set<Path>): map<Path, MediaInfo> {
    map f | f in files && f in stats && Learned(m, pl, f, stats[f]).Some? :: Learned(m, pl, f, stats[f]).value
  }

  /** About the files of the library, the cache holds only what its probers would say. */
  ghost predicate Coherent(m: Memory, pl: Pipeline) {
    forall f :: f in m.entries && Within(f, pl.input) ==> Truthful(m.entries[f], pl, f)
  }

  predicate Truthful(e: MediaInfo, pl: Pipeline, f: Path) {
    Answer(pl, f, FileStat(e.size, e.mtime)) == Some(e)
  }

  /** With a coherent cache, whether an info came from the cache or from the probers cannot be told. */
  lemma CacheIsUnseen(m: Memory, pl: Pipeline, stats: map<Path, FileStat>, files: set<Path>)
    requires Coherent(m, pl) && forall f :: f in files ==> Within(f, pl.input)
    ensures InfosLearned(m, pl, stats, files) == InfosOf(pl, stats, files)
  {
    forall f | f in files && f in stats ensures Learned(m, pl, f, stats[f]) == Answer(pl, f, stats[f]) {
      if f in m.entries {
        assert Truthful(m.entries[f], pl, f);
      }
    }
  }

  function Entry(m: Memory, f: Path): Option<MediaInfo> {
    if f in m.entries then Some(m.entries[f]) else None
  }

  /** What the cache holds about files of the library is what it held, or what the probers say now; about files
      elsewhere it holds what it held. */
  ghost predicate Tended(before: Memory, after: Memory, pl: Pipeline) {
    && (forall f :: !Within(f, pl.input) ==> SameEntry(before, after, f))
    && (forall f :: f in after.entries && Within(f, pl.input) ==>
          SameEntry(before, after, f) || Truthful(after.entries[f], pl, f))
  }

  predicate SameEntry(a: Memory, b: Memory, f: Path) {
    if f in a.entries then f in b.entries && a.entries[f] == b.entries[f] else f !in b.entries
  }

  lemma TendedOn(a: Memory, b: Memory, c: Memory, pl: Pipeline)
    requires Tended(a, b, pl) && Tended(b, c, pl)
    ensures Tended(a, c, pl)
  {
    forall f
      ensures !Within(f, pl.input) ==> SameEntry(a, c, f)
      ensures f in c.entries && Within(f, pl.input) ==> SameEntry(a, c, f) || Truthful(c.entries[f], pl, f)
    {
      if Within(f, pl.input) && SameEntry(b, c, f) && f in c.entries {
        assert SameEntry(a, b, f) || Truthful(b.entries[f], pl, f);
      }
    }
  }

  lemma NotTouched(m: Memory, pl: Pipeline)
    ensures Tended(m, m, pl)
  {}

  /** Nothing but the entry of f has changed. */
  ghost predicate OnlyEntry(before: Memory, after: Memory, f: Path) {
    forall g :: g != f ==> SameEntry(before, after, g)
  }

  /** A lookup forgets at most the entry it asks for. */
  lemma GetTends(m: Memory, pl: Pipeline, f: Path, size: nat, mtime: int)
    requires Within(f, pl.input)
    ensures Tended(m, AfterGet(m, f, size, mtime), pl) && OnlyEntry(m, AfterGet(m, f, size, mtime), f)
  {}

  lemma PutTends(m: Memory, pl: Pipeline, f: Path, stat: FileStat)
    requires Within(f, pl.input) && Answer(pl, f, stat).Some?
    ensures Tended(m, AfterPut(m, Answer(pl, f, stat).value), pl)
  {
    var info := Answer(pl, f, stat).value;
    assert Truthful(info, pl, f);
    forall g | g != f ensures SameEntry(m, AfterPut(m, info), g) {}
  }

  /** Pruning forgets the entries below the root that are not kept, and touches no others. */
  lemma PruneTends(m: Memory, pl: Pipeline, keep: set<Path>)
    ensures Tended(m, AfterPrune(m, pl.input, keep), pl)
    ensures forall f ::
            if Within(f, pl.input) && f !in keep then f !in AfterPrune(m, pl.input, keep).entries
            else SameEntry(m, AfterPrune(m, pl.input, keep), f)
  {}

  // ---------------------------------------------------------------- wanted links

  function Media(pl: Pipeline, files: set<Path>): set<Path> {
    set f | f in files && Passes(pl, f)
  }

  predicate IsSidecarOf(pl: Pipeline, s: Path, m: Path) {
    m != [] && IsSidecar(pl, s) && Parent(s) == Parent(m) && Stem(pl, m) + "." <= Name(s)
  }

  /** A media file and its sidecars. */
  function Sources(pl: Pipeline, files: set<Path>, m: Path): set<Path> {
    {m} + set s | s in files && IsSidecarOf(pl, s, m)
  }

  /** The destination that mirrors the place of a source. */
  function DestOf(input: Path, output: Path, source: Path): (dest: Path)
    requires Within(source, input)
    ensures output <= dest && dest[|output|..] == source[|input|..]
  {
    output + source[|input|..]
  }

  function SourceOf(input: Path, output: Path, dest: Path): Path
    requires output <= dest
  {
    input + dest[|output|..]
  }

  lemma DestAndBack(input: Path, output: Path, source: Path)
    requires Within(source, input)
    ensures SourceOf(input, output, DestOf(input, output, source)) == source
  {}

  function Dests(pl: Pipeline, o: Output, sources: set<Path>): set<Path>
    requires forall s :: s in sources ==> Within(s, pl.input)
  {
    set s | s in sources :: DestOf(pl.input, o.path, s)
  }

  /** The sources, among those of the given media files, that the output wants. */
  function WantedSources(pl: Pipeline, o: Output, files: set<Path>, infos: map<Path, MediaInfo>,
                         media: set<Path>): set<Path>
  {
    set m, s | m in media && m in infos && Wants(o, infos[m]) && s in Sources(pl, files, m) :: s
  }

  /** The sources of media files that could not be probed: whatever links they have are kept. */
  function KeptSources(pl: Pipeline, files: set<Path>, infos: map<Path, MediaInfo>, media: set<Path>): set<Path> {
    set m, s | m in media && m !in infos && s in Sources(pl, files, m) :: s
  }

  predicate InInput(pl: Pipeline, files: set<Path>) {
    forall f :: f in files ==> Below(f, pl.input)
  }

  /** Every destination the library could ever use in an output. */
  function LinksFor(pl: Pipeline, o: Output, sources: set<Path>): Wanted
    requires forall s :: s in sources ==> Within(s, pl.input)
  {
    map d | d in Dests(pl, o, sources) :: LinkTarget(SourceOf(pl.input, o.path, d), d, pl.relative)
  }

  lemma SourcesInInput(pl: Pipeline, o: Output, files: set<Path>, infos: map<Path, MediaInfo>, media: set<Path>)
    requires InInput(pl, files) && media <= files
    ensures WantedSources(pl, o, files, infos, media) <= files && KeptSources(pl, files, infos, media) <= files
  {}

  /** The job writes to the output and answers for the input; only a forced scan ignores the guard. */
  predicate JobFits(pl: Pipeline, o: Output, job: Job) {
    job.output == o.path && job.root == pl.input && job.guard == if pl.force then None else pl.guard
  }

  /** What reconciling one output comes down to. */
  function JobOf(pl: Pipeline, o: Output, files: set<Path>, infos: map<Path, MediaInfo>): (job: Job)
    requires InInput(pl, files)
    ensures JobFits(pl, o, job)
  {
    SourcesInInput(pl, o, files, infos, Media(pl, files));
    Job(
      o.path,
      LinksFor(pl, o, WantedSources(pl, o, files, infos, Media(pl, files))),
      Dests(pl, o, KeptSources(pl, files, infos, Media(pl, files))),
      pl.input,
      if pl.force then None else pl.guard)
  }

  function JobsFrom(pl: Pipeline, files: set<Path>, infos: map<Path, MediaInfo>): seq<Job>
    requires InInput(pl, files)
  {
    seq(|pl.outputs|, i requires 0 <= i < |pl.outputs| => JobOf(pl, pl.outputs[i], files, infos))
  }

  /** The jobs of a library, as determined by the tree and the configuration alone: no cache, no history. */
  function JobsOf(t: Tree, pl: Pipeline): seq<Job> {
    var files := FilesOf(t, pl);
    JobsFrom(pl, files, InfosOf(pl, StatsOf(t, files), Media(pl, files)))
  }

  // ---------------------------------------------------------------- one media file more

  lemma WantedStep(pl: Pipeline, o: Output, files: set<Path>, infos: map<Path, MediaInfo>, media: set<Path>, m: Path)
    ensures WantedSources(pl, o, files, infos, media + {m}) ==
            WantedSources(pl, o, files, infos, media) + if m in infos && Wants(o, infos[m]) then Sources(pl, files, m)
              else {}
    ensures KeptSources(pl, files, infos, media + {m}) ==
            KeptSources(pl, files, infos, media) + if m in infos then {} else Sources(pl, files, m)
  {}

  lemma DestsStep(pl: Pipeline, o: Output, a: set<Path>, b: set<Path>)
    requires forall s :: s in a + b ==> Within(s, pl.input)
    ensures Dests(pl, o, a + b) == Dests(pl, o, a) + Dests(pl, o, b)
  {}

  // ---------------------------------------------------------------- when the wanted links are clear

  /** Nothing but a link sits at the destination, nothing but directories above it, nothing at its temporary name. */
  ghost predicate Unobstructed(t: Tree, d: Path)
    requires d != []
  {
    && (d in t ==> t[d].Link?)
    && (forall a :: a < d && a in t ==> t[a].Dir?)
    && TmpOf(d) !in t
  }

  /** No path below the input contains the temporary name of another file. */
  ghost predicate NoTmpClash(pl: Pipeline, files: set<Path>) {
    forall f, g :: f in files && g in files && f != [] ==> !(TmpOf(f) <= g)
  }

  lemma FilesArePrefixFree(t: Tree, pl: Pipeline, f: Path, g: Path)
    requires WellFormed(t) && f in FilesOf(t, pl) && g in FilesOf(t, pl)
    ensures !(f < g)
  {
    if f < g {
      AncestorsAreDirs(t, g, f);
      EntryTouches(t, f);
      assert false;
    }
  }

  /** Mirroring keeps the order of paths, and temporary names. */
  lemma MirrorIsFaithful(input: Path, output: Path, f: Path, g: Path)
    requires Below(f, input) && Below(g, input)
    ensures DestOf(input, output, f) < DestOf(input, output, g) <==> f < g
    ensures DestOf(input, output, f) != [] && TmpOf(DestOf(input, output, f)) == DestOf(input, output, TmpOf(f))
    ensures TmpOf(DestOf(input, output, f)) <= DestOf(input, output, g) <==> TmpOf(f) <= g
  {
    var df, dg := DestOf(input, output, f), DestOf(input, output, g);
    assert f == input + df[|output|..] && g == input + dg[|output|..];
    assert Name(df) == Name(f) && Parent(df) == output + Parent(f)[|input|..];
    MirrorPrefix(input, output, f[|input|..], g[|input|..]);
    var tmp := TmpOf(f);
    assert input <= Parent(f) <= tmp;
    assert TmpOf(df) == output + tmp[|input|..];
    assert tmp == input + tmp[|input|..];
    MirrorPrefix(input, output, tmp[|input|..], g[|input|..]);
  }

  lemma MirrorPrefix(input: Path, output: Path, a: Path, b: Path)
    ensures output + a <= output + b <==> a <= b
    ensures input + a <= input + b <==> a <= b
  {
    AppendPrefix(output, a, b);
    AppendPrefix(input, a, b);
  }

  lemma AppendPrefix(base: Path, a: Path, b: Path)
    ensures base + a <= base + b <==> a <= b
  {
    if |a| <= |b| {
      assert (base + b)[..|base + a|] == base + b[..|a|];
      if base + a <= base + b {
        assert a == (base + a)[|base|..] == (base + b[..|a|])[|base|..] == b[..|a|];
      }
    }
  }

  lemma MirroredApart(t: Tree, pl: Pipeline, output: Path, f: Path, g: Path)
    requires WellFormed(t) && NoTmpClash(pl, FilesOf(t, pl)) && f in FilesOf(t, pl) && g in FilesOf(t, pl)
    ensures var d, e := DestOf(pl.input, output, f), DestOf(pl.input, output, g);
            d != [] && !(d < e) && !(TmpOf(d) <= e)
  {
    FilesArePrefixFree(t, pl, f, g);
    MirrorIsFaithful(pl.input, output, f, g);
  }

  lemma MirroredIsNormal(t: Tree, pl: Pipeline, output: Path, f: Path)
    requires WellFormed(t) && Normal(output) && f in FilesOf(t, pl)
    ensures Normal(DestOf(pl.input, output, f)) && Below(DestOf(pl.input, output, f), output)
  {
    assert Below(f, pl.input) && Normal(f);
  }

  ghost predicate Unrelated(d: Path, e: Path) {
    d != [] && !(d < e) && !(TmpOf(d) <= e)
  }

  lemma ClearFromParts(t: Tree, wanted: Wanted)
    requires forall d :: d in wanted ==> d != [] && Normal(d) && Unobstructed(t, d)
    requires forall d, e :: d in wanted && e in wanted ==> Unrelated(d, e)
    ensures Clear(t, wanted)
  {
    forall d, e | d in wanted && e in wanted ensures !(d < e) && !(TmpOf(d) <= e) { assert Unrelated(d, e); }
  }

  lemma WantedHasSource(pl: Pipeline, o: Output, files: set<Path>, infos: map<Path, MediaInfo>, d: Path)
    requires InInput(pl, files) && d in JobOf(pl, o, files, infos).wanted
    ensures exists f :: f in files && d == DestOf(pl.input, o.path, f)
  {
    var sources := WantedSources(pl, o, files, infos, Media(pl, files));
    SourcesInInput(pl, o, files, infos, Media(pl, files));
    var f :| f in sources && d == DestOf(pl.input, o.path, f);
  }

  /** The links of a library never get in each other's way: what a scan assumes comes down to an output directory
      without obstructions and files without temporary names. */
  lemma WantedIsClear(t: Tree, pl: Pipeline, o: Output, infos: map<Path, MediaInfo>)
    requires WellFormed(t) && Normal(o.path) && NoTmpClash(pl, FilesOf(t, pl))
    requires forall d :: d in JobOf(pl, o, FilesOf(t, pl), infos).wanted && d != [] ==> Unobstructed(t, d)
    ensures Clear(t, JobOf(pl, o, FilesOf(t, pl), infos).wanted) && Proper(JobOf(pl, o, FilesOf(t, pl), infos))
  {
    var files := FilesOf(t, pl);
    var wanted := JobOf(pl, o, files, infos).wanted;
    forall d | d in wanted
      ensures d != [] && Normal(d) && Below(d, o.path)
    {
      WantedHasSource(pl, o, files, infos, d);
      var f :| f in files && d == DestOf(pl.input, o.path, f);
      MirroredIsNormal(t, pl, o.path, f);
    }
    forall d, e | d in wanted && e in wanted
      ensures Unrelated(d, e)
    {
      WantedHasSource(pl, o, files, infos, d);
      WantedHasSource(pl, o, files, infos, e);
      var f :| f in files && d == DestOf(pl.input, o.path, f);
      var g :| g in files && e == DestOf(pl.input, o.path, g);
      MirroredApart(t, pl, o.path, f, g);
    }
    ClearFromParts(t, wanted);
  }
}
