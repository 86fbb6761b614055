/** What a scan is for, told file by file: which links an output is to hold, and where they lead afterwards. */
module Intent {
  import opened Paths
  import opened Trees
  import opened Reconcile
  import opened Models
  import opened Liveness
  import opened Selection
  import opened Gathering

  // ---------------------------------------------------------------- files

  /** A regular file in real directories from the input down, none of which, nor the file, has an ignored name. */
  ghost predicate Reachable(t: Tree, pl: Pipeline, f: Path) {
    && Below(f, pl.input) && f in t && IsFile(t, f)
    && (forall d :: pl.input <= d < f ==> IsDir(t, d))
    && (forall i :: |pl.input| <= i < |f| ==> !Ignored(pl, f[i]))
  }

  lemma FoundExactly(t: Tree, pl: Pipeline, f: Path)
    requires WellFormed(t)
    ensures f in FilesOf(t, pl) <==> Reachable(t, pl, f)
  {
    if f in FilesOf(t, pl) {
      FoundIsReachable(t, pl, f);
    }
  }

  lemma FoundIsReachable(t: Tree, pl: Pipeline, f: Path)
    requires WellFormed(t) && f in t && FoundAt(t, pl, f)
    ensures Reachable(t, pl, f)
  {
    assert f == Parent(f) + [Name(f)];
    forall d | pl.input <= d < f ensures IsDir(t, d) { AncestorsAreDirs(t, f, d); }
    forall i | |pl.input| <= i < |f| ensures !Ignored(pl, f[i]) {
      if i < |f| - 1 {
        assert f[i] == Parent(f)[i];
      }
    }
  }

  /** The size and time of a file are those of the file at the end of the links. */
  lemma StatAlongRoute(t: Tree, route: seq<Path>)
    requires WellFormed(t) && Route(t, route) && route[0] in t && Plain(t, route[|route| - 1]) && IsFile(t, route[0])
    ensures route[|route| - 1] in t
    ensures t[route[|route| - 1]] == File(StatOf(t, route[0]).size, StatOf(t, route[0]).mtime)
  {
    LiveAlongRoute(t, route);
    RouteLeads(t, route, MAX_LINKS);
    FromTheRoot(t, route[0], MAX_LINKS);
  }

  // ---------------------------------------------------------------- wishes

  /** Some prober knows the media file; what it says is what the first one says that does. */
  ghost predicate Probed(t: Tree, pl: Pipeline, m: Path, info: MediaInfo) {
    IsFile(t, m) &&
    var stat := StatOf(t, m);
    && info.filePath == m && info.size == stat.size && info.mtime == stat.mtime
    && exists i :: AnswersFirst(pl.probers, i, m, stat.size, stat.mtime)
                   && pl.probers[i](m, stat.size, stat.mtime) == Some(info.tracks)
  }

  ghost predicate IsMedia(t: Tree, pl: Pipeline, m: Path) {
    Reachable(t, pl, m) && Passes(pl, m)
  }

  /** The media file itself, or a file beside it, of a sidecar kind, whose name goes on after its stem and a dot. */
  ghost predicate Accompanies(t: Tree, pl: Pipeline, s: Path, m: Path) {
    s == m || (
      && Reachable(t, pl, s) && !Passes(pl, s) && pl.isSidecar(s[|s| - 1])
      && m != [] && s[..|s| - 1] == m[..|m| - 1] && Stem(pl, m) + "." <= s[|s| - 1])
  }

  /** The output is to hold a link to s: it wants s, or a media file that s belongs to. */
  ghost predicate Wished(t: Tree, pl: Pipeline, o: Output, s: Path) {
    exists m, info :: IsMedia(t, pl, m) && Probed(t, pl, m, info) && Wants(o, info) && Accompanies(t, pl, s, m)
  }

  /** Whatever link there is to s stays: s belongs to a media file that no prober knows. */
  ghost predicate Spared(t: Tree, pl: Pipeline, s: Path) {
    exists m :: IsMedia(t, pl, m) && (forall info :: !Probed(t, pl, m, info)) && Accompanies(t, pl, s, m)
  }

  ghost function Infos(t: Tree, pl: Pipeline): map<Path, MediaInfo> {
    InfosOf(pl, StatsOf(t, FilesOf(t, pl)), Media(pl, FilesOf(t, pl)))
  }

  lemma ProbedExactly(t: Tree, pl: Pipeline, m: Path)
    requires m in Media(pl, FilesOf(t, pl))
    ensures forall info :: Probed(t, pl, m, info) <==> m in Infos(t, pl) && info == Infos(t, pl)[m]
    ensures m in Infos(t, pl) <==> exists info :: Probed(t, pl, m, info)
  {
    var stat := StatOf(t, m);
    AskIsFirst(pl.probers, m, stat.size, stat.mtime);
    forall info ensures Probed(t, pl, m, info) <==> m in Infos(t, pl) && info == Infos(t, pl)[m] {
      if m in Infos(t, pl) && info == Infos(t, pl)[m] {
        var i :| AnswersFirst(pl.probers, i, m, stat.size, stat.mtime);
        assert pl.probers[i](m, stat.size, stat.mtime) == Some(info.tracks);
      }
    }
    if m in Infos(t, pl) {
      assert Probed(t, pl, m, Infos(t, pl)[m]);
    }
  }

  lemma MediaExactly(t: Tree, pl: Pipeline, m: Path)
    requires WellFormed(t)
    ensures m in Media(pl, FilesOf(t, pl)) <==> IsMedia(t, pl, m)
  {
    FoundExactly(t, pl, m);
  }

  lemma AccompaniesExactly(t: Tree, pl: Pipeline, s: Path, m: Path)
    requires WellFormed(t) && IsMedia(t, pl, m)
    ensures s in Sources(pl, FilesOf(t, pl), m) <==> Accompanies(t, pl, s, m)
  {
    FoundExactly(t, pl, s);
  }

  lemma BelongsExactly(t: Tree, pl: Pipeline, s: Path, m: Path)
    requires WellFormed(t)
    ensures m in Media(pl, FilesOf(t, pl)) && s in Sources(pl, FilesOf(t, pl), m) <==>
            IsMedia(t, pl, m) && Accompanies(t, pl, s, m)
  {
    MediaExactly(t, pl, m);
    if IsMedia(t, pl, m) {
      AccompaniesExactly(t, pl, s, m);
    }
  }

  lemma OnBehalfOf(pl: Pipeline, o: Output, files: set<Path>, infos: map<Path, MediaInfo>, media: set<Path>, s: Path)
      returns (m: Path)
    requires s in WantedSources(pl, o, files, infos, media)
    ensures m in media && m in infos && Wants(o, infos[m]) && s in Sources(pl, files, m)
  {
    m :| m in media && m in infos && Wants(o, infos[m]) && s in Sources(pl, files, m);
  }

  lemma WishedExactly(t: Tree, pl: Pipeline, o: Output, s: Path)
    requires WellFormed(t)
    ensures s in WantedSources(pl, o, FilesOf(t, pl), Infos(t, pl), Media(pl, FilesOf(t, pl))) <==> Wished(t, pl, o, s)
  {
    var files, infos := FilesOf(t, pl), Infos(t, pl);
    if s in WantedSources(pl, o, files, infos, Media(pl, files)) {
      var m := OnBehalfOf(pl, o, files, infos, Media(pl, files), s);
      BelongsExactly(t, pl, s, m);
      ProbedExactly(t, pl, m);
      assert Probed(t, pl, m, infos[m]);
    }
    if Wished(t, pl, o, s) {
      var m, info :| IsMedia(t, pl, m) && Probed(t, pl, m, info) && Wants(o, info) && Accompanies(t, pl, s, m);
      BelongsExactly(t, pl, s, m);
      ProbedExactly(t, pl, m);
    }
  }

  lemma SparedExactly(t: Tree, pl: Pipeline, s: Path)
    requires WellFormed(t)
    ensures s in KeptSources(pl, FilesOf(t, pl), Infos(t, pl), Media(pl, FilesOf(t, pl))) <==> Spared(t, pl, s)
  {
    var files, infos := FilesOf(t, pl), Infos(t, pl);
    if s in KeptSources(pl, files, infos, Media(pl, files)) {
      var m :| m in Media(pl, files) && m !in infos && s in Sources(pl, files, m);
      BelongsExactly(t, pl, s, m);
      ProbedExactly(t, pl, m);
    }
    if Spared(t, pl, s) {
      var m :| IsMedia(t, pl, m) && (forall info :: !Probed(t, pl, m, info)) && Accompanies(t, pl, s, m);
      BelongsExactly(t, pl, s, m);
      ProbedExactly(t, pl, m);
    }
  }

  lemma AmongDests(pl: Pipeline, o: Output, sources: set<Path>, s: Path)
    requires (forall q :: q in sources ==> Within(q, pl.input)) && Within(s, pl.input)
    ensures o.path + s[|pl.input|..] in Dests(pl, o, sources) <==> s in sources
  {
    if o.path + s[|pl.input|..] in Dests(pl, o, sources) {
      var q :| q in sources && DestOf(pl.input, o.path, q) == DestOf(pl.input, o.path, s);
      DestAndBack(pl.input, o.path, q);
      DestAndBack(pl.input, o.path, s);
    }
  }

  /** The place in the output that s has in the input. */
  function PlaceOf(pl: Pipeline, o: Output, s: Path): Path
    requires Within(s, pl.input)
  {
    o.path + s[|pl.input|..]
  }

  /** A job asks for exactly the links that are wished for, each at the place in the output that its source has in the
      input, and preserves exactly the places of what is spared. */
  lemma WishesExactly(t: Tree, pl: Pipeline, k: nat)
    requires WellFormed(t) && k < |pl.outputs|
    ensures var job, o := JobsOf(t, pl)[k], pl.outputs[k];
            && (forall s :: Below(s, pl.input) ==> (PlaceOf(pl, o, s) in job.wanted <==> Wished(t, pl, o, s)))
            && (forall s :: Below(s, pl.input) ==> (PlaceOf(pl, o, s) in job.preserve <==> Spared(t, pl, s)))
            && (forall d :: d in job.wanted ==> WishedAt(t, pl, o, d, job.wanted[d]))
            && (forall d :: d in job.preserve ==> SparedAt(t, pl, o, d))
            && job.output == o.path && job.root == pl.input && job.guard == if pl.force then None else pl.guard
  {
    var job, o := JobsOf(t, pl)[k], pl.outputs[k];
    forall s | Below(s, pl.input)
      ensures PlaceOf(pl, o, s) in job.wanted <==> Wished(t, pl, o, s)
      ensures PlaceOf(pl, o, s) in job.preserve <==> Spared(t, pl, s)
    {
      WishFor(t, pl, k, s);
    }
    forall d
      ensures d in job.wanted ==> WishedAt(t, pl, o, d, job.wanted[d])
      ensures d in job.preserve ==> SparedAt(t, pl, o, d)
    {
      WishAt(t, pl, k, d);
    }
  }

  lemma WishFor(t: Tree, pl: Pipeline, k: nat, s: Path)
    requires WellFormed(t) && k < |pl.outputs| && Below(s, pl.input)
    ensures var job, o := JobsOf(t, pl)[k], pl.outputs[k];
            && (PlaceOf(pl, o, s) in job.wanted <==> Wished(t, pl, o, s))
            && (PlaceOf(pl, o, s) in job.preserve <==> Spared(t, pl, s))
  {
    var files, o := FilesOf(t, pl), pl.outputs[k];
    SourcesInInput(pl, o, files, Infos(t, pl), Media(pl, files));
    AmongDests(pl, o, WantedSources(pl, o, files, Infos(t, pl), Media(pl, files)), s);
    AmongDests(pl, o, KeptSources(pl, files, Infos(t, pl), Media(pl, files)), s);
    WishedExactly(t, pl, o, s);
    SparedExactly(t, pl, s);
  }

  lemma SourceAt(pl: Pipeline, o: Output, sources: set<Path>, d: Path) returns (s: Path)
    requires (forall q :: q in sources ==> Within(q, pl.input)) && d in Dests(pl, o, sources)
    ensures s in sources && d == PlaceOf(pl, o, s) && SourceOf(pl.input, o.path, d) == s
  {
    s :| s in sources && d == DestOf(pl.input, o.path, s);
    DestAndBack(pl.input, o.path, s);
  }

  lemma WishAt(t: Tree, pl: Pipeline, k: nat, d: Path)
    requires WellFormed(t) && k < |pl.outputs|
    ensures var job, o := JobsOf(t, pl)[k], pl.outputs[k];
            && (d in job.wanted ==> WishedAt(t, pl, o, d, job.wanted[d]))
            && (d in job.preserve ==> SparedAt(t, pl, o, d))
  {
    var job, files, o := JobsOf(t, pl)[k], FilesOf(t, pl), pl.outputs[k];
    SourcesInInput(pl, o, files, Infos(t, pl), Media(pl, files));
    if d in job.wanted {
      var s := SourceAt(pl, o, WantedSources(pl, o, files, Infos(t, pl), Media(pl, files)), d);
      WishedExactly(t, pl, o, s);
    }
    if d in job.preserve {
      var s := SourceAt(pl, o, KeptSources(pl, files, Infos(t, pl), Media(pl, files)), d);
      SparedExactly(t, pl, s);
    }
  }

  ghost predicate WishedAt(t: Tree, pl: Pipeline, o: Output, d: Path, raw: string) {
    exists s :: Below(s, pl.input) && Wished(t, pl, o, s) && d == PlaceOf(pl, o, s)
                && raw == LinkTarget(s, d, pl.relative)
  }

  ghost predicate SparedAt(t: Tree, pl: Pipeline, o: Output, d: Path) {
    exists s :: Below(s, pl.input) && Spared(t, pl, s) && d == PlaceOf(pl, o, s)
  }

  // ---------------------------------------------------------------- when a library is left alone

  /** A library is scanned exactly if its input is a directory and, unless a file is found there, no link lies below any
      of its outputs: an input that is empty because it is not mounted takes nothing away. */
  lemma UsableExactly(t: Tree, pl: Pipeline)
    requires WellFormed(t)
    ensures IsUsable(t, pl) <==> IsDir(t, pl.input) && ((exists f :: Reachable(t, pl, f)) || HoldNoLinks(t, pl.outputs))
  {
    if FilesOf(t, pl) != {} {
      var f :| f in FilesOf(t, pl);
      FoundExactly(t, pl, f);
    }
    if f :| Reachable(t, pl, f) {
      FoundExactly(t, pl, f);
    }
    NoLinksExactly(t, pl.outputs);
  }

  ghost predicate HoldNoLinks(t: Tree, outputs: seq<Output>) {
    forall o, p :: o in outputs && p in t && Below(p, o.path) ==> !IsLink(t, p)
  }

  lemma NoLinksExactly(t: Tree, outputs: seq<Output>)
    requires WellFormed(t)
    ensures NoLinks(t, outputs) <==> HoldNoLinks(t, outputs)
  {
    forall o | o in outputs
      ensures LinksBelow(t, o.path) == {} <==> forall p :: p in t && Below(p, o.path) ==> !IsLink(t, p)
    {
      NoLinksIn(t, o.path);
    }
  }

  lemma NoLinksIn(t: Tree, output: Path)
    requires WellFormed(t)
    ensures LinksBelow(t, output) == {} <==> forall p :: p in t && Below(p, output) ==> !IsLink(t, p)
  {
    forall p | p in t && Below(p, output) && IsLink(t, p) ensures p in LinksBelow(t, output) {
      AncestorsAreDirs(t, p, output);
    }
  }

  // ---------------------------------------------------------------- what a job leaves

  lemma WishedIsBelow(t: Tree, pl: Pipeline, o: Output, s: Path)
    requires Wished(t, pl, o, s)
    ensures Below(s, pl.input)
  {
    var m, info :| IsMedia(t, pl, m) && Probed(t, pl, m, info) && Wants(o, info) && Accompanies(t, pl, s, m);
  }

  lemma WantedStays(t: Tree, u: Tree, job: Job, d: Path)
    requires d in job.wanted && Same(JobResult(t, job), u, d)
    ensures IsLink(u, d) && u[d].raw == job.wanted[d]
  {}

  lemma OwnIsKept(t: Tree, job: Job, d: Path)
    requires IsLink(JobResult(t, job), d) && Below(d, job.output) && !Blocked(AddLinks(t, job.wanted), job)
    requires Owned(d, JobResult(t, job)[d].raw, job.root) && WellFormed(AddLinks(t, job.wanted))
    ensures d in job.Keep()
    ensures d in job.wanted ==> JobResult(t, job)[d].raw == job.wanted[d]
  {
    var linked := AddLinks(t, job.wanted);
    assert IsLink(linked, d) && d in linked - PlanOf(linked, job);
    AncestorsAreDirs(linked, d, job.output);
    assert d in LinksBelow(linked, job.output);
  }

  lemma WishedText(t: Tree, pl: Pipeline, k: nat, s: Path) returns (d: Path)
    requires WellFormed(t) && k < |pl.outputs| && Below(s, pl.input) && Wished(t, pl, pl.outputs[k], s)
    ensures d == PlaceOf(pl, pl.outputs[k], s) && d != []
    ensures d in JobsOf(t, pl)[k].wanted && JobsOf(t, pl)[k].wanted[d] == LinkTarget(s, d, pl.relative)
  {
    d := PlaceOf(pl, pl.outputs[k], s);
    WishFor(t, pl, k, s);
    DestAndBack(pl.input, pl.outputs[k].path, s);
  }

  lemma WishedLink(t: Tree, u: Tree, pl: Pipeline, k: nat, s: Path) returns (d: Path)
    requires WellFormed(t) && k < |pl.outputs| && Below(s, pl.input) && Wished(t, pl, pl.outputs[k], s) && Normal(s)
    requires Same(JobResult(t, JobsOf(t, pl)[k]), u, PlaceOf(pl, pl.outputs[k], s))
    ensures d == PlaceOf(pl, pl.outputs[k], s) && MadeFor(u, d, s, pl.relative)
  {
    d := WishedText(t, pl, k, s);
    WantedStays(t, u, JobsOf(t, pl)[k], d);
  }

  /** Where a job has left its link to a file, following it leads to the file. */
  lemma Granted(t: Tree, u: Tree, pl: Pipeline, k: nat, s: Path)
    requires WellFormed(t) && WellFormed(u) && k < |pl.outputs| && Below(s, pl.input)
    requires Wished(t, pl, pl.outputs[k], s) && s in t && t[s].File? && Same(t, u, s)
    requires Same(JobResult(t, JobsOf(t, pl)[k]), u, PlaceOf(pl, pl.outputs[k], s))
    ensures var d := PlaceOf(pl, pl.outputs[k], s);
            MadeFor(u, d, s, pl.relative) && LeadsTo(u, d, s) && IsFile(u, d)
  {
    var d := WishedLink(t, u, pl, k, s);
    MadeLinkLeads(u, d, s, pl.relative);
  }

  ghost predicate Refused(t: Tree, pl: Pipeline, k: nat)
    requires k < |pl.outputs|
  {
    Blocked(AddLinks(t, JobsOf(t, pl)[k].wanted), JobsOf(t, pl)[k])
  }

  lemma NoOthers(t: Tree, u: Tree, pl: Pipeline, k: nat, d: Path, s: Path, relative: bool)
    requires WellFormed(t) && k < |pl.outputs| && !Refused(t, pl, k) && Clear(t, JobsOf(t, pl)[k].wanted)
    requires MadeFor(u, d, s, relative) && Within(s, pl.input) && Below(d, pl.outputs[k].path)
    requires Same(JobResult(t, JobsOf(t, pl)[k]), u, d)
    ensures WishedAt(t, pl, pl.outputs[k], d, u[d].raw) || SparedAt(t, pl, pl.outputs[k], d)
  {
    MadeLinksAreOwned(s, d, relative, pl.input);
    AddLinksWellFormed(t, JobsOf(t, pl)[k].wanted);
    OwnIsKept(t, JobsOf(t, pl)[k], d);
    WishAt(t, pl, k, d);
  }
}
