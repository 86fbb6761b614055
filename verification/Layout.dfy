/** Where libraries read and write, and the check that keeps these places apart. */
module Layout {
  import opened Paths
  import opened Trees
  import opened Reconcile
  import opened Interference

  /** autoName is the name derived from the library and its filters; like name it is a single component. */
  datatype SymlinkLibrary = SymlinkLibrary(name: Option<string>, autoName: string, outputPath: Option<Path>)

  datatype Library = Library(name: string, inputPath: Path, outputPath: Option<Path>,
                             symlinkLibraries: seq<SymlinkLibrary>)

  datatype Config = Config(outputPath: Option<Path>, libraries: seq<Library>)

  function LibraryOutputBase(config: Config, library: Library): Option<Path> {
    if library.outputPath.Some? then library.outputPath else config.outputPath
  }

  /** The output directory of a symlink library; None: it has no place to write to. */
  function SymlinkLibraryOutput(config: Config, library: Library, sym: SymlinkLibrary): Option<Path> {
    if sym.outputPath.Some? then sym.outputPath
    else
      var base := LibraryOutputBase(config, library);
      if base.None? then None
      else if sym.name.Some? then Some(base.value + [sym.name.value])
      else Some(base.value + [sym.autoName])
  }

  /** An output's own path decides; without one, the library's, whatever the global one is; the global one last. */
  lemma NearestPathDecides(config: Config, library: Library, sym: SymlinkLibrary)
    ensures var name := if sym.name.Some? then sym.name.value else sym.autoName;
            && (sym.outputPath.Some? ==> SymlinkLibraryOutput(config, library, sym) == sym.outputPath)
            && (forall base :: sym.outputPath.None? && library.outputPath == Some(base) ==>
                  SymlinkLibraryOutput(config, library, sym) == Some(base + [name]))
            && (forall base :: sym.outputPath.None? && library.outputPath.None? && config.outputPath == Some(base) ==>
                  SymlinkLibraryOutput(config, library, sym) == Some(base + [name]))
    ensures SymlinkLibraryOutput(config, library, sym).None? <==>
              sym.outputPath.None? && library.outputPath.None? && config.outputPath.None?
    ensures forall other :: library.outputPath.Some? ==>
              Entries(config.(outputPath := other), [library]) == Entries(config, [library])
  {
    forall other | library.outputPath.Some?
      ensures Entries(config.(outputPath := other), [library]) == Entries(config, [library])
    {
      GlobalPathIsUnused(config, other, library, library.symlinkLibraries);
      assert [library][1..] == [];
      assert Entries(config.(outputPath := other), []) == Entries(config, []);
    }
  }

  lemma {:induction false} GlobalPathIsUnused(config: Config, other: Option<Path>, library: Library,
                                              syms: seq<SymlinkLibrary>)
    requires library.outputPath.Some?
    ensures SymlinkEntries(config.(outputPath := other), library, syms) == SymlinkEntries(config, library, syms)
    decreases |syms|
  {
    if syms != [] {
      GlobalPathIsUnused(config, other, library, syms[1..]);
    }
  }

  datatype Kind = BaseOutput | SymlinkOutput

  datatype Entry = Entry(kind: Kind, path: Path)

  datatype Verdict = Accepted | MissingOutput | OutputInInput | InputInOutput | SameOutput | NestedOutput

  function SymlinkEntries(config: Config, library: Library, syms: seq<SymlinkLibrary>): seq<Entry> {
    if syms == [] then []
    else
      var path := SymlinkLibraryOutput(config, library, syms[0]);
      (if path.Some? then [Entry(SymlinkOutput, path.value)] else []) + SymlinkEntries(config, library, syms[1..])
  }

  function EntriesOf(config: Config, library: Library): seq<Entry> {
    var base := LibraryOutputBase(config, library);
    (if base.Some? then [Entry(BaseOutput, base.value)] else [])
      + SymlinkEntries(config, library, library.symlinkLibraries)
  }

  /** Every directory the configuration writes to or derives outputs from, in configuration order. */
  function Entries(config: Config, libraries: seq<Library>): seq<Entry> {
    if libraries == [] then [] else EntriesOf(config, libraries[0]) + Entries(config, libraries[1..])
  }

  /** The output directories alone. */
  function SymlinkPaths(entries: seq<Entry>): seq<Path> {
    if entries == [] then []
    else (if entries[0].kind.SymlinkOutput? then [entries[0].path] else []) + SymlinkPaths(entries[1..])
  }

  ghost predicate HasOutputs(config: Config) {
    forall library, sym :: library in config.libraries && sym in library.symlinkLibraries ==>
      SymlinkLibraryOutput(config, library, sym).Some?
  }

  /** What a layout must be for scans not to touch sources or fight over directories. */
  ghost predicate Sound(config: Config) {
    && InputsClear(Entries(config, config.libraries), config.libraries)
    && Unnested(SymlinkPaths(Entries(config, config.libraries)))
  }

  /** No entry equals, contains or lies inside the input of any library. */
  ghost predicate InputsClear(entries: seq<Entry>, libraries: seq<Library>) {
    forall e, library :: e in entries && library in libraries ==>
      !Within(e.path, library.inputPath) && !Within(library.inputPath, e.path)
  }

  ghost predicate Unnested(outputs: seq<Path>) {
    forall i, j :: 0 <= i < j < |outputs| ==> !Within(outputs[i], outputs[j]) && !Within(outputs[j], outputs[i])
  }

  // ---------------------------------------------------------------- the check

  method CheckPathOverlap(inputPath: Path, outputPath: Path) returns (verdict: Verdict)
    ensures verdict.Accepted? <==> !Within(outputPath, inputPath) && !Within(inputPath, outputPath)
    ensures verdict.OutputInInput? <==> Within(outputPath, inputPath)
    ensures verdict in {Accepted, OutputInInput, InputInOutput}
  {
    if Within(outputPath, inputPath) {
      return OutputInInput;
    }
    if Within(inputPath, outputPath) {
      return InputInOutput;
    }
    return Accepted;
  }

  /** Collects the entries of one library. */
  method CollectOutputs(config: Config, library: Library) returns (verdict: Verdict, entries: seq<Entry>)
    ensures verdict.Accepted? <==>
            forall sym :: sym in library.symlinkLibraries ==> SymlinkLibraryOutput(config, library, sym).Some?
    ensures verdict.Accepted? ==> entries == EntriesOf(config, library)
    ensures verdict in {Accepted, MissingOutput}
  {
    entries := [];
    var base := LibraryOutputBase(config, library);
    if base.Some? {
      entries := entries + [Entry(BaseOutput, base.value)];
    }
    ghost var start := entries;
    var syms := library.symlinkLibraries;
    var i := 0;
    while i < |syms|
      invariant 0 <= i <= |syms|
      invariant forall k :: 0 <= k < i ==> SymlinkLibraryOutput(config, library, syms[k]).Some?
      invariant entries + SymlinkEntries(config, library, syms[i..]) == start + SymlinkEntries(config, library, syms)
    {
      var path := SymlinkLibraryOutput(config, library, syms[i]);
      if path.None? {
        return MissingOutput, entries;
      }
      ghost var rest := SymlinkEntries(config, library, syms[i + 1..]);
      assert syms[i..][0] == syms[i] && syms[i..][1..] == syms[i + 1..];
      assert SymlinkEntries(config, library, syms[i..]) == [Entry(SymlinkOutput, path.value)] + rest;
      entries := entries + [Entry(SymlinkOutput, path.value)];
      i := i + 1;
    }
    assert SymlinkEntries(config, library, syms[|syms|..]) == [];
    assert entries + [] == entries;
    return Accepted, entries;
  }

  /** Every output against every input. */
  method CheckInputs(outputs: seq<Entry>, libraries: seq<Library>) returns (verdict: Verdict)
    ensures verdict.Accepted? <==> InputsClear(outputs, libraries)
    ensures verdict in {Accepted, OutputInInput, InputInOutput}
  {
    var i := 0;
    while i < |outputs|
      invariant 0 <= i <= |outputs|
      invariant forall k, library :: 0 <= k < i && library in libraries ==>
                  !Within(outputs[k].path, library.inputPath) && !Within(library.inputPath, outputs[k].path)
    {
      var j := 0;
      while j < |libraries|
        invariant 0 <= j <= |libraries|
        invariant forall l :: 0 <= l < j ==>
                    !Within(outputs[i].path, libraries[l].inputPath) && !Within(libraries[l].inputPath, outputs[i].path)
      {
        verdict := CheckPathOverlap(libraries[j].inputPath, outputs[i].path);
        if !verdict.Accepted? {
          assert outputs[i] in outputs && libraries[j] in libraries;
          return;
        }
        j := j + 1;
      }
      i := i + 1;
    }
    verdict := Accepted;
  }

  /** Every output against every later output. */
  method CheckOutputs(entries: seq<Entry>) returns (verdict: Verdict)
    ensures verdict.Accepted? <==> Unnested(SymlinkPaths(entries))
    ensures verdict.SameOutput? ==>
              var outputs := SymlinkPaths(entries); exists i, j :: 0 <= i < j < |outputs| && outputs[i] == outputs[j]
    ensures verdict in {Accepted, SameOutput, NestedOutput}
  {
    var outputs := SymlinkPaths(entries);
    var a := 0;
    while a < |outputs|
      invariant 0 <= a <= |outputs|
      invariant forall i, j :: 0 <= i < a && i < j < |outputs| ==>
                  !Within(outputs[i], outputs[j]) && !Within(outputs[j], outputs[i])
    {
      var b := a + 1;
      while b < |outputs|
        invariant a < b <= |outputs|
        invariant forall j :: a < j < b ==> !Within(outputs[a], outputs[j]) && !Within(outputs[j], outputs[a])
      {
        if outputs[a] == outputs[b] {
          assert Within(outputs[a], outputs[b]);
          return SameOutput;
        }
        if Within(outputs[a], outputs[b]) || Within(outputs[b], outputs[a]) {
          return NestedOutput;
        }
        b := b + 1;
      }
      a := a + 1;
    }
    verdict := Accepted;
  }

  /** Collects the entries of all libraries. */
  method CollectAll(config: Config) returns (verdict: Verdict, outputs: seq<Entry>)
    ensures verdict.Accepted? <==> HasOutputs(config)
    ensures verdict.Accepted? ==> outputs == Entries(config, config.libraries)
    ensures verdict in {Accepted, MissingOutput}
  {
    outputs := [];
    var libraries := config.libraries;
    var i := 0;
    while i < |libraries|
      invariant 0 <= i <= |libraries|
      invariant forall library, sym :: library in libraries[..i] && sym in library.symlinkLibraries ==>
                  SymlinkLibraryOutput(config, library, sym).Some?
      invariant outputs + Entries(config, libraries[i..]) == Entries(config, libraries)
    {
      var one, entries := CollectOutputs(config, libraries[i]);
      if !one.Accepted? {
        assert libraries[i] in config.libraries;
        return MissingOutput, outputs;
      }
      assert libraries[..i + 1] == libraries[..i] + [libraries[i]];
      EntriesStep(config, libraries, i);
      assert outputs + (entries + Entries(config, libraries[i + 1..])) ==
             outputs + entries + Entries(config, libraries[i + 1..]);
      outputs := outputs + entries;
      i := i + 1;
    }
    assert libraries[..|libraries|] == libraries;
    assert Entries(config, libraries[|libraries|..]) == [];
    assert outputs + [] == outputs;
    return Accepted, outputs;
  }

  lemma EntriesStep(config: Config, libraries: seq<Library>, i: nat)
    requires i < |libraries|
    ensures Entries(config, libraries[i..]) == EntriesOf(config, libraries[i]) + Entries(config, libraries[i + 1..])
  {
    assert libraries[i..][0] == libraries[i] && libraries[i..][1..] == libraries[i + 1..];
  }

  /** Accepts exactly the sound layouts. */
  method ValidateNoPathOverlap(config: Config) returns (verdict: Verdict)
    ensures verdict.Accepted? <==> HasOutputs(config) && Sound(config)
    ensures verdict.MissingOutput? <==> !HasOutputs(config)
  {
    var outputs;
    verdict, outputs := CollectAll(config);
    if verdict.Accepted? {
      verdict := CheckInputs(outputs, config.libraries);
      if verdict.Accepted? {
        verdict := CheckOutputs(outputs);
      }
    }
  }

  // ---------------------------------------------------------------- what soundness means for each library

  ghost predicate Apart(a: Path, b: Path) {
    !Within(a, b) && !Within(b, a)
  }

  /** The k-th of the symlink libraries writes to this place. */
  ghost predicate PlacedAt(config: Config, library: Library, syms: seq<SymlinkLibrary>, k: int, path: Path) {
    0 <= k < |syms| && SymlinkLibraryOutput(config, library, syms[k]) == Some(path)
  }

  /** The k-th symlink library of the i-th library writes to this place. */
  ghost predicate WritesTo(config: Config, libraries: seq<Library>, i: int, k: int, path: Path) {
    0 <= i < |libraries| && PlacedAt(config, libraries[i], libraries[i].symlinkLibraries, k, path)
  }

  /** A layout is sound exactly if neither the place a library derives its outputs from, its own or the global one, nor
      any output overlaps the input of any library, and any two different symlink libraries write to places apart. */
  lemma SoundExactly(config: Config)
    ensures Sound(config) <==> BasesAvoidInputs(config) && OutputsAvoidAllInputs(config)
                               && OutputsKeepApart(config, config.libraries)
  {
    var libs := config.libraries;
    forall e ensures e in Entries(config, libs) <==> IsEntry(config, libs, e) { EntryOrigin(config, libs, e); }
    if BasesAvoidInputs(config) && OutputsAvoidAllInputs(config) {
      forall e, other | e in Entries(config, libs) && other in libs ensures Apart(e.path, other.inputPath) {
        assert IsEntry(config, libs, e);
      }
    }
    if InputsClear(Entries(config, libs), libs) {
      forall library, other, base | library in libs && other in libs && LibraryOutputBase(config, library) == Some(base)
        ensures Apart(base, other.inputPath)
      {
        assert IsEntry(config, libs, Entry(BaseOutput, base));
      }
      forall i, k, path, other | WritesTo(config, libs, i, k, path) && other in libs
        ensures Apart(path, other.inputPath)
      {
        assert IsEntry(config, libs, Entry(SymlinkOutput, path));
      }
    }
    UnnestedExactly(config, libs);
  }

  ghost predicate BasesAvoidInputs(config: Config) {
    forall library, other, base ::
      library in config.libraries && other in config.libraries && LibraryOutputBase(config, library) == Some(base) ==>
        Apart(base, other.inputPath)
  }

  ghost predicate OutputsAvoidAllInputs(config: Config) {
    forall i, k, path, other :: WritesTo(config, config.libraries, i, k, path) && other in config.libraries ==>
      Apart(path, other.inputPath)
  }

  ghost predicate OutputsKeepApart(config: Config, libraries: seq<Library>) {
    forall i, k, p, j, l, q ::
      (i != j || k != l) && WritesTo(config, libraries, i, k, p) && WritesTo(config, libraries, j, l, q) ==> Apart(p, q)
  }

  ghost predicate IsEntry(config: Config, libraries: seq<Library>, e: Entry) {
    match e.kind
    case BaseOutput => exists library :: library in libraries && LibraryOutputBase(config, library) == Some(e.path)
    case SymlinkOutput => exists i, k :: WritesTo(config, libraries, i, k, e.path)
  }

  lemma WritesFromRest(config: Config, libraries: seq<Library>, i: int, k: int, path: Path)
    requires libraries != [] && i > 0
    ensures WritesTo(config, libraries, i, k, path) <==> WritesTo(config, libraries[1..], i - 1, k, path)
  {}

  lemma PlacedInRest(config: Config, library: Library, syms: seq<SymlinkLibrary>, k: int, path: Path)
    requires syms != [] && k > 0
    ensures PlacedAt(config, library, syms, k, path) <==> PlacedAt(config, library, syms[1..], k - 1, path)
  {}

  lemma {:induction false} SymlinkEntryOrigin(config: Config, library: Library, syms: seq<SymlinkLibrary>, e: Entry)
    ensures e in SymlinkEntries(config, library, syms) <==>
            e.kind.SymlinkOutput? && exists k :: PlacedAt(config, library, syms, k, e.path)
    decreases |syms|
  {
    if syms != [] {
      SymlinkEntryOrigin(config, library, syms[1..], e);
      if k :| PlacedAt(config, library, syms, k, e.path) {
        if k > 0 {
          PlacedInRest(config, library, syms, k, e.path);
        }
      }
      if k :| PlacedAt(config, library, syms[1..], k, e.path) {
        PlacedInRest(config, library, syms, k + 1, e.path);
      }
      if e in SymlinkEntries(config, library, syms) && e !in SymlinkEntries(config, library, syms[1..]) {
        assert PlacedAt(config, library, syms, 0, e.path);
      }
    }
  }

  lemma {:induction false} EntryOrigin(config: Config, libraries: seq<Library>, e: Entry)
    ensures e in Entries(config, libraries) <==> IsEntry(config, libraries, e)
    decreases |libraries|
  {
    if libraries != [] {
      var first, rest := libraries[0], libraries[1..];
      EntryOrigin(config, rest, e);
      SymlinkEntryOrigin(config, first, first.symlinkLibraries, e);
      if e.kind.SymlinkOutput? {
        if i, k :| WritesTo(config, libraries, i, k, e.path) {
          if i > 0 {
            WritesFromRest(config, libraries, i, k, e.path);
          }
        }
        if i, k :| WritesTo(config, rest, i, k, e.path) {
          WritesFromRest(config, libraries, i + 1, k, e.path);
        }
        if e in SymlinkEntries(config, first, first.symlinkLibraries) {
          var k :| PlacedAt(config, first, first.symlinkLibraries, k, e.path);
          assert WritesTo(config, libraries, 0, k, e.path);
        }
      }
    }
  }

  lemma {:induction false} PathsOfBoth(a: seq<Entry>, b: seq<Entry>)
    ensures SymlinkPaths(a + b) == SymlinkPaths(a) + SymlinkPaths(b)
    decreases |a|
  {
    if a == [] {
      assert a + b == b;
    } else {
      PathsOfBoth(a[1..], b);
      assert (a + b)[1..] == a[1..] + b;
    }
  }

  ghost predicate AllApart(a: seq<Path>, b: seq<Path>) {
    forall p, q :: p in a && q in b ==> Apart(p, q)
  }

  lemma UnnestedBoth(a: seq<Path>, b: seq<Path>)
    ensures Unnested(a + b) <==> Unnested(a) && Unnested(b) && AllApart(a, b)
  {
    var whole := a + b;
    if Unnested(whole) {
      forall i, j | 0 <= i < j < |a| ensures Apart(a[i], a[j]) {
        assert whole[i] == a[i] && whole[j] == a[j];
      }
      forall i, j | 0 <= i < j < |b| ensures Apart(b[i], b[j]) {
        assert whole[|a| + i] == b[i] && whole[|a| + j] == b[j];
      }
      forall p, q | p in a && q in b ensures Apart(p, q) {
        var i :| 0 <= i < |a| && a[i] == p;
        var j :| 0 <= j < |b| && b[j] == q;
        assert whole[i] == p && whole[|a| + j] == q;
      }
    }
    if Unnested(a) && Unnested(b) && AllApart(a, b) {
      forall i, j | 0 <= i < j < |whole| ensures Apart(whole[i], whole[j]) {
        if i < |a| <= j {
          assert whole[i] in a && whole[j] in b;
        }
      }
    }
  }

  lemma {:induction false} PathOrigin(entries: seq<Entry>, path: Path)
    ensures path in SymlinkPaths(entries) <==> Entry(SymlinkOutput, path) in entries
    decreases |entries|
  {
    if entries != [] {
      PathOrigin(entries[1..], path);
    }
  }

  ghost predicate SymsKeepApart(config: Config, library: Library, syms: seq<SymlinkLibrary>) {
    forall k, l, p, q ::
      k != l && PlacedAt(config, library, syms, k, p) && PlacedAt(config, library, syms, l, q) ==> Apart(p, q)
  }

  lemma {:induction false} UnnestedWithin(config: Config, library: Library, syms: seq<SymlinkLibrary>)
    ensures Unnested(SymlinkPaths(SymlinkEntries(config, library, syms))) <==> SymsKeepApart(config, library, syms)
    decreases |syms|
  {
    if syms != [] {
      var path, rest := SymlinkLibraryOutput(config, library, syms[0]), SymlinkEntries(config, library, syms[1..]);
      var first := if path.Some? then [Entry(SymlinkOutput, path.value)] else [];
      UnnestedWithin(config, library, syms[1..]);
      PathsOfBoth(first, rest);
      UnnestedBoth(SymlinkPaths(first), SymlinkPaths(rest));
      SymsApartParts(config, library, syms);
      OneAndRest(config, library, syms, first, rest);
    }
  }

  lemma OneAndRest(config: Config, library: Library, syms: seq<SymlinkLibrary>, first: seq<Entry>, rest: seq<Entry>)
    requires syms != [] && rest == SymlinkEntries(config, library, syms[1..])
    requires var path := SymlinkLibraryOutput(config, library, syms[0]);
             first == if path.Some? then [Entry(SymlinkOutput, path.value)] else []
    ensures Unnested(SymlinkPaths(first))
    ensures AllApart(SymlinkPaths(first), SymlinkPaths(rest)) <==> FirstApart(config, library, syms)
  {
    forall p ensures p in SymlinkPaths(first) <==> PlacedAt(config, library, syms, 0, p) {
      PathOrigin(first, p);
    }
    forall q ensures q in SymlinkPaths(rest) <==> exists l :: PlacedAt(config, library, syms[1..], l, q) {
      PathOrigin(rest, q);
      SymlinkEntryOrigin(config, library, syms[1..], Entry(SymlinkOutput, q));
    }
    assert |SymlinkPaths(first)| <= 1;
  }

  ghost predicate FirstApart(config: Config, library: Library, syms: seq<SymlinkLibrary>)
    requires syms != []
  {
    forall p, l, q ::
      PlacedAt(config, library, syms, 0, p) && PlacedAt(config, library, syms[1..], l, q) ==> Apart(p, q)
  }

  lemma SymsApartParts(config: Config, library: Library, syms: seq<SymlinkLibrary>)
    requires syms != []
    ensures SymsKeepApart(config, library, syms) <==>
            SymsKeepApart(config, library, syms[1..]) && FirstApart(config, library, syms)
  {
    forall k, p | k > 0
      ensures PlacedAt(config, library, syms, k, p) <==> PlacedAt(config, library, syms[1..], k - 1, p)
    {
      PlacedInRest(config, library, syms, k, p);
    }
    if SymsKeepApart(config, library, syms) {
      forall k, l, p, q | k != l && PlacedAt(config, library, syms[1..], k, p)
        && PlacedAt(config, library, syms[1..], l, q) ensures Apart(p, q)
      {
        PlacedInRest(config, library, syms, k + 1, p);
        PlacedInRest(config, library, syms, l + 1, q);
      }
      forall p, l, q | PlacedAt(config, library, syms, 0, p) && PlacedAt(config, library, syms[1..], l, q)
        ensures Apart(p, q)
      {
        PlacedInRest(config, library, syms, l + 1, q);
      }
    }
    if SymsKeepApart(config, library, syms[1..]) && FirstApart(config, library, syms) {
      forall k, l, p, q | k != l && PlacedAt(config, library, syms, k, p) && PlacedAt(config, library, syms, l, q)
        ensures Apart(p, q)
      {
        if k > 0 {
          PlacedInRest(config, library, syms, k, p);
        }
        if l > 0 {
          PlacedInRest(config, library, syms, l, q);
        }
      }
    }
  }

  lemma {:induction false} UnnestedExactly(config: Config, libraries: seq<Library>)
    ensures Unnested(SymlinkPaths(Entries(config, libraries))) <==> OutputsKeepApart(config, libraries)
    decreases |libraries|
  {
    if libraries != [] {
      var first, rest := libraries[0], libraries[1..];
      var here, there := SymlinkPaths(EntriesOf(config, first)), SymlinkPaths(Entries(config, rest));
      UnnestedExactly(config, rest);
      UnnestedWithin(config, first, first.symlinkLibraries);
      PathsOfLibrary(config, first);
      PathsOfBoth(EntriesOf(config, first), Entries(config, rest));
      UnnestedBoth(here, there);
      KeepApartParts(config, libraries, here, there);
    }
  }

  lemma PathsOfLibrary(config: Config, library: Library)
    ensures SymlinkPaths(EntriesOf(config, library)) ==
            SymlinkPaths(SymlinkEntries(config, library, library.symlinkLibraries))
  {
    var base := LibraryOutputBase(config, library);
    var bases := if base.Some? then [Entry(BaseOutput, base.value)] else [];
    PathsOfBoth(bases, SymlinkEntries(config, library, library.symlinkLibraries));
    assert SymlinkPaths(bases) == [];
  }

  /** The outputs of all libraries keep apart exactly if those of the first do, those of the rest do, and the ones from
      the others. */
  lemma KeepApartParts(config: Config, libraries: seq<Library>, here: seq<Path>, there: seq<Path>)
    requires libraries != [] && here == SymlinkPaths(EntriesOf(config, libraries[0]))
    requires there == SymlinkPaths(Entries(config, libraries[1..]))
    ensures OutputsKeepApart(config, libraries) <==>
            SymsKeepApart(config, libraries[0], libraries[0].symlinkLibraries)
              && OutputsKeepApart(config, libraries[1..]) && AllApart(here, there)
  {
    var first, rest := libraries[0], libraries[1..];
    forall p ensures p in here <==> exists k :: WritesTo(config, libraries, 0, k, p) {
      PathsOfLibrary(config, first);
      PathOrigin(SymlinkEntries(config, first, first.symlinkLibraries), p);
      SymlinkEntryOrigin(config, first, first.symlinkLibraries, Entry(SymlinkOutput, p));
      if k :| PlacedAt(config, first, first.symlinkLibraries, k, p) {
        assert WritesTo(config, libraries, 0, k, p);
      }
    }
    forall q ensures q in there <==> exists j, l :: WritesTo(config, rest, j, l, q) {
      PathOrigin(Entries(config, rest), q);
      EntryOrigin(config, rest, Entry(SymlinkOutput, q));
    }
    if OutputsKeepApart(config, libraries) {
      ApartOfAll(config, libraries, here, there);
    }
    if SymsKeepApart(config, first, first.symlinkLibraries) && OutputsKeepApart(config, rest) && AllApart(here, there) {
      forall i, k, p, j, l, q | (i != j || k != l) && WritesTo(config, libraries, i, k, p)
        && WritesTo(config, libraries, j, l, q) ensures Apart(p, q)
      {
        if i > 0 {
          WritesFromRest(config, libraries, i, k, p);
        }
        if j > 0 {
          WritesFromRest(config, libraries, j, l, q);
        }
        if i == 0 < j {
          assert p in here && q in there;
        } else if j == 0 < i {
          assert q in here && p in there;
        }
      }
    }
  }

  lemma ApartOfAll(config: Config, libraries: seq<Library>, here: seq<Path>, there: seq<Path>)
    requires libraries != [] && OutputsKeepApart(config, libraries)
    requires forall p :: p in here <==> exists k :: WritesTo(config, libraries, 0, k, p)
    requires forall q :: q in there <==> exists j, l :: WritesTo(config, libraries[1..], j, l, q)
    ensures SymsKeepApart(config, libraries[0], libraries[0].symlinkLibraries)
    ensures OutputsKeepApart(config, libraries[1..]) && AllApart(here, there)
  {
    var first, rest := libraries[0], libraries[1..];
    forall k, l, p, q | k != l && PlacedAt(config, first, first.symlinkLibraries, k, p)
      && PlacedAt(config, first, first.symlinkLibraries, l, q) ensures Apart(p, q)
    {
      assert WritesTo(config, libraries, 0, k, p) && WritesTo(config, libraries, 0, l, q);
    }
    forall i, k, p, j, l, q | (i != j || k != l) && WritesTo(config, rest, i, k, p) && WritesTo(config, rest, j, l, q)
      ensures Apart(p, q)
    {
      WritesFromRest(config, libraries, i + 1, k, p);
      WritesFromRest(config, libraries, j + 1, l, q);
    }
    forall p, q | p in here && q in there ensures Apart(p, q) {
      var k :| WritesTo(config, libraries, 0, k, p);
      var j, l :| WritesTo(config, rest, j, l, q);
      WritesFromRest(config, libraries, j + 1, l, q);
    }
  }

  // ---------------------------------------------------------------- what an accepted layout gives a scan

  /** The jobs of a scan write exactly to the configured output directories. */
  ghost predicate JobsFit(config: Config, jobs: seq<Job>) {
    var outputs := SymlinkPaths(Entries(config, config.libraries));
    |jobs| == |outputs| && forall i :: 0 <= i < |jobs| ==> jobs[i].output == outputs[i]
  }

  lemma {:induction false} SymlinkPathsAreEntries(entries: seq<Entry>, path: Path)
    requires path in SymlinkPaths(entries)
    ensures exists e :: e in entries && e.path == path
  {
    if entries[0].kind.SymlinkOutput? && entries[0].path == path {
      assert entries[0] in entries;
    } else {
      SymlinkPathsAreEntries(entries[1..], path);
    }
  }

  lemma AcceptedLayoutSeparates(config: Config, jobs: seq<Job>)
    requires Sound(config) && JobsFit(config, jobs)
    ensures Separate(jobs)
    ensures forall job, library :: job in jobs && library in config.libraries ==>
              !(job.output <= library.inputPath) && !(library.inputPath <= job.output)
  {
    var entries := Entries(config, config.libraries);
    var outputs := SymlinkPaths(entries);
    forall i, j | 0 <= i < |jobs| && 0 <= j < |jobs| && i != j
      ensures !(jobs[i].output <= jobs[j].output)
    {
      if i < j {
        assert !Within(outputs[j], outputs[i]);
      } else {
        assert !Within(outputs[j], outputs[i]);
      }
    }
    forall job, library | job in jobs && library in config.libraries
      ensures !(job.output <= library.inputPath) && !(library.inputPath <= job.output)
    {
      var i :| 0 <= i < |jobs| && jobs[i] == job;
      OutputsAvoidInputs(config, outputs[i], library);
    }
  }

  /** For every accepted configuration: what changes only in the zone of the configured outputs changes no input, and a
      path outside the outputs only from nothing to a directory above one of them. */
  lemma AcceptedScanDoesNotInterfere(config: Config, t: Tree, u: Tree, outs: set<Path>, p: Path)
    requires Sound(config) && Drift(t, u, outs)
             && forall o :: o in outs ==> o in SymlinkPaths(Entries(config, config.libraries))
    ensures forall library :: library in config.libraries && library.inputPath <= p ==> Same(t, u, p)
    ensures Same(t, u, p) || exists o :: o in outs && (Below(p, o) || (p <= o && p !in t && IsDir(u, p)))
  {
    forall library | library in config.libraries && library.inputPath <= p
      ensures Same(t, u, p)
    {
      forall o | o in outs ensures !(o <= library.inputPath) && !(library.inputPath <= o) {
        OutputsAvoidInputs(config, o, library);
      }
      ApartUnderDrift(t, u, outs, library.inputPath, p);
    }
  }

  lemma OutputsAvoidInputs(config: Config, output: Path, library: Library)
    requires Sound(config) && output in SymlinkPaths(Entries(config, config.libraries)) && library in config.libraries
    ensures !(output <= library.inputPath) && !(library.inputPath <= output)
  {
    var entries := Entries(config, config.libraries);
    SymlinkPathsAreEntries(entries, output);
    var e :| e in entries && e.path == output;
    assert !Within(e.path, library.inputPath) && !Within(library.inputPath, e.path);
  }

  /** For every accepted configuration: if all is ready and nothing fails, every output ends up as if reconciled
      alone. */
  lemma AcceptedOutputsAsIfAlone(config: Config, jobs: seq<Job>, t: Tree, job: Job, p: Path)
    requires Sound(config) && JobsFit(config, jobs) && WellFormed(t) && AllReady(t, jobs) && job in jobs
             && job.output <= p
    ensures Same(JobResult(t, job), RunJobs(t, jobs), p)
  {
    AcceptedLayoutSeparates(config, jobs);
    OutputsAsIfAlone(t, jobs, job, p);
  }
}
