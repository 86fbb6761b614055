/** Absolute paths, their texts, and the targets written into symbolic links.

    A path is the sequence of its components; the root is the empty sequence. The
    library functions the links depend on (splitting, joining, normalising and
    relativising path texts) are written out on character strings, so that the
    round trip below is about the very text stored in a link.
 */
module Paths {
  type Path = seq<string>

  /** What a directory entry may be called. */
  predicate ProperName(name: string) {
    name != "" && name != "." && name != ".." && '/' !in name
  }

  predicate Normal(p: Path) {
    forall i :: 0 <= i < |p| ==> ProperName(p[i])
  }

  function Parent(p: Path): (r: Path)
    ensures r <= p && Normal(p) ==> Normal(r)
  {
    if p == [] then [] else p[..|p| - 1]
  }

  function Name(p: Path): string
    requires p != []
  {
    p[|p| - 1]
  }

  /** `p.is_relative_to(root)`: p is the root itself or lies below it. */
  predicate Within(p: Path, root: Path) {
    root <= p
  }

  /** p lies strictly below root. */
  predicate Below(p: Path, root: Path) {
    root < p
  }

  // ---------------------------------------------------------------- texts

  /** The text of an absolute path. */
  function Text(p: Path): string {
    if p == [] then "/" else Slashed(p)
  }

  function Slashed(p: Path): string {
    if p == [] then "" else "/" + p[0] + Slashed(p[1..])
  }

  predicate IsAbsolute(s: string) {
    s != "" && s[0] == '/'
  }

  /** `s.split("/")`. */
  function Split(s: string): (parts: seq<string>)
    ensures parts != []
  {
    if s == "" then [""]
    else
      var rest := Split(s[1..]);
      if s[0] == '/' then [""] + rest else [[s[0]] + rest[0]] + rest[1..]
  }

  /** `"/".join(parts)`. */
  function Join(parts: seq<string>): string {
    if parts == [] then ""
    else if |parts| == 1 then parts[0]
    else parts[0] + "/" + Join(parts[1..])
  }

  /** `os.path.join(base, s)`, for a base that is the text of an absolute path. */
  function JoinPath(base: Path, s: string): string {
    if IsAbsolute(s) then s
    else if base == [] then "/" + s
    else Text(base) + "/" + s
  }

  /** A normalised absolute target. POSIX keeps a leading double slash apart from a single one. */
  datatype Target = Target(twoSlashes: bool, path: Path)

  /** The components left when empty, "." and ".." components are worked off; ".." stops at the root. */
  function NormComponents(parts: seq<string>, done: Path): Path
    decreases |parts|
  {
    if parts == [] then done
    else if parts[0] == "" || parts[0] == "." then NormComponents(parts[1..], done)
    else if parts[0] == ".." then NormComponents(parts[1..], Parent(done))
    else NormComponents(parts[1..], done + [parts[0]])
  }

  /** `os.path.normpath(s)` of an absolute text. */
  function NormPath(s: string): Target {
    Target(|s| >= 2 && s[1] == '/' && (|s| == 2 || s[2] != '/'), NormComponents(Split(s), []))
  }

  function CommonPrefix(a: Path, b: Path): (n: nat)
    ensures n <= |a| && n <= |b| && a[..n] == b[..n]
  {
    if a == [] || b == [] || a[0] != b[0] then 0 else 1 + CommonPrefix(a[1..], b[1..])
  }

  function Ups(n: nat): seq<string> {
    seq(n, i => "..")
  }

  /** `os.path.relpath(path, start)`. */
  function RelPath(path: Path, start: Path): string {
    var n := CommonPrefix(start, path);
    var parts := Ups(|start| - n) + path[n..];
    if parts == [] then "." else Join(parts)
  }

  // ---------------------------------------------------------------- link targets

  /** The text stored in a link at dest to source. */
  function LinkTarget(source: Path, dest: Path, relative: bool): string {
    if relative then RelPath(source, Parent(dest)) else Text(source)
  }

  /** The lexically normalised, absolute target of a link that stores raw. */
  function ResolveLinkTarget(link: Path, raw: string): Target {
    NormPath(JoinPath(Parent(link), raw))
  }

  /** Whether a link that stores raw points into root. */
  predicate Owned(link: Path, raw: string, root: Path) {
    var target := ResolveLinkTarget(link, raw);
    !target.twoSlashes && Within(target.path, root)
  }

  // ---------------------------------------------------------------- facts about texts

  lemma {:induction false} SplitPlain(s: string)
    requires '/' !in s
    ensures Split(s) == [s]
  {
    if s != "" {
      SplitPlain(s[1..]);
      assert [s[0]] + s[1..] == s;
    }
  }

  /** One unfolding of Split. */
  lemma SplitCons(s: string)
    requires s != ""
    ensures var rest := Split(s[1..]);
            Split(s) == if s[0] == '/' then [""] + rest else [[s[0]] + rest[0]] + rest[1..]
  {}

  lemma {:induction false} SplitConcat(a: string, b: string)
    ensures Split(a + "/" + b) == Split(a) + Split(b)
  {
    var whole := a + "/" + b;
    SplitCons(whole);
    if a == "" {
      assert whole[1..] == b;
    } else {
      SplitConcat(a[1..], b);
      assert whole[1..] == a[1..] + "/" + b && whole[0] == a[0];
      SplitCons(a);
      ConcatHead(Split(a[1..]), Split(b), a[0]);
    }
  }

  lemma ConcatHead(head: seq<string>, tail: seq<string>, c: char)
    requires head != []
    ensures (head + tail)[1..] == head[1..] + tail && (head + tail)[0] == head[0]
    ensures [""] + (head + tail) == [""] + head + tail
    ensures [[c] + head[0]] + (head[1..] + tail) == [[c] + head[0]] + head[1..] + tail
  {}

  lemma {:induction false} SplitJoin(parts: seq<string>)
    requires parts != [] && forall i :: 0 <= i < |parts| ==> '/' !in parts[i]
    ensures Split(Join(parts)) == parts
  {
    SplitPlain(parts[0]);
    if |parts| > 1 {
      SplitJoin(parts[1..]);
      SplitConcat(parts[0], Join(parts[1..]));
    }
  }

  lemma {:induction false} SplitSlashed(p: Path)
    requires Normal(p)
    ensures Split(Slashed(p)) == [""] + p
    ensures p != [] ==> IsAbsolute(Slashed(p))
  {
    if p != [] {
      assert ProperName(p[0]);
      SplitPlain(p[0]);
      SplitConcat("", p[0]);
      assert "" + "/" + p[0] == "/" + p[0];
      if |p| == 1 {
        assert Slashed(p) == "/" + p[0];
      } else {
        SplitSlashed(p[1..]);
        SlashedTail(p);
      }
    }
  }

  lemma SplitBefore(head: string, tail: string)
    requires tail != "" && tail[0] == '/'
    ensures Split(tail) == [""] + Split(tail[1..])
    ensures Split(head + tail) == Split(head) + Split(tail[1..])
  {
    SplitCons(tail);
    SplitConcat(head, tail[1..]);
    assert head + "/" + tail[1..] == head + tail;
  }

  lemma SlashedTail(p: Path)
    requires |p| > 1 && Split(Slashed(p[1..])) == [""] + p[1..] && IsAbsolute(Slashed(p[1..]))
    requires Split("/" + p[0]) == ["", p[0]]
    ensures Split(Slashed(p)) == [""] + p
  {
    var tail := Slashed(p[1..]);
    SplitBefore("/" + p[0], tail);
    SameTails(Split(tail[1..]), p[1..]);
    assert ["", p[0]] + p[1..] == [""] + p;
  }

  lemma SameTails(a: seq<string>, b: seq<string>)
    requires [""] + a == [""] + b
    ensures a == b
  {
    assert ([""] + a)[1..] == a && ([""] + b)[1..] == b;
  }

  lemma {:induction false} NormProper(parts: seq<string>, done: Path)
    requires Normal(parts)
    ensures NormComponents(parts, done) == done + parts
    decreases |parts|
  {
    if parts != [] {
      assert ProperName(parts[0]);
      NormProper(parts[1..], done + [parts[0]]);
    }
  }

  lemma {:induction false} NormConcat(a: seq<string>, b: seq<string>, done: Path)
    ensures NormComponents(a + b, done) == NormComponents(b, NormComponents(a, done))
    decreases |a|
  {
    if a == [] {
      assert a + b == b;
    } else {
      assert (a + b)[1..] == a[1..] + b;
      NormConcat(a[1..], b,
                 if a[0] == "" || a[0] == "." then done else if a[0] == ".." then Parent(done) else done + [a[0]]);
    }
  }

  lemma {:induction false} NormUps(n: nat, done: Path)
    requires n <= |done|
    ensures NormComponents(Ups(n), done) == done[..|done| - n]
    decreases n
  {
    if n > 0 {
      assert Ups(n)[1..] == Ups(n - 1);
      NormUps(n - 1, Parent(done));
    }
  }

  /** The text of a normal path normalises to that path. */
  lemma NormText(p: Path)
    requires Normal(p)
    ensures NormPath(Text(p)) == Target(false, p)
  {
    if p == [] {
      assert Split("/") == ["", ""] by { assert Split("")== [""]; assert "/"[1..] == ""; }
      assert NormComponents(["", ""], []) == NormComponents([""], []) == [];
    } else {
      SplitSlashed(p);
      NormProper(p, []);
      assert ([""] + p)[1..] == p;
      assert p[0] != "" && p[0][0] != '/';
      assert Text(p)[1] == p[0][0];
    }
  }

  /** A relative text below a base walks on from the components of the base. */
  lemma JoinSplits(base: Path, s: string)
    requires Normal(base) && !IsAbsolute(s)
    ensures Split(JoinPath(base, s)) == [""] + base + Split(s)
    ensures s != "" ==> !NormPath(JoinPath(base, s)).twoSlashes
  {
    if base == [] {
      assert "/" + s == "" + "/" + s;
      SplitConcat("", s);
    } else {
      SplitSlashed(base);
      SplitConcat(Text(base), s);
      assert base[0] != "" && base[0][0] != '/';
      assert JoinPath(base, s)[1] == base[0][0];
    }
  }

  lemma PartsAreNames(n: nat, down: Path)
    requires Normal(down)
    ensures forall i :: 0 <= i < |Ups(n) + down| ==> '/' !in (Ups(n) + down)[i] && (Ups(n) + down)[i] != ""
  {
    var parts := Ups(n) + down;
    forall i | 0 <= i < |parts|
      ensures '/' !in parts[i] && parts[i] != ""
    {
      if i >= n {
        assert parts[i] == down[i - n] && ProperName(down[i - n]);
      }
    }
  }

  lemma RelPathParts(path: Path, start: Path)
    requires Normal(path) && Normal(start)
    ensures var n := CommonPrefix(start, path);
            var parts := Ups(|start| - n) + path[n..];
            Split(RelPath(path, start)) == if parts == [] then ["."] else parts
    ensures RelPath(path, start) != "" && !IsAbsolute(RelPath(path, start))
  {
    var n := CommonPrefix(start, path);
    var parts := Ups(|start| - n) + path[n..];
    if parts == [] {
      SplitPlain(".");
    } else {
      PartsAreNames(|start| - n, path[n..]);
      SplitJoin(parts);
      assert Join(parts)[0] == parts[0][0];
    }
  }

  /** Walking from start along the relative parts leads to path. */
  lemma RelPartsLead(path: Path, start: Path, n: nat)
    requires Normal(path) && Normal(start) && n == CommonPrefix(start, path)
    ensures NormComponents(Ups(|start| - n) + path[n..], start) == path
  {
    NormConcat(Ups(|start| - n), path[n..], start);
    NormUps(|start| - n, start);
    UpsThenDown(path, start, n);
  }

  lemma UpsThenDown(path: Path, start: Path, n: nat)
    requires Normal(path) && n <= |start| && n <= |path| && start[..n] == path[..n]
    ensures NormComponents(path[n..], start[..|start| - (|start| - n)]) == path
  {
    assert start[..|start| - (|start| - n)] == start[..n];
    NormProper(path[n..], start[..n]);
    assert start[..n] + path[n..] == path;
  }

  /** Resolving a link made for source gives source back, in the absolute and in the relative mode. */
  lemma LinkRoundTrip(source: Path, dest: Path, relative: bool)
    requires Normal(source) && Normal(dest)
    ensures ResolveLinkTarget(dest, LinkTarget(source, dest, relative)) == Target(false, source)
  {
    if relative {
      var start := Parent(dest);
      RelPathParts(source, start);
      var parts := Split(RelPath(source, start));
      JoinSplits(start, RelPath(source, start));
      RelPartsLead(source, start, CommonPrefix(start, source));
      assert NormComponents(parts, start) == source by {
        if parts == ["."] {
          assert NormComponents(parts, start) == NormComponents([], start);
        }
      }
      NormConcat([""] + start, parts, []);
      assert ([""] + start)[1..] == start;
      NormProper(start, []);
      assert [] + start == start;
    } else {
      if source != [] {
        SplitSlashed(source);
      }
      NormText(source);
    }
  }

  /** Every link made for a source below root is recognised as owned by root, whichever mode made it;
      a link made for a source elsewhere is not. */
  lemma MadeLinksAreOwned(source: Path, dest: Path, relative: bool, root: Path)
    requires Normal(source) && Normal(dest)
    ensures Owned(dest, LinkTarget(source, dest, relative), root) <==> Within(source, root)
  {
    LinkRoundTrip(source, dest, relative);
  }

  /** Equal texts at one place mean equal sources: a link is up to date exactly when it leads to its source. */
  lemma LinkTargetInjective(a: Path, b: Path, dest: Path, relative: bool)
    requires Normal(a) && Normal(b) && Normal(dest)
    ensures LinkTarget(a, dest, relative) == LinkTarget(b, dest, relative) <==> a == b
  {
    LinkRoundTrip(a, dest, relative);
    LinkRoundTrip(b, dest, relative);
  }

  // ---------------------------------------------------------------- what the texts look like

  /** A relative link leads up from its directory to where the ways part, and down from there. */
  lemma RelativeText(common: Path, up: Path, down: Path, name: string)
    requires Normal(common) && Normal(up) && Normal(down) && (up == [] || down == [] || up[0] != down[0])
    ensures Split(LinkTarget(common + down, common + up + [name], true)) ==
            if up == [] && down == [] then ["."] else seq(|up|, i => "..") + down
  {
    var start, path := common + up, common + down;
    assert Parent(common + up + [name]) == start;
    RelPathParts(path, start);
    PartingWays(common, up, down);
    assert path[|common|..] == down && |start| - |common| == |up|;
    assert Ups(|up|) + down == seq(|up|, i => "..") + down;
    if up == [] && down == [] {
      assert Ups(0) + down == [];
    }
  }

  lemma {:induction false} PartingWays(common: Path, up: Path, down: Path)
    requires up == [] || down == [] || up[0] != down[0]
    ensures CommonPrefix(common + up, common + down) == |common|
    decreases |common|
  {
    if common == [] {
      assert common + up == up && common + down == down;
    } else {
      assert (common + up)[1..] == common[1..] + up && (common + down)[1..] == common[1..] + down;
      PartingWays(common[1..], up, down);
    }
  }

  /** An absolute link names every directory from the root on. */
  lemma AbsoluteText(source: Path, dest: Path)
    requires Normal(source)
    ensures Split(LinkTarget(source, dest, false)) == [""] + if source == [] then [""] else source
  {
    if source == [] {
      assert "/"[1..] == "" && Split("") == [""];
      SplitCons("/");
    } else {
      SplitSlashed(source);
    }
  }

  /** The text is absolute exactly if the mode is. */
  lemma TextTellsMode(source: Path, dest: Path, relative: bool)
    requires Normal(source) && Normal(dest)
    ensures IsAbsolute(LinkTarget(source, dest, relative)) <==> !relative
  {
    if relative {
      RelPathParts(source, Parent(dest));
    } else if source != [] {
      SplitSlashed(source);
    }
  }

  lemma {:induction false} SameLead(lead: Path, a: Path, b: Path)
    ensures CommonPrefix(lead + a, lead + b) == |lead| + CommonPrefix(a, b)
    decreases |lead|
  {
    if lead == [] {
      assert lead + a == a && lead + b == b;
    } else {
      assert (lead + a)[1..] == lead[1..] + a && (lead + b)[1..] == lead[1..] + b;
      SameLead(lead[1..], a, b);
    }
  }

  lemma RelPathMoves(lead: Path, path: Path, start: Path)
    ensures RelPath(lead + path, lead + start) == RelPath(path, start)
  {
    var n := CommonPrefix(start, path);
    SameLead(lead, start, path);
    assert (lead + path)[|lead| + n..] == path[n..];
  }

  /** Wherever a source and a relative link to it are moved together, the text stays right; an absolute one does not
      depend on where the link is. */
  lemma TextsMove(a: Path, b: Path, source: Path, dest: Path, other: Path)
    requires dest != []
    ensures LinkTarget(a + source, a + dest, true) == LinkTarget(b + source, b + dest, true)
    ensures LinkTarget(source, dest, false) == LinkTarget(source, other, false)
  {
    assert Parent(a + dest) == a + Parent(dest) && Parent(b + dest) == b + Parent(dest);
    RelPathMoves(a, source, Parent(dest));
    RelPathMoves(b, source, Parent(dest));
  }

  /** Two leading slashes are kept apart from one: such a text points into no directory of the tree; with one slash, or
      with more than two, it does. */
  lemma DoubleSlash(link: Path, p: Path, n: nat, root: Path)
    requires Normal(p) && p != [] && n > 0
    ensures var raw := seq(n, i => '/') + Text(p)[1..];
            Owned(link, raw, root) <==> n != 2 && Within(p, root)
  {
    var raw := seq(n, i => '/') + Text(p)[1..];
    SplitSlashed(p);
    assert p[0] != "" && p[0][0] != '/' && Text(p)[1] == p[0][0];
    assert raw[0] == '/' && (n >= 2 ==> raw[1] == '/') && (n == 1 ==> raw[1] == p[0][0]);
    assert n == 2 ==> raw[2] == p[0][0];
    assert n > 2 ==> raw[2] == '/';
    SplitCons(Text(p));
    SameTails(Split(Text(p)[1..]), p);
    SplitSlashes(n, Text(p)[1..]);
    NormEmpties(n, p, []);
    NormProper(p, []);
  }

  lemma {:induction false} SplitSlashes(n: nat, s: string)
    ensures Split(seq(n, i => '/') + s) == seq(n, i => "") + Split(s)
    decreases n
  {
    var raw := seq(n, i => '/') + s;
    if n == 0 {
      assert raw == s;
    } else {
      assert raw[1..] == seq(n - 1, i => '/') + s && raw[0] == '/';
      SplitSlashes(n - 1, s);
      SplitCons(raw);
      assert [""] + (seq(n - 1, i => "") + Split(s)) == seq(n, i => "") + Split(s);
    }
  }

  lemma {:induction false} NormEmpties(n: nat, p: Path, done: Path)
    ensures NormComponents(seq(n, i => "") + p, done) == NormComponents(p, done)
    decreases n
  {
    var parts := seq(n, i => "") + p;
    if n == 0 {
      assert parts == p;
    } else {
      assert parts[1..] == seq(n - 1, i => "") + p && parts[0] == "";
      NormEmpties(n - 1, p, done);
    }
  }
}
