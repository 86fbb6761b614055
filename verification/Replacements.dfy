/** Replacing links by way of temporary names, where replacements that were never finished may be in the way. */
module Replacements {
  import opened Paths
  import opened Trees
  import opened Reconcile

  /** p is a temporary name. */
  predicate IsTmp(p: Path) {
    p != [] && |Name(p)| > |TMP_SUFFIX| && Name(p)[0] == '.' && Name(p)[|Name(p)| - |TMP_SUFFIX|..] == TMP_SUFFIX
  }

  /** The destination it is for. */
  function Untmp(p: Path): Path
    requires IsTmp(p)
  {
    Parent(p) + [Name(p)[1..|Name(p)| - |TMP_SUFFIX|]]
  }

  lemma TmpAndBack(d: Path)
    requires d != []
    ensures IsTmp(TmpOf(d)) && Untmp(TmpOf(d)) == d
    ensures Parent(TmpOf(d)) == Parent(d) && Name(TmpOf(d)) == "." + Name(d) + ".boomarr-tmp"
  {
    var n := TmpName(Name(d));
    assert n[|n| - |TMP_SUFFIX|..] == TMP_SUFFIX && n[1..|n| - |TMP_SUFFIX|] == Name(d);
  }

  lemma UntmpAndBack(p: Path)
    requires IsTmp(p)
    ensures Untmp(p) != [] && TmpOf(Untmp(p)) == p
  {
    var n := Name(p);
    assert n == "." + n[1..|n| - |TMP_SUFFIX|] + n[|n| - |TMP_SUFFIX|..];
  }

  /** What sits at the temporary names of wanted links. */
  function Leftovers(t: Tree, wanted: Wanted): set<Path> {
    set p | p in t && IsTmp(p) && Untmp(p) in wanted
  }

  /** What linking takes away there: the link in question stands and has to be replaced. */
  function Used(t: Tree, wanted: Wanted): set<Path> {
    set p | p in t && IsTmp(p) && Replaced(t, wanted, Untmp(p))
  }

  predicate Replaced(t: Tree, wanted: Wanted, d: Path) {
    d in wanted && d in t && t[d] != Link(wanted[d])
  }

  /** The tree after every wanted link has been made, or replaced by way of its temporary name. */
  function LinkedOver(t: Tree, wanted: Wanted): Tree {
    AddLinks(t - Used(t, wanted), wanted)
  }

  /** But for links at temporary names, the destinations are clear. */
  ghost predicate Linkable(t: Tree, wanted: Wanted) {
    Clear(t - Leftovers(t, wanted), wanted) && forall p :: p in Leftovers(t, wanted) ==> t[p].Link?
  }

  // ---------------------------------------------------------------- destinations that are taken

  /** A file or a directory stands at d: it is left alone. */
  predicate Obstructed(t: Tree, d: Path) {
    d in t && !t[d].Link?
  }

  /** The wanted links nothing but a link stands in the way of. */
  function Feasible(t: Tree, wanted: Wanted): Wanted {
    map d | d in wanted && !Obstructed(t, d) :: wanted[d]
  }

  /** But for links at temporary names, and for the destinations that are taken, the destinations are clear. */
  ghost predicate Makeable(t: Tree, wanted: Wanted) {
    Linkable(t, Feasible(t, wanted))
  }

  /** The job without the links that cannot be made. */
  function Narrowed(t: Tree, job: Job): Job {
    job.(wanted := Feasible(t, job.wanted))
  }

  lemma LinkableIsMakeable(t: Tree, wanted: Wanted)
    requires Linkable(t, wanted)
    ensures Feasible(t, wanted) == wanted && Makeable(t, wanted)
  {
    forall d | d in wanted ensures !Obstructed(t, d) { LinkableAt(t, wanted, d); }
  }

  lemma FeasibleStep(t: Tree, made: Wanted, d: Path, raw: string)
    ensures var some := Feasible(t, made);
            Feasible(t, made[d := raw]) == if Obstructed(t, d) then some else some[d := raw]
  {}

  lemma FewerFeasible(t: Tree, wanted: Wanted, made: Wanted)
    requires forall d :: d in made ==> d in wanted && made[d] == wanted[d]
    ensures Feasible(t, made).Keys <= Feasible(t, wanted).Keys
    ensures forall d :: d in Feasible(t, made) ==> Feasible(t, made)[d] == wanted[d] == Feasible(t, wanted)[d]
  {}

  /** Linking leaves alone what stands in its way. */
  lemma StaysObstructed(t: Tree, wanted: Wanted, made: Wanted, d: Path)
    requires Makeable(t, wanted) && made.Keys <= Feasible(t, wanted).Keys && Obstructed(t, d)
    ensures Same(t, LinkedOver(t, made), d) && Obstructed(LinkedOver(t, made), d)
  {
    assert Used(t, made) <= Leftovers(t, Feasible(t, wanted));
  }

  // ---------------------------------------------------------------- basic facts

  /** Where nothing sits at temporary names, this is linking as it is meant to be. */
  lemma ClearIsLinkable(t: Tree, wanted: Wanted, made: Wanted)
    requires Clear(t, wanted) && made.Keys <= wanted.Keys
    ensures Linkable(t, wanted) && LinkedOver(t, made) == AddLinks(t, made)
  {
    forall p ensures IsTmp(p) && Untmp(p) in wanted ==> p !in t { NothingAtTmp(t, wanted, p); }
    assert Leftovers(t, wanted) == {} && t - {} == t;
    assert Used(t, made) == {};
  }

  lemma NothingAtTmp(t: Tree, wanted: Wanted, p: Path)
    requires Clear(t, wanted)
    ensures IsTmp(p) && Untmp(p) in wanted ==> p !in t
  {
    if IsTmp(p) && Untmp(p) in wanted {
      UntmpAndBack(p);
      assert ClearAt(t, wanted, Untmp(p));
    }
  }

  lemma NoLeftoverAbove(t: Tree, wanted: Wanted, d: Path, a: Path)
    requires Linkable(t, wanted) && d in wanted
    ensures a in Leftovers(t, wanted) ==> !(a <= d)
  {
    if IsTmp(a) && Untmp(a) in wanted {
      UntmpAndBack(a);
      assert ClearAt(t - Leftovers(t, wanted), wanted, Untmp(a));
    }
  }

  /** What is known about one wanted link. */
  lemma LinkableAt(t: Tree, wanted: Wanted, d: Path)
    requires Linkable(t, wanted) && d in wanted
    ensures d != [] && Normal(d) && (d in t ==> t[d].Link?) && (forall a :: a < d && a in t ==> t[a].Dir?)
    ensures forall e :: e in wanted ==> !(d < e) && !(TmpOf(d) <= e)
    ensures TmpOf(d) in t ==> t[TmpOf(d)].Link?
  {
    var rest := t - Leftovers(t, wanted);
    assert ClearAt(rest, wanted, d);
    forall a | a <= d ensures a in t ==> a in rest { NoLeftoverAbove(t, wanted, d, a); }
    TmpAndBack(d);
    if TmpOf(d) in t {
      assert TmpOf(d) in Leftovers(t, wanted);
    }
  }

  /** Making other links leaves alone what is at or above a destination, and what is at its temporary name unless it was
      used for that very link. */
  ghost predicate LeftAlone(t: Tree, made: Wanted, d: Path)
    requires d != []
  {
    && TmpOf(d) !in made && TmpOf(d) !in Ancestors(made.Keys) && d !in Ancestors(made.Keys)
    && (forall a :: a <= d ==> a !in Used(t, made)) && (forall a :: a < d ==> a !in made)
    && (TmpOf(d) in Used(t, made) <==> TmpOf(d) in t && Replaced(t, made, d))
  }

  lemma NotUsed(t: Tree, wanted: Wanted, made: Wanted, d: Path, a: Path)
    requires Linkable(t, wanted) && made.Keys <= wanted.Keys && d in wanted && a <= d
    ensures a !in Used(t, made)
  {
    NoLeftoverAbove(t, wanted, d, a);
  }

  lemma NotMade(t: Tree, wanted: Wanted, d: Path, a: Path)
    requires Linkable(t, wanted) && d in wanted && a < d
    ensures a !in wanted
  {
    if a in wanted {
      LinkableAt(t, wanted, a);
    }
  }

  lemma NothingMadeAround(t: Tree, wanted: Wanted, made: Wanted, d: Path)
    requires Linkable(t, wanted) && made.Keys <= wanted.Keys && d in wanted
    ensures d != [] && TmpOf(d) !in made
    ensures TmpOf(d) !in Ancestors(made.Keys) && d !in Ancestors(made.Keys)
  {
    LinkableAt(t, wanted, d);
  }

  lemma TmpIsUsed(t: Tree, made: Wanted, d: Path)
    requires d != []
    ensures TmpOf(d) in Used(t, made) <==> TmpOf(d) in t && Replaced(t, made, d)
  {
    TmpAndBack(d);
  }

  lemma IsLeftAlone(t: Tree, wanted: Wanted, made: Wanted, d: Path)
    requires Linkable(t, wanted) && made.Keys <= wanted.Keys && d in wanted
    ensures d != [] && LeftAlone(t, made, d)
  {
    NothingMadeAround(t, wanted, made, d);
    TmpIsUsed(t, made, d);
    forall a | a <= d ensures a !in Used(t, made) { NotUsed(t, wanted, made, d, a); }
    forall a | a < d ensures a !in made { NotMade(t, wanted, d, a); }
  }

  /** What making other links leaves at and around a destination. */
  lemma AroundOne(t: Tree, made: Wanted, d: Path)
    requires d != [] && LeftAlone(t, made, d) && forall a :: a < d && a in t ==> t[a].Dir?
    ensures var u := LinkedOver(t, made);
            && (d in u <==> d in t || d in made) && (d in u ==> u[d] == if d in made then Link(made[d]) else t[d])
            && (TmpOf(d) in u <==> TmpOf(d) in t && !Replaced(t, made, d))
            && (TmpOf(d) in u ==> u[TmpOf(d)] == t[TmpOf(d)])
            && forall a :: a < d && a in u ==> u[a].Dir?
  {}

  lemma OneClear(u: Tree, d: Path, raw: string)
    requires d != [] && Normal(d) && (d in u ==> u[d].Link?) && (forall a :: a < d && a in u ==> u[a].Dir?)
    requires TmpOf(d) in u ==> u[TmpOf(d)].Link?
    ensures Linkable(u, map[d := raw])
  {
    TmpAndBack(d);
    var one := map[d := raw];
    forall p ensures p in Leftovers(u, one) <==> p in u && p == TmpOf(d) {
      if IsTmp(p) {
        UntmpAndBack(p);
      }
    }
    assert TmpOf(d)[|d| - 1] == TmpName(Name(d)) && |TmpName(Name(d))| > |d[|d| - 1]|;
    assert ClearAt(u - Leftovers(u, one), one, d);
  }

  lemma OneLinkable(t: Tree, wanted: Wanted, made: Wanted, d: Path)
    requires Linkable(t, wanted) && made.Keys <= wanted.Keys && d in wanted
    ensures Linkable(LinkedOver(t, made), map[d := wanted[d]])
    ensures d != [] && forall e :: e in made ==> !(e < d) && !(d < e)
  {
    LinkableAt(t, wanted, d);
    IsLeftAlone(t, wanted, made, d);
    AroundOne(t, made, d);
    OneClear(LinkedOver(t, made), d, wanted[d]);
  }

  /** What replacing the next link takes away it would have taken away from the start, unless it has been made since. */
  lemma UsedAt(t: Tree, made: Wanted, d: Path, raw: string, p: Path)
    requires d != [] && LeftAlone(t, made, d) && (d in made ==> made[d] == raw)
    requires forall a :: a < d && a in t ==> t[a].Dir?
    ensures p in Used(t, made[d := raw]) <==> p in Used(t, made) || p in Used(LinkedOver(t, made), map[d := raw])
  {
    if IsTmp(p) {
      UntmpAndBack(p);
      if Untmp(p) == d {
        AroundOne(t, made, d);
      }
    }
  }

  /** What replacing the next link takes away it would have taken away from the start, unless it has been made since. */
  lemma UsedByOne(t: Tree, made: Wanted, d: Path, raw: string)
    requires d != [] && LeftAlone(t, made, d) && (d in made ==> made[d] == raw)
    requires forall a :: a < d && a in t ==> t[a].Dir?
    ensures Used(t, made[d := raw]) == Used(t, made) + Used(LinkedOver(t, made), map[d := raw])
  {
    forall p
      ensures p in Used(t, made[d := raw]) <==> p in Used(t, made) || p in Used(LinkedOver(t, made), map[d := raw])
    {
      UsedAt(t, made, d, raw, p);
    }
  }

  lemma WithoutAndLinked(t: Tree, made: Wanted, gone: set<Path>)
    requires gone !! made.Keys && gone !! Ancestors(made.Keys)
    ensures AddLinks(t, made) - gone == AddLinks(t - gone, made)
  {}

  lemma UsedIsItsTmp(u: Tree, d: Path, raw: string)
    requires d != []
    ensures Used(u, map[d := raw]) <= {TmpOf(d)}
  {
    forall p | p in Used(u, map[d := raw]) ensures p == TmpOf(d) { UntmpAndBack(p); }
  }

  lemma GoneTwice(t: Tree, a: set<Path>, b: set<Path>)
    ensures t - a - b == t - (a + b)
  {}

  lemma OverOne(t: Tree, made: Wanted, d: Path, raw: string)
    requires d != [] && LeftAlone(t, made, d) && (d in made ==> made[d] == raw)
    requires forall a :: a < d && a in t ==> t[a].Dir?
    requires forall e :: e in made ==> !(e < d) && !(d < e)
    ensures LinkedOver(LinkedOver(t, made), map[d := raw]) == LinkedOver(t, made[d := raw])
  {
    var first, second := Used(t, made), Used(LinkedOver(t, made), map[d := raw]);
    UsedByOne(t, made, d, raw);
    UsedIsItsTmp(LinkedOver(t, made), d, raw);
    WithoutAndLinked(t - first, made, second);
    GoneTwice(t, first, second);
    AddLinksStep(t - (first + second), made, d, raw);
  }

  /** Making one more link after others is making them all. */
  lemma OverStep(t: Tree, wanted: Wanted, made: Wanted, d: Path, raw: string)
    requires Linkable(t, wanted) && made.Keys <= wanted.Keys && d in wanted && (d in made ==> made[d] == raw)
    ensures LinkedOver(LinkedOver(t, made), map[d := raw]) == LinkedOver(t, made[d := raw])
    ensures var u := LinkedOver(t, made);
            d in u && u[d] == Link(raw) <==> d in made || (d in t && t[d] == Link(raw))
  {
    LinkableAt(t, wanted, d);
    IsLeftAlone(t, wanted, made, d);
    AroundOne(t, made, d);
    OverOne(t, made, d, raw);
  }

  lemma OverNone(t: Tree)
    ensures LinkedOver(t, map[]) == t
  {
    assert Used(t, map[]) == {} && t - {} == t;
    AddNoLinks(t);
  }

  // ---------------------------------------------------------------- whole jobs

  /** What a linked tree comes to. */
  ghost function Swept(t: Tree, job: Job): Tree {
    if Blocked(t, job) then t else Pruned(t - PlanOf(t, job), job.output)
  }

  /** The tree after a job, replacements that were never finished included. */
  ghost function OverResult(t: Tree, job: Job): Tree {
    Swept(LinkedOver(t, job.wanted), job)
  }

  ghost function RunOver(t: Tree, jobs: seq<Job>): Tree {
    if jobs == [] then t else OverResult(RunOver(t, jobs[..|jobs| - 1]), jobs[|jobs| - 1])
  }
}
