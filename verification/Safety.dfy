/** What no sequence of scans, dry runs and cleans can do, whatever fails on the way. */
module Safety {
  import opened Paths
  import opened Trees
  import opened Reconcile
  import opened Symlinks

  /** One operation on an output directory: making a link, or removing links of a directory that were broken or
      pointed into root when the operation began. */
  datatype Act =
    | Make(dest: Path, raw: string)
    | Remove(output: Path, links: set<Path>, root: Path)

  datatype Step = Step(act: Act, after: Tree)

  ghost predicate StepBy(t: Tree, u: Tree, act: Act) {
    match act
    case Make(dest, raw) => dest != [] && LinkStep(t, u, dest, raw)
    case Remove(output, links, root) =>
      && RemovalStep(t, u, output, links)
      && forall p :: p in links ==> IsLink(t, p) && Below(p, output) && (!Live(t, p) || Owned(p, t[p].raw, root))
  }

  /** The steps lead from t to u. */
  ghost predicate Reaches(t: Tree, steps: seq<Step>, u: Tree)
    decreases |steps|
  {
    if steps == [] then t == u
    else StepBy(t, steps[0].after, steps[0].act) && Reaches(steps[0].after, steps[1..], u)
  }

  lemma {:induction false} ReachesOn(t: Tree, first: seq<Step>, u: Tree, second: seq<Step>, v: Tree)
    requires Reaches(t, first, u) && Reaches(u, second, v)
    ensures Reaches(t, first + second, v)
    decreases |first|
  {
    if first == [] {
      assert first + second == second;
    } else {
      assert (first + second)[1..] == first[1..] + second;
      ReachesOn(first[0].after, first[1..], u, second, v);
    }
  }

  lemma OneStep(t: Tree, u: Tree, act: Act)
    requires StepBy(t, u, act)
    ensures Reaches(t, [Step(act, u)], u)
  {
    assert Reaches(u, [], u);
    assert [Step(act, u)][1..] == [];
  }

  /** The name of a replacement in preparation. */
  predicate TmpNamed(p: Path) {
    p != [] && |TMP_SUFFIX| <= |Name(p)| && Name(p)[|Name(p)| - |TMP_SUFFIX|..] == TMP_SUFFIX
  }

  lemma TmpOfIsTmpNamed(dest: Path)
    requires dest != []
    ensures TmpNamed(TmpOf(dest))
  {
    var name := TmpName(Name(dest));
    assert name[|name| - |TMP_SUFFIX|..] == TMP_SUFFIX;
  }

  lemma FileSurvivesStep(t: Tree, u: Tree, act: Act, p: Path)
    requires StepBy(t, u, act) && p in t && t[p].File? && !TmpNamed(p)
    ensures Same(t, u, p)
  {
    match act
    case Make(dest, raw) =>
      TmpOfIsTmpNamed(dest);
      assert LinkStepAt(t, u, dest, raw, p);
    case Remove(output, links, root) =>
      assert RemovalStepAt(t, u, output, links, p);
  }

  /** No run ever deletes or alters a regular file, unless it bears a temporary name. */
  lemma {:induction false} FilesSurvive(t: Tree, steps: seq<Step>, u: Tree, p: Path)
    requires Reaches(t, steps, u) && p in t && t[p].File? && !TmpNamed(p)
    ensures Same(t, u, p)
    decreases |steps|
  {
    if steps != [] {
      FileSurvivesStep(t, steps[0].after, steps[0].act, p);
      FilesSurvive(steps[0].after, steps[1..], u, p);
    }
  }

  /** The link at p is no business of this step: it is not where a link is to be made, and if it lies in the directory
      that is swept, it leads somewhere and points outside the root in question. */
  ghost predicate Foreign(t: Tree, act: Act, p: Path) {
    match act
    case Make(dest, _) => p != dest
    case Remove(output, _, root) => Below(p, output) ==> Live(t, p) && IsLink(t, p) && !Owned(p, t[p].raw, root)
  }

  /** It stays so during the whole run. */
  ghost predicate StaysForeign(t: Tree, steps: seq<Step>, p: Path)
    decreases |steps|
  {
    steps != [] ==> Foreign(t, steps[0].act, p) && StaysForeign(steps[0].after, steps[1..], p)
  }

  lemma LinkSurvivesStep(t: Tree, u: Tree, act: Act, p: Path)
    requires StepBy(t, u, act) && IsLink(t, p) && !TmpNamed(p) && Foreign(t, act, p)
    ensures Same(t, u, p)
  {
    match act
    case Make(dest, raw) =>
      TmpOfIsTmpNamed(dest);
      assert LinkStepAt(t, u, dest, raw, p);
    case Remove(output, links, root) =>
      assert RemovalStepAt(t, u, output, links, p);
  }

  /** No run ever deletes or alters a link that stays live, points elsewhere and is not at a wanted destination. */
  lemma {:induction false} ForeignLinksSurvive(t: Tree, steps: seq<Step>, u: Tree, p: Path)
    requires Reaches(t, steps, u) && IsLink(t, p) && !TmpNamed(p) && StaysForeign(t, steps, p)
    ensures Same(t, u, p)
    decreases |steps|
  {
    if steps != [] {
      LinkSurvivesStep(t, steps[0].after, steps[0].act, p);
      ForeignLinksSurvive(steps[0].after, steps[1..], u, p);
    }
  }

  /** The act concerns one of the output directories only. */
  ghost predicate Confined(act: Act, outs: set<Path>) {
    match act
    case Make(dest, _) => exists o :: o in outs && Below(dest, o)
    case Remove(output, _, _) => output in outs
  }

  lemma ConfinedStepDrifts(t: Tree, u: Tree, act: Act, outs: set<Path>)
    requires StepBy(t, u, act) && Confined(act, outs)
    ensures Drift(t, u, outs)
  {
    forall q | !Same(t, u, q)
      ensures exists o :: o in outs && (Below(q, o) || (q <= o && q !in t && IsDir(u, q)))
    {
      match act
      case Make(dest, raw) =>
        var o :| o in outs && Below(dest, o);
        assert LinkStepAt(t, u, dest, raw, q);
        if q == TmpOf(dest) {
          assert o <= Parent(dest);
        } else if q != dest {
          PrefixesCompare(q, o, dest);
        }
      case Remove(output, links, root) =>
        assert RemovalStepAt(t, u, output, links, q);
    }
  }

  /** Whatever fails, a run changes nothing but what lies below its output directories and the missing directories
      above them. */
  lemma {:induction false} OnlyOutputsChange(t: Tree, steps: seq<Step>, u: Tree, outs: set<Path>)
    requires Reaches(t, steps, u) && forall step :: step in steps ==> Confined(step.act, outs)
    ensures Drift(t, u, outs)
    decreases |steps|
  {
    if steps != [] {
      assert steps[0] in steps;
      ConfinedStepDrifts(t, steps[0].after, steps[0].act, outs);
      OnlyOutputsChange(steps[0].after, steps[1..], u, outs);
      DriftTransitive(t, steps[0].after, u, outs);
    }
  }

  /** A directory that lies apart from the outputs keeps everything at and below it, whatever fails: no input is ever
      touched, and no output by what happens to others. */
  lemma ApartIsUntouched(t: Tree, steps: seq<Step>, u: Tree, outs: set<Path>, dir: Path, p: Path)
    requires Reaches(t, steps, u) && forall step :: step in steps ==> Confined(step.act, outs)
    requires (forall o :: o in outs ==> !(o <= dir) && !(dir <= o)) && dir <= p
    ensures Same(t, u, p)
  {
    OnlyOutputsChange(t, steps, u, outs);
    ApartUnderDrift(t, u, outs, dir, p);
  }

  /** This step is not aimed at a link at p that stores raw. */
  ghost predicate Spares(act: Act, p: Path, raw: string) {
    match act
    case Make(dest, _) => p != dest
    case Remove(output, _, root) => Below(p, output) ==> !Owned(p, raw, root)
  }

  lemma {:induction false} LiveLinkSurvives(first: Tree, t: Tree, steps: seq<Step>, u: Tree, outs: set<Path>, p: Path)
    requires Drift(first, t, outs) && Same(first, t, p)
    requires Reaches(t, steps, u) && forall step :: step in steps ==> Confined(step.act, outs)
    requires p != [] && ProperName(Name(p)) && IsLink(first, p) && !TmpNamed(p) && Live(first, p)
             && LeadsAway(first, p, outs)
    requires forall step :: step in steps ==> Spares(step.act, p, first[p].raw)
    ensures Same(first, u, p)
    decreases |steps|
  {
    if steps != [] {
      var next := steps[0].after;
      assert steps[0] in steps;
      LiveUnderDrift(first, t, p, outs);
      LinkSurvivesStep(t, next, steps[0].act, p);
      ConfinedStepDrifts(t, next, steps[0].act, outs);
      DriftTransitive(first, t, next, outs);
      LiveLinkSurvives(first, next, steps[1..], u, outs, p);
    }
  }

  /** A live link that leads out of the outputs survives every run whose steps are not aimed at it: it is at no wanted
      destination and points outside the root of every library that sweeps the directory it is in. */
  lemma ForeignLinksStay(t: Tree, steps: seq<Step>, u: Tree, outs: set<Path>, p: Path)
    requires Reaches(t, steps, u) && forall step :: step in steps ==> Confined(step.act, outs)
    requires p != [] && ProperName(Name(p)) && IsLink(t, p) && !TmpNamed(p) && Live(t, p) && LeadsAway(t, p, outs)
    requires forall step :: step in steps ==> Spares(step.act, p, t[p].raw)
    ensures Same(t, u, p)
  {
    LiveLinkSurvives(t, t, steps, u, outs, p);
  }
}
