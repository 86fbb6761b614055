/** How old the statistics are that a request is answered with, told by the positions of steps in a run. */
module Freshness {
  import opened Trees
  import opened Protocol

  /** A request made by the step at position asked was answered with what a thread had collected that was started by the
      step at position started. */
  datatype Given = Given(asked: nat, started: Option<nat>)

  /** What an observer of a run notes: how many steps there were; which step made the request a computation works for,
      and which one started the thread of a computation; which one started the thread the cached statistics come from;
      the answers; the steps after which older statistics are out of date, and the position after the last of them. */
  datatype Notes = Notes(position: nat, asked: map<nat, nat>, started: map<nat, nat>, cachedSince: Option<nat>,
                         given: seq<Given>, cuts: set<nat>, last: nat)

  const NOTHING_NOTED := Notes(0, map[], map[], None, [], {}, 0)

  function Since(n: Notes, task: nat): Option<nat> {
    if task in n.started then Some(n.started[task]) else None
  }

  function AnswerTo(n: Notes, task: nat, since: Option<nat>): seq<Given> {
    if task in n.asked then [Given(n.asked[task], since)] else []
  }

  /** Whether a request is answered at once, and whether a computation starts a thread, is seen in what the step
      does. */
  function NoteStep(n: Notes, s: State, ev: Event): Notes
    requires Enabled(s, ev)
  {
    var u := Apply(s, ev).status;
    match ev
    case AskStatus(_) =>
      if u.answers != s.status.answers then n.(given := n.given + [Given(n.position, n.cachedSince)])
      else n.(asked := n.asked[s.status.nextTask := n.position])
    case Acquire(task, _) =>
      if task in u.tasks then n.(started := n.started[task := n.position])
      else n.(given := n.given + AnswerTo(n, task, n.cachedSince))
    case Collected(task, _) =>
      n.(cachedSince := Since(n, task), given := n.given + AnswerTo(n, task, Since(n, task)))
    case ScanEnds => n.(cuts := n.cuts + {n.position}, last := n.position + 1)
    case ConfigApplied => n.(cuts := n.cuts + {n.position}, last := n.position + 1)
    case _ => n
  }

  function NextNotes(n: Notes, s: State, ev: Event): Notes
    requires Enabled(s, ev)
  {
    NoteStep(n, s, ev).(position := n.position + 1)
  }

  ghost function Watch(n: Notes, s: State, run: seq<Event>): Notes
    requires Possible(s, run)
    decreases |run|
  {
    if run == [] then n else Watch(NextNotes(n, s, run[0]), Apply(s, run[0]), run[1..])
  }

  // ---------------------------------------------------------------- what the notes show

  /** No step has put older statistics out of date between the start of the thread and the request. */
  ghost predicate GivenInTime(g: Given, n: Notes) {
    && g.asked < n.position && g.started.Some?
    && forall i :: i in n.cuts && i < g.asked ==> i < g.started.value
  }

  ghost predicate TaskInTime(s: Status, n: Notes, id: nat)
    requires id in s.tasks
  {
    s.tasks[id].Gathering? ==>
      && id in n.started && n.started[id] < n.position && s.tasks[id].generation <= s.generation
      && (s.tasks[id].generation == s.generation ==> n.last <= n.started[id])
      && (id in n.asked ==> n.asked[id] < n.started[id])
  }

  /** Cached statistics that count as current come from a thread started after the last step that put older ones out of
      date, and so will those being collected in the current generation. */
  ghost predicate InTime(s: Status, n: Notes) {
    && (forall i :: i in n.cuts ==> i < n.last) && n.last <= n.position
    && (forall id :: id in n.asked ==> id < s.nextTask && n.asked[id] < n.position)
    && (forall id :: id in s.tasks ==> id < s.nextTask && TaskInTime(s, n, id))
    && (s.cached.Some? ==> s.cached.value.generation <= s.generation)
    && (Current(s) ==> n.cachedSince.Some? && n.last <= n.cachedSince.value)
    && (forall g :: g in n.given ==> GivenInTime(g, n))
  }

  lemma StartsInTime(db: nat)
    ensures InTime(Initial(db).status, NOTHING_NOTED)
  {}

  lemma OneMoreGiven(n: Notes, next: Notes, g: Given)
    requires (forall x :: x in n.given ==> GivenInTime(x, n)) && next.cuts == n.cuts && next.position >= n.position
    requires next.given == n.given || (next.given == n.given + [g] && GivenInTime(g, next))
    ensures forall x :: x in next.given ==> GivenInTime(x, next)
  {
    forall x | x in next.given ensures GivenInTime(x, next) {
      if x in n.given {
        assert GivenInTime(x, n);
      }
    }
  }

  lemma CutInTime(s: State, n: Notes, ev: Event)
    requires InTime(s.status, n) && Enabled(s, ev) && (ev.ScanEnds? || ev.ConfigApplied?)
    ensures InTime(Apply(s, ev).status, NextNotes(n, s, ev))
  {
    var u, next := Apply(s, ev).status, NextNotes(n, s, ev);
    forall g | g in next.given ensures GivenInTime(g, next) { assert GivenInTime(g, n); }
    forall id | id in u.tasks ensures id < u.nextTask && TaskInTime(u, next, id) {
      if id in s.status.tasks {
        assert TaskInTime(s.status, n, id);
      }
    }
  }

  lemma AskInTime(s: State, n: Notes, now: real)
    requires InTime(s.status, n)
    ensures InTime(Apply(s, AskStatus(now)).status, NextNotes(n, s, AskStatus(now)))
  {
    var ev := AskStatus(now);
    var u, next := Apply(s, ev).status, NextNotes(n, s, ev);
    OneMoreGiven(n, next, Given(n.position, n.cachedSince));
    forall id | id in u.tasks ensures id < u.nextTask && TaskInTime(u, next, id) {
      if id in s.status.tasks {
        assert TaskInTime(s.status, n, id);
      }
    }
  }

  lemma AcquireInTime(s: State, n: Notes, task: nat, now: real)
    requires InTime(s.status, n) && Enabled(s, Acquire(task, now))
    ensures InTime(Apply(s, Acquire(task, now)).status, NextNotes(n, s, Acquire(task, now)))
  {
    var ev := Acquire(task, now);
    var u, next := Apply(s, ev).status, NextNotes(n, s, ev);
    OneMoreGiven(n, next, Given(if task in n.asked then n.asked[task] else 0, n.cachedSince));
    forall id | id in u.tasks ensures id < u.nextTask && TaskInTime(u, next, id) {
      assert TaskInTime(s.status, n, id);
    }
  }

  lemma CollectedInTime(s: State, n: Notes, task: nat, now: real)
    requires InTime(s.status, n) && Enabled(s, Collected(task, now))
    ensures InTime(Apply(s, Collected(task, now)).status, NextNotes(n, s, Collected(task, now)))
  {
    var ev := Collected(task, now);
    var u, next := Apply(s, ev).status, NextNotes(n, s, ev);
    assert TaskInTime(s.status, n, task);
    OneMoreGiven(n, next, Given(if task in n.asked then n.asked[task] else 0, Since(n, task)));
    forall id | id in u.tasks ensures id < u.nextTask && TaskInTime(u, next, id) {
      assert TaskInTime(s.status, n, id);
    }
  }

  lemma OtherInTime(s: State, n: Notes, ev: Event)
    requires InTime(s.status, n) && Enabled(s, ev)
    requires !ev.ScanEnds? && !ev.ConfigApplied? && !ev.AskStatus? && !ev.Acquire? && !ev.Collected?
    ensures InTime(Apply(s, ev).status, NextNotes(n, s, ev))
  {
    var u, next := Apply(s, ev).status, NextNotes(n, s, ev);
    forall g | g in next.given ensures GivenInTime(g, next) { assert GivenInTime(g, n); }
    forall id | id in u.tasks ensures id < u.nextTask && TaskInTime(u, next, id) {
      assert TaskInTime(s.status, n, id);
    }
  }

  lemma InTimeStep(s: State, n: Notes, ev: Event)
    requires InTime(s.status, n) && Enabled(s, ev)
    ensures InTime(Apply(s, ev).status, NextNotes(n, s, ev))
  {
    match ev
    case ScanEnds => CutInTime(s, n, ev);
    case ConfigApplied => CutInTime(s, n, ev);
    case AskStatus(now) => AskInTime(s, n, now);
    case Acquire(task, now) => AcquireInTime(s, n, task, now);
    case Collected(task, now) => CollectedInTime(s, n, task, now);
    case _ => OtherInTime(s, n, ev);
  }

  lemma {:induction false} RunInTime(s: State, n: Notes, run: seq<Event>)
    requires InTime(s.status, n) && Possible(s, run)
    ensures InTime(Run(s, run).status, Watch(n, s, run))
    decreases |run|
  {
    if run != [] {
      InTimeStep(s, n, run[0]);
      RunInTime(Apply(s, run[0]), NextNotes(n, s, run[0]), run[1..]);
    }
  }

  // ---------------------------------------------------------------- no stale answers

  lemma {:induction false} WatchOn(s: State, n: Notes, a: seq<Event>, b: seq<Event>)
    requires Possible(s, a + b)
    ensures Possible(s, a) && Possible(Run(s, a), b)
    ensures Watch(n, s, a + b) == Watch(Watch(n, s, a), Run(s, a), b) && Run(s, a + b) == Run(Run(s, a), b)
    decreases |a|
  {
    if a == [] {
      assert a + b == b;
    } else {
      assert (a + b)[0] == a[0] && (a + b)[1..] == a[1..] + b;
      WatchOn(Apply(s, a[0]), NextNotes(n, s, a[0]), a[1..], b);
    }
  }

  lemma {:induction false} NotesGrow(s: State, n: Notes, run: seq<Event>)
    requires Possible(s, run)
    ensures n.cuts <= Watch(n, s, run).cuts && Watch(n, s, run).position == n.position + |run|
    decreases |run|
  {
    if run != [] {
      NotesGrow(Apply(s, run[0]), NextNotes(n, s, run[0]), run[1..]);
    }
  }

  lemma CutIsNoted(s: State, n: Notes, a: seq<Event>, ev: Event, b: seq<Event>)
    requires Possible(s, a + ([ev] + b)) && (ev.ScanEnds? || ev.ConfigApplied?)
    ensures n.position + |a| in Watch(n, s, a + ([ev] + b)).cuts
  {
    WatchOn(s, n, a, [ev] + b);
    NotesGrow(s, n, a);
    FirstCut(Run(s, a), Watch(n, s, a), ev, b);
  }

  lemma FirstCut(s: State, n: Notes, ev: Event, b: seq<Event>)
    requires Possible(s, [ev] + b) && (ev.ScanEnds? || ev.ConfigApplied?)
    ensures n.position in Watch(n, s, [ev] + b).cuts
  {
    assert ([ev] + b)[0] == ev && ([ev] + b)[1..] == b;
    NotesGrow(Apply(s, ev), NextNotes(n, s, ev), b);
  }

  lemma StartedAfterCuts(n: Notes, i: nat)
    requires (forall g :: g in n.given ==> GivenInTime(g, n)) && i in n.cuts
    ensures forall g :: g in n.given && g.asked > i ==> g.started.Some? && g.started.value > i
  {
    forall g | g in n.given && g.asked > i ensures g.started.Some? && g.started.value > i {
      assert GivenInTime(g, n);
    }
  }

  lemma NoStaleFrom(s: State, a: seq<Event>, ev: Event, b: seq<Event>, run: seq<Event>)
    requires run == a + ([ev] + b) && Possible(s, run) && (ev.ScanEnds? || ev.ConfigApplied?)
    requires InTime(s.status, NOTHING_NOTED)
    ensures forall g :: g in Watch(NOTHING_NOTED, s, run).given && g.asked > |a| ==>
              g.started.Some? && g.started.value > |a|
  {
    RunInTime(s, NOTHING_NOTED, run);
    CutIsNoted(s, NOTHING_NOTED, a, ev, b);
    StartedAfterCuts(Watch(NOTHING_NOTED, s, run), |a|);
  }

  /** The end of a scan, or of a configuration change, puts all older statistics out of date: in every possible run, no
      request made after it is answered with what a thread has collected that was started before it. */
  lemma NoStaleAnswer(db: nat, start: State, a: seq<Event>, ev: Event, b: seq<Event>)
    requires start == Initial(db) && Possible(start, a + ([ev] + b)) && (ev.ScanEnds? || ev.ConfigApplied?)
    ensures forall g :: g in Watch(NOTHING_NOTED, start, a + ([ev] + b)).given && g.asked > |a| ==>
              g.started.Some? && g.started.value > |a|
  {
    StartsInTime(db);
    NoStaleFrom(start, a, ev, b, a + ([ev] + b));
  }
}
