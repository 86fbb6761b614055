/** The daemon as a state machine. A step is what one coroutine does between two points at which it awaits something;
    the event loop may interleave such steps in any way. */
module Protocol {
  import opened Trees
  import opened Requests

  const STATUS_MAX_AGE: real := 300.0

  /** Where the worker is. Scanning remembers the requests it covers and the store its runner was built with. */
  datatype Worker =
    | Waiting
    | Collecting(batch: seq<ScanEvent>)
    | Scanning(batch: seq<ScanEvent>, event: ScanEvent, usedStore: nat)
    | Stopped

  datatype Fate = Finished | Skipped | Dropped

  datatype Batch = Batch(events: seq<ScanEvent>, fate: Fate)

  /** The queue, the worker and its flags; for the record, the requests accepted, the batches dealt with, and whether
      the running scan has been asked to stop since it started. */
  datatype Work = Work(queue: seq<ScanEvent>, worker: Worker, shutdown: bool, cancel: bool,
                       accepted: seq<ScanEvent>, history: seq<Batch>, stopAsked: bool)

  /** The database of the configuration, the current store, the one the runner was built with, and the closed ones. */
  datatype Stores = Stores(db: nat, store: nat, runnerStore: nat, closed: set<nat>, nextStore: nat)

  /** A computation of the library statistics. asked: the generation when it was requested; began: the generation when
      the collecting thread was started; generation: what the code took down. */
  datatype Task =
    | Queued(asked: nat)
    | Gathering(asked: nat, generation: nat, began: nat, usedStore: nat)

  datatype Cached = Cached(generation: nat, time: real, began: nat)

  /** A request made at asked has been answered with data collected since began. */
  datatype Answer = Answer(asked: nat, began: nat)

  /** The status cache; for the record, the answers given and the stores used by collecting threads whose task has been
      cancelled. */
  datatype Status = Status(generation: nat, cached: Option<Cached>, lock: Option<nat>, tasks: map<nat, Task>,
                           background: Option<nat>, nextTask: nat, answers: seq<Answer>, orphans: multiset<nat>)

  datatype State = State(work: Work, stores: Stores, status: Status)

  datatype Event =
    | RequestScan(e: ScanEvent)
    | CancelScan
    | RequestShutdown
    | TakeEvent
    | WaitTimeout
    | Deadline(preflightOk: bool)
    | ScanEnds
    | ApplyConfig(newDb: nat)
    | ConfigApplied
    | AskStatus(now: real)
    | Acquire(task: nat, now: real)
    | Collected(task: nat, now: real)
    | CollectFails(task: nat)
    | CancelTask(task: nat)
    | OrphanEnds(usedStore: nat)

  /** The daemon after start-up with database db: the first statistics are already being computed. */
  function Initial(db: nat): State {
    State(
      Work([], Waiting, false, false, [], [], false),
      Stores(db, 0, 0, {}, 1),
      Status(0, None, None, map[0 := Queued(0)], Some(0), 1, [], multiset{}))
  }

  // ---------------------------------------------------------------- steps of the worker

  predicate WorkEnabled(w: Work, ev: Event) {
    match ev
    case TakeEvent => (w.worker.Waiting? || w.worker.Collecting?) && w.queue != []
    case WaitTimeout => w.worker.Waiting?
    case Deadline(_) => w.worker.Collecting? && w.worker.batch != []
    case ScanEnds => w.worker.Scanning?
    case _ => true
  }

  function AfterTake(w: Work): Work
    requires WorkEnabled(w, TakeEvent)
  {
    var batch := if w.worker.Collecting? then w.worker.batch else [];
    w.(queue := w.queue[1..], worker := Collecting(batch + [w.queue[0]]))
  }

  /** The debounce time is over: the batch is dropped by a shutdown, skipped by the preflight check, or scanned. */
  function AfterDeadline(w: Work, preflightOk: bool, runnerStore: nat): Work
    requires w.worker.Collecting? && w.worker.batch != []
  {
    var batch := w.worker.batch;
    if w.shutdown then w.(worker := Stopped, history := w.history + [Batch(batch, Dropped)])
    else if !preflightOk then w.(worker := Waiting, history := w.history + [Batch(batch, Skipped)])
    else w.(worker := Scanning(batch, MergeEvents(batch), runnerStore), cancel := false, stopAsked := false)
  }

  function AfterScan(w: Work): Work
    requires w.worker.Scanning?
  {
    w.(worker := if w.shutdown then Stopped else Waiting, history := w.history + [Batch(w.worker.batch, Finished)],
       stopAsked := false)
  }

  function ApplyWork(w: Work, ev: Event, runnerStore: nat): Work
    requires WorkEnabled(w, ev)
  {
    match ev
    case RequestScan(e) => w.(queue := w.queue + [e], accepted := w.accepted + [e])
    case CancelScan => if w.worker.Scanning? then w.(cancel := true, stopAsked := true) else w
    case RequestShutdown => w.(shutdown := true, cancel := true, stopAsked := w.worker.Scanning?)
    case TakeEvent => AfterTake(w)
    case WaitTimeout => if w.shutdown then w.(worker := Stopped) else w
    case Deadline(preflightOk) => AfterDeadline(w, preflightOk, runnerStore)
    case ScanEnds => AfterScan(w)
    case _ => w
  }

  // ---------------------------------------------------------------- steps of the configuration

  /** A changed database gets a new store; the old one is closed unless a scan is running. The runner is rebuilt. */
  function AfterApplyConfig(st: Stores, newDb: nat, scanning: bool): Stores {
    if newDb == st.db then st.(runnerStore := st.store)
    else Stores(newDb, st.nextStore, st.nextStore, if scanning then st.closed else st.closed + {st.store},
                st.nextStore + 1)
  }

  function ApplyStores(st: Stores, ev: Event, scanning: bool): Stores {
    if ev.ApplyConfig? then AfterApplyConfig(st, ev.newDb, scanning) else st
  }

  // ---------------------------------------------------------------- steps of the status cache

  predicate StatusEnabled(s: Status, ev: Event) {
    match ev
    case Acquire(task, _) => s.lock.None? && task in s.tasks && s.tasks[task].Queued?
    case Collected(task, _) => s.lock == Some(task) && task in s.tasks && s.tasks[task].Gathering?
    case CollectFails(task) => s.lock == Some(task) && task in s.tasks && s.tasks[task].Gathering?
    case CancelTask(task) => task in s.tasks
    case OrphanEnds(usedStore) => usedStore in s.orphans
    case _ => true
  }

  function NewTask(s: Status): Status {
    s.(tasks := s.tasks[s.nextTask := Queued(s.generation)], nextTask := s.nextTask + 1)
  }

  /** Starts a computation in the background unless one is under way. */
  function Refresh(s: Status): Status {
    if s.background.Some? && s.background.value in s.tasks then s else NewTask(s).(background := Some(s.nextTask))
  }

  function Invalidate(s: Status): Status {
    Refresh(s.(generation := s.generation + 1))
  }

  /** The cached statistics belong to the current generation. */
  predicate Current(s: Status) {
    s.cached.Some? && s.cached.value.generation == s.generation
  }

  function AfterAsk(s: Status, now: real): Status {
    if !Current(s) then NewTask(s)
    else
      (if now - s.cached.value.time > STATUS_MAX_AGE then Refresh(s) else s).(
        answers := s.answers + [Answer(s.generation, s.cached.value.began)])
  }

  /** With the lock in hand, the cache is looked at once more before a collecting thread is started. */
  function AfterAcquire(s: Status, task: nat, now: real, store: nat): Status
    requires task in s.tasks
  {
    var asked := s.tasks[task].asked;
    if Current(s) && now - s.cached.value.time <= STATUS_MAX_AGE then
      s.(tasks := s.tasks - {task}, answers := s.answers + [Answer(asked, s.cached.value.began)])
    else
      s.(lock := Some(task), tasks := s.tasks[task := Gathering(asked, s.generation, s.generation, store)])
  }

  function AfterCollected(s: Status, task: nat, now: real): Status
    requires task in s.tasks && s.tasks[task].Gathering?
  {
    var t := s.tasks[task];
    s.(cached := Some(Cached(t.generation, now, t.began)), lock := None, tasks := s.tasks - {task},
       answers := s.answers + [Answer(t.asked, t.began)])
  }

  /** A cancelled task lets go of the lock, but the thread it has started goes on. */
  function AfterCancelTask(s: Status, task: nat): Status
    requires task in s.tasks
  {
    var t := s.tasks[task];
    if t.Gathering? then s.(lock := None, tasks := s.tasks - {task}, orphans := s.orphans + multiset{t.usedStore})
    else s.(tasks := s.tasks - {task})
  }

  function ApplyStatus(s: Status, ev: Event, store: nat): Status
    requires StatusEnabled(s, ev)
  {
    match ev
    case ScanEnds => Invalidate(s)
    case ConfigApplied => Invalidate(s)
    case AskStatus(now) => AfterAsk(s, now)
    case Acquire(task, now) => AfterAcquire(s, task, now, store)
    case Collected(task, now) => AfterCollected(s, task, now)
    case CollectFails(task) => s.(lock := None, tasks := s.tasks - {task})
    case CancelTask(task) => AfterCancelTask(s, task)
    case OrphanEnds(usedStore) => s.(orphans := s.orphans - multiset{usedStore})
    case _ => s
  }

  // ---------------------------------------------------------------- steps and runs of the daemon

  predicate Enabled(s: State, ev: Event) {
    WorkEnabled(s.work, ev) && StatusEnabled(s.status, ev)
  }

  function Apply(s: State, ev: Event): State
    requires Enabled(s, ev)
  {
    State(
      ApplyWork(s.work, ev, s.stores.runnerStore),
      ApplyStores(s.stores, ev, s.work.worker.Scanning?),
      ApplyStatus(s.status, ev, s.stores.store))
  }

  /** The steps can be taken one after the other from s. */
  ghost predicate Possible(s: State, run: seq<Event>)
    decreases |run|
  {
    run != [] ==> Enabled(s, run[0]) && Possible(Apply(s, run[0]), run[1..])
  }

  ghost function Run(s: State, run: seq<Event>): State
    requires Possible(s, run)
    decreases |run|
  {
    if run == [] then s else Run(Apply(s, run[0]), run[1..])
  }

  // ---------------------------------------------------------------- no request is lost

  function EventsOf(history: seq<Batch>): seq<ScanEvent> {
    if history == [] then [] else EventsOf(history[..|history| - 1]) + history[|history| - 1].events
  }

  function InHand(worker: Worker): seq<ScanEvent> {
    match worker
    case Collecting(batch) => batch
    case Scanning(batch, _, _) => batch
    case _ => []
  }

  /** Every accepted request, in the order of acceptance, has been dealt with, is in the worker's hands or is queued. */
  ghost predicate Accounted(w: Work) {
    w.accepted == EventsOf(w.history) + InHand(w.worker) + w.queue
  }

  /** The scan running covers its batch; requests are dropped, and the worker stops, only because of a shutdown. */
  ghost predicate WorkerSound(w: Work) {
    && (w.worker.Collecting? ==> w.worker.batch != [])
    && (w.worker.Scanning? ==> w.worker.batch != [] && w.worker.event == MergeEvents(w.worker.batch))
    && (w.worker.Stopped? ==> w.shutdown)
    && (forall b :: b in w.history && b.fate.Dropped? ==> w.shutdown)
  }

  ghost predicate Conserved(w: Work) {
    Accounted(w) && WorkerSound(w)
  }

  /** One more request at the end. */
  lemma Enqueued<T>(all: seq<T>, done: seq<T>, hand: seq<T>, queue: seq<T>, e: T)
    requires all == done + hand + queue
    ensures all + [e] == done + hand + (queue + [e])
  {}

  /** The first of the queue comes into hand. */
  lemma TakenInHand<T>(all: seq<T>, done: seq<T>, hand: seq<T>, queue: seq<T>)
    requires all == done + hand + queue && queue != []
    ensures all == done + (hand + [queue[0]]) + queue[1..]
  {}

  /** What was in hand is done. */
  lemma HandIsDone<T>(all: seq<T>, done: seq<T>, hand: seq<T>, queue: seq<T>, next: seq<T>)
    requires all == done + hand + queue && next == done + hand
    ensures all == next + [] + queue
  {}

  lemma RequestAccounted(w: Work, e: ScanEvent, runnerStore: nat)
    requires Accounted(w)
    ensures Accounted(ApplyWork(w, RequestScan(e), runnerStore))
  {
    Enqueued(w.accepted, EventsOf(w.history), InHand(w.worker), w.queue, e);
  }

  lemma TakeAccounted(w: Work)
    requires Accounted(w) && WorkEnabled(w, TakeEvent)
    ensures Accounted(AfterTake(w))
  {
    TakenInHand(w.accepted, EventsOf(w.history), InHand(w.worker), w.queue);
    assert InHand(w.worker) + [w.queue[0]] == InHand(AfterTake(w).worker);
  }

  lemma ClosedAccounted(w: Work, next: Work, fate: Fate)
    requires Accounted(w) && InHand(next.worker) == []
    requires next.history == w.history + [Batch(InHand(w.worker), fate)]
    requires next.accepted == w.accepted && next.queue == w.queue
    ensures Accounted(next)
  {
    BatchDone(w.history, Batch(InHand(w.worker), fate));
    HandIsDone(w.accepted, EventsOf(w.history), InHand(w.worker), w.queue, EventsOf(next.history));
  }

  lemma AccountedStep(w: Work, ev: Event, runnerStore: nat)
    requires Accounted(w) && WorkEnabled(w, ev)
    ensures Accounted(ApplyWork(w, ev, runnerStore))
  {
    var next := ApplyWork(w, ev, runnerStore);
    match ev
    case RequestScan(e) => RequestAccounted(w, e, runnerStore);
    case TakeEvent => TakeAccounted(w);
    case Deadline(_) =>
      if !next.worker.Scanning? {
        ClosedAccounted(w, next, if w.shutdown then Dropped else Skipped);
      }
    case ScanEnds => ClosedAccounted(w, next, Finished);
    case _ =>
  }

  lemma BatchDone(history: seq<Batch>, b: Batch)
    ensures EventsOf(history + [b]) == EventsOf(history) + b.events
  {
    assert (history + [b])[..|history|] == history;
  }

  lemma WorkerSoundStep(w: Work, ev: Event, runnerStore: nat)
    requires WorkerSound(w) && WorkEnabled(w, ev)
    ensures WorkerSound(ApplyWork(w, ev, runnerStore))
  {}

  // ---------------------------------------------------------------- cancelling and shutting down

  /** While a scan runs, its cancel flag is set exactly if cancel_scan or a shutdown has been called since it
      started. */
  ghost predicate Cancellable(w: Work) {
    && (w.worker.Scanning? ==> w.cancel == w.stopAsked)
    && (w.worker.Scanning? && w.shutdown ==> w.stopAsked)
  }

  lemma CancellableStep(w: Work, ev: Event, runnerStore: nat)
    requires Cancellable(w) && WorkEnabled(w, ev)
    ensures Cancellable(ApplyWork(w, ev, runnerStore))
  {}

  /** A scan starts only before a shutdown, with a clean cancel flag, when none is running, for a whole batch; it uses
      the store the newest runner was built with. A running scan goes on unchanged until it ends. */
  lemma ScanStarts(s: State, ev: Event)
    requires Enabled(s, ev) && Apply(s, ev).work.worker.Scanning?
    ensures s.work.worker.Scanning? ==> Apply(s, ev).work.worker == s.work.worker && !ev.ScanEnds?
    ensures !s.work.worker.Scanning? ==>
              && ev == Deadline(true) && s.work.worker.Collecting?
              && !Apply(s, ev).work.shutdown && !Apply(s, ev).work.cancel
              && Apply(s, ev).work.worker ==
                 Scanning(s.work.worker.batch, MergeEvents(s.work.worker.batch), s.stores.runnerStore)
  {}

  // ---------------------------------------------------------------- stores

  predicate Opened(st: Stores, store: nat) {
    store < st.nextStore && store !in st.closed
  }

  /** The current store, which is also the runner's, and the one of a running scan are open. */
  ghost predicate StoresOpen(st: Stores, worker: Worker) {
    && st.runnerStore == st.store && Opened(st, st.store)
    && (forall id :: id in st.closed ==> id < st.nextStore)
    && (worker.Scanning? ==> Opened(st, worker.usedStore))
  }

  lemma StoresOpenStep(s: State, ev: Event)
    requires StoresOpen(s.stores, s.work.worker) && Enabled(s, ev)
    ensures StoresOpen(Apply(s, ev).stores, Apply(s, ev).work.worker)
  {
    if Apply(s, ev).work.worker.Scanning? {
      ScanStarts(s, ev);
    }
  }

  ghost predicate CollectUses(s: Status, store: nat) {
    (exists id :: id in s.tasks && s.tasks[id].Gathering? && s.tasks[id].usedStore == store) || store in s.orphans
  }

  /** No collecting thread works on a closed store. */
  ghost predicate CollectsSafe(st: Stores, s: Status) {
    forall store :: CollectUses(s, store) ==> Opened(st, store)
  }

  /** A collecting thread uses only stores it used before, or the current one. */
  lemma CollectUsesStep(s: Status, ev: Event, current: nat, store: nat)
    requires StatusEnabled(s, ev) && CollectUses(ApplyStatus(s, ev, current), store)
    ensures CollectUses(s, store) || store == current
  {
    var next := ApplyStatus(s, ev, current);
    if id :| id in next.tasks && next.tasks[id].Gathering? && next.tasks[id].usedStore == store {
      assert id in s.tasks || id == s.nextTask;
    }
  }

  /** Unlike a scan, a collecting thread can lose its store: exactly when the database is changed while no scan is
      running and the thread uses the current store. */
  lemma CollectsSafeStep(s: State, ev: Event)
    requires StoresOpen(s.stores, s.work.worker) && CollectsSafe(s.stores, s.status) && Enabled(s, ev)
    ensures CollectsSafe(Apply(s, ev).stores, Apply(s, ev).status) <==>
            !(ev.ApplyConfig? && ev.newDb != s.stores.db && !s.work.worker.Scanning?
              && CollectUses(s.status, s.stores.store))
  {
    var next := Apply(s, ev);
    if ev.ApplyConfig? {
      assert next.status == s.status;
    } else {
      forall store | CollectUses(next.status, store)
        ensures Opened(next.stores, store)
      {
        CollectUsesStep(s.status, ev, s.stores.store, store);
      }
    }
  }

  /** It does happen: a configuration with another database, applied while the statistics are collected. */
  lemma CollectCanLoseItsStore()
    ensures var run := [Acquire(0, 0.0), ApplyConfig(1)];
            Possible(Initial(0), run) && !CollectsSafe(Run(Initial(0), run).stores, Run(Initial(0), run).status)
  {
    var s0 := Initial(0);
    var s2 := Apply(Apply(s0, Acquire(0, 0.0)), ApplyConfig(1));
    RunOfTwo(s0, Acquire(0, 0.0), ApplyConfig(1));
    assert s2.status.tasks[0].usedStore == 0 && CollectUses(s2.status, 0);
  }

  lemma RunOfOne(s: State, a: Event)
    requires Enabled(s, a)
    ensures Possible(s, [a]) && Run(s, [a]) == Apply(s, a)
  {
    assert [a][1..] == [];
  }

  lemma RunOfTwo(s: State, a: Event, b: Event)
    requires Enabled(s, a) && Enabled(Apply(s, a), b)
    ensures Possible(s, [a, b]) && Run(s, [a, b]) == Apply(Apply(s, a), b)
  {
    assert [a, b][1..] == [b] && [b][1..] == [];
    assert Possible(Apply(s, a), [b]) && Run(Apply(s, a), [b]) == Apply(Apply(s, a), b);
  }

  // ---------------------------------------------------------------- status

  /** Who holds the lock gathers, and nobody else does. */
  ghost predicate Locked(s: Status) {
    && (s.lock.Some? ==> s.lock.value in s.tasks && s.tasks[s.lock.value].Gathering?)
    && (forall id :: id in s.tasks ==> id < s.nextTask)
    && (forall id :: id in s.tasks && s.tasks[id].Gathering? ==> s.lock == Some(id))
  }

  lemma LockedStep(s: Status, ev: Event, store: nat)
    requires Locked(s) && StatusEnabled(s, ev)
    ensures Locked(ApplyStatus(s, ev, store))
  {}

  /** Statistics are exactly as new as they claim, and no answer is older than its request. */
  ghost predicate Fresh(s: Status) {
    && (s.cached.Some? ==> s.cached.value.began == s.cached.value.generation <= s.generation)
    && (forall id :: id in s.tasks ==> TaskFresh(s.tasks[id], s.generation))
    && (forall a :: a in s.answers ==> a.asked <= a.began)
  }

  predicate TaskFresh(t: Task, generation: nat) {
    t.asked <= generation && (t.Gathering? ==> t.asked <= t.began == t.generation <= generation)
  }

  lemma FreshStep(s: Status, ev: Event, store: nat)
    requires Fresh(s) && StatusEnabled(s, ev)
    ensures Fresh(ApplyStatus(s, ev, store))
  {}

  /** How many threads collect statistics. */
  function Threads(s: Status): nat {
    |s.orphans| + if s.lock.Some? then 1 else 0
  }

  /** Only a cancelled task leaves a thread behind. */
  lemma OrphansStep(s: Status, ev: Event, store: nat)
    requires StatusEnabled(s, ev) && s.orphans == multiset{}
    ensures ApplyStatus(s, ev, store).orphans != multiset{} <==> ev.CancelTask? && s.tasks[ev.task].Gathering?
  {}

  /** At most one thread collects statistics, until one is started while a cancelled one is still running. */
  lemma ThreadsStep(s: Status, ev: Event, store: nat)
    requires Locked(s) && StatusEnabled(s, ev) && Threads(s) <= 1
    ensures Threads(ApplyStatus(s, ev, store)) <= 1 <==>
            !(ev.Acquire? && s.orphans != multiset{} && !(Current(s) && ev.now - s.cached.value.time <= STATUS_MAX_AGE))
  {
    match ev
    case CancelTask(task) =>
      assert s.tasks[task].Gathering? ==> s.lock == Some(task) && |s.orphans| == 0;
    case OrphanEnds(u) =>
      assert |s.orphans - multiset{u}| <= |s.orphans|;
    case Acquire(task, now) =>
      assert s.orphans != multiset{} ==> |s.orphans| >= 1;
    case _ =>
  }

  /** The first statistics are being collected while a request for them comes in. */
  const REQUEST_COMES: seq<Event> := [Acquire(0, 0.0), AskStatus(0.0)]

  /** The configuration changes. */
  const CONFIG_CHANGES: seq<Event> := [ApplyConfig(0), ConfigApplied]

  /** The first statistics are there, out of date. */
  const STATISTICS_COME: seq<Event> := [Collected(0, 0.0)]

  /** The request, whose turn is next, is cancelled while its thread is running. */
  const REQUEST_GOES: seq<Event> := [Acquire(1, 0.0), CancelTask(1)]

  /** Another request. */
  const ANOTHER_COMES: seq<Event> := [AskStatus(0.0), Acquire(2, 0.0)]

  /** Two threads do collect at the same time, although the lock serves computations in the order in which they ask for
      it. */
  lemma TwoThreadsCanCollect()
    ensures var run := REQUEST_COMES + (CONFIG_CHANGES + (STATISTICS_COME + (REQUEST_GOES + ANOTHER_COMES)));
            Possible(Initial(0), run) && Threads(Run(Initial(0), run).status) == 2
  {
    var first := Run(Initial(0), REQUEST_COMES);
    RequestComes(Initial(0));
    ConfigChanges(first);
    var changed := Run(first, CONFIG_CHANGES);
    StatisticsCome(changed);
    var stale := Run(changed, STATISTICS_COME);
    CancelledThreadIsLeft(stale, 1);
    var left := Run(stale, REQUEST_GOES);
    ThreadStarts(left);
    RunOn(stale, REQUEST_GOES, ANOTHER_COMES);
    RunOn(changed, STATISTICS_COME, REQUEST_GOES + ANOTHER_COMES);
    RunOn(first, CONFIG_CHANGES, STATISTICS_COME + (REQUEST_GOES + ANOTHER_COMES));
    RunOn(Initial(0), REQUEST_COMES, CONFIG_CHANGES + (STATISTICS_COME + (REQUEST_GOES + ANOTHER_COMES)));
  }

  /** The first computation collects, the request waits behind it. */
  ghost predicate Behind(s: Status, generation: nat) {
    && s.generation == generation && s.cached.None? && s.background == Some(0) && s.nextTask == 2
    && s.tasks.Keys == {0, 1} && s.lock == Some(0) && s.orphans == multiset{}
    && s.tasks[0].Gathering? && s.tasks[0].generation == 0 && s.tasks[1].Queued?
  }

  lemma RequestComes(s: State)
    requires s.status == Status(0, None, None, map[0 := Queued(0)], Some(0), 1, [], multiset{})
    ensures Possible(s, REQUEST_COMES) && Behind(Run(s, REQUEST_COMES).status, 0)
  {
    RunOfTwo(s, Acquire(0, 0.0), AskStatus(0.0));
  }

  lemma ConfigChanges(s: State)
    requires Behind(s.status, 0)
    ensures Possible(s, CONFIG_CHANGES) && Behind(Run(s, CONFIG_CHANGES).status, 1)
  {
    RunOfTwo(s, ApplyConfig(0), ConfigApplied);
  }

  lemma StatisticsCome(s: State)
    requires Behind(s.status, 1)
    ensures Possible(s, STATISTICS_COME)
    ensures var u := Run(s, STATISTICS_COME).status;
            && !Current(u) && u.lock.None? && u.nextTask == 2 && Threads(u) == 0 && 1 in u.tasks && u.tasks[1].Queued?
  {
    RunOfOne(s, Collected(0, 0.0));
  }

  /** With nothing current cached and the lock free, a request starts a thread, whatever is still running. */
  lemma ThreadStarts(s: State)
    requires !Current(s.status) && s.status.lock.None?
    ensures var run := [AskStatus(0.0), Acquire(s.status.nextTask, 0.0)];
            Possible(s, run) && Threads(Run(s, run).status) == Threads(s.status) + 1
  {
    RunOfTwo(s, AskStatus(0.0), Acquire(s.status.nextTask, 0.0));
  }

  /** If the request is cancelled, its thread stays. */
  lemma CancelledThreadIsLeft(s: State, n: nat)
    requires !Current(s.status) && s.status.lock.None? && n in s.status.tasks && s.status.tasks[n].Queued?
    ensures var run := [Acquire(n, 0.0), CancelTask(n)];
            && Possible(s, run) && Threads(Run(s, run).status) == Threads(s.status) + 1
            && !Current(Run(s, run).status) && Run(s, run).status.lock.None?
            && Run(s, run).status.nextTask == s.status.nextTask
  {
    RunOfTwo(s, Acquire(n, 0.0), CancelTask(n));
  }

  lemma {:induction false} RunOn(s: State, a: seq<Event>, b: seq<Event>)
    requires Possible(s, a) && Possible(Run(s, a), b)
    ensures Possible(s, a + b) && Run(s, a + b) == Run(Run(s, a), b)
    decreases |a|
  {
    if a == [] {
      assert a + b == b;
    } else {
      assert (a + b)[0] == a[0] && (a + b)[1..] == a[1..] + b;
      RunOn(Apply(s, a[0]), a[1..], b);
    }
  }

  // ---------------------------------------------------------------- all runs

  ghost predicate Good(s: State) {
    Conserved(s.work) && Cancellable(s.work) && StoresOpen(s.stores, s.work.worker) && Locked(s.status)
      && Fresh(s.status)
  }

  lemma GoodStep(s: State, ev: Event)
    requires Good(s) && Enabled(s, ev)
    ensures Good(Apply(s, ev))
  {
    AccountedStep(s.work, ev, s.stores.runnerStore);
    WorkerSoundStep(s.work, ev, s.stores.runnerStore);
    CancellableStep(s.work, ev, s.stores.runnerStore);
    StoresOpenStep(s, ev);
    LockedStep(s.status, ev, s.stores.store);
    FreshStep(s.status, ev, s.stores.store);
  }

  lemma {:induction false} RunKeepsGood(s: State, run: seq<Event>)
    requires Good(s) && Possible(s, run)
    ensures Good(Run(s, run))
    decreases |run|
  {
    if run != [] {
      GoodStep(s, run[0]);
      RunKeepsGood(Apply(s, run[0]), run[1..]);
    }
  }

  /** In every interleaving, all of this holds at every point between two steps. */
  lemma EveryRunIsGood(db: nat, run: seq<Event>)
    requires Possible(Initial(db), run)
    ensures Good(Run(Initial(db), run))
  {
    RunKeepsGood(Initial(db), run);
  }
}
