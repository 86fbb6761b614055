/** The long-running process: every method is one stretch of a coroutine between two awaits. */
module Daemon {
  import opened Trees
  import opened Requests
  import opened Protocol

  /** Every method takes one step of the protocol: it says what becomes of the part of the state it concerns, and has no
      other part in its frame. Steps are taken one at a time, in any order that is enabled. */
  class Daemon {
    // queue, worker and flags
    var queue: seq<ScanEvent>
    var worker: Worker
    var shutdown: bool
    var cancel: bool
    var scanStartedAt: Option<real>
    var currentScan: Option<ScanEvent>
    // configuration and stores
    var db: nat
    var state: nat
    var runnerStore: nat
    var closed: set<nat>
    var nextStore: nat
    // status
    var statusGeneration: nat
    var status: Option<Cached>
    var statusLock: Option<nat>
    var tasks: map<nat, Task>
    var statusTask: Option<nat>
    var nextTask: nat
    // the record
    ghost var accepted: seq<ScanEvent>
    ghost var history: seq<Batch>
    ghost var stopAsked: bool
    ghost var answers: seq<Answer>
    ghost var orphans: multiset<nat>

    /** What holds at every await: no request is lost, the stores in use are open, the cancel flag tells of requests
        made since the scan started, and no answer is older than its request. */
    ghost predicate Valid()
      reads this
    {
      Good(View()) && Matching()
    }

    /** The attributes that tell of the running scan agree with the worker. */
    ghost predicate Matching()
      reads `worker, `scanStartedAt, `currentScan
    {
      && (scanStartedAt.Some? <==> worker.Scanning?)
      && currentScan == (if worker.Scanning? then Some(worker.event) else None)
    }

    ghost function WorkView(): Work
      reads `queue, `worker, `shutdown, `cancel, `accepted, `history, `stopAsked
    {
      Work(queue, worker, shutdown, cancel, accepted, history, stopAsked)
    }

    ghost function StoresView(): Stores
      reads `db, `state, `runnerStore, `closed, `nextStore
    {
      Stores(db, state, runnerStore, closed, nextStore)
    }

    ghost function StatusView(): Status
      reads `statusGeneration, `status, `statusLock, `tasks, `statusTask, `nextTask, `answers, `orphans
    {
      Status(statusGeneration, status, statusLock, tasks, statusTask, nextTask, answers, orphans)
    }

    ghost function View(): State
      reads this
    {
      State(WorkView(), StoresView(), StatusView())
    }

    /** Whatever step has been taken, its result is good. */
    twostate lemma StepTaken(ev: Event)
      requires old(Good(View())) && Enabled(old(View()), ev) && Matching()
      requires WorkView() == ApplyWork(old(WorkView()), ev, old(runnerStore))
      requires StoresView() == ApplyStores(old(StoresView()), ev, old(worker).Scanning?)
      requires StatusView() == ApplyStatus(old(StatusView()), ev, old(state))
      ensures Valid()
    {
      GoodStep(old(View()), ev);
    }

    constructor (database: nat)
      ensures Valid() && View() == Initial(database)
    {
      queue, worker, shutdown, cancel, scanStartedAt, currentScan := [], Waiting, false, false, None, None;
      db, state, runnerStore, closed, nextStore := database, 0, 0, {}, 1;
      statusGeneration, status, statusLock, tasks, statusTask, nextTask := 0, None, None, map[0 := Queued(0)], Some(0),
        1;
      accepted, history, stopAsked, answers, orphans := [], [], false, [], multiset{};
    }

    predicate IsScanning()
      reads this
    {
      scanStartedAt.Some?
    }

    // -------------------------------------------------------------- requests

    method RequestScan(source: string, now: real, dryRun: bool, force: bool)
      requires Valid()
      modifies `queue, `accepted
      ensures Valid() && WorkView() ==
              ApplyWork(old(WorkView()), Event.RequestScan(ScanEvent(source, now, dryRun, force)), old(runnerStore))
      ensures queue == old(queue) + [ScanEvent(source, now, dryRun, force)]
    {
      var e := ScanEvent(source, now, dryRun, force);
      queue := queue + [e];
      accepted := accepted + [e];
      StepTaken(Event.RequestScan(e));
    }

    /** Asks a running scan to stop; false if none is running. */
    method CancelScan() returns (asked: bool)
      requires Valid()
      modifies `cancel, `stopAsked
      ensures Valid() && WorkView() == ApplyWork(old(WorkView()), Event.CancelScan, old(runnerStore))
      ensures asked == old(View()).work.worker.Scanning? && cancel == (old(cancel) || asked)
    {
      if !IsScanning() {
        return false;
      }
      cancel := true;
      stopAsked := true;
      StepTaken(Event.CancelScan);
      return true;
    }

    method RequestShutdown()
      requires Valid()
      modifies `shutdown, `cancel, `stopAsked
      ensures Valid() && WorkView() == ApplyWork(old(WorkView()), Event.RequestShutdown, old(runnerStore))
      ensures shutdown && cancel
    {
      shutdown := true;
      cancel := true;
      stopAsked := worker.Scanning?;
      StepTaken(Event.RequestShutdown);
    }

    // -------------------------------------------------------------- the worker

    /** The queue hands over its oldest request: the first of a batch, or one more. */
    method TakeEvent()
      requires Valid() && WorkEnabled(WorkView(), Event.TakeEvent)
      modifies `queue, `worker
      ensures Valid() && WorkView() == ApplyWork(old(WorkView()), Event.TakeEvent, old(runnerStore))
      ensures InHand(worker) + queue == InHand(old(worker)) + old(queue) && |queue| == |old(queue)| - 1
    {
      var first := queue[0];
      queue := queue[1..];
      worker := match worker
        case Collecting(batch) => Collecting(batch + [first])
        case _ => Collecting([first]);
      StepTaken(Event.TakeEvent);
    }

    /** Nothing came in time: wait on, unless a shutdown has been requested. */
    method WaitTimedOut()
      requires Valid() && worker.Waiting?
      modifies `worker
      ensures Valid() && WorkView() == ApplyWork(old(WorkView()), Event.WaitTimeout, old(runnerStore))
      ensures worker == if shutdown then Stopped else Waiting
    {
      if shutdown {
        worker := Stopped;
      }
      StepTaken(WaitTimeout);
    }

    method CloseBatch(preflightOk: bool, now: real)
      requires worker.Collecting? && worker.batch != [] && Matching()
      modifies `worker, `history, `cancel, `stopAsked, `scanStartedAt, `currentScan
      ensures Matching() && WorkView() == AfterDeadline(old(WorkView()), preflightOk, runnerStore)
      ensures worker.Scanning? ==> scanStartedAt == Some(now)
    {
      var batch := worker.batch;
      var event := MergeEvents(batch);
      if shutdown {
        worker := Stopped;
        history := history + [Batch(batch, Dropped)];
        return;
      }
      if !preflightOk {
        worker := Waiting;
        history := history + [Batch(batch, Skipped)];
        return;
      }
      cancel := false;
      currentScan := Some(event);
      scanStartedAt := Some(now);
      stopAsked := false;
      worker := Scanning(batch, event, runnerStore);
    }

    /** Debouncing is over. From here to the start of the scan nothing is awaited. A scan starts with a clean cancel
        flag and on a store that is open. */
    method EndCollecting(preflightOk: bool, now: real)
      requires Valid() && worker.Collecting? && worker.batch != []
      modifies `worker, `history, `cancel, `stopAsked, `scanStartedAt, `currentScan
      ensures Valid() && WorkView() == ApplyWork(old(WorkView()), Deadline(preflightOk), old(runnerStore))
      ensures worker == if shutdown then Stopped else if !preflightOk then Waiting
                        else Scanning(old(worker).batch, MergeEvents(old(worker).batch), runnerStore)
      ensures history == old(history) + if worker.Scanning? then []
                                        else [Batch(old(worker).batch, if shutdown then Dropped else Skipped)]
      ensures worker.Scanning? ==> !cancel && Opened(StoresView(), worker.usedStore) && scanStartedAt == Some(now)
    {
      CloseBatch(preflightOk, now);
      StepTaken(Deadline(preflightOk));
    }

    method LeaveScan()
      requires worker.Scanning?
      modifies `worker, `history, `stopAsked, `scanStartedAt, `currentScan
      ensures Matching() && WorkView() == AfterScan(old(WorkView()))
    {
      history := history + [Batch(worker.batch, Finished)];
      stopAsked := false;
      scanStartedAt, currentScan := None, None;
      worker := if shutdown then Stopped else Waiting;
    }

    method FinishScan()
      requires worker.Scanning?
      modifies `worker, `history, `stopAsked, `scanStartedAt, `currentScan, `statusGeneration, `tasks, `statusTask,
               `nextTask
      ensures Matching() && WorkView() == AfterScan(old(WorkView())) && StatusView() == Invalidate(old(StatusView()))
    {
      LeaveScan();
      assert StatusView() == old(StatusView());
      InvalidateStatus();
    }

    /** The scan has ended, well or not. */
    method EndScan()
      requires Valid() && worker.Scanning?
      modifies `worker, `history, `stopAsked, `scanStartedAt, `currentScan, `statusGeneration, `tasks, `statusTask,
               `nextTask
      ensures Valid() && WorkView() == ApplyWork(old(WorkView()), ScanEnds, old(runnerStore))
      ensures StatusView() == ApplyStatus(old(StatusView()), ScanEnds, old(state))
      ensures worker == (if shutdown then Stopped else Waiting) && scanStartedAt.None?
      ensures !Current(StatusView()) && statusTask.Some? && statusTask.value in tasks
    {
      FinishScan();
      StepTaken(ScanEnds);
    }

    // -------------------------------------------------------------- configuration

    method SwapStore(newDb: nat)
      requires Matching()
      modifies `db, `state, `runnerStore, `closed, `nextStore
      ensures StoresView() == AfterApplyConfig(old(StoresView()), newDb, worker.Scanning?)
    {
      var oldDb := db;
      db := newDb;
      if newDb != oldDb {
        var oldState := state;
        state, nextStore := nextStore, nextStore + 1;
        if !IsScanning() {
          closed := closed + {oldState};
        }
      }
      runnerStore := state;
    }

    /** Up to the first await: the new configuration is in force. */
    method ApplyConfig(newDb: nat)
      requires Valid()
      modifies `db, `state, `runnerStore, `closed, `nextStore
      ensures Valid() && StoresView() == ApplyStores(old(StoresView()), Event.ApplyConfig(newDb), old(worker).Scanning?)
      ensures state !in closed && (worker.Scanning? ==> worker.usedStore !in closed)
      ensures db == newDb && runnerStore == state && (newDb == old(db) <==> state == old(state))
      ensures closed == if newDb == old(db) || worker.Scanning? then old(closed) else old(closed) + {old(state)}
    {
      SwapStore(newDb);
      StepTaken(Event.ApplyConfig(newDb));
    }

    /** After the triggers have been restarted. */
    method FinishApplyConfig()
      requires Valid()
      modifies `statusGeneration, `tasks, `statusTask, `nextTask
      ensures Valid() && StatusView() == ApplyStatus(old(StatusView()), ConfigApplied, old(state))
      ensures !Current(StatusView()) && statusTask.Some? && statusTask.value in tasks
    {
      InvalidateStatus();
      StepTaken(ConfigApplied);
    }

    // -------------------------------------------------------------- status

    method InvalidateStatus()
      modifies `statusGeneration, `tasks, `statusTask, `nextTask
      ensures StatusView() == Invalidate(old(StatusView())) && statusGeneration == old(statusGeneration) + 1
      ensures statusTask.Some? && statusTask.value in tasks
    {
      statusGeneration := statusGeneration + 1;
      RefreshStatus();
    }

    method RefreshStatus()
      modifies `tasks, `statusTask, `nextTask
      ensures StatusView() == Refresh(old(StatusView()))
      ensures statusTask.Some? && statusTask.value in tasks
      ensures old(statusTask).Some? && old(statusTask).value in old(tasks) ==> tasks == old(tasks)
    {
      if statusTask.None? || statusTask.value !in tasks {
        statusTask := Some(nextTask);
        tasks := tasks[nextTask := Queued(statusGeneration)];
        nextTask := nextTask + 1;
      }
    }

    method AnswerAtOnce(now: real) returns (answer: Option<Cached>)
      modifies `tasks, `statusTask, `nextTask, `answers
      ensures StatusView() == AfterAsk(old(StatusView()), now)
      ensures answer == if Current(old(StatusView())) then old(status) else None
    {
      if status.None? || status.value.generation != statusGeneration {
        tasks := tasks[nextTask := Queued(statusGeneration)];
        nextTask := nextTask + 1;
        return None;
      }
      answer := status;
      ghost var asked := statusGeneration;
      if now - status.value.time > STATUS_MAX_AGE {
        RefreshStatus();
      }
      answers := answers + [Answer(asked, answer.value.began)];
    }

    /** A request for the statistics is answered at once, with data collected in the current generation, or waits for a
        computation. */
    method LibraryStatus(now: real) returns (answer: Option<Cached>)
      requires Valid()
      modifies `tasks, `statusTask, `nextTask, `answers
      ensures Valid() && StatusView() == ApplyStatus(old(StatusView()), AskStatus(now), old(state))
      ensures answer == if Current(old(StatusView())) then old(status) else None
      ensures answer.Some? ==> answer.value.began == statusGeneration
      ensures answer.Some? && now - answer.value.time > 300.0 ==> statusTask.Some? && statusTask.value in tasks
      ensures answer.None? ==> old(nextTask) in tasks && old(nextTask) !in old(tasks)
    {
      answer := AnswerAtOnce(now);
      StepTaken(AskStatus(now));
    }

    /** A computation has got the lock. It may find that the work was done while it waited. */
    method ComputeStatus(task: nat, now: real)
      requires Valid() && StatusEnabled(StatusView(), Acquire(task, now))
      modifies `statusLock, `tasks, `answers
      ensures Valid() && StatusView() == ApplyStatus(old(StatusView()), Acquire(task, now), old(state))
      ensures answers != old(answers) ==> exists a :: answers == old(answers) + [a] && old(tasks[task]).asked <= a.began
      ensures if Current(StatusView()) && now - status.value.time <= 300.0 then task !in tasks && statusLock.None?
              else task in tasks && tasks[task].Gathering? && statusLock == Some(task)
    {
      var generation, cached := statusGeneration, status;
      if cached.Some? && cached.value.generation == generation && now - cached.value.time <= STATUS_MAX_AGE {
        answers := answers + [Answer(tasks[task].asked, cached.value.began)];
        tasks := tasks - {task};
        StepTaken(Acquire(task, now));
        return;
      }
      statusLock := Some(task);
      tasks := tasks[task := Gathering(tasks[task].asked, generation, statusGeneration, state)];
      StepTaken(Acquire(task, now));
    }

    /** The collecting thread is done: the result is cached under the generation taken down before it was started. */
    method StatusCollected(task: nat, now: real)
      requires Valid() && StatusEnabled(StatusView(), Event.Collected(task, now))
      modifies `status, `statusLock, `tasks, `answers
      ensures Valid() && StatusView() == ApplyStatus(old(StatusView()), Event.Collected(task, now), old(state))
      ensures status == Some(Cached(old(tasks[task]).generation, now, old(tasks[task]).began)) && statusLock.None?
      ensures status.value.began == status.value.generation && old(tasks[task]).asked <= status.value.began
      ensures tasks == old(tasks) - {task}
    {
      var t := tasks[task];
      status := Some(Cached(t.generation, now, t.began));
      statusLock := None;
      answers := answers + [Answer(t.asked, t.began)];
      tasks := tasks - {task};
      StepTaken(Event.Collected(task, now));
    }

    /** The collecting thread has raised an exception: the lock is let go, and nothing is cached or answered. */
    method CollectionFailed(task: nat)
      requires Valid() && StatusEnabled(StatusView(), CollectFails(task))
      modifies `statusLock, `tasks
      ensures Valid() && StatusView() == ApplyStatus(old(StatusView()), CollectFails(task), old(state))
      ensures statusLock.None? && tasks == old(tasks) - {task}
    {
      statusLock := None;
      tasks := tasks - {task};
      StepTaken(CollectFails(task));
    }
  }
}
