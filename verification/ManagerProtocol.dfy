/**
 The task life cycle of the download manager: one step per lock section of a caller or a worker.

 A worker is the future that `start_task` submitted.  It is unfinished until its function returns;
 after that its completion callback, `_forget_future`, is still to come.
 */
module ManagerProtocol {
  type TaskId = nat
  type FutureId = nat

  datatype Status = Queued | Running | Completed | Failed | Cancelled | Consumed

  datatype Pc =
    | Pending    // in the executor's queue
    | Holding    // has looked its task up
    | Active     // has marked it as running
    | Notifying  // has marked it as completed and calls the handlers
    | Done       // the function has returned, the callback has not run

  datatype Worker = Worker(task: TaskId, pc: Pc)

  datatype System = System(
    tasks: map<TaskId, Status>,        // in memory
    rows: map<TaskId, Status>,         // the table `download_tasks`
    snaps: map<TaskId, Status>,        // the files `task.json`
    rmtree: set<TaskId>,               // removed tasks whose directory is about to be deleted
    futures: map<TaskId, FutureId>,
    workers: map<FutureId, Worker>,
    cancelRequested: set<TaskId>,
    cancelledAt: map<TaskId, nat>,     // ledger: how many futures existed at the last request
    deleteAfterStop: set<TaskId>,
    nextTask: TaskId,
    nextFuture: FutureId)

  const INITIAL := System(map[], map[], map[], {}, map[], map[], {}, map[], {}, 0, 0)

  predicate Unfinished(s: System, id: TaskId) {
    id in s.futures && s.futures[id] in s.workers && !s.workers[s.futures[id]].pc.Done?
  }

  datatype Step =
    | Create
    | Start(id: TaskId)
    | Cancel(id: TaskId)
    | Delete(id: TaskId)
    | MarkConsumed(id: TaskId, failed: bool)
    | Fetch(f: FutureId)
    | MarkRunning(f: FutureId)
    | SaveProgress(f: FutureId)
    | CheckCancel(f: FutureId)
    | Complete(f: FutureId)
    | Fail(f: FutureId)
    | Finish(f: FutureId)
    | Drop(f: FutureId)       // a pending future is cancelled by a shutdown of the executor
    | Forget(f: FutureId)
    | RmTree(id: TaskId, ok: bool)
    | Restart

  predicate At(s: System, f: FutureId, pc: Pc) {
    f in s.workers && s.workers[f].pc == pc
  }

  predicate Enabled(s: System, step: Step) {
    match step
    case Fetch(f) => At(s, f, Pending)
    case MarkRunning(f) => At(s, f, Holding)
    case SaveProgress(f) => At(s, f, Active)
    case CheckCancel(f) => At(s, f, Active)
    case Complete(f) => At(s, f, Active)
    case Fail(f) => At(s, f, Holding) || At(s, f, Active) || At(s, f, Notifying)
    case Finish(f) => At(s, f, Notifying)
    case Drop(f) => At(s, f, Pending)
    case Forget(f) => At(s, f, Done)
    case RmTree(id, _) => id in s.rmtree
    case _ => true
  }

  /** Changes a task object and saves it; file and row are written whether or not the manager still knows the task. */
  function Save(s: System, id: TaskId, status: Status): System {
    s.(tasks := if id in s.tasks then s.tasks[id := status] else s.tasks,
       rows := s.rows[id := status],
       snaps := s.snaps[id := status])
  }

  function Goto(s: System, f: FutureId, pc: Pc): System
    requires f in s.workers
  {
    s.(workers := s.workers[f := s.workers[f].(pc := pc)])
  }

  /** Forgets a task and its row at once; the directory with its snapshot goes later. */
  function Remove(s: System, id: TaskId): System {
    s.(tasks := s.tasks - {id}, rows := s.rows - {id}, cancelRequested := s.cancelRequested - {id},
       rmtree := if id in s.tasks then s.rmtree + {id} else s.rmtree)
  }

  /** The condition under which `start_task` submits a new worker. */
  predicate Startable(s: System, id: TaskId) {
    id in s.tasks && s.tasks[id] != Running && !Unfinished(s, id)
  }

  function DoStart(s: System, id: TaskId): System {
    if !Startable(s, id) then s
    else
      Save(s, id, Queued).(
        cancelRequested := s.cancelRequested - {id},
        futures := s.futures[id := s.nextFuture],
        workers := s.workers[s.nextFuture := Worker(id, Pending)],
        nextFuture := s.nextFuture + 1)
  }

  function RequestCancel(s: System, id: TaskId): System {
    s.(cancelRequested := s.cancelRequested + {id}, cancelledAt := s.cancelledAt[id := s.nextFuture])
  }

  function DoCancel(s: System, id: TaskId): System {
    var r := RequestCancel(s, id);
    if id in s.tasks && s.tasks[id] == Queued then Save(r, id, Cancelled) else r
  }

  function DoDelete(s: System, id: TaskId): System {
    if id in s.tasks && Unfinished(s, id)
    then RequestCancel(s, id).(deleteAfterStop := s.deleteAfterStop + {id})
    else Remove(s, id)
  }

  function DoCheckCancel(s: System, f: FutureId): System
    requires f in s.workers
  {
    var id := s.workers[f].task;
    if id !in s.cancelRequested then s
    else Goto(if id in s.tasks then Save(s, id, Cancelled) else s, f, Done)
  }

  function WithoutWorker(s: System, f: FutureId): System
    requires f in s.workers
  {
    var id := s.workers[f].task;
    s.(workers := s.workers - {f},
       futures := if id in s.futures && s.futures[id] == f then s.futures - {id} else s.futures)
  }

  function DoForget(s: System, f: FutureId): System
    requires f in s.workers
  {
    var id := s.workers[f].task;
    var r := WithoutWorker(s, f);
    if id in s.deleteAfterStop then Remove(r, id).(deleteAfterStop := s.deleteAfterStop - {id}) else r
  }

  /** What loading makes of a row. */
  function Loaded(status: Status): Status {
    if status == Running then Failed else status
  }

  /** The loaded versions of the entries in `done`. */
  function LoadedPart(t: map<TaskId, Status>, done: set<TaskId>): map<TaskId, Status> {
    map id | id in t && id in done :: Loaded(t[id])
  }

  /** The entries in `done` that loading had to repair. */
  function RepairedPart(t: map<TaskId, Status>, done: set<TaskId>): map<TaskId, Status> {
    map id | id in t && id in done && t[id] == Running :: Failed
  }

  /** Rows come first, running ones are repaired and saved; a snapshot without a row is recovered as a task and saved. */
  function DoRestart(s: System): System {
    var rows := LoadedPart(s.rows, s.rows.Keys);
    var snaps := s.snaps + RepairedPart(s.rows, s.rows.Keys);
    var found := LoadedPart(snaps - rows.Keys, s.snaps.Keys);
    INITIAL.(tasks := rows + found, rows := rows + found, snaps := snaps + found,
             nextTask := s.nextTask, nextFuture := s.nextFuture)
  }

  function Next(s: System, step: Step): System
    requires Enabled(s, step)
  {
    match step
    case Create => Save(s.(tasks := s.tasks[s.nextTask := Queued], nextTask := s.nextTask + 1), s.nextTask, Queued)
    case Start(id) => DoStart(s, id)
    case Cancel(id) => DoCancel(s, id)
    case Delete(id) => DoDelete(s, id)
    case MarkConsumed(id, failed) =>
      if id in s.tasks then Save(s, id, if failed then s.tasks[id] else Consumed) else s
    case Fetch(f) => Goto(s, f, if s.workers[f].task in s.tasks then Holding else Done)
    case MarkRunning(f) => Goto(Save(s, s.workers[f].task, Running), f, Active)
    case SaveProgress(f) =>
      var id := s.workers[f].task;
      Save(s, id, if id in s.tasks then s.tasks[id] else Running)
    case CheckCancel(f) => DoCheckCancel(s, f)
    case Complete(f) => Goto(Save(s, s.workers[f].task, Completed), f, Notifying)
    case Fail(f) =>
      var id := s.workers[f].task;
      Goto(if id in s.tasks then Save(s, id, Failed) else s, f, Done)
    case Finish(f) => Goto(s, f, Done)
    case Drop(f) => Goto(s, f, Done)
    case Forget(f) => DoForget(s, f)
    case RmTree(id, ok) => s.(rmtree := s.rmtree - {id}, snaps := if ok then s.snaps - {id} else s.snaps)
    case Restart => DoRestart(s)
  }

  /** The start finds no earlier worker whose callback is still to come. */
  predicate Prompt(s: System, step: Step) {
    step.Start? && Startable(s, step.id) ==> step.id !in s.futures
  }

  predicate IsRun(s: System, steps: seq<Step>)
    decreases |steps|
  {
    steps == [] || (Enabled(s, steps[0]) && IsRun(Next(s, steps[0]), steps[1..]))
  }

  predicate IsPromptRun(s: System, steps: seq<Step>)
    decreases |steps|
  {
    steps == []
    || (Enabled(s, steps[0]) && Prompt(s, steps[0]) && IsPromptRun(Next(s, steps[0]), steps[1..]))
  }

  lemma {:induction false} PromptRunsAreRuns(s: System, steps: seq<Step>)
    requires IsPromptRun(s, steps)
    ensures IsRun(s, steps)
    decreases |steps|
  {
    if steps != [] {
      PromptRunsAreRuns(Next(s, steps[0]), steps[1..]);
    }
  }

  function After(s: System, steps: seq<Step>): System
    requires IsRun(s, steps)
    decreases |steps|
  {
    if steps == [] then s else After(Next(s, steps[0]), steps[1..])
  }
}
