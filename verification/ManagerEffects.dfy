/** What the calls of the download manager achieve: every way a task goes through its worker, and what a restart makes of it. */
module ManagerEffects {
  import opened ManagerProtocol
  import opened ManagerSafety
  import T = ManagerTheorems

  /** Memory, table and snapshot agree on the status of a task. */
  predicate Shows(s: System, id: TaskId, status: Status) {
    && id in s.tasks && s.tasks[id] == status && id in s.rows && s.rows[id] == status && id in s.snaps && s.snaps[id] == status
  }

  /** The task's present worker stands at `pc`. */
  predicate Works(s: System, id: TaskId, f: FutureId, pc: Pc) {
    f in s.workers && s.workers[f] == Worker(id, pc) && id in s.futures && s.futures[id] == f
  }

  /** No task but this one changes in memory, table or snapshots. */
  ghost predicate OthersKept(s: System, r: System, id: TaskId) {
    forall i :: i != id ==>
      && (i in r.tasks <==> i in s.tasks) && (i in s.tasks ==> r.tasks[i] == s.tasks[i])
      && (i in r.rows <==> i in s.rows) && (i in s.rows ==> r.rows[i] == s.rows[i])
      && (i in r.snaps <==> i in s.snaps) && (i in s.snaps ==> r.snaps[i] == s.snaps[i])
  }

  // ---------------------------------------------------------------- one step

  lemma CreatedTaskIsQueued(s: System)
    requires Inv(s)
    ensures var r := Next(s, Create);
            s.nextTask !in s.tasks && Shows(r, s.nextTask, Queued) && Startable(r, s.nextTask) && OthersKept(s, r, s.nextTask)
  {
  }

  /** A known task can be started exactly when every worker it had has returned. */
  lemma IdleTasksCanStart(s: System, id: TaskId)
    requires Inv(s) && id in s.tasks
    ensures Startable(s, id) <==> forall f :: f in s.workers && s.workers[f].task == id ==> s.workers[f].pc.Done?
  {
  }

  /** A start submits a new worker and forgets every earlier request to cancel. */
  lemma StartedTaskHasAWorker(s: System, id: TaskId)
    requires Inv(s) && Startable(s, id)
    ensures var r := DoStart(s, id);
            && Shows(r, id, Queued) && Works(r, id, s.nextFuture, Pending) && s.nextFuture !in s.workers
            && id !in r.cancelRequested && OthersKept(s, r, id) && r.deleteAfterStop == s.deleteAfterStop
  {
  }

  lemma WorkerTakesItsTask(s: System, id: TaskId, f: FutureId)
    requires Works(s, id, f, Pending) && id in s.tasks
    ensures Enabled(s, Fetch(f))
    ensures var r := Next(s, Fetch(f));
            Works(r, id, f, Holding) && r == s.(workers := r.workers)
  {
  }

  lemma WorkerRuns(s: System, id: TaskId, f: FutureId)
    requires Works(s, id, f, Holding) && id in s.tasks
    ensures Enabled(s, MarkRunning(f))
    ensures var r := Next(s, MarkRunning(f));
            Works(r, id, f, Active) && Shows(r, id, Running) && OthersKept(s, r, id)
            && r.cancelRequested == s.cancelRequested && r.deleteAfterStop == s.deleteAfterStop
  {
  }

  lemma WorkerCompletes(s: System, id: TaskId, f: FutureId)
    requires Works(s, id, f, Active) && id in s.tasks
    ensures Enabled(s, Complete(f)) && Enabled(Next(s, Complete(f)), Finish(f))
    ensures var r := Next(Next(s, Complete(f)), Finish(f));
            Works(r, id, f, Done) && Shows(r, id, Completed) && OthersKept(s, r, id) && r.deleteAfterStop == s.deleteAfterStop
  {
  }

  /** An exception at any point of the work shows the task as failed and ends the worker. */
  lemma WorkerFails(s: System, id: TaskId, f: FutureId, pc: Pc)
    requires Works(s, id, f, pc) && id in s.tasks && (pc == Holding || pc == Active || pc == Notifying)
    ensures Enabled(s, Fail(f))
    ensures var r := Next(s, Fail(f));
            Works(r, id, f, Done) && Shows(r, id, Failed) && OthersKept(s, r, id) && r.deleteAfterStop == s.deleteAfterStop
  {
  }

  /** A worker that the pool drops before it runs leaves its task as it is, to be started again. */
  lemma DroppedWorkerNeverRuns(s: System, id: TaskId, f: FutureId)
    requires Works(s, id, f, Pending)
    ensures Enabled(s, Drop(f))
    ensures var r := Next(s, Drop(f));
            && Works(r, id, f, Done) && !Enabled(r, Fetch(f)) && Enabled(r, Forget(f))
            && r.tasks == s.tasks && r.rows == s.rows && r.snaps == s.snaps
            && (id in s.tasks && s.tasks[id] != Running ==> Startable(r, id))
  {
  }

  lemma CallbackForgetsTheWorker(s: System, id: TaskId, f: FutureId)
    requires Works(s, id, f, Done)
    ensures var r := DoForget(s, f);
            && f !in r.workers && id !in r.futures
            && (id !in s.deleteAfterStop ==> r.tasks == s.tasks && r.rows == s.rows && r.snaps == s.snaps && r.cancelRequested == s.cancelRequested)
            && (id in s.deleteAfterStop ==> id !in r.tasks && id !in r.rows && id !in r.cancelRequested && id !in r.deleteAfterStop)
  {
  }

  /** A queued task is cancelled at once, any other keeps its status; the request stands for both. */
  lemma CancelIsRecorded(s: System, id: TaskId)
    ensures var r := DoCancel(s, id);
            && id in r.cancelRequested && OthersKept(s, r, id) && r.workers == s.workers && r.futures == s.futures
            && (id in s.tasks && s.tasks[id] == Queued ==> Shows(r, id, Cancelled))
            && (id in s.tasks && s.tasks[id] != Queued ==> r.tasks == s.tasks && r.rows == s.rows && r.snaps == s.snaps)
  {
  }

  /** A worker that looks while a request stands stops and shows its task as cancelled. */
  lemma RequestStopsTheWorker(s: System, id: TaskId, f: FutureId)
    requires Works(s, id, f, Active) && id in s.tasks && id in s.cancelRequested
    ensures Enabled(s, CheckCancel(f))
    ensures var r := DoCheckCancel(s, f);
            Works(r, id, f, Done) && Shows(r, id, Cancelled) && OthersKept(s, r, id) && r.deleteAfterStop == s.deleteAfterStop
  {
  }

  /** An idle task goes from memory and table at once, and from the disk when its directory can be removed. */
  lemma IdleTaskIsDeleted(s: System, id: TaskId, ok: bool)
    requires Inv(s) && id in s.tasks && !Unfinished(s, id)
    ensures Enabled(DoDelete(s, id), RmTree(id, ok))
    ensures var r := Next(DoDelete(s, id), RmTree(id, ok));
            id !in r.tasks && id !in r.rows && id !in r.cancelRequested && (ok ==> id !in r.snaps) && OthersKept(s, r, id)
  {
  }

  /** A task with a worker stays until that has stopped; the worker is asked to. */
  lemma BusyTaskIsAskedToStop(s: System, id: TaskId)
    requires Inv(s) && id in s.tasks && Unfinished(s, id)
    ensures var r := DoDelete(s, id);
            id in r.cancelRequested && id in r.deleteAfterStop && r.tasks == s.tasks && r.rows == s.rows && r.snaps == s.snaps && r.workers == s.workers
  {
  }

  /** Consumption shows the task as consumed everywhere; a failed one leaves its status. */
  lemma ConsumptionIsShown(s: System, id: TaskId, failed: bool)
    requires id in s.tasks
    ensures var r := Next(s, MarkConsumed(id, failed));
            Shows(r, id, if failed then s.tasks[id] else Consumed) && OthersKept(s, r, id)
  {
  }

  /** A restart finds every row, and every snapshot without a row; what ran has failed, everything else is as it was. */
  lemma RestartRepairs(s: System, id: TaskId)
    ensures var r := DoRestart(s);
            && r.workers == map[] && r.futures == map[] && r.cancelRequested == {} && r.deleteAfterStop == {}
            && (id in s.rows ==> id in r.tasks && r.tasks[id] == (if s.rows[id] == Running then Failed else s.rows[id]))
            && (id !in s.rows && id in s.snaps ==> id in r.tasks && r.tasks[id] == (if s.snaps[id] == Running then Failed else s.snaps[id]))
            && (id !in s.rows && id !in s.snaps ==> id !in r.tasks)
            && r.rows == r.tasks
  {
  }

  // ---------------------------------------------------------------- a request stands

  /** The worker has not returned and the manager knows its task. */
  predicate Still(s: System, f: FutureId) {
    f in s.workers && !s.workers[f].pc.Done? && s.workers[f].task in s.tasks
  }

  predicate StillThroughout(s: System, steps: seq<Step>, f: FutureId)
    requires IsRun(s, steps)
    decreases |steps|
  {
    Still(s, f) && (steps == [] || StillThroughout(Next(s, steps[0]), steps[1..], f))
  }

  lemma CallKeepsRequest(s: System, step: Step, f: FutureId)
    requires Inv(s) && Enabled(s, step) && Still(s, f) && s.workers[f].task in s.cancelRequested && Still(Next(s, step), f)
    requires step.Create? || step.Start? || step.Cancel? || step.Delete? || step.MarkConsumed? || step.RmTree? || step.Restart?
    ensures Next(s, step).workers[f].task == s.workers[f].task && s.workers[f].task in Next(s, step).cancelRequested
  {
  }

  lemma WorkKeepsRequest(s: System, step: Step, f: FutureId)
    requires Inv(s) && Enabled(s, step) && Still(s, f) && s.workers[f].task in s.cancelRequested && Still(Next(s, step), f)
    requires step.Fetch? || step.MarkRunning? || step.SaveProgress? || step.CheckCancel? || step.Complete? || step.Fail? || step.Finish? || step.Drop?
    ensures Next(s, step).workers[f].task == s.workers[f].task && s.workers[f].task in Next(s, step).cancelRequested
  {
  }

  lemma ForgetKeepsRequest(s: System, g: FutureId, f: FutureId)
    requires Inv(s) && Enabled(s, Forget(g)) && Still(s, f) && s.workers[f].task in s.cancelRequested && Still(DoForget(s, g), f)
    ensures DoForget(s, g).workers[f].task == s.workers[f].task && s.workers[f].task in DoForget(s, g).cancelRequested
  {
  }

  lemma StepKeepsRequest(s: System, step: Step, f: FutureId)
    requires Inv(s) && Enabled(s, step) && Still(s, f) && s.workers[f].task in s.cancelRequested && Still(Next(s, step), f)
    ensures Next(s, step).workers[f].task == s.workers[f].task && s.workers[f].task in Next(s, step).cancelRequested
  {
    match step
    case Forget(g) => ForgetKeepsRequest(s, g, f);
    case Create => CallKeepsRequest(s, step, f);
    case Start(_) => CallKeepsRequest(s, step, f);
    case Cancel(_) => CallKeepsRequest(s, step, f);
    case Delete(_) => CallKeepsRequest(s, step, f);
    case MarkConsumed(_, _) => CallKeepsRequest(s, step, f);
    case RmTree(_, _) => CallKeepsRequest(s, step, f);
    case Restart => CallKeepsRequest(s, step, f);
    case _ => WorkKeepsRequest(s, step, f);
  }

  lemma {:induction false} RequestStands(s: System, steps: seq<Step>, f: FutureId)
    requires Inv(s) && IsRun(s, steps) && StillThroughout(s, steps, f) && s.workers[f].task in s.cancelRequested
    ensures var r := After(s, steps);
            Inv(r) && Still(r, f) && r.workers[f].task == s.workers[f].task && r.workers[f].task in r.cancelRequested
    decreases |steps|
  {
    if steps != [] {
      StepKeepsRequest(s, steps[0], f);
      StepKeepsInv(s, steps[0]);
      RequestStands(Next(s, steps[0]), steps[1..], f);
    }
  }

  /**
   Cancelling a task whose worker has not returned: whatever happens next, retries and deletions included, as long
   as the worker has not returned and the task is known, the next look of the worker stops it and shows the task as
   cancelled.
   */
  lemma CancelStopsTheWorker(s: System, id: TaskId, f: FutureId, steps: seq<Step>)
    requires T.Reachable(s) && Still(s, f) && s.workers[f].task == id
    requires IsRun(DoCancel(s, id), steps) && StillThroughout(DoCancel(s, id), steps, f)
    requires At(After(DoCancel(s, id), steps), f, Active)
    ensures var q := After(DoCancel(s, id), steps);
            Enabled(q, CheckCancel(f)) && Shows(DoCheckCancel(q, f), id, Cancelled) && At(DoCheckCancel(q, f), f, Done)
  {
    T.ReachableInv(s);
    StepKeepsInv(s, Cancel(id));
    CancelIsRecorded(s, id);
    RequestStands(DoCancel(s, id), steps, f);
    RequestStopsTheWorker(After(DoCancel(s, id), steps), id, f);
  }

  // ---------------------------------------------------------------- whole lives of a worker

  /** From the start to the point where bytes arrive. */
  function Begun(s: System, id: TaskId): System
    requires Inv(s) && Startable(s, id)
  {
    var f := s.nextFuture;
    StartedTaskHasAWorker(s, id);
    var q := DoStart(s, id);
    WorkerTakesItsTask(q, id, f);
    WorkerRuns(Next(q, Fetch(f)), id, f);
    Next(Next(q, Fetch(f)), MarkRunning(f))
  }

  lemma BegunRuns(s: System, id: TaskId)
    requires Inv(s) && Startable(s, id)
    ensures Works(Begun(s, id), id, s.nextFuture, Active) && Shows(Begun(s, id), id, Running) && OthersKept(s, Begun(s, id), id)
    ensures id !in Begun(s, id).cancelRequested && Begun(s, id).deleteAfterStop == s.deleteAfterStop
    ensures T.Reachable(s) ==> T.Reachable(Begun(s, id))
  {
    var f := s.nextFuture;
    StartedTaskHasAWorker(s, id);
    var q := DoStart(s, id);
    WorkerTakesItsTask(q, id, f);
    WorkerRuns(Next(q, Fetch(f)), id, f);
    if T.Reachable(s) {
      T.StartProceeds(s, id);
      T.Proceed(q, Fetch(f));
      T.Proceed(Next(q, Fetch(f)), MarkRunning(f));
    }
  }

  /** Left alone, a started task is completed and its worker forgotten. */
  lemma UndisturbedTaskCompletes(s: System, id: TaskId)
    requires T.Reachable(s) && Startable(s, id) && id !in s.deleteAfterStop
    ensures Inv(s)
    ensures var f := s.nextFuture;
            var q := Begun(s, id);
            && Enabled(q, Complete(f)) && Enabled(Next(q, Complete(f)), Finish(f))
            && var r := DoForget(Next(Next(q, Complete(f)), Finish(f)), f);
            Shows(r, id, Completed) && f !in r.workers && id !in r.futures && OthersKept(s, r, id)
  {
    T.ReachableInv(s);
    BegunRuns(s, id);
    WorkerCompletes(Begun(s, id), id, s.nextFuture);
    var q := Next(Next(Begun(s, id), Complete(s.nextFuture)), Finish(s.nextFuture));
    CallbackForgetsTheWorker(q, id, s.nextFuture);
  }

  /** Cancelled while it runs, it is cancelled and can be started again; the earlier request does not stop the new worker. */
  lemma CancelledTaskCanStartAgain(s: System, id: TaskId)
    requires T.Reachable(s) && Startable(s, id) && id !in s.deleteAfterStop
    ensures Inv(s)
    ensures var f := s.nextFuture;
            var q := DoCancel(Begun(s, id), id);
            && Enabled(q, CheckCancel(f))
            && var r := DoForget(DoCheckCancel(q, f), f);
            && Shows(r, id, Cancelled) && f !in r.workers && Startable(r, id) && Inv(r)
            && Works(Begun(r, id), id, r.nextFuture, Active) && Next(Begun(r, id), CheckCancel(r.nextFuture)) == Begun(r, id)
  {
    var f := s.nextFuture;
    T.ReachableInv(s);
    BegunRuns(s, id);
    var b := Begun(s, id);
    T.ReachableInv(b);
    CancelIsRecorded(b, id);
    var q := DoCancel(b, id);
    RequestStopsTheWorker(q, id, f);
    var d := DoCheckCancel(q, f);
    CallbackForgetsTheWorker(d, id, f);
    StepKeepsInv(b, Cancel(id));
    StepKeepsInv(q, CheckCancel(f));
    StepKeepsInv(d, Forget(f));
    BegunRuns(DoForget(d, f), id);
  }

  /** Deleted while it runs, it is gone from memory, table and disk once its worker has stopped and its directory is removed. */
  lemma DeletedWhileRunningIsGone(s: System, id: TaskId)
    requires T.Reachable(s) && Startable(s, id) && id !in s.rmtree
    ensures Inv(s)
    ensures var f := s.nextFuture;
            var q := DoDelete(Begun(s, id), id);
            && Enabled(q, CheckCancel(f))
            && var r := DoForget(DoCheckCancel(q, f), f);
            && Enabled(r, RmTree(id, true))
            && id !in r.tasks && id !in r.rows && f !in r.workers && id !in Next(r, RmTree(id, true)).snaps
  {
    var f := s.nextFuture;
    T.ReachableInv(s);
    BegunRuns(s, id);
    var b := Begun(s, id);
    T.ReachableInv(b);
    BusyTaskIsAskedToStop(b, id);
    var q := DoDelete(b, id);
    RequestStopsTheWorker(q, id, f);
    CallbackForgetsTheWorker(DoCheckCancel(q, f), id, f);
  }
}
