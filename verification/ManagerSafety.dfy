/** What every run of the download manager keeps, and what only a prompt callback guarantees. */
module ManagerSafety {
  import opened ManagerProtocol

  /** Holds in every run. */
  ghost predicate Inv(s: System) {
    && (forall f :: f in s.workers ==> f < s.nextFuture && s.workers[f].task < s.nextTask)
    && (forall id :: id in s.tasks ==> id < s.nextTask)
    && (forall id :: id in s.rows || id in s.snaps || id in s.rmtree ==> id < s.nextTask)
    && (forall id :: id in s.futures ==> s.futures[id] in s.workers && s.workers[s.futures[id]].task == id)
    && (forall f :: f in s.workers && !s.workers[f].pc.Done? ==>
          s.workers[f].task in s.futures && s.futures[s.workers[f].task] == f)
    && (forall id :: id in s.tasks && s.tasks[id] == Running ==> id in s.futures && s.workers[s.futures[id]].pc.Active?)
    && (forall id :: id in s.cancelRequested ==>
          id in s.cancelledAt && (Unfinished(s, id) ==> s.futures[id] < s.cancelledAt[id]))
  }

  lemma RequestKeepsInv(s: System, id: TaskId)
    requires Inv(s)
    ensures Inv(RequestCancel(s, id))
  {
  }

  lemma SaveKeepsInv(s: System, id: TaskId, status: Status)
    requires Inv(s) && id < s.nextTask && status != Running
    ensures Inv(Save(s, id, status))
  {
  }

  lemma RemoveKeepsInv(s: System, id: TaskId)
    requires Inv(s)
    ensures Inv(Remove(s, id))
  {
  }

  /** A worker stops once its task is no longer shown as running. */
  lemma StopKeepsInv(s: System, f: FutureId)
    requires Inv(s) && f in s.workers
    requires s.workers[f].task in s.tasks ==> s.tasks[s.workers[f].task] != Running
    ensures Inv(Goto(s, f, Done))
  {
  }

  /** The pending deletions decide only what a callback does. */
  lemma PendingDoesNotMatter(s: System, pending: set<TaskId>)
    requires Inv(s)
    ensures Inv(s.(deleteAfterStop := pending))
  {
  }

  lemma QuietKeepsInv(s: System, step: Step)
    requires Inv(s) && Enabled(s, step) && (step.Create? || step.MarkConsumed? || step.RmTree?)
    ensures Inv(Next(s, step))
  {
  }

  lemma StartKeepsInv(s: System, step: Step)
    requires Inv(s) && Enabled(s, step) && step.Start?
    ensures Inv(Next(s, step))
  {
  }

  lemma CancelKeepsInv(s: System, step: Step)
    requires Inv(s) && Enabled(s, step) && step.Cancel?
    ensures Inv(Next(s, step))
  {
    RequestKeepsInv(s, step.id);
    if step.id in s.tasks {
      SaveKeepsInv(RequestCancel(s, step.id), step.id, Cancelled);
    }
  }

  lemma DeleteKeepsInv(s: System, step: Step)
    requires Inv(s) && Enabled(s, step) && step.Delete?
    ensures Inv(Next(s, step))
  {
    RequestKeepsInv(s, step.id);
    PendingDoesNotMatter(RequestCancel(s, step.id), s.deleteAfterStop + {step.id});
    RemoveKeepsInv(s, step.id);
  }

  lemma GotoKeepsInv(s: System, step: Step)
    requires Inv(s) && Enabled(s, step) && (step.Fetch? || step.Finish? || step.Drop?)
    ensures Inv(Next(s, step))
  {
  }

  lemma WorkKeepsInv(s: System, step: Step)
    requires Inv(s) && Enabled(s, step) && (step.MarkRunning? || step.SaveProgress?)
    ensures Inv(Next(s, step))
  {
  }

  lemma CompleteKeepsInv(s: System, step: Step)
    requires Inv(s) && Enabled(s, step) && step.Complete?
    ensures Inv(Next(s, step))
  {
  }

  lemma CheckCancelKeepsInv(s: System, step: Step)
    requires Inv(s) && Enabled(s, step) && step.CheckCancel?
    ensures Inv(Next(s, step))
  {
    var id := s.workers[step.f].task;
    if id in s.tasks {
      SaveKeepsInv(s, id, Cancelled);
      StopKeepsInv(Save(s, id, Cancelled), step.f);
    } else {
      StopKeepsInv(s, step.f);
    }
  }

  lemma FailKeepsInv(s: System, step: Step)
    requires Inv(s) && Enabled(s, step) && step.Fail?
    ensures Inv(Next(s, step))
  {
    var id := s.workers[step.f].task;
    if id in s.tasks {
      SaveKeepsInv(s, id, Failed);
      StopKeepsInv(Save(s, id, Failed), step.f);
    } else {
      StopKeepsInv(s, step.f);
    }
  }

  lemma ForgetWorkerKeepsInv(s: System, f: FutureId)
    requires Inv(s) && At(s, f, Done)
    ensures Inv(WithoutWorker(s, f))
  {
  }

  lemma ForgetKeepsInv(s: System, step: Step)
    requires Inv(s) && Enabled(s, step) && step.Forget?
    ensures Inv(Next(s, step))
  {
    var r, id := WithoutWorker(s, step.f), s.workers[step.f].task;
    ForgetWorkerKeepsInv(s, step.f);
    RemoveKeepsInv(r, id);
    PendingDoesNotMatter(Remove(r, id), s.deleteAfterStop - {id});
  }

  lemma RestartKeepsInv(s: System)
    requires Inv(s)
    ensures Inv(DoRestart(s))
  {
  }

  lemma StepKeepsInv(s: System, step: Step)
    requires Inv(s) && Enabled(s, step)
    ensures Inv(Next(s, step))
  {
    match step
    case Create => QuietKeepsInv(s, step);
    case MarkConsumed(_, _) => QuietKeepsInv(s, step);
    case RmTree(_, _) => QuietKeepsInv(s, step);
    case Restart => RestartKeepsInv(s);
    case Start(_) => StartKeepsInv(s, step);
    case Cancel(_) => CancelKeepsInv(s, step);
    case Delete(_) => DeleteKeepsInv(s, step);
    case Fetch(_) => GotoKeepsInv(s, step);
    case Finish(_) => GotoKeepsInv(s, step);
    case Drop(_) => GotoKeepsInv(s, step);
    case MarkRunning(_) => WorkKeepsInv(s, step);
    case SaveProgress(_) => WorkKeepsInv(s, step);
    case Complete(_) => CompleteKeepsInv(s, step);
    case CheckCancel(_) => CheckCancelKeepsInv(s, step);
    case Fail(_) => FailKeepsInv(s, step);
    case Forget(_) => ForgetKeepsInv(s, step);
  }

  /** Holds as long as every start comes after the callback of the worker before it. */
  ghost predicate Tidy(s: System) {
    && s.rows == s.tasks
    && (forall id :: id in s.tasks ==> id in s.snaps && s.snaps[id] == s.tasks[id])
    && (forall id :: id in s.rmtree ==> id !in s.tasks)
    && (forall f :: f in s.workers ==> s.workers[f].task in s.futures && s.futures[s.workers[f].task] == f)
    && (forall f :: f in s.workers && !s.workers[f].pc.Done? ==> s.workers[f].task in s.tasks)
    && (forall id :: id in s.deleteAfterStop ==> id in s.futures)
  }

  lemma QuietKeepsTidy(s: System, step: Step)
    requires Inv(s) && Tidy(s) && Enabled(s, step) && (step.Create? || step.MarkConsumed? || step.RmTree?)
    ensures Tidy(Next(s, step))
  {
  }

  lemma StartKeepsTidy(s: System, step: Step)
    requires Inv(s) && Tidy(s) && Enabled(s, step) && Prompt(s, step) && step.Start?
    ensures Tidy(Next(s, step))
  {
  }

  lemma CancelKeepsTidy(s: System, step: Step)
    requires Inv(s) && Tidy(s) && Enabled(s, step) && step.Cancel?
    ensures Tidy(Next(s, step))
  {
  }

  lemma DeleteKeepsTidy(s: System, step: Step)
    requires Inv(s) && Tidy(s) && Enabled(s, step) && step.Delete?
    ensures Tidy(Next(s, step))
  {
  }

  lemma GotoKeepsTidy(s: System, step: Step)
    requires Inv(s) && Tidy(s) && Enabled(s, step) && (step.Fetch? || step.Finish? || step.Drop?)
    ensures Tidy(Next(s, step))
  {
  }

  lemma WorkKeepsTidy(s: System, step: Step)
    requires Inv(s) && Tidy(s) && Enabled(s, step) && (step.MarkRunning? || step.SaveProgress?)
    ensures Tidy(Next(s, step))
  {
  }

  lemma CompleteKeepsTidy(s: System, step: Step)
    requires Inv(s) && Tidy(s) && Enabled(s, step) && step.Complete?
    ensures Tidy(Next(s, step))
  {
  }

  lemma CheckCancelKeepsTidy(s: System, step: Step)
    requires Inv(s) && Tidy(s) && Enabled(s, step) && step.CheckCancel?
    ensures Tidy(Next(s, step))
  {
  }

  lemma FailKeepsTidy(s: System, step: Step)
    requires Inv(s) && Tidy(s) && Enabled(s, step) && step.Fail?
    ensures Tidy(Next(s, step))
  {
  }

  lemma ForgetKeepsTidy(s: System, step: Step)
    requires Inv(s) && Tidy(s) && Enabled(s, step) && step.Forget?
    ensures Tidy(Next(s, step))
  {
  }

  lemma RestartKeepsTidy(s: System)
    requires Inv(s) && Tidy(s)
    ensures Tidy(DoRestart(s))
  {
  }

  lemma WorkerKeepsTidy(s: System, step: Step)
    requires Inv(s) && Tidy(s) && Enabled(s, step)
    requires step.Fetch? || step.MarkRunning? || step.SaveProgress? || step.CheckCancel? || step.Complete?
             || step.Fail? || step.Finish? || step.Drop? || step.Forget?
    ensures Tidy(Next(s, step))
  {
    match step
    case Fetch(_) => GotoKeepsTidy(s, step);
    case Finish(_) => GotoKeepsTidy(s, step);
    case Drop(_) => GotoKeepsTidy(s, step);
    case MarkRunning(_) => WorkKeepsTidy(s, step);
    case SaveProgress(_) => WorkKeepsTidy(s, step);
    case Complete(_) => CompleteKeepsTidy(s, step);
    case CheckCancel(_) => CheckCancelKeepsTidy(s, step);
    case Fail(_) => FailKeepsTidy(s, step);
    case Forget(_) => ForgetKeepsTidy(s, step);
  }

  lemma StepKeepsTidy(s: System, step: Step)
    requires Inv(s) && Tidy(s) && Enabled(s, step) && Prompt(s, step)
    ensures Tidy(Next(s, step))
  {
    match step
    case Create => QuietKeepsTidy(s, step);
    case MarkConsumed(_, _) => QuietKeepsTidy(s, step);
    case RmTree(_, _) => QuietKeepsTidy(s, step);
    case Restart => RestartKeepsTidy(s);
    case Start(_) => StartKeepsTidy(s, step);
    case Cancel(_) => CancelKeepsTidy(s, step);
    case Delete(_) => DeleteKeepsTidy(s, step);
    case _ => WorkerKeepsTidy(s, step);
  }
}
