/** The promises of the download manager over whole runs. */
module ManagerTheorems {
  import opened ManagerProtocol
  import opened ManagerSafety

  lemma InitialIsTidy()
    ensures Inv(INITIAL) && Tidy(INITIAL)
  {
  }

  lemma {:induction false} RunKeepsInv(s: System, steps: seq<Step>)
    requires Inv(s) && IsRun(s, steps)
    ensures Inv(After(s, steps))
    decreases |steps|
  {
    if steps != [] {
      StepKeepsInv(s, steps[0]);
      RunKeepsInv(Next(s, steps[0]), steps[1..]);
    }
  }

  lemma {:induction false} PromptRunKeepsTidy(s: System, steps: seq<Step>)
    requires Inv(s) && Tidy(s) && IsPromptRun(s, steps)
    ensures IsRun(s, steps) && Inv(After(s, steps)) && Tidy(After(s, steps))
    decreases |steps|
  {
    if steps != [] {
      StepKeepsInv(s, steps[0]);
      StepKeepsTidy(s, steps[0]);
      PromptRunKeepsTidy(Next(s, steps[0]), steps[1..]);
    }
  }

  // ---------------------------------------------------------------- reachable states

  ghost predicate Reachable(s: System) {
    exists steps: seq<Step> :: IsRun(INITIAL, steps) && After(INITIAL, steps) == s
  }

  lemma {:induction false} ExtendRun(s: System, steps: seq<Step>, step: Step)
    requires IsRun(s, steps) && Enabled(After(s, steps), step)
    ensures IsRun(s, steps + [step]) && After(s, steps + [step]) == Next(After(s, steps), step)
    decreases |steps|
  {
    if steps == [] {
      assert [] + [step] == [step];
    } else {
      assert (steps + [step])[1..] == steps[1..] + [step];
      ExtendRun(Next(s, steps[0]), steps[1..], step);
    }
  }

  lemma ReachableNext(s: System, step: Step, r: System)
    requires Reachable(s) && Enabled(s, step) && Next(s, step) == r
    ensures Reachable(r)
  {
    var steps: seq<Step> :| IsRun(INITIAL, steps) && After(INITIAL, steps) == s;
    ExtendRun(INITIAL, steps, step);
  }

  lemma Proceed(s: System, step: Step)
    requires Reachable(s) && Enabled(s, step)
    ensures Reachable(Next(s, step))
  {
    ReachableNext(s, step, Next(s, step));
  }

  lemma StartProceeds(s: System, id: TaskId)
    requires Reachable(s)
    ensures Reachable(DoStart(s, id))
  {
    ReachableNext(s, Start(id), DoStart(s, id));
  }

  lemma ForgetProceeds(s: System, f: FutureId)
    requires Reachable(s) && At(s, f, Done)
    ensures Reachable(DoForget(s, f))
  {
    ReachableNext(s, Forget(f), DoForget(s, f));
  }

  lemma RestartProceeds(s: System)
    requires Reachable(s)
    ensures Reachable(DoRestart(s))
  {
    ReachableNext(s, Restart, DoRestart(s));
  }

  lemma InitiallyReachable()
    ensures Reachable(INITIAL)
  {
    var none: seq<Step> := [];
    assert IsRun(INITIAL, none) && After(INITIAL, none) == INITIAL;
  }

  lemma ReachableInv(s: System)
    requires Reachable(s)
    ensures Inv(s)
  {
    var steps: seq<Step> :| IsRun(INITIAL, steps) && After(INITIAL, steps) == s;
    RunKeepsInv(INITIAL, steps);
  }

  // ---------------------------------------------------------------- every run

  /** At most one unfinished worker per task, and it is the one the manager knows. */
  lemma OneWorkerPerTask(steps: seq<Step>, f: FutureId, g: FutureId)
    requires IsRun(INITIAL, steps)
    requires var s := After(INITIAL, steps);
             && f in s.workers && g in s.workers && s.workers[f].task == s.workers[g].task
             && !s.workers[f].pc.Done? && !s.workers[g].pc.Done?
    ensures f == g
  {
    RunKeepsInv(INITIAL, steps);
  }

  /** A task that is shown as running has a worker at work on it. */
  lemma RunningMeansWorked(steps: seq<Step>, id: TaskId)
    requires IsRun(INITIAL, steps)
    requires var s := After(INITIAL, steps); id in s.tasks && s.tasks[id] == Running
    ensures var s := After(INITIAL, steps);
            exists f :: f in s.workers && s.workers[f] == Worker(id, Active)
  {
    RunKeepsInv(INITIAL, steps);
    var s := After(INITIAL, steps);
    assert s.workers[s.futures[id]] == Worker(id, Active);
  }

  /** A worker is only ever stopped by a cancellation that was requested after it was submitted. */
  lemma CancelNeverLeaks(steps: seq<Step>, f: FutureId)
    requires IsRun(INITIAL, steps) && Enabled(After(INITIAL, steps), CheckCancel(f))
    requires var s := After(INITIAL, steps); Next(s, CheckCancel(f)) != s
    ensures var s := After(INITIAL, steps);
            s.workers[f].task in s.cancelledAt && f < s.cancelledAt[s.workers[f].task]
  {
    RunKeepsInv(INITIAL, steps);
  }

  lemma OthersKeepStamps(s: System, step: Step)
    requires Enabled(s, step) && !step.Cancel? && !step.Delete? && !step.Restart?
    ensures Next(s, step).cancelledAt == s.cancelledAt
  {
  }

  /** The stamp of a request is the number of futures submitted so far; only requests set it. */
  lemma StampsCountFutures(s: System, step: Step, id: TaskId)
    requires Enabled(s, step) && !step.Restart?
    requires id in Next(s, step).cancelledAt && (id in s.cancelledAt ==> Next(s, step).cancelledAt[id] != s.cancelledAt[id])
    ensures (step == Cancel(id) || step == Delete(id)) && Next(s, step).cancelledAt[id] == s.nextFuture
  {
    if !step.Cancel? && !step.Delete? {
      OthersKeepStamps(s, step);
    }
  }

  // ---------------------------------------------------------------- runs with prompt callbacks

  /** Every lock section ends with the table equal to memory, and with the snapshots of the known tasks equal to both. */
  lemma DurableEqualsMemory(steps: seq<Step>)
    requires IsPromptRun(INITIAL, steps)
    ensures IsRun(INITIAL, steps) && After(INITIAL, steps).rows == After(INITIAL, steps).tasks
    ensures forall id :: id in After(INITIAL, steps).tasks ==>
              id in After(INITIAL, steps).snaps && After(INITIAL, steps).snaps[id] == After(INITIAL, steps).tasks[id]
  {
    InitialIsTidy();
    PromptRunKeepsTidy(INITIAL, steps);
  }

  /** The manager and its table do not know the task, and nothing is at work on it. */
  ghost predicate Gone(s: System, id: TaskId) {
    && id < s.nextTask && id !in s.tasks && id !in s.rows
    && forall f :: f in s.workers ==> s.workers[f].task != id
  }

  /** A deletion that found a worker is carried out when that worker's callback runs. */
  lemma DeletedOnceTheWorkerStops(steps: seq<Step>, f: FutureId, id: TaskId)
    requires IsPromptRun(INITIAL, steps) && IsRun(INITIAL, steps)
    requires var s := After(INITIAL, steps);
             Enabled(s, Forget(f)) && s.workers[f].task == id && id in s.deleteAfterStop
    ensures var r := Next(After(INITIAL, steps), Forget(f));
            Gone(r, id) && id !in r.futures && id !in r.cancelRequested && id !in r.deleteAfterStop
  {
    InitialIsTidy();
    PromptRunKeepsTidy(INITIAL, steps);
  }

  /** Until then the deletion stays pending. */
  lemma DeletionStaysPending(s: System, step: Step, id: TaskId)
    requires Enabled(s, step) && id in s.deleteAfterStop && !step.Restart?
    requires step.Forget? ==> s.workers[step.f].task != id
    ensures id in Next(s, step).deleteAfterStop
  {
  }

  lemma CancelKeepsGone(s: System, i: TaskId, id: TaskId)
    requires Gone(s, id)
    ensures Gone(DoCancel(s, i), id) && (id !in s.snaps ==> id !in DoCancel(s, i).snaps)
  {
  }

  lemma DeleteKeepsGone(s: System, i: TaskId, id: TaskId)
    requires Gone(s, id)
    ensures Gone(DoDelete(s, i), id) && (id !in s.snaps ==> id !in DoDelete(s, i).snaps)
  {
  }

  lemma StartKeepsGone(s: System, i: TaskId, id: TaskId)
    requires Gone(s, id)
    ensures Gone(DoStart(s, i), id) && (id !in s.snaps ==> id !in DoStart(s, i).snaps)
  {
  }

  lemma CallbackKeepsGone(s: System, f: FutureId, id: TaskId)
    requires f in s.workers && Gone(s, id)
    ensures Gone(DoForget(s, f), id) && DoForget(s, f).snaps == s.snaps
  {
  }

  lemma WorkerKeepsGone(s: System, step: Step, id: TaskId)
    requires Enabled(s, step) && Gone(s, id)
    requires step.Fetch? || step.MarkRunning? || step.SaveProgress? || step.CheckCancel? || step.Complete?
             || step.Fail? || step.Finish? || step.Drop?
    ensures Gone(Next(s, step), id) && (id !in s.snaps ==> id !in Next(s, step).snaps)
  {
  }

  lemma StepKeepsGone(s: System, step: Step, id: TaskId)
    requires Enabled(s, step) && Gone(s, id) && (step.Restart? ==> id !in s.snaps)
    ensures Gone(Next(s, step), id) && (id !in s.snaps ==> id !in Next(s, step).snaps)
  {
    match step
    case Fetch(_) => WorkerKeepsGone(s, step, id);
    case MarkRunning(_) => WorkerKeepsGone(s, step, id);
    case SaveProgress(_) => WorkerKeepsGone(s, step, id);
    case CheckCancel(_) => WorkerKeepsGone(s, step, id);
    case Complete(_) => WorkerKeepsGone(s, step, id);
    case Fail(_) => WorkerKeepsGone(s, step, id);
    case Finish(_) => WorkerKeepsGone(s, step, id);
    case Drop(_) => WorkerKeepsGone(s, step, id);
    case Forget(f) => CallbackKeepsGone(s, f, id);
    case Start(i) => StartKeepsGone(s, i, id);
    case Cancel(i) => CancelKeepsGone(s, i, id);
    case Delete(i) => DeleteKeepsGone(s, i, id);
    case _ =>
  }

  /** A task that is gone with its directory never comes back, in any run. */
  lemma {:induction false} GoneForever(s: System, steps: seq<Step>, id: TaskId)
    requires Gone(s, id) && id !in s.snaps && IsRun(s, steps)
    ensures Gone(After(s, steps), id) && id !in After(s, steps).snaps
    decreases |steps|
  {
    if steps != [] {
      StepKeepsGone(s, steps[0], id);
      GoneForever(Next(s, steps[0]), steps[1..], id);
    }
  }

  /** A restart that finds the directory of a deleted task brings the task back, and only then. */
  lemma RestartRevives(s: System, id: TaskId)
    requires Gone(s, id)
    ensures id in Next(s, Restart).tasks <==> id in s.snaps
  {
  }

  /** A directory that could not be removed is enough: the deleted task is loaded again. */
  lemma ADeletedTaskCanReturn() returns (s: System)
    ensures Reachable(s) && Gone(s, 0) && 0 in s.snaps && 0 in Next(s, Restart).tasks
  {
    OneTaskIsCreated();
    var s1 := INITIAL.(tasks := map[0 := Queued], rows := map[0 := Queued], snaps := map[0 := Queued], nextTask := 1);
    var s2 := INITIAL.(snaps := map[0 := Queued], rmtree := {0}, nextTask := 1);
    assert s1.tasks - {0} == map[] && s1.rows - {0} == map[];
    ReachableNext(s1, Delete(0), s2);
    s := INITIAL.(snaps := map[0 := Queued], nextTask := 1);
    ReachableNext(s2, RmTree(0, false), s);
    RestartRevives(s, 0);
  }

  // ---------------------------------------------------------------- a late callback

  /** Task 0 alone, with its current and its earlier workers. */
  function OneTask(status: Status, workers: map<FutureId, Worker>, current: FutureId, next: FutureId): System {
    INITIAL.(tasks := map[0 := status], rows := map[0 := status], snaps := map[0 := status], futures := map[0 := current],
             workers := workers, nextTask := 1, nextFuture := next)
  }

  lemma OneTaskIsCreated()
    ensures Reachable(INITIAL.(tasks := map[0 := Queued], rows := map[0 := Queued], snaps := map[0 := Queued], nextTask := 1))
  {
    InitiallyReachable();
    ReachableNext(INITIAL, Create, INITIAL.(tasks := map[0 := Queued], rows := map[0 := Queued], snaps := map[0 := Queued], nextTask := 1));
  }

  lemma AFailedWorkerMayLinger()
    ensures Reachable(OneTask(Failed, map[0 := Worker(0, Done)], 0, 1))
  {
    OneTaskIsCreated();
    var s1 := INITIAL.(tasks := map[0 := Queued], rows := map[0 := Queued], snaps := map[0 := Queued], nextTask := 1);
    var s2 := OneTask(Queued, map[0 := Worker(0, Pending)], 0, 1);
    ReachableNext(s1, Start(0), s2);
    var s3 := OneTask(Queued, map[0 := Worker(0, Holding)], 0, 1);
    ReachableNext(s2, Fetch(0), s3);
    ReachableNext(s3, Fail(0), OneTask(Failed, map[0 := Worker(0, Done)], 0, 1));
  }

  /** Task 0 failed, was started again before the first callback ran, and was deleted while running. */
  function DeletedWhileRestarted(): System {
    OneTask(Running, map[0 := Worker(0, Done), 1 := Worker(0, Active)], 1, 2).(
      cancelRequested := {0}, cancelledAt := map[0 := 2], deleteAfterStop := {0})
  }

  lemma AnEarlyRestartWorks()
    ensures Reachable(OneTask(Queued, map[0 := Worker(0, Done), 1 := Worker(0, Holding)], 1, 2))
  {
    AFailedWorkerMayLinger();
    var s1 := OneTask(Failed, map[0 := Worker(0, Done)], 0, 1);
    var s2 := OneTask(Queued, map[0 := Worker(0, Done), 1 := Worker(0, Pending)], 1, 2);
    ReachableNext(s1, Start(0), s2);
    ReachableNext(s2, Fetch(1), OneTask(Queued, map[0 := Worker(0, Done), 1 := Worker(0, Holding)], 1, 2));
  }

  lemma ItCanBeDeletedWhileRestarted()
    ensures Reachable(DeletedWhileRestarted())
  {
    AnEarlyRestartWorks();
    var s3 := OneTask(Queued, map[0 := Worker(0, Done), 1 := Worker(0, Holding)], 1, 2);
    var s4 := OneTask(Running, map[0 := Worker(0, Done), 1 := Worker(0, Active)], 1, 2);
    ReachableNext(s3, MarkRunning(1), s4);
    ReachableNext(s4, Delete(0), DeletedWhileRestarted());
  }

  /**
   Without prompt callbacks the table is not safe: the late callback of the first worker carries out the
   deletion under the running second worker, whose next save writes the row of the deleted task again.
   */
  lemma LateCallbackRevivesARow()
    ensures Reachable(DeletedWhileRestarted())
    ensures var s := Next(DeletedWhileRestarted(), Forget(0));
            0 !in s.tasks && 0 !in s.rows && Enabled(s, SaveProgress(1)) && Next(s, SaveProgress(1)).rows == map[0 := Running]
    ensures 0 in Next(Next(Next(DeletedWhileRestarted(), Forget(0)), SaveProgress(1)), Restart).tasks
  {
    ItCanBeDeletedWhileRestarted();
  }

  // ---------------------------------------------------------------- exactly when a start is safe

  /** An earlier worker of the task has returned and not been forgotten; the present one stands at `pc`. */
  predicate Lingers(s: System, id: TaskId, early: FutureId, late: FutureId, pc: Pc) {
    && early != late && early in s.workers && s.workers[early] == Worker(id, Done)
    && late in s.workers && s.workers[late] == Worker(id, pc)
    && id in s.tasks && id in s.futures && s.futures[id] == late
  }

  lemma StartLingers(s: System, id: TaskId)
    requires Inv(s) && Startable(s, id) && id in s.futures
    ensures Lingers(DoStart(s, id), id, s.futures[id], s.nextFuture, Pending)
  {
  }

  lemma WorkLingers(s: System, id: TaskId, early: FutureId, late: FutureId)
    ensures Lingers(s, id, early, late, Pending) ==> Enabled(s, Fetch(late)) && Lingers(Next(s, Fetch(late)), id, early, late, Holding)
    ensures Lingers(s, id, early, late, Holding) ==> Enabled(s, MarkRunning(late)) && Lingers(Next(s, MarkRunning(late)), id, early, late, Active)
  {
  }

  lemma DeleteLingers(s: System, id: TaskId, early: FutureId, late: FutureId)
    requires Lingers(s, id, early, late, Active)
    ensures Lingers(DoDelete(s, id), id, early, late, Active) && id in DoDelete(s, id).deleteAfterStop
  {
  }

  lemma ForgetRemovesUnderTheWorker(s: System, id: TaskId, early: FutureId, late: FutureId)
    requires Lingers(s, id, early, late, Active) && id in s.deleteAfterStop
    ensures var r := DoForget(s, early); id !in r.tasks && late in r.workers && r.workers[late] == Worker(id, Active)
  {
  }

  function LateSteps(id: TaskId, early: FutureId, late: FutureId): seq<Step> {
    [Fetch(late)] + ([MarkRunning(late)] + ([Delete(id)] + ([Forget(early)] + ([SaveProgress(late)] + []))))
  }

  lemma PromptCons(s: System, step: Step, rest: seq<Step>)
    requires Enabled(s, step) && !step.Start? && IsPromptRun(Next(s, step), rest) && IsRun(Next(s, step), rest)
    ensures IsPromptRun(s, [step] + rest) && IsRun(s, [step] + rest)
    ensures After(s, [step] + rest) == After(Next(s, step), rest)
  {
    assert ([step] + rest)[0] == step && ([step] + rest)[1..] == rest;
  }

  /** Taken from any state in which an earlier worker lingers, these steps leave a row without a task. */
  lemma LateRun(s: System, id: TaskId, early: FutureId, late: FutureId)
    requires Lingers(s, id, early, late, Pending)
    ensures IsPromptRun(s, LateSteps(id, early, late)) && IsRun(s, LateSteps(id, early, late))
    ensures After(s, LateSteps(id, early, late)).rows != After(s, LateSteps(id, early, late)).tasks
  {
    WorkLingers(s, id, early, late);
    var s1 := Next(s, Fetch(late));
    WorkLingers(s1, id, early, late);
    var s2 := Next(s1, MarkRunning(late));
    DeleteLingers(s2, id, early, late);
    var s3 := Next(s2, Delete(id));
    ForgetRemovesUnderTheWorker(s3, id, early, late);
    var s4 := Next(s3, Forget(early));
    var s5 := Next(s4, SaveProgress(late));
    assert id in s5.rows && id !in s5.tasks;
    PromptCons(s4, SaveProgress(late), []);
    PromptCons(s3, Forget(early), [SaveProgress(late)] + []);
    PromptCons(s2, Delete(id), [Forget(early)] + ([SaveProgress(late)] + []));
    PromptCons(s1, MarkRunning(late), [Delete(id)] + ([Forget(early)] + ([SaveProgress(late)] + [])));
    PromptCons(s, Fetch(late), [MarkRunning(late)] + ([Delete(id)] + ([Forget(early)] + ([SaveProgress(late)] + []))));
  }

  /**
   From a state where table and memory agree, a start keeps them together exactly when it finds no earlier worker
   whose callback is still to come: if it does, even a prompt continuation tears them apart.
   */
  lemma StartIsSafeExactlyWhenPrompt(s: System, id: TaskId)
    requires Reachable(s) && Tidy(s) && Startable(s, id)
    ensures Prompt(s, Start(id)) <==>
            forall steps :: IsPromptRun(Next(s, Start(id)), steps) ==>
              IsRun(Next(s, Start(id)), steps) && After(Next(s, Start(id)), steps).rows == After(Next(s, Start(id)), steps).tasks
  {
    ReachableInv(s);
    var r := Next(s, Start(id));
    if Prompt(s, Start(id)) {
      StepKeepsInv(s, Start(id));
      StepKeepsTidy(s, Start(id));
      forall steps | IsPromptRun(r, steps)
        ensures IsRun(r, steps) && After(r, steps).rows == After(r, steps).tasks
      {
        PromptRunKeepsTidy(r, steps);
      }
    } else {
      StartLingers(s, id);
      LateRun(r, id, s.futures[id], s.nextFuture);
    }
  }
}
