/**
 When `cancel` reaches the download it is meant for.

 The service keeps one token per task, and a driver that has settled its task removes that token whoever
 it belongs to.  A retry taken before that removal therefore loses its token.
 */
module ArchiveCancel {
  import opened Common
  import opened ArchiveProtocol
  import opened ArchiveSafety
  import T = ArchiveTheorems

  /** Spawned and not settled: the drivers a `cancel` is for. */
  predicate Cancellable(pc: Pc) {
    !IsCall(pc) && !pc.Cleanup?
  }

  /** A driver has settled the task and not yet removed the token. */
  ghost predicate Stale(s: System, id: TaskId) {
    exists c :: c in s.drivers && s.drivers[c].task == id && s.drivers[c].pc.Cleanup?
  }

  /** The step does not start the task again while an earlier driver is still to remove the token. */
  ghost predicate Clean(s: System, step: Step, id: TaskId) {
    step.Retry? && step.id == id && step.ok && RetryCheck(s, id, step.now).None? ==> !Stale(s, id)
  }

  ghost predicate IsCleanRun(s: System, steps: seq<Step>, id: TaskId)
    decreases |steps|
  {
    steps == [] || (Enabled(s, steps[0]) && Clean(s, steps[0], id) && IsCleanRun(Next(s, steps[0]), steps[1..], id))
  }

  lemma {:induction false} CleanRunsAreRuns(s: System, steps: seq<Step>, id: TaskId)
    requires IsCleanRun(s, steps, id)
    ensures IsRun(s, steps)
    decreases |steps|
  {
    if steps != [] {
      CleanRunsAreRuns(Next(s, steps[0]), steps[1..], id);
    }
  }

  // ---------------------------------------------------------------- drivers and tokens of a step

  /** Only the program counter of one driver changes, and perhaps its task's token to its own. */
  predicate Advances(s: System, r: System, d: DriverId, spawns: bool) {
    && d in s.drivers && d in r.drivers && r.drivers == s.drivers[d := Driver(s.drivers[d].task, r.drivers[d].pc)]
    && r.tokens == (if spawns then s.tokens[s.drivers[d].task := d] else s.tokens)
    && r.fired == s.fired && r.nextDriver == s.nextDriver && r.nextTask == s.nextTask
    && !IsCall(r.drivers[d].pc) == (!IsCall(s.drivers[d].pc) || spawns) && !s.drivers[d].pc.Cleanup?
  }

  /** Drivers and tokens stay as they are. */
  predicate LeavesDrivers(s: System, r: System) {
    r.drivers == s.drivers && r.tokens == s.tokens && r.fired == s.fired && r.nextDriver == s.nextDriver && r.nextTask == s.nextTask
  }

  lemma SettlingAdvances(s: System, step: Step)
    requires Enabled(s, step) && (step.FinishCancelled? || step.BeginStream? || step.Settle?)
    ensures Advances(s, Next(s, step), step.d, false)
  {
  }

  lemma SubmitReturnsAdvances(s: System, d: DriverId, answer: SubmitOutcome, ok: bool, okUnknown: bool)
    requires Enabled(s, SubmitReturns(d, answer, ok, okUnknown))
    ensures Advances(s, DoSubmitReturns(s, d, answer, ok, okUnknown), d, false)
  {
  }

  lemma MovingAdvances(s: System, step: Step)
    requires Enabled(s, step)
    requires step.StartInsert? || step.Submit? || step.AcquireSlot? || step.LoseSelect? || step.StreamReturns?
    ensures Advances(s, Next(s, step), step.d, false)
  {
  }

  lemma SpawningAdvances(s: System, step: Step)
    requires Enabled(s, step) && (step.StartSpawn? || step.RetrySpawn?)
    ensures Advances(s, Next(s, step), step.d, true)
  {
  }

  lemma RecordsLeaveDrivers(s: System, step: Step)
    requires Enabled(s, step)
    requires step.SaveProgress? || step.MarkConsumed? || step.MarkGalleryDeleted?
    ensures LeavesDrivers(s, Next(s, step))
  {
  }

  lemma PhasesLeaveDrivers(s: System, step: Step)
    requires Enabled(s, step)
    requires step.Shutdown? || step.OpenBegin? || step.OpenEntry? || step.OpenEnd?
    ensures LeavesDrivers(s, Next(s, step))
  {
  }

  lemma RefusalLeavesDrivers(s: System, id: TaskId, now: int, ok: bool)
    requires Enabled(s, Retry(id, now, ok)) && (!ok || RetryCheck(s, id, now).Some?)
    ensures LeavesDrivers(s, Next(s, Retry(id, now, ok)))
  {
  }

  /** What is said about drivers and tokens: numbers are given once, and the task has one driver, which has the token. */
  ghost predicate Sole(s: System, id: TaskId) {
    && (forall d, e :: d in s.drivers && e in s.drivers && s.drivers[d].task == id && s.drivers[e].task == id ==> d == e)
    && (forall d :: d in s.drivers && s.drivers[d].task == id && Cancellable(s.drivers[d].pc) ==> id in s.tokens && s.tokens[id] == d)
  }

  predicate Numbered(s: System) {
    && (forall d :: d in s.drivers ==> d < s.nextDriver && s.drivers[d].task < s.nextTask)
    && (forall i :: i in s.tokens ==> s.tokens[i] < s.nextDriver)
    && (forall d :: d in s.fired ==> d < s.nextDriver)
  }

  lemma AdvancingKeeps(s: System, r: System, d: DriverId, spawns: bool, id: TaskId)
    requires Advances(s, r, d, spawns)
    ensures Numbered(s) ==> Numbered(r)
    ensures Sole(s, id) ==> Sole(r, id)
  {
  }

  lemma SpawnKeeps(s: System, r: System, i: TaskId, pc: Pc, id: TaskId)
    requires Numbered(s) && i < r.nextTask && IsCall(pc) && s.nextTask <= r.nextTask
    requires r.drivers == s.drivers[s.nextDriver := Driver(i, pc)] && r.nextDriver == s.nextDriver + 1 && r.tokens == s.tokens && r.fired == s.fired
    ensures Numbered(r)
    ensures Sole(s, id) && (i == id ==> forall d :: d in s.drivers ==> s.drivers[d].task != id) ==> Sole(r, id)
  {
  }

  lemma DepartureKeeps(s: System, step: Step, id: TaskId)
    requires Numbered(s) && Enabled(s, step) && (step.RemoveToken? || step.Drop?)
    ensures Numbered(Next(s, step)) && (Sole(s, id) ==> Sole(Next(s, step), id))
  {
  }

  lemma CancelKeeps(s: System, i: TaskId, id: TaskId)
    requires Numbered(s) && Enabled(s, Cancel(i))
    ensures Numbered(Next(s, Cancel(i))) && (Sole(s, id) ==> Sole(Next(s, Cancel(i)), id))
  {
  }

  lemma StartKeeps(s: System, own: map<TaskId, DriverId>, ok: bool, id: TaskId)
    requires InvWith(s, own) && Numbered(s) && Enabled(s, Start(ok))
    ensures Numbered(Next(s, Start(ok))) && (Sole(s, id) ==> Sole(Next(s, Start(ok)), id))
  {
    if ok {
      SpawnKeeps(s, Next(s, Start(ok)), s.nextTask, StartPersisted, id);
    }
  }

  /** A successful retry finds nobody at work on the task but drivers that only clean up. */
  lemma RetryKeeps(s: System, own: map<TaskId, DriverId>, i: TaskId, now: int, ok: bool, id: TaskId)
    requires InvWith(s, own) && Numbered(s) && Enabled(s, Retry(i, now, ok))
    ensures Numbered(Next(s, Retry(i, now, ok)))
    ensures Sole(s, id) && Clean(s, Retry(i, now, ok), id) ==> Sole(Next(s, Retry(i, now, ok)), id)
  {
    var r := Next(s, Retry(i, now, ok));
    if ok && RetryCheck(s, i, now).None? {
      RetryFindsNobody(s, own, i, now);
      SpawnKeeps(s, r, i, RetryPersisted, id);
    } else {
      RefusalLeavesDrivers(s, i, now, ok);
    }
  }

  lemma RetryFindsNobody(s: System, own: map<TaskId, DriverId>, i: TaskId, now: int)
    requires InvWith(s, own) && RetryCheck(s, i, now).None?
    ensures i < s.nextTask && forall d :: d in s.drivers && s.drivers[d].task == i ==> s.drivers[d].pc.Cleanup?
  {
    assert IdOk(s, own, i);
  }

  lemma DriverStepKeeps(s: System, step: Step, id: TaskId)
    requires Numbered(s) && Enabled(s, step) && IsDriverStep(step)
    ensures Numbered(Next(s, step)) && (Sole(s, id) ==> Sole(Next(s, step), id))
  {
    var r := Next(s, step);
    if step.SaveProgress? {
      RecordsLeaveDrivers(s, step);
    } else if step.StartSpawn? || step.RetrySpawn? {
      SpawningAdvances(s, step);
      AdvancingKeeps(s, r, step.d, true, id);
    } else {
      if step.FinishCancelled? || step.BeginStream? || step.Settle? {
        SettlingAdvances(s, step);
      } else if step.SubmitReturns? {
        SubmitReturnsAdvances(s, step.d, step.answer, step.ok, step.okUnknown);
      } else {
        MovingAdvances(s, step);
      }
      AdvancingKeeps(s, r, step.d, false, id);
    }
  }

  lemma StepKeeps(s: System, own: map<TaskId, DriverId>, step: Step, id: TaskId)
    requires InvWith(s, own) && Numbered(s) && Enabled(s, step)
    ensures Numbered(Next(s, step))
    ensures Sole(s, id) && Clean(s, step, id) ==> Sole(Next(s, step), id)
  {
    if IsDriverStep(step) {
      DriverStepKeeps(s, step, id);
    } else {
      match step
      case Start(ok) => StartKeeps(s, own, ok, id);
      case Retry(i, now, ok) => RetryKeeps(s, own, i, now, ok, id);
      case RemoveToken(_) => DepartureKeeps(s, step, id);
      case Drop(_) => DepartureKeeps(s, step, id);
      case Cancel(i) => CancelKeeps(s, i, id);
      case MarkConsumed(_, _, _, _) => RecordsLeaveDrivers(s, step);
      case MarkGalleryDeleted(_, _) => RecordsLeaveDrivers(s, step);
      case Crash =>
      case _ => PhasesLeaveDrivers(s, step);
    }
  }

  // ---------------------------------------------------------------- theorems

  lemma {:induction false} RunStaysNumbered(s: System, own: map<TaskId, DriverId>, steps: seq<Step>)
    requires InvWith(s, own) && Numbered(s) && IsRun(s, steps)
    ensures Numbered(After(s, steps))
    decreases |steps|
  {
    if steps != [] {
      StepKeeps(s, own, steps[0], 0);
      StepKeepsInv(s, own, steps[0]);
      RunStaysNumbered(Next(s, steps[0]), NextOwner(s, own, steps[0]), steps[1..]);
    }
  }

  lemma InitiallyNumbered()
    ensures InvWith(INITIAL, map[]) && Numbered(INITIAL)
  {
    var none: map<TaskId, DriverId> := map[];
    forall id: TaskId
      ensures IdOk(INITIAL, none, id)
    {
    }
  }

  lemma ReachableIsNumbered(s: System)
    requires T.Reachable(s)
    ensures Numbered(s)
  {
    var steps: seq<Step> :| IsRun(INITIAL, steps) && After(INITIAL, steps) == s;
    InitiallyNumbered();
    RunStaysNumbered(INITIAL, map[], steps);
  }

  lemma {:induction false} CleanRunKeepsSole(s: System, own: map<TaskId, DriverId>, steps: seq<Step>, id: TaskId)
    requires InvWith(s, own) && Numbered(s) && Sole(s, id) && IsCleanRun(s, steps, id)
    ensures IsRun(s, steps) && Sole(After(s, steps), id)
    decreases |steps|
  {
    if steps != [] {
      StepKeeps(s, own, steps[0], id);
      StepKeepsInv(s, own, steps[0]);
      CleanRunKeepsSole(Next(s, steps[0]), NextOwner(s, own, steps[0]), steps[1..], id);
    }
  }

  /** `cancel` reaches every driver that is at work on the task. */
  ghost predicate CancelWorks(s: System, id: TaskId) {
    forall d :: d in s.drivers && s.drivers[d].task == id && Cancellable(s.drivers[d].pc) ==>
      Enabled(s, Cancel(id)) && TokenCancelled(Next(s, Cancel(id)), d)
  }

  lemma SoleCancelWorks(s: System, id: TaskId)
    requires T.Reachable(s) && Sole(s, id)
    ensures CancelWorks(s, id)
  {
    T.ReachableInv(s);
    var own: map<TaskId, DriverId> :| InvWith(s, own);
    forall d | d in s.drivers && s.drivers[d].task == id && Cancellable(s.drivers[d].pc)
      ensures Enabled(s, Cancel(id)) && TokenCancelled(Next(s, Cancel(id)), d)
    {
      AtOwner(s, own, d);
    }
  }

  /** Over every run that never retries the task before its last driver has cleaned up, each driver at work has the task's token. */
  lemma CancelReachesItsDriver(steps: seq<Step>, id: TaskId)
    requires IsCleanRun(INITIAL, steps, id)
    ensures IsRun(INITIAL, steps) && Sole(After(INITIAL, steps), id) && CancelWorks(After(INITIAL, steps), id)
  {
    CleanRunsAreRuns(INITIAL, steps, id);
    InitiallyNumbered();
    CleanRunKeepsSole(INITIAL, map[], steps, id);
    SoleCancelWorks(After(INITIAL, steps), id);
  }

  /** The retry's record, and the two drivers of the task while the earlier one is still to clean up. */
  function Retried(s: System, id: TaskId, pc: Pc): System
    requires id in s.mem
  {
    Commit(s, id, Transition(s.mem[id], Ready, None), true).(
      drivers := s.drivers[s.nextDriver := Driver(id, pc)], nextDriver := s.nextDriver + 1)
  }

  lemma RetriedSteps(s: System, c: DriverId, id: TaskId, now: int)
    requires Numbered(s) && s.phase.Up? && RetryCheck(s, id, now).None?
    requires c in s.drivers && s.drivers[c] == Driver(id, Cleanup)
    ensures var d := s.nextDriver;
            && Enabled(s, Retry(id, now, true)) && Next(s, Retry(id, now, true)) == Retried(s, id, RetryPersisted)
            && Enabled(Retried(s, id, RetryPersisted), RetrySpawn(d))
            && Next(Retried(s, id, RetryPersisted), RetrySpawn(d)) == Retried(s, id, AwaitSlot).(tokens := s.tokens[id := d])
  {
    var d := s.nextDriver;
    var r := Retried(s, id, RetryPersisted);
    assert r.drivers[d := Driver(id, AwaitSlot)] == Retried(s, id, AwaitSlot).drivers;
  }

  /** Where the stale clean-up ends: the new driver waits, uncancelled, and the task has no token. */
  function Escaped(s: System, c: DriverId, id: TaskId): System
    requires id in s.mem
  {
    var r := Retried(s, id, AwaitSlot);
    r.(tokens := s.tokens - {id}, drivers := r.drivers - {c})
  }

  lemma RemoveTokenEscapes(s: System, c: DriverId, id: TaskId)
    requires Numbered(s) && s.phase.Up? && id in s.mem && c in s.drivers && s.drivers[c] == Driver(id, Cleanup)
    ensures var q := Retried(s, id, AwaitSlot).(tokens := s.tokens[id := s.nextDriver]);
            Enabled(q, RemoveToken(c)) && Next(q, RemoveToken(c)) == Escaped(s, c, id)
  {
    assert s.tokens[id := s.nextDriver] - {id} == s.tokens - {id};
  }

  function StaleSteps(s: System, c: DriverId): seq<Step> {
    [RetrySpawn(s.nextDriver), RemoveToken(c)]
  }

  lemma TwoSteps(s: System, first: Step, second: Step, id: TaskId)
    requires Enabled(s, first) && Enabled(Next(s, first), second) && !first.Retry? && !second.Retry?
    ensures IsCleanRun(s, [first, second], id) && IsRun(s, [first, second])
    ensures After(s, [first, second]) == Next(Next(s, first), second)
  {
    var steps := [first, second];
    var q := Next(s, first);
    assert steps[1..] == [second] && [second][1..] == [];
    assert IsCleanRun(Next(q, second), [], id) && After(Next(q, second), []) == Next(q, second);
    assert IsCleanRun(q, [second], id) && IsRun(q, [second]) && After(q, [second]) == Next(q, second);
  }

  lemma StaleRun(s: System, c: DriverId, id: TaskId, now: int)
    requires Numbered(s) && s.phase.Up? && RetryCheck(s, id, now).None?
    requires c in s.drivers && s.drivers[c] == Driver(id, Cleanup)
    ensures var q := Next(s, Retry(id, now, true));
            && IsCleanRun(q, StaleSteps(s, c), id) && IsRun(q, StaleSteps(s, c))
            && After(q, StaleSteps(s, c)) == Escaped(s, c, id)
  {
    RetriedSteps(s, c, id, now);
    RemoveTokenEscapes(s, c, id);
    TwoSteps(Next(s, Retry(id, now, true)), RetrySpawn(s.nextDriver), RemoveToken(c), id);
  }

  /** From any state in which an earlier driver is still to clean up, a retry can end with a driver that `cancel` does not reach. */
  lemma StaleRetryEscapesCancel(s: System, c: DriverId, id: TaskId, now: int)
    requires T.Reachable(s) && s.phase.Up? && !s.shutdown && RetryCheck(s, id, now).None?
    requires c in s.drivers && s.drivers[c] == Driver(id, Cleanup)
    ensures var q := Next(s, Retry(id, now, true));
            && IsRun(q, StaleSteps(s, c))
            && var r := After(q, StaleSteps(s, c));
            && At(r, s.nextDriver, AwaitSlot) && r.drivers[s.nextDriver].task == id && !TokenCancelled(r, s.nextDriver)
            && Next(r, Cancel(id)) == r && !CancelWorks(r, id)
  {
    ReachableIsNumbered(s);
    StaleRun(s, c, id, now);
    var r := Escaped(s, c, id);
    assert r.drivers[s.nextDriver] == Driver(id, AwaitSlot) && Next(r, Cancel(id)) == r;
    assert !TokenCancelled(r, s.nextDriver);
  }

  /** A `cancel` between the retry and its token is answered with success and cancels the driver that is already done. */
  lemma EarlyCancelIsLost(s: System, c: DriverId, id: TaskId, now: int)
    requires T.Reachable(s) && s.phase.Up? && !s.shutdown && RetryCheck(s, id, now).None?
    requires c in s.drivers && s.drivers[c] == Driver(id, Cleanup) && id in s.tokens
    ensures var q := Next(s, Retry(id, now, true));
            && Enabled(q, Cancel(id)) && Next(q, Cancel(id)).fired == q.fired + {s.tokens[id]}
            && var r := Next(q, Cancel(id));
            && Enabled(r, RetrySpawn(s.nextDriver)) && At(Next(r, RetrySpawn(s.nextDriver)), s.nextDriver, AwaitSlot)
            && !TokenCancelled(Next(r, RetrySpawn(s.nextDriver)), s.nextDriver)
  {
    ReachableIsNumbered(s);
    RetriedSteps(s, c, id, now);
  }

  /**
   From a state where `cancel` works, a retry is safe exactly when no earlier driver is still to clean up:
   then, and only then, every further clean run leaves a `cancel` that works.
   */
  lemma RetryIsCancellableExactlyWhenClean(s: System, id: TaskId, now: int)
    requires T.Reachable(s) && s.phase.Up? && !s.shutdown && Sole(s, id) && RetryCheck(s, id, now).None?
    ensures !Stale(s, id) <==>
            forall steps :: IsCleanRun(Next(s, Retry(id, now, true)), steps, id) ==>
              IsRun(Next(s, Retry(id, now, true)), steps) && CancelWorks(After(Next(s, Retry(id, now, true)), steps), id)
  {
    var q := Next(s, Retry(id, now, true));
    T.ReachableNext(s, Retry(id, now, true), q);
    if Stale(s, id) {
      var c :| c in s.drivers && s.drivers[c].task == id && s.drivers[c].pc.Cleanup?;
      ReachableIsNumbered(s);
      StaleRun(s, c, id, now);
      StaleRetryEscapesCancel(s, c, id, now);
    } else {
      forall steps | IsCleanRun(q, steps, id)
        ensures IsRun(q, steps) && CancelWorks(After(q, steps), id)
      {
        CleanContinuationWorks(s, id, now, steps);
      }
    }
  }

  lemma CleanContinuationWorks(s: System, id: TaskId, now: int, steps: seq<Step>)
    requires T.Reachable(s) && s.phase.Up? && Sole(s, id) && RetryCheck(s, id, now).None? && !Stale(s, id)
    requires IsCleanRun(Next(s, Retry(id, now, true)), steps, id)
    ensures IsRun(Next(s, Retry(id, now, true)), steps) && CancelWorks(After(Next(s, Retry(id, now, true)), steps), id)
  {
    var step := Retry(id, now, true);
    T.ReachableInv(s);
    var own: map<TaskId, DriverId> :| InvWith(s, own);
    ReachableIsNumbered(s);
    StepKeeps(s, own, step, id);
    StepKeepsInv(s, own, step);
    CleanRunKeepsSole(Next(s, step), NextOwner(s, own, step), steps, id);
    T.ReachableNext(s, step, Next(s, step));
    T.ReachableRun(Next(s, step), steps);
    SoleCancelWorks(After(Next(s, step), steps), id);
  }
}
