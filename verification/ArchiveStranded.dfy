/**
 A task that shows `Ready` while no driver is at work on it.

 Reopening keeps `Ready` as it is, and `retry` makes it durable before its caller may go away.  Once such a
 record is durable nothing ever moves the task again: the URL that was paid for is kept and never used.
 */
module ArchiveStranded {
  import opened Common
  import opened ArchiveProtocol
  import opened ArchiveSafety
  import T = ArchiveTheorems

  /** `Ready` on disk and in the table, and no driver that could change it. */
  predicate Stranded(s: System, own: map<TaskId, DriverId>, id: TaskId) {
    id !in own && id in s.disk && s.disk[id].state == Ready && (id in s.mem ==> s.mem[id].state == Ready)
  }

  predicate Stays(s: System, own: map<TaskId, DriverId>, r: System, o: map<TaskId, DriverId>, id: TaskId) {
    Stranded(s, own, id) ==> Stranded(r, o, id)
  }

  lemma MoveStays(s: System, own: map<TaskId, DriverId>, d: DriverId, t: Task, ok: bool, pc: Pc, id: TaskId)
    requires InvWith(s, own) && MayMove(s, d, pc)
    ensures Stays(s, own, Move(s, d, t, ok, pc), Release(own, s.drivers[d].task, pc), id)
  {
    AtOwner(s, own, d);
  }

  lemma SubmitReturnsStays(s: System, own: map<TaskId, DriverId>, step: Step, id: TaskId)
    requires InvWith(s, own) && Enabled(s, step) && step.SubmitReturns?
    ensures Stays(s, own, Next(s, step), NextOwner(s, own, step), id)
  {
    var d := step.d;
    AtOwner(s, own, d);
    var r := Next(s, step);
    var saved := if step.answer.Signed? && !step.ok then step.okUnknown else step.ok;
    MoveStays(s, own, d, r.mem[s.drivers[d].task], saved, r.drivers[d].pc, id);
  }

  lemma WriteStays(s: System, own: map<TaskId, DriverId>, step: Step, id: TaskId)
    requires InvWith(s, own) && Enabled(s, step) && T.DriverWrites(step)
    ensures Stays(s, own, Next(s, step), NextOwner(s, own, step), id)
  {
    var d := step.d;
    AtOwner(s, own, d);
    var r := Next(s, step);
    MoveStays(s, own, d, r.mem[s.drivers[d].task], !step.StartInsert? && step.ok, r.drivers[d].pc, id);
  }

  lemma SaveProgressStays(s: System, own: map<TaskId, DriverId>, d: DriverId, done: nat, total: nat, ok: bool, id: TaskId)
    requires InvWith(s, own) && Enabled(s, SaveProgress(d, done, total, ok))
    ensures Stays(s, own, Next(s, SaveProgress(d, done, total, ok)), own, id)
  {
    AtOwner(s, own, d);
  }

  lemma GotoStays(s: System, own: map<TaskId, DriverId>, step: Step, id: TaskId)
    requires InvWith(s, own) && Enabled(s, step)
    requires step.StartSpawn? || step.Submit? || step.RetrySpawn? || step.AcquireSlot? || step.LoseSelect? || step.StreamReturns?
    ensures Stays(s, own, Next(s, step), own, id)
  {
    AtOwner(s, own, step.d);
  }

  lemma StartStays(s: System, own: map<TaskId, DriverId>, ok: bool, id: TaskId)
    requires InvWith(s, own) && Enabled(s, Start(ok))
    ensures Stays(s, own, Next(s, Start(ok)), NextOwner(s, own, Start(ok)), id)
  {
    NextTaskIsFresh(s, own);
  }

  lemma RetryStays(s: System, own: map<TaskId, DriverId>, i: TaskId, now: int, ok: bool, id: TaskId)
    requires InvWith(s, own) && Enabled(s, Retry(i, now, ok))
    ensures Stays(s, own, Next(s, Retry(i, now, ok)), NextOwner(s, own, Retry(i, now, ok)), id)
  {
  }

  lemma MarkStays(s: System, own: map<TaskId, DriverId>, step: Step, id: TaskId)
    requires Enabled(s, step) && (step.MarkConsumed? || step.MarkGalleryDeleted?)
    ensures Stays(s, own, Next(s, step), own, id)
  {
  }

  lemma OpenStays(s: System, own: map<TaskId, DriverId>, i: TaskId, readable: bool, ok: bool, id: TaskId)
    requires Enabled(s, OpenEntry(i, readable, ok))
    ensures Stays(s, own, DoOpenEntry(s, i, readable, ok), own, id)
  {
  }

  lemma QuietStays(s: System, own: map<TaskId, DriverId>, step: Step, id: TaskId)
    requires Enabled(s, step)
    requires step.RemoveToken? || step.Cancel? || step.Shutdown? || step.Crash? || step.OpenBegin? || step.OpenEnd?
    ensures Stays(s, own, Next(s, step), NextOwner(s, own, step), id)
  {
  }

  lemma DropStays(s: System, own: map<TaskId, DriverId>, d: DriverId, id: TaskId)
    requires Enabled(s, Drop(d))
    ensures Stays(s, own, Next(s, Drop(d)), own - {s.drivers[d].task}, id)
  {
  }

  lemma DriverStays(s: System, own: map<TaskId, DriverId>, step: Step, id: TaskId)
    requires InvWith(s, own) && Enabled(s, step) && IsDriverStep(step)
    ensures Stays(s, own, Next(s, step), NextOwner(s, own, step), id)
  {
    match step
    case StartInsert(_) => WriteStays(s, own, step, id);
    case FinishCancelled(_, _) => WriteStays(s, own, step, id);
    case BeginStream(_, _) => WriteStays(s, own, step, id);
    case Settle(_, _, _) => WriteStays(s, own, step, id);
    case SubmitReturns(_, _, _, _) => SubmitReturnsStays(s, own, step, id);
    case SaveProgress(d, done, total, ok) => SaveProgressStays(s, own, d, done, total, ok, id);
    case _ => GotoStays(s, own, step, id);
  }

  lemma StepStays(s: System, own: map<TaskId, DriverId>, step: Step, id: TaskId)
    requires InvWith(s, own) && Enabled(s, step)
    ensures Stays(s, own, Next(s, step), NextOwner(s, own, step), id)
  {
    if IsDriverStep(step) {
      DriverStays(s, own, step, id);
    } else {
      match step
      case Start(ok) => StartStays(s, own, ok, id);
      case Retry(i, now, ok) => RetryStays(s, own, i, now, ok, id);
      case MarkConsumed(_, _, _, _) => MarkStays(s, own, step, id);
      case MarkGalleryDeleted(_, _) => MarkStays(s, own, step, id);
      case OpenEntry(i, readable, ok) => OpenStays(s, own, i, readable, ok, id);
      case Drop(d) => DropStays(s, own, d, id);
      case _ => QuietStays(s, own, step, id);
    }
  }

  lemma {:induction false} RunStays(s: System, own: map<TaskId, DriverId>, steps: seq<Step>, id: TaskId)
    returns (o: map<TaskId, DriverId>)
    requires InvWith(s, own) && Stranded(s, own, id) && IsRun(s, steps)
    ensures InvWith(After(s, steps), o) && Stranded(After(s, steps), o, id)
    decreases |steps|
  {
    o := own;
    if steps != [] {
      StepStays(s, own, steps[0], id);
      StepKeepsInv(s, own, steps[0]);
      o := RunStays(Next(s, steps[0]), NextOwner(s, own, steps[0]), steps[1..], id);
    }
  }

  /** Nobody is at work on the task. */
  ghost predicate Unattended(s: System, id: TaskId) {
    forall d :: d in s.drivers && s.drivers[d].task == id ==> s.drivers[d].pc.Cleanup?
  }

  /**
   A durable `Ready` record without a driver is final: no call, crash or reopen ever changes its state or
   gives it a driver, every `retry` is refused, and its URL stays bought.
   */
  lemma StrandedForever(s: System, steps: seq<Step>, id: TaskId)
    requires T.Reachable(s) && IsRun(s, steps) && Unattended(s, id)
    requires id in s.disk && s.disk[id].state == Ready && (id in s.mem ==> s.mem[id].state == Ready)
    ensures var r := After(s, steps);
            && id in r.disk && r.disk[id].state == Ready && r.disk[id].url == s.disk[id].url && Unattended(r, id)
            && (id in r.mem ==> r.mem[id].state == Ready && forall now :: RetryCheck(r, id, now) == Some(NotRetryable))
  {
    T.ReachableInv(s);
    var own: map<TaskId, DriverId> :| InvWith(s, own);
    assert IdOk(s, own, id);
    T.DurableUrlIsNeverLost(s, steps, id);
    var _ := RunStays(s, own, steps, id);
  }

  /** Dropping a `retry` call after its write strands the task at once, without a crash or a failed write. */
  lemma DroppedRetryIsStranded(s: System, d: DriverId, steps: seq<Step>)
    requires T.Reachable(s) && At(s, d, RetryPersisted) && IsRun(Next(s, Drop(d)), steps)
    ensures var id, r := s.drivers[d].task, After(Next(s, Drop(d)), steps);
            && id in r.disk && r.disk[id].state == Ready && Unattended(r, id)
            && (id in r.mem ==> forall now :: RetryCheck(r, id, now) == Some(NotRetryable))
  {
    T.ReachableInv(s);
    var own: map<TaskId, DriverId> :| InvWith(s, own);
    AtOwner(s, own, d);
    var r := Next(s, Drop(d));
    T.ReachableNext(s, Drop(d), r);
    StrandedForever(r, steps, s.drivers[d].task);
  }

  lemma DroppedRetryHappens() returns (s: System)
    ensures T.Reachable(s) && At(s, 1, RetryPersisted) && s.drivers[1].task == 0
  {
    T.FailedDownloadIsReachable();
    var s1 := T.OneTask(T.INTERRUPTED, Cleanup, None);
    var t := Transition(T.INTERRUPTED, Ready, None);
    s := s1.(mem := map[0 := t], disk := map[0 := t], nextDriver := 2,
             drivers := map[0 := Driver(0, Cleanup), 1 := Driver(0, RetryPersisted)]);
    T.ReachableNext(s1, Retry(0, 1, true), s);
  }

  /** Of the unfinished records that hold a URL, reopening offers a retry for all but those that were `Ready`. */
  lemma RecoveryOffersRetryUnlessReady(t: Task)
    requires LedgerOk(t) && t.state in {Ready, Downloading, Failed, Cancelled}
    ensures Recover(t).url == t.url && t.url.Some?
    ensures Recover(t).retrySupported <==> t.state != Ready
  {
  }

  // ---------------------------------------------------------------- it happens

  lemma ReadyBeforeTheDownload()
    ensures T.Reachable(T.OneTask(T.BOUGHT, AwaitSlot, None))
  {
    T.OneTaskIsReachable();
    var s1 := T.OneTask(NEW_TASK, SubmitPending, None);
    var s2 := T.OneTask(NEW_TASK, SubmitInFlight, None);
    T.ReachableNext(s1, Submit(0), s2);
    T.ReachableNext(s2, SubmitReturns(0, Signed("u", "z", 0), true, true), T.OneTask(T.BOUGHT, AwaitSlot, None));
  }

  /** The service was reopened after a crash between buying and downloading. */
  function Reopened(phase: Phase, mem: map<TaskId, Task>): System {
    System(phase, mem, map[0 := T.BOUGHT], map[], {}, false, None, map[], map[0 := 1], {}, 1, 1)
  }

  lemma CrashToOpening()
    ensures T.Reachable(Reopened(Opening({0}), map[]))
  {
    ReadyBeforeTheDownload();
    T.ReachableNext(T.OneTask(T.BOUGHT, AwaitSlot, None), Crash, Reopened(Down, map[]));
    assert Reopened(Down, map[]).disk.Keys == {0};
    T.ReachableNext(Reopened(Down, map[]), OpenBegin, Reopened(Opening({0}), map[]));
  }

  lemma OpeningToUp()
    ensures T.Reachable(Reopened(Up, map[0 := T.BOUGHT]))
  {
    CrashToOpening();
    var s := Reopened(Opening({0}), map[]);
    assert Recover(T.BOUGHT) == T.BOUGHT;
    assert s.phase.todo - {0} == {};
    assert s.disk[0 := T.BOUGHT] == s.disk && s.mem[0 := T.BOUGHT] == map[0 := T.BOUGHT];
    T.ReachableNext(s, OpenEntry(0, true, true), Reopened(Opening({}), map[0 := T.BOUGHT]));
    T.ReachableNext(Reopened(Opening({}), map[0 := T.BOUGHT]), OpenEnd, Reopened(Up, map[0 := T.BOUGHT]));
  }

  /** A crash between buying and downloading strands the task: paid for, never retried, never downloaded. */
  lemma CrashStrandsAReadyTask(steps: seq<Step>)
    requires IsRun(Reopened(Up, map[0 := T.BOUGHT]), steps)
    ensures T.Reachable(Reopened(Up, map[0 := T.BOUGHT]))
    ensures var r := After(Reopened(Up, map[0 := T.BOUGHT]), steps);
            && Paid(r, 0) == 1 && 0 in r.disk && r.disk[0].state == Ready && Unattended(r, 0)
            && (0 in r.mem ==> forall now :: RetryCheck(r, 0, now) == Some(NotRetryable))
  {
    OpeningToUp();
    var s := Reopened(Up, map[0 := T.BOUGHT]);
    StrandedForever(s, steps, 0);
    T.RetryNeverPays(s, steps, 0);
  }
}
