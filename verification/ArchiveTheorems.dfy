/**
 The promises of the paid Archive protocol, stated over every run: any interleaving of calls and
 drivers, with crashes, failed writes and any number of reopens.
 */
module ArchiveTheorems {
  import opened Common
  import opened ArchiveProtocol
  import opened ArchiveSafety

  ghost predicate Inv(s: System) {
    exists own: map<TaskId, DriverId> :: InvWith(s, own)
  }

  lemma {:induction false} RunKeepsInv(s: System, steps: seq<Step>)
    requires Inv(s) && IsRun(s, steps)
    ensures Inv(After(s, steps))
    decreases |steps|
  {
    if steps != [] {
      var own: map<TaskId, DriverId> :| InvWith(s, own);
      StepKeepsInv(s, own, steps[0]);
      RunKeepsInv(Next(s, steps[0]), steps[1..]);
    }
  }

  /** `s` is the state after some run from a fresh installation. */
  ghost predicate Reachable(s: System) {
    Reaches(INITIAL, s)
  }

  lemma ReachableInv(s: System)
    requires Reachable(s)
    ensures Inv(s)
  {
    var steps: seq<Step> :| IsRun(INITIAL, steps) && After(INITIAL, steps) == s;
    var none: map<TaskId, DriverId> := map[];
    assert InvWith(INITIAL, none) by {
      forall id: TaskId
        ensures IdOk(INITIAL, none, id)
      {
      }
    }
    RunKeepsInv(INITIAL, steps);
  }

  // ---------------------------------------------------------------- payment

  /** No run pays twice for one task. */
  lemma PaidAtMostOnce(s: System, id: TaskId)
    requires Reachable(s)
    ensures Paid(s, id) <= 1
  {
    ReachableInv(s);
    var own: map<TaskId, DriverId> :| InvWith(s, own);
    assert IdOk(s, own, id);
  }

  /** The paid call starts only when the disk already says so and nothing was paid before. */
  lemma PaymentIsAnnounced(s: System, d: DriverId)
    requires Reachable(s) && Enabled(s, Submit(d))
    ensures var id := s.drivers[d].task;
            && id in s.disk && s.disk[id].state == Submitting && Paid(s, id) == 0
            && Paid(Next(s, Submit(d)), id) == 1
  {
    ReachableInv(s);
    var own: map<TaskId, DriverId> :| InvWith(s, own);
    AtOwner(s, own, d);
  }

  /** Once paid, the durable record admits the charge or holds what was bought. */
  lemma PossibleChargeIsNeverHidden(s: System, id: TaskId)
    requires Reachable(s) && Paid(s, id) > 0
    ensures id in s.disk
    ensures s.disk[id].state == Submitting || s.disk[id].state == CostUnknown
            || (s.disk[id].url.Some? && s.disk[id].acquiredAt.Some?)
    ensures id in s.mem ==>
              || s.mem[id].state == Submitting || s.mem[id].state == CostUnknown
              || (s.mem[id].url.Some? && s.mem[id].acquiredAt.Some?)
  {
    ReachableInv(s);
    var own: map<TaskId, DriverId> :| InvWith(s, own);
    assert IdOk(s, own, id);
  }

  /** The table never shows a state its URL does not support, and offers `retry` exactly when it works. */
  lemma LedgerOfTheTable(s: System, id: TaskId)
    requires Reachable(s) && id in s.mem
    ensures s.mem[id].state != Queued
    ensures s.mem[id].state in {Ready, Downloading, Completed, Consumed, Failed, Cancelled} ==>
              s.mem[id].url.Some? && s.mem[id].acquiredAt.Some?
    ensures s.mem[id].retrySupported <==> Resumable(s.mem[id].state) && s.mem[id].url.Some?
    ensures s.mem[id].retrySupported <==> forall now: int ::
              RetryCheck(s, id, now).None? <==> now - s.mem[id].acquiredAt.GetOr(0) < ARCHIVE_VALID_SECONDS
  {
    ReachableInv(s);
    var own: map<TaskId, DriverId> :| InvWith(s, own);
    assert IdOk(s, own, id);
    if !s.mem[id].retrySupported {
      assert RetryCheck(s, id, s.mem[id].acquiredAt.GetOr(0)).Some?;
    }
  }

  /** The two errors the code guards against cannot happen. */
  lemma NoPanic(s: System)
    requires Reachable(s)
    ensures forall d, ok :: Enabled(s, BeginStream(d, ok)) ==> s.mem[s.drivers[d].task].url.Some?
    ensures forall id, now :: RetryCheck(s, id, now) != Some(MissingTimestamp)
    ensures forall d :: d in s.drivers && s.phase.Up? && s.drivers[d].pc.AwaitSlot? ==> s.drivers[d].task in s.mem
  {
    ReachableInv(s);
    var own: map<TaskId, DriverId> :| InvWith(s, own);
    forall d, ok | Enabled(s, BeginStream(d, ok))
      ensures s.mem[s.drivers[d].task].url.Some?
    {
      AtOwner(s, own, d);
    }
    forall id: TaskId, now: int
      ensures RetryCheck(s, id, now) != Some(MissingTimestamp)
    {
      assert IdOk(s, own, id);
    }
    forall d | d in s.drivers && s.drivers[d].pc.AwaitSlot?
      ensures s.drivers[d].task in s.mem
    {
      AtOwner(s, own, d);
    }
  }

  lemma StreamHasUrl(s: System, d: DriverId)
    requires Reachable(s) && (At(s, d, HoldsSlot) || At(s, d, Streaming))
    ensures s.drivers[d].task in s.mem && s.mem[s.drivers[d].task].url.Some?
  {
    ReachableInv(s);
    var own: map<TaskId, DriverId> :| InvWith(s, own);
    AtOwner(s, own, d);
  }

  lemma DownIsEmpty(s: System)
    requires Reachable(s) && s.phase.Down?
    ensures s.mem == map[]
  {
    ReachableInv(s);
  }

  // ---------------------------------------------------------------- one writer

  /** One unsettled driver per task and one stream in the whole service. */
  lemma SingleWriter(s: System, d: DriverId, e: DriverId)
    requires Reachable(s) && d in s.drivers && e in s.drivers
    ensures s.drivers[d].task == s.drivers[e].task && !s.drivers[d].pc.Cleanup? && !s.drivers[e].pc.Cleanup? ==> d == e
    ensures s.drivers[d].pc.Streaming? && s.drivers[e].pc.Streaming? ==> d == e
  {
    ReachableInv(s);
    var own: map<TaskId, DriverId> :| InvWith(s, own);
  }

  /** Progress is saved for a task that is downloading and stays so. */
  lemma ProgressTouchesOnlyDownloads(s: System, d: DriverId, done: nat, total: nat, ok: bool)
    requires Reachable(s) && Enabled(s, SaveProgress(d, done, total, ok))
    ensures var id, r := s.drivers[d].task, Next(s, SaveProgress(d, done, total, ok));
            && s.mem[id].state == Downloading && r.mem[id].state == Downloading
            && r.mem[id].revision == s.mem[id].revision + 1
            && forall i :: i in s.mem && i != id ==> i in r.mem && r.mem[i] == s.mem[i]
  {
    ReachableInv(s);
    var own: map<TaskId, DriverId> :| InvWith(s, own);
    AtOwner(s, own, d);
  }

  ghost predicate Attended(s: System, id: TaskId) {
    exists d :: d in s.drivers && s.drivers[d].task == id && !s.drivers[d].pc.Cleanup?
  }

  /**
   A downloading task has a driver and a settled one has none.  A submitting task has one exactly unless the
   call of `start` that created it was dropped, and then nothing was paid.
   */
  lemma ShownActivityIsReal(s: System, id: TaskId)
    requires Reachable(s) && id in s.mem
    ensures s.mem[id].state == Downloading ==> Attended(s, id)
    ensures s.mem[id].state == Submitting ==> (Attended(s, id) <==> id !in s.dropped)
    ensures s.mem[id].state == Submitting && id in s.dropped ==> Paid(s, id) == 0
    ensures s.mem[id].state in {Completed, Consumed, Failed, Cancelled, CostUnknown} ==> !Attended(s, id)
  {
    ReachableInv(s);
    var own: map<TaskId, DriverId> :| InvWith(s, own);
    assert IdOk(s, own, id);
    if id in own {
      assert own[id] in s.drivers && s.drivers[own[id]].task == id;
    }
  }

  // ---------------------------------------------------------------- nothing is replayed or forgotten

  /** No driver is about to pay for this task. */
  predicate NotDue(s: System, own: map<TaskId, DriverId>, id: TaskId) {
    id < s.nextTask && (PcOf(s, own, id).Some? ==> !BeforePayment(PcOf(s, own, id).value))
  }

  /** A charge that became uncertain and that no driver can settle. */
  predicate Uncertain(s: System, own: map<TaskId, DriverId>, id: TaskId) {
    && id !in own
    && id in s.disk
    && (s.disk[id].state == Submitting || s.disk[id].state == CostUnknown)
    && (id in s.mem ==> s.mem[id].state == CostUnknown)
  }

  /** What no step may do: pay for a task that is not due, drop its durable URL, explain away an uncertain charge. */
  predicate Remembers(s: System, own: map<TaskId, DriverId>, r: System, o: map<TaskId, DriverId>, id: TaskId) {
    && (NotDue(s, own, id) ==> NotDue(r, o, id) && Paid(r, id) == Paid(s, id))
    && (id in s.disk && s.disk[id].url.Some? ==> id in r.disk && r.disk[id].url == s.disk[id].url)
    && (Uncertain(s, own, id) ==> Uncertain(r, o, id))
  }

  lemma MoveRemembers(s: System, own: map<TaskId, DriverId>, d: DriverId, t: Task, ok: bool, pc: Pc, id: TaskId)
    requires InvWith(s, own) && MayMove(s, d, pc)
    requires BeforePayment(pc) ==> BeforePayment(s.drivers[d].pc)
    requires ok && s.disk[s.drivers[d].task].url.Some? ==> t.url == s.disk[s.drivers[d].task].url
    ensures Remembers(s, own, Move(s, d, t, ok, pc), Release(own, s.drivers[d].task, pc), id)
  {
    AtOwner(s, own, d);
  }

  lemma CommitRemembers(s: System, own: map<TaskId, DriverId>, i: TaskId, t: Task, ok: bool, id: TaskId)
    requires InvWith(s, own) && i in s.disk
    requires ok && s.disk[i].url.Some? ==> t.url == s.disk[i].url
    requires Uncertain(s, own, i) ==> t.state == CostUnknown
    ensures Remembers(s, own, Commit(s, i, t, ok), own, id)
  {
  }

  lemma SubmitReturnsRemembers(s: System, own: map<TaskId, DriverId>, step: Step, id: TaskId)
    requires InvWith(s, own) && Enabled(s, step) && step.SubmitReturns?
    ensures Remembers(s, own, Next(s, step), NextOwner(s, own, step), id)
  {
    var d := step.d;
    AtOwner(s, own, d);
    var r := Next(s, step);
    var saved := if step.answer.Signed? && !step.ok then step.okUnknown else step.ok;
    MoveRemembers(s, own, d, r.mem[s.drivers[d].task], saved, r.drivers[d].pc, id);
  }

  predicate DriverWrites(step: Step) {
    step.StartInsert? || step.FinishCancelled? || step.BeginStream? || step.Settle?
  }

  lemma DriverStepRemembers(s: System, own: map<TaskId, DriverId>, step: Step, id: TaskId)
    requires InvWith(s, own) && Enabled(s, step) && DriverWrites(step)
    ensures Remembers(s, own, Next(s, step), NextOwner(s, own, step), id)
  {
    var d := step.d;
    AtOwner(s, own, d);
    var r := Next(s, step);
    MoveRemembers(s, own, d, r.mem[s.drivers[d].task], !step.StartInsert? && step.ok, r.drivers[d].pc, id);
  }

  lemma StartRemembers(s: System, own: map<TaskId, DriverId>, ok: bool, id: TaskId)
    requires InvWith(s, own) && Enabled(s, Start(ok))
    ensures Remembers(s, own, Next(s, Start(ok)), NextOwner(s, own, Start(ok)), id)
  {
    NextTaskIsFresh(s, own);
  }

  lemma RetryRemembers(s: System, own: map<TaskId, DriverId>, i: TaskId, now: int, ok: bool, id: TaskId)
    requires InvWith(s, own) && Enabled(s, Retry(i, now, ok))
    ensures Remembers(s, own, Next(s, Retry(i, now, ok)), NextOwner(s, own, Retry(i, now, ok)), id)
  {
    assert IdOk(s, own, i);
    if RetryCheck(s, i, now).None? {
      CommitRemembers(s, own, i, Transition(s.mem[i], Ready, None), ok, id);
    }
  }

  lemma SaveProgressRemembers(s: System, own: map<TaskId, DriverId>, d: DriverId, done: nat, total: nat, ok: bool, id: TaskId)
    requires InvWith(s, own) && Enabled(s, SaveProgress(d, done, total, ok))
    ensures Remembers(s, own, Next(s, SaveProgress(d, done, total, ok)), own, id)
  {
    AtOwner(s, own, d);
    CommitRemembers(s, own, s.drivers[d].task, WithProgress(TaskOf(s, d), done, total), ok, id);
  }

  lemma MarkConsumedRemembers(s: System, own: map<TaskId, DriverId>, i: TaskId, gallery: Option<string>, error: Option<string>, ok: bool, id: TaskId)
    requires InvWith(s, own)
    ensures Remembers(s, own, DoMarkConsumed(s, i, gallery, error, ok), own, id)
  {
    assert IdOk(s, own, i);
    var r := DoMarkConsumed(s, i, gallery, error, ok);
    if i in s.mem && s.mem[i].state == Completed {
      CommitRemembers(s, own, i, r.mem[i], ok, id);
    }
  }

  lemma MarkGalleryDeletedRemembers(s: System, own: map<TaskId, DriverId>, i: TaskId, ok: bool, id: TaskId)
    requires InvWith(s, own)
    ensures Remembers(s, own, DoMarkGalleryDeleted(s, i, ok), own, id)
  {
    assert IdOk(s, own, i);
    var r := DoMarkGalleryDeleted(s, i, ok);
    if i in s.mem && s.mem[i].state == Consumed && s.mem[i].finalPath.Some? {
      CommitRemembers(s, own, i, r.mem[i], ok, id);
    }
  }

  lemma OpenRemembers(s: System, own: map<TaskId, DriverId>, i: TaskId, readable: bool, ok: bool, id: TaskId)
    requires InvWith(s, own) && Enabled(s, OpenEntry(i, readable, ok))
    ensures Remembers(s, own, DoOpenEntry(s, i, readable, ok), own, id)
  {
    assert IdOk(s, own, i);
  }

  lemma GotoRemembers(s: System, own: map<TaskId, DriverId>, step: Step, id: TaskId)
    requires InvWith(s, own) && Enabled(s, step)
    requires step.StartSpawn? || step.Submit? || step.RetrySpawn? || step.AcquireSlot? || step.LoseSelect? || step.StreamReturns?
    ensures Remembers(s, own, Next(s, step), own, id)
  {
    AtOwner(s, own, step.d);
  }

  lemma QuietRemembers(s: System, own: map<TaskId, DriverId>, step: Step, id: TaskId)
    requires InvWith(s, own) && Enabled(s, step)
    requires step.RemoveToken? || step.Cancel? || step.Shutdown? || step.Crash? || step.OpenBegin? || step.OpenEnd?
    ensures Remembers(s, own, Next(s, step), NextOwner(s, own, step), id)
  {
  }

  lemma DropRemembers(s: System, own: map<TaskId, DriverId>, d: DriverId, id: TaskId)
    requires InvWith(s, own) && Enabled(s, Drop(d))
    ensures Remembers(s, own, Next(s, Drop(d)), own - {s.drivers[d].task}, id)
  {
  }

  lemma DriverRemembers(s: System, own: map<TaskId, DriverId>, step: Step, id: TaskId)
    requires InvWith(s, own) && Enabled(s, step) && IsDriverStep(step)
    ensures Remembers(s, own, Next(s, step), NextOwner(s, own, step), id)
  {
    match step
    case StartInsert(_) => DriverStepRemembers(s, own, step, id);
    case FinishCancelled(_, _) => DriverStepRemembers(s, own, step, id);
    case BeginStream(_, _) => DriverStepRemembers(s, own, step, id);
    case Settle(_, _, _) => DriverStepRemembers(s, own, step, id);
    case SubmitReturns(_, _, _, _) => SubmitReturnsRemembers(s, own, step, id);
    case SaveProgress(d, done, total, ok) => SaveProgressRemembers(s, own, d, done, total, ok, id);
    case _ => GotoRemembers(s, own, step, id);
  }

  lemma StepRemembers(s: System, own: map<TaskId, DriverId>, step: Step, id: TaskId)
    requires InvWith(s, own) && Enabled(s, step)
    ensures Remembers(s, own, Next(s, step), NextOwner(s, own, step), id)
  {
    if IsDriverStep(step) {
      DriverRemembers(s, own, step, id);
    } else {
      match step
      case Start(ok) => StartRemembers(s, own, ok, id);
      case Retry(i, now, ok) => RetryRemembers(s, own, i, now, ok, id);
      case MarkConsumed(i, gallery, error, ok) => MarkConsumedRemembers(s, own, i, gallery, error, ok, id);
      case MarkGalleryDeleted(i, ok) => MarkGalleryDeletedRemembers(s, own, i, ok, id);
      case OpenEntry(i, readable, ok) => OpenRemembers(s, own, i, readable, ok, id);
      case Drop(d) => DropRemembers(s, own, d, id);
      case _ => QuietRemembers(s, own, step, id);
    }
  }

  lemma {:induction false} RunRemembers(s: System, own: map<TaskId, DriverId>, steps: seq<Step>, id: TaskId)
    returns (o: map<TaskId, DriverId>)
    requires InvWith(s, own) && IsRun(s, steps)
    ensures Remembers(s, own, After(s, steps), o, id)
    decreases |steps|
  {
    o := own;
    if steps != [] {
      StepRemembers(s, own, steps[0], id);
      StepKeepsInv(s, own, steps[0]);
      o := RunRemembers(Next(s, steps[0]), NextOwner(s, own, steps[0]), steps[1..], id);
    }
  }

  /** Whatever happens after a crash, the tasks that existed then are never paid for again. */
  lemma CrashNeverReplaysPayment(s: System, steps: seq<Step>, id: TaskId)
    requires Reachable(s) && id < s.nextTask && IsRun(Next(s, Crash), steps)
    ensures Paid(After(Next(s, Crash), steps), id) == Paid(s, id)
  {
    ReachableInv(s);
    var own: map<TaskId, DriverId> :| InvWith(s, own);
    CrashStep(s, own);
    var _ := RunRemembers(Next(s, Crash), map[], steps, id);
  }

  /** Retrying never pays: once a task has left its submission, its ledger is closed for good. */
  lemma RetryNeverPays(s: System, steps: seq<Step>, id: TaskId)
    requires Reachable(s) && id in s.mem && s.mem[id].state != Submitting && IsRun(s, steps)
    ensures Paid(After(s, steps), id) == Paid(s, id)
  {
    ReachableInv(s);
    var own: map<TaskId, DriverId> :| InvWith(s, own);
    assert IdOk(s, own, id);
    var _ := RunRemembers(s, own, steps, id);
  }

  /** A task whose `start` or `retry` call was dropped is never paid for afterwards. */
  lemma DroppedCallNeverPays(s: System, steps: seq<Step>, id: TaskId)
    requires Reachable(s) && id in s.dropped && IsRun(s, steps)
    ensures Paid(After(s, steps), id) == Paid(s, id)
  {
    ReachableInv(s);
    var own: map<TaskId, DriverId> :| InvWith(s, own);
    assert IdOk(s, own, id);
    var _ := RunRemembers(s, own, steps, id);
  }

  /** A signed URL that was bought and saved stays saved, through every crash and reopen. */
  lemma DurableUrlIsNeverLost(s: System, steps: seq<Step>, id: TaskId)
    requires Reachable(s) && IsRun(s, steps) && id in s.disk && s.disk[id].url.Some?
    ensures id in After(s, steps).disk && After(s, steps).disk[id].url == s.disk[id].url
  {
    ReachableInv(s);
    var own: map<TaskId, DriverId> :| InvWith(s, own);
    var _ := RunRemembers(s, own, steps, id);
  }

  /** Once a task is shown as `CostUnknown`, no later state of the service shows it as anything else. */
  lemma CostUnknownForever(s: System, steps: seq<Step>, id: TaskId)
    requires Reachable(s) && id in s.mem && s.mem[id].state == CostUnknown && IsRun(s, steps)
    ensures var r := After(s, steps);
            && id in r.disk && (r.disk[id].state == Submitting || r.disk[id].state == CostUnknown)
            && (id in r.mem ==> r.mem[id].state == CostUnknown)
  {
    ReachableInv(s);
    var own: map<TaskId, DriverId> :| InvWith(s, own);
    assert IdOk(s, own, id);
    var _ := RunRemembers(s, own, steps, id);
  }

  // ---------------------------------------------------------------- revisions

  /** A record of the table is unchanged, gone, or carries a higher revision. */
  predicate Grew(s: System, r: System, id: TaskId) {
    id in s.mem && id in r.mem ==> r.mem[id] == s.mem[id] || r.mem[id].revision > s.mem[id].revision
  }

  lemma SubmitRevisions(s: System, d: DriverId, answer: SubmitOutcome, ok: bool, okUnknown: bool, id: TaskId)
    requires d in s.drivers && s.drivers[d].task in s.mem
    ensures Grew(s, DoSubmitReturns(s, d, answer, ok, okUnknown), id)
  {
  }

  lemma DownloadRevisions(s: System, step: Step, id: TaskId)
    requires Enabled(s, step)
    requires step.FinishCancelled? || step.BeginStream? || step.SaveProgress? || step.Settle?
    ensures Grew(s, Next(s, step), id)
  {
  }

  lemma CallRevisions(s: System, step: Step, id: TaskId)
    requires Enabled(s, step)
    requires step.Retry? || step.MarkConsumed? || step.MarkGalleryDeleted?
    ensures Grew(s, Next(s, step), id)
  {
  }

  /** While the service runs, no record of the table changes without a higher revision. */
  lemma RevisionsGrow(s: System, step: Step, id: TaskId)
    requires Reachable(s) && s.phase.Up? && Enabled(s, step)
    requires id in s.mem && id in Next(s, step).mem && Next(s, step).mem[id] != s.mem[id]
    ensures Next(s, step).mem[id].revision > s.mem[id].revision
  {
    match step
    case StartInsert(d) =>
      ReachableInv(s);
      var own: map<TaskId, DriverId> :| InvWith(s, own);
      AtOwner(s, own, d);
    case SubmitReturns(d, answer, ok, okUnknown) => SubmitRevisions(s, d, answer, ok, okUnknown, id);
    case FinishCancelled(_, _) => DownloadRevisions(s, step, id);
    case BeginStream(_, _) => DownloadRevisions(s, step, id);
    case SaveProgress(_, _, _, _) => DownloadRevisions(s, step, id);
    case Settle(_, _, _) => DownloadRevisions(s, step, id);
    case Retry(_, _, _) => CallRevisions(s, step, id);
    case MarkConsumed(_, _, _, _) => CallRevisions(s, step, id);
    case MarkGalleryDeleted(_, _) => CallRevisions(s, step, id);
    case _ =>
  }

  /** Reopening is the exception: it changes the state of a record under its old revision. */
  lemma RecoveryKeepsTheRevision(t: Task)
    ensures Recover(t).revision == t.revision
    ensures Recover(t).state != t.state <==> t.state in {Submitting, Downloading, Queued}
  {
  }

  // ---------------------------------------------------------------- what does not hold

  lemma ReachableNext(s: System, step: Step, r: System)
    requires Reachable(s) && Enabled(s, step) && Next(s, step) == r
    ensures Reachable(r)
  {
    ReachesNext(INITIAL, s, step);
  }

  lemma Proceed(s: System, step: Step)
    requires Reachable(s) && Enabled(s, step)
    ensures Reachable(Next(s, step))
  {
    ReachesNext(INITIAL, s, step);
  }

  lemma ReachableVia(s: System, r: System)
    requires Reachable(s) && Reaches(s, r)
    ensures Reachable(r)
  {
    var steps: seq<Step> :| IsRun(s, steps) && After(s, steps) == r;
    ReachableRun(s, steps);
  }

  lemma {:induction false} ReachableRun(s: System, steps: seq<Step>)
    requires Reachable(s) && IsRun(s, steps)
    ensures Reachable(After(s, steps))
    decreases |steps|
  {
    if steps != [] {
      ReachableNext(s, steps[0], Next(s, steps[0]));
      ReachableRun(Next(s, steps[0]), steps[1..]);
    }
  }

  /** The service is up, holds one task in state `t` and its one driver stands at `pc`. */
  function OneTask(t: Task, pc: Pc, slot: Option<DriverId>): System {
    System(Up, map[0 := t], map[0 := t], map[0 := 0], {}, false, slot, map[0 := Driver(0, pc)],
           if pc.SubmitPending? then map[] else map[0 := 1], {}, 1, 1)
  }

  const BOUGHT := Transition(WithUrl(NEW_TASK, "u", "z", 0), Ready, None)
  const INTERRUPTED := Transition(Transition(BOUGHT, Downloading, None), Failed, Some(""))

  lemma StartIsReachable()
    ensures Reachable(OneTask(NEW_TASK, StartInserted, None).(tokens := map[], paid := map[]))
  {
    ReachesSelf(INITIAL);
    var s1 := INITIAL.(phase := Opening({}));
    assert INITIAL.disk.Keys == {};
    ReachableNext(INITIAL, OpenBegin, s1);
    var s2 := INITIAL.(phase := Up);
    ReachableNext(s1, OpenEnd, s2);
    var s3 := s2.(disk := map[0 := NEW_TASK], drivers := map[0 := Driver(0, StartPersisted)], nextTask := 1, nextDriver := 1);
    ReachableNext(s2, Start(true), s3);
    ReachableNext(s3, StartInsert(0), OneTask(NEW_TASK, StartInserted, None).(tokens := map[], paid := map[]));
  }

  /** A caller that goes away in time leaves a task that shows `Submitting` with nobody at work on it. */
  lemma DroppedStartShowsSubmitting() returns (s: System)
    ensures Reachable(s) && s.phase.Up? && 0 in s.mem && s.mem[0].state == Submitting && 0 in s.dropped && s.drivers == map[]
  {
    StartIsReachable();
    var s1 := OneTask(NEW_TASK, StartInserted, None).(tokens := map[], paid := map[]);
    s := s1.(drivers := map[], dropped := {0});
    ReachableNext(s1, Drop(0), s);
  }

  lemma OneTaskIsReachable()
    ensures Reachable(OneTask(NEW_TASK, SubmitPending, None))
  {
    StartIsReachable();
    var s := OneTask(NEW_TASK, StartInserted, None).(tokens := map[], paid := map[]);
    ReachableNext(s, StartSpawn(0), OneTask(NEW_TASK, SubmitPending, None));
  }

  lemma StreamIsReachable()
    ensures Reachable(OneTask(Transition(BOUGHT, Downloading, None), Streaming, Some(0)))
  {
    OneTaskIsReachable();
    var s1 := OneTask(NEW_TASK, SubmitPending, None);
    var s2 := OneTask(NEW_TASK, SubmitInFlight, None);
    ReachableNext(s1, Submit(0), s2);
    var s3 := OneTask(BOUGHT, AwaitSlot, None);
    ReachableNext(s2, SubmitReturns(0, Signed("u", "z", 0), true, true), s3);
    var s4 := OneTask(BOUGHT, HoldsSlot, Some(0));
    ReachableNext(s3, AcquireSlot(0), s4);
    ReachableNext(s4, BeginStream(0, true), OneTask(Transition(BOUGHT, Downloading, None), Streaming, Some(0)));
  }

  lemma FailedDownloadIsReachable()
    ensures Reachable(OneTask(INTERRUPTED, Cleanup, None))
  {
    StreamIsReachable();
    var t := Transition(BOUGHT, Downloading, None);
    var s1 := OneTask(t, Streaming, Some(0));
    var s2 := OneTask(t, StreamEnded(Broken(false, "")), None);
    ReachableNext(s1, StreamReturns(0, Broken(false, "")), s2);
    ReachableNext(s2, Settle(0, true, true), OneTask(INTERRUPTED, Cleanup, None));
  }

  /** The failed download was retried before the first driver cleaned up after itself. */
  lemma RetriedDownload() returns (s: System)
    ensures Reachable(s) && s.phase.Up? && s.mem.Keys == {0} && s.tokens == map[0 := 1]
    ensures s.drivers == map[0 := Driver(0, Cleanup), 1 := Driver(0, AwaitSlot)] && !TokenCancelled(s, 1)
  {
    FailedDownloadIsReachable();
    var s1 := OneTask(INTERRUPTED, Cleanup, None);
    var t := Transition(INTERRUPTED, Ready, None);
    var s2 := s1.(mem := map[0 := t], disk := map[0 := t], nextDriver := 2,
                  drivers := map[0 := Driver(0, Cleanup), 1 := Driver(0, RetryPersisted)]);
    ReachableNext(s1, Retry(0, 1, true), s2);
    s := s2.(tokens := map[0 := 1], drivers := map[0 := Driver(0, Cleanup), 1 := Driver(0, AwaitSlot)]);
    ReachableNext(s2, RetrySpawn(1), s);
  }

  /**
   `cancel` is not guaranteed for a retried task: the driver of the previous attempt may remove the
   token of the new one, after which `cancel` changes nothing although the download is still to come.
   */
  lemma StaleCleanupBlocksCancel() returns (s: System)
    ensures Reachable(s) && At(s, 1, AwaitSlot) && s.drivers[1].task == 0 && !TokenCancelled(s, 1)
    ensures Next(s, Cancel(0)) == s
  {
    var s1 := RetriedDownload();
    s := s1.(tokens := map[], drivers := map[1 := Driver(0, AwaitSlot)]);
    ReachableNext(s1, RemoveToken(0), s);
  }
}
