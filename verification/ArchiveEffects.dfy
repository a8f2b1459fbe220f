/**
 What the steps of the paid Archive protocol achieve: which state each outcome leads to, and that a task is
 shown as completed only when its own stream was received and its file renamed.
 */
module ArchiveEffects {
  import opened Common
  import opened ArchiveProtocol
  import opened ArchiveSafety
  import T = ArchiveTheorems

  // ---------------------------------------------------------------- submission

  /** A signed answer that can be saved makes the task ready with what was bought, in the table and on disk. */
  lemma SignedAndSavedIsReady(s: System, d: DriverId, url: string, zipName: string, now: int, okUnknown: bool)
    requires Enabled(s, SubmitReturns(d, Signed(url, zipName, now), true, okUnknown))
    ensures var id, r := s.drivers[d].task, Next(s, SubmitReturns(d, Signed(url, zipName, now), true, okUnknown));
            && id in r.mem && id in r.disk && r.disk[id] == r.mem[id] && r.mem[id].state == Ready && r.mem[id].error == None
            && r.mem[id].url == Some(url) && r.mem[id].acquiredAt == Some(now) && r.mem[id].zipName == zipName
            && At(r, d, AwaitSlot)
  {
  }

  /** An answer that cannot be saved, or a refusal, makes the cost unknown and ends the driver; nothing of it reaches the disk as `Ready`. */
  lemma OtherwiseTheCostIsUnknown(s: System, d: DriverId, answer: SubmitOutcome, ok: bool, okUnknown: bool)
    requires Enabled(s, SubmitReturns(d, answer, ok, okUnknown)) && (answer.Refused? || !ok)
    ensures var id, r := s.drivers[d].task, DoSubmitReturns(s, d, answer, ok, okUnknown);
            && id in r.mem && r.mem[id].state == CostUnknown && At(r, d, Cleanup)
            && (answer.Refused? ==> r.mem[id].error == Some(answer.message))
            && ((if answer.Refused? then !ok else !okUnknown) ==> r.disk == s.disk)
            && ((if answer.Refused? then ok else okUnknown) ==> id in r.disk && r.disk[id] == r.mem[id])
  {
  }

  // ---------------------------------------------------------------- download

  /** A driver that finds its token cancelled never takes the permit and leaves its task cancelled. */
  lemma CancelledWaiterNeverDownloads(s: System, d: DriverId, ok: bool)
    requires T.Reachable(s) && At(s, d, AwaitSlot) && TokenCancelled(s, d)
    ensures !Enabled(s, AcquireSlot(d)) && Enabled(s, LoseSelect(d)) && Enabled(Next(s, LoseSelect(d)), FinishCancelled(d, ok))
    ensures var id, r := s.drivers[d].task, Next(Next(s, LoseSelect(d)), FinishCancelled(d, ok));
            && id in r.mem && r.mem[id].state == Cancelled && r.mem[id].retrySupported && r.slot == s.slot && At(r, d, Cleanup)
            && (ok ==> id in r.disk && r.disk[id] == r.mem[id])
  {
    T.ReachableInv(s);
    var own: map<TaskId, DriverId> :| InvWith(s, own);
    AtOwner(s, own, d);
  }

  /** An uncancelled one takes a free permit, and its task then shows that it downloads. */
  lemma WaiterDownloads(s: System, d: DriverId, ok: bool)
    requires T.Reachable(s) && At(s, d, AwaitSlot) && !TokenCancelled(s, d) && s.slot.None?
    ensures Enabled(s, AcquireSlot(d)) && Enabled(Next(s, AcquireSlot(d)), BeginStream(d, ok))
    ensures var id, r := s.drivers[d].task, Next(Next(s, AcquireSlot(d)), BeginStream(d, ok));
            && id in r.mem && r.mem[id].state == Downloading && r.slot == Some(d) && At(r, d, Streaming)
            && (ok ==> id in r.disk && r.disk[id] == r.mem[id])
  {
    T.ReachableInv(s);
    var own: map<TaskId, DriverId> :| InvWith(s, own);
    AtOwner(s, own, d);
  }

  /** Saved progress is the count it is given; a total of zero means that none is known. */
  lemma ProgressIsShown(s: System, d: DriverId, done: nat, total: nat, ok: bool)
    requires Enabled(s, SaveProgress(d, done, total, ok))
    ensures var id, r := s.drivers[d].task, Next(s, SaveProgress(d, done, total, ok));
            && id in r.mem && r.mem[id].bytesDone == done
            && (total > 0 ==> r.mem[id].bytesTotal == Some(total)) && (total == 0 ==> r.mem[id].bytesTotal == None)
            && (ok ==> id in r.disk && r.disk[id] == r.mem[id]) && (!ok ==> r.disk == s.disk)
  {
  }

  /** The record after a stream that was received: completed exactly if its file could be renamed. */
  predicate ReceivedAs(before: Task, t: Task, done: nat, total: Option<nat>, ranges: bool, renamed: bool) {
    && t.bytesDone == done && t.bytesTotal == total && t.resumeSupported == ranges
    && (renamed ==> t.state == Completed && t.finalPath == Some(before.zipName) && t.error == None && !t.retrySupported)
    && (!renamed ==> t.state == Failed && t.finalPath == before.finalPath && t.error.Some? && (t.retrySupported <==> before.url.Some?))
  }

  /** The record after a stream that broke: cancelled exactly if that is why it broke. */
  predicate BrokenAs(before: Task, t: Task, cancelled: bool, message: string) {
    && t.state == (if cancelled then Cancelled else Failed) && t.error == Some(message)
    && t.bytesDone == before.bytesDone && t.finalPath == before.finalPath && (t.retrySupported <==> before.url.Some?)
  }

  /** Which end a finished stream leads to. */
  lemma StreamsEndAsTheySay(s: System, d: DriverId, renamed: bool, ok: bool)
    requires Enabled(s, Settle(d, renamed, ok))
    ensures var id, r, outcome := s.drivers[d].task, Next(s, Settle(d, renamed, ok)), s.drivers[d].pc.outcome;
            && id in r.mem && At(r, d, Cleanup) && (ok ==> id in r.disk && r.disk[id] == r.mem[id]) && (!ok ==> r.disk == s.disk)
            && match outcome
               case Received(done, total, acceptRanges, resumed) =>
                 ReceivedAs(s.mem[id], r.mem[id], done, total, acceptRanges || resumed, renamed)
               case Broken(cancelled, message) => BrokenAs(s.mem[id], r.mem[id], cancelled, message)
  {
  }

  // ---------------------------------------------------------------- completed over runs

  /** Completed, or consumed after that, in the table or on disk. */
  predicate Finished(s: System, id: TaskId) {
    || (id in s.mem && (s.mem[id].state == Completed || s.mem[id].state == Consumed))
    || (id in s.disk && (s.disk[id].state == Completed || s.disk[id].state == Consumed))
  }

  /** The step settles a stream of this task that was received, with its file renamed. */
  predicate Delivers(s: System, step: Step, id: TaskId) {
    && step.Settle? && step.renamed && step.d in s.drivers && s.drivers[step.d].task == id
    && s.drivers[step.d].pc.StreamEnded? && s.drivers[step.d].pc.outcome.Received?
  }

  /** Some step of the run does. */
  predicate Delivered(s: System, steps: seq<Step>, id: TaskId)
    requires IsRun(s, steps)
    decreases |steps|
  {
    steps != [] && (Delivers(s, steps[0], id) || Delivered(Next(s, steps[0]), steps[1..], id))
  }

  lemma SettleDelivers(s: System, d: DriverId, renamed: bool, ok: bool, id: TaskId)
    requires Enabled(s, Settle(d, renamed, ok)) && !Finished(s, id) && Finished(Next(s, Settle(d, renamed, ok)), id)
    ensures Delivers(s, Settle(d, renamed, ok), id)
  {
    StreamsEndAsTheySay(s, d, renamed, ok);
  }

  lemma SubmissionDoesNotFinish(s: System, d: DriverId, answer: SubmitOutcome, ok: bool, okUnknown: bool, id: TaskId)
    requires Enabled(s, SubmitReturns(d, answer, ok, okUnknown)) && !Finished(s, id)
    ensures !Finished(DoSubmitReturns(s, d, answer, ok, okUnknown), id)
  {
  }

  lemma DownloadDoesNotFinish(s: System, step: Step, id: TaskId)
    requires Enabled(s, step) && !Finished(s, id) && (step.FinishCancelled? || step.BeginStream? || step.SaveProgress?)
    ensures !Finished(Next(s, step), id)
  {
  }

  lemma StartDoesNotFinish(s: System, step: Step, id: TaskId)
    requires Enabled(s, step) && !Finished(s, id) && (step.Start? || step.StartInsert?)
    ensures !Finished(Next(s, step), id)
  {
  }

  lemma RetryDoesNotFinish(s: System, i: TaskId, now: int, ok: bool, id: TaskId)
    requires !Finished(s, id)
    ensures !Finished(DoRetry(s, i, now, ok), id)
  {
  }

  lemma MarkingDoesNotFinish(s: System, step: Step, id: TaskId)
    requires Enabled(s, step) && !Finished(s, id) && (step.MarkConsumed? || step.MarkGalleryDeleted?)
    ensures !Finished(Next(s, step), id)
  {
  }

  lemma OpeningDoesNotFinish(s: System, i: TaskId, readable: bool, ok: bool, id: TaskId)
    requires Enabled(s, OpenEntry(i, readable, ok)) && !Finished(s, id)
    ensures !Finished(DoOpenEntry(s, i, readable, ok), id)
  {
  }

  lemma StepDelivers(s: System, step: Step, id: TaskId)
    requires Enabled(s, step) && !Finished(s, id) && Finished(Next(s, step), id)
    ensures Delivers(s, step, id)
  {
    match step
    case Settle(d, renamed, ok) => SettleDelivers(s, d, renamed, ok, id);
    case SubmitReturns(d, answer, ok, okUnknown) => SubmissionDoesNotFinish(s, d, answer, ok, okUnknown, id);
    case FinishCancelled(_, _) => DownloadDoesNotFinish(s, step, id);
    case BeginStream(_, _) => DownloadDoesNotFinish(s, step, id);
    case SaveProgress(_, _, _, _) => DownloadDoesNotFinish(s, step, id);
    case Start(_) => StartDoesNotFinish(s, step, id);
    case StartInsert(_) => StartDoesNotFinish(s, step, id);
    case Retry(i, now, ok) => RetryDoesNotFinish(s, i, now, ok, id);
    case MarkConsumed(_, _, _, _) => MarkingDoesNotFinish(s, step, id);
    case MarkGalleryDeleted(_, _) => MarkingDoesNotFinish(s, step, id);
    case OpenEntry(i, readable, ok) => OpeningDoesNotFinish(s, i, readable, ok, id);
    case _ =>
  }

  /** Over any run: a task is completed or consumed only after a stream of its own was received and renamed. */
  lemma {:induction false} CompletedMeansDelivered(s: System, steps: seq<Step>, id: TaskId)
    requires IsRun(s, steps) && !Finished(s, id) && Finished(After(s, steps), id)
    ensures Delivered(s, steps, id)
    decreases |steps|
  {
    if Finished(Next(s, steps[0]), id) {
      StepDelivers(s, steps[0], id);
    } else {
      CompletedMeansDelivered(Next(s, steps[0]), steps[1..], id);
    }
  }

  // ---------------------------------------------------------------- calls and recovery

  /** Shutting down cancels every driver there is and every one still to come. */
  lemma ShutdownCancelsEverybody(s: System, d: DriverId)
    requires Enabled(s, Shutdown)
    ensures TokenCancelled(Next(s, Shutdown), d) && !Enabled(Next(s, Shutdown), AcquireSlot(d))
  {
  }

  /** A retry is accepted exactly within a day of buying, for a failed or cancelled task; it then waits for the permit. */
  lemma AcceptedRetryWaits(s: System, id: TaskId, now: int)
    requires T.Reachable(s) && s.phase.Up? && id in s.mem && s.mem[id].retrySupported
    ensures var d, r := s.nextDriver, Next(s, Retry(id, now, true));
            && (now - s.mem[id].acquiredAt.GetOr(0) >= 24 * 60 * 60 ==> r == s)
            && (now - s.mem[id].acquiredAt.GetOr(0) < 24 * 60 * 60 ==>
                  && id in r.mem && r.mem[id].state == Ready && r.mem[id].url == s.mem[id].url
                  && id in r.disk && r.disk[id] == r.mem[id]
                  && At(r, d, RetryPersisted) && r.drivers[d].task == id
                  && Enabled(r, RetrySpawn(d)) && At(Next(r, RetrySpawn(d)), d, AwaitSlot))
  {
    T.LedgerOfTheTable(s, id);
  }

  /** Why a retry is refused: the task is unknown, has nothing to retry, or what it bought has expired; for no other reason. */
  lemma RefusedRetries(s: System, id: TaskId, now: int)
    requires T.Reachable(s) && s.phase.Up?
    ensures RetryCheck(s, id, now) == Some(NotFound) <==> id !in s.mem
    ensures RetryCheck(s, id, now) == Some(NotRetryable) <==> id in s.mem && !s.mem[id].retrySupported
    ensures RetryCheck(s, id, now) == Some(Expired) <==>
              id in s.mem && s.mem[id].retrySupported && now - s.mem[id].acquiredAt.GetOr(now) >= 24 * 60 * 60
    ensures RetryCheck(s, id, now) != Some(MissingTimestamp)
  {
    if id in s.mem {
      T.LedgerOfTheTable(s, id);
    }
  }

  /** A completed task is consumed with the path it is given, or keeps its state and shows the error it is given. */
  lemma ConsumptionIsRecorded(s: System, id: TaskId, gallery: Option<string>, error: Option<string>, ok: bool)
    requires s.phase.Up? && id in s.mem && s.mem[id].state == Completed
    ensures var r := DoMarkConsumed(s, id, gallery, error, ok);
            && id in r.mem && r.mem[id].consumeError == error && (ok ==> id in r.disk && r.disk[id] == r.mem[id])
            && (error.None? ==> r.mem[id].state == Consumed && r.mem[id].finalPath == gallery)
            && (error.Some? ==> r.mem[id].state == Completed && r.mem[id].finalPath == s.mem[id].finalPath)
  {
  }

  /** A consumed task forgets the path of its deleted gallery and stays consumed. */
  lemma DeletedGalleryIsForgotten(s: System, id: TaskId, ok: bool)
    requires s.phase.Up? && id in s.mem && s.mem[id].state == Consumed
    ensures var r := DoMarkGalleryDeleted(s, id, ok);
            id in r.mem && r.mem[id].state == Consumed && r.mem[id].finalPath == None
  {
  }

  /** A process stop leaves the records and nothing else: no table, driver, permit, token or cancellation. */
  lemma StopLeavesTheRecords(s: System, id: TaskId, d: DriverId)
    ensures var r := Next(s, Crash);
            && r.disk == s.disk && id !in r.mem && id !in r.tokens && d !in r.drivers && r.slot.None? && !TokenCancelled(r, d)
            && Paid(r, id) == Paid(s, id)
  {
  }

  /** Opening looks at every record there is. */
  lemma OpeningListsEverything(s: System, id: TaskId)
    requires Enabled(s, OpenBegin)
    ensures var r := Next(s, OpenBegin);
            r.phase.Opening? && (id in r.phase.todo <==> id in s.disk) && (s.disk != map[] ==> !Enabled(r, OpenEnd))
  {
    assert s.disk.Keys == {} ==> s.disk == map[];
  }

  /** What a stop during each stage makes of a record. */
  lemma InterruptionsAreNamed(t: Task)
    ensures t.state == Submitting ==> Recover(t).state == CostUnknown && Recover(t).error.Some?
    ensures t.state == Downloading ==> Recover(t).state == Failed && Recover(t).error.Some?
    ensures t.state == Queued ==> Recover(t).state == Cancelled && Recover(t).error.Some?
    ensures t.state !in {Submitting, Downloading, Queued} ==> Recover(t).state == t.state && Recover(t).error == t.error
    ensures Recover(t).url == t.url && Recover(t).acquiredAt == t.acquiredAt && Recover(t).bytesDone == t.bytesDone && Recover(t).finalPath == t.finalPath
    ensures Recover(t).retrySupported <==> t.state in {Downloading, Queued, Failed, Cancelled} && t.url.Some?
  {
  }
}
