/**
 The Archive service as an object: a task table, tokens and a permit that its methods update in place.

 Each method is one critical section of the original between two suspension points, and does exactly
 one step of `ArchiveProtocol`; the loops of `Open` and `StreamBytes` are runs of it.  `Valid` says that
 the state is reachable, which is what the theorems of `ArchiveTheorems` ask, and every method keeps it.
 What the outside world decides (whether a write succeeds, what the remote answers, the clock) is a
 parameter.
 */
module ArchiveService {
  import opened Common
  import P = ArchiveProtocol
  import T = ArchiveTheorems

  type Task = P.Task
  type TaskId = P.TaskId
  type DriverId = P.DriverId

  datatype RetryError = Refused(why: P.RetryRefusal) | NotSaved
  datatype CancelError = UnknownTask | NotAllowed(state: P.TaskState)
  datatype ConsumeError = NoSuchTask | NotCompleted | WriteFailed

  /** One tick of the progress timer. */
  datatype Tick = Tick(done: nat, total: nat, saved: bool)

  const SAVE_STEP := 1024 * 1024

  /** The record of a task after its stream was polled at the given ticks, `last` being saved already. */
  function Progressed(t: Task, last: nat, ticks: seq<Tick>): Task
    decreases |ticks|
  {
    if ticks == [] then t
    else if ticks[0].done == last then Progressed(t, last, ticks[1..])
    else Progressed(P.WithProgress(t, ticks[0].done, ticks[0].total), ticks[0].done, ticks[1..])
  }

  /** The service after a stream was polled at the given ticks. */
  function Streamed(s: P.System, d: DriverId, last: nat, ticks: seq<Tick>): P.System
    requires P.At(s, d, P.Streaming) && s.drivers[d].task in s.mem
    decreases |ticks|
  {
    if ticks == [] then s
    else if ticks[0].done == last then Streamed(s, d, last, ticks[1..])
    else Streamed(P.Next(s, P.SaveProgress(d, ticks[0].done, ticks[0].total, ticks[0].saved)), d, ticks[0].done, ticks[1..])
  }

  /** Whether the last tick that moved was written; if none was, the durable record is the one before. */
  function LastSaved(t: Task, k: Task, last: nat, ticks: seq<Tick>): Task
    decreases |ticks|
  {
    if ticks == [] then k
    else if ticks[0].done == last then LastSaved(t, k, last, ticks[1..])
    else
      var r := P.WithProgress(t, ticks[0].done, ticks[0].total);
      LastSaved(r, if ticks[0].saved then r else k, ticks[0].done, ticks[1..])
  }

  /** Polling a stream changes the record of its task and the durable copy of it, and nothing else. */
  lemma {:induction false} StreamedTouchesOneRecord(s: P.System, d: DriverId, last: nat, ticks: seq<Tick>)
    requires P.At(s, d, P.Streaming) && s.drivers[d].task in s.mem && s.drivers[d].task in s.disk
    ensures var id, r := s.drivers[d].task, Streamed(s, d, last, ticks);
            r == s.(mem := s.mem[id := Progressed(s.mem[id], last, ticks)],
                    disk := s.disk[id := LastSaved(s.mem[id], s.disk[id], last, ticks)])
    decreases |ticks|
  {
    var id := s.drivers[d].task;
    if ticks == [] {
      assert s.mem[id := s.mem[id]] == s.mem && s.disk[id := s.disk[id]] == s.disk;
    } else if ticks[0].done == last {
      StreamedTouchesOneRecord(s, d, last, ticks[1..]);
    } else {
      var q := P.Next(s, P.SaveProgress(d, ticks[0].done, ticks[0].total, ticks[0].saved));
      StreamedTouchesOneRecord(q, d, ticks[0].done, ticks[1..]);
    }
  }

  /** The record ends with the last tick seen, and only moving ticks cost a revision. */
  lemma {:induction false} ProgressIsTheLastTick(t: Task, last: nat, ticks: seq<Tick>)
    requires t.bytesDone == last
    ensures var r := Progressed(t, last, ticks);
            && r.bytesDone == (if ticks == [] then last else ticks[|ticks| - 1].done)
            && t.revision <= r.revision <= t.revision + |ticks|
            && (r.revision == t.revision <==> forall i :: 0 <= i < |ticks| ==> ticks[i].done == last)
    decreases |ticks|
  {
    if ticks != [] {
      var rest := ticks[1..];
      if ticks[0].done == last {
        ProgressIsTheLastTick(t, last, rest);
        assert forall i :: 1 <= i < |ticks| ==> ticks[i] == rest[i - 1];
      } else {
        ProgressIsTheLastTick(P.WithProgress(t, ticks[0].done, ticks[0].total), ticks[0].done, rest);
      }
    }
  }

  /** The durable records after the entries in `done` were recovered. */
  function DiskAfter(disk: map<TaskId, Task>, done: set<TaskId>, readable: TaskId -> bool): map<TaskId, Task> {
    map id | id in disk :: if id in done && readable(id) then P.Recover(disk[id]) else disk[id]
  }

  /** The task table after the entries in `done` were recovered. */
  function TableAfter(disk: map<TaskId, Task>, done: set<TaskId>, readable: TaskId -> bool): map<TaskId, Task> {
    map id | id in disk && id in done && readable(id) :: P.Recover(disk[id])
  }

  /** The system while it opens, after the entries in `done`. */
  function Opened(s: P.System, done: set<TaskId>, readable: TaskId -> bool): P.System {
    s.(phase := P.Opening(s.disk.Keys - done),
       disk := DiskAfter(s.disk, done, readable),
       mem := TableAfter(s.disk, done, readable))
  }

  lemma OpenedStart(s: P.System, readable: TaskId -> bool)
    requires s.phase.Down? && s.mem == map[]
    ensures s.(phase := P.Opening(s.disk.Keys)) == Opened(s, {}, readable)
    ensures P.Reaches(s, Opened(s, {}, readable))
  {
    assert DiskAfter(s.disk, {}, readable) == s.disk && TableAfter(s.disk, {}, readable) == map[];
    assert s.disk.Keys - {} == s.disk.Keys;
    P.ReachesSelf(s);
    P.ReachesNext(s, s, P.OpenBegin);
  }

  lemma RecoverOne(s: P.System, done: set<TaskId>, id: TaskId, readable: TaskId -> bool)
    requires id in s.disk && id !in done
    ensures var q, r := Opened(s, done, readable), Opened(s, done + {id}, readable);
            && q.phase.todo - {id} == r.phase.todo
            && q.disk[id] == s.disk[id]
            && r.disk == (if readable(id) then q.disk[id := P.Recover(s.disk[id])] else q.disk)
            && r.mem == (if readable(id) then q.mem[id := P.Recover(s.disk[id])] else q.mem)
  {
  }

  lemma OpenedNext(s: P.System, done: set<TaskId>, id: TaskId, readable: TaskId -> bool, saved: bool)
    requires id in s.disk && id !in done && P.Reaches(s, Opened(s, done, readable))
    ensures var q, step := Opened(s, done, readable), P.OpenEntry(id, readable(id), saved);
            && P.Enabled(q, step)
            && P.Reaches(s, P.Next(q, step))
            && P.Next(q, step) == (if readable(id) ==> saved then Opened(s, done + {id}, readable)
                                   else q.(phase := P.Down, mem := map[]))
  {
    var q, step := Opened(s, done, readable), P.OpenEntry(id, readable(id), saved);
    RecoverOne(s, done, id, readable);
    P.ReachesNext(s, q, step);
  }

  lemma OpenedAll(s: P.System, readable: TaskId -> bool)
    requires P.Reaches(s, Opened(s, s.disk.Keys, readable))
    ensures P.Reaches(s, Opened(s, s.disk.Keys, readable).(phase := P.Up))
  {
    P.ReachesNext(s, Opened(s, s.disk.Keys, readable), P.OpenEnd);
  }

  class ArchiveService {
    var phase: P.Phase
    var tasks: map<TaskId, Task>
    var disk: map<TaskId, Task>
    var cancellations: map<TaskId, DriverId>
    var cancelled: set<DriverId>
    var stopping: bool
    var downloadSlot: Option<DriverId>
    var drivers: map<DriverId, P.Driver>
    var submissions: map<TaskId, nat>
    ghost var dropped: set<TaskId>
    var nextTask: TaskId
    var nextDriver: DriverId

    ghost function View(): P.System
      reads this
    {
      P.System(phase, tasks, disk, cancellations, cancelled, stopping, downloadSlot, drivers, submissions, dropped, nextTask, nextDriver)
    }

    /** The state is one that some run from a fresh installation leads to, so the theorems hold of it. */
    ghost predicate Valid()
      reads this
    {
      T.Reachable(View())
    }

    constructor ()
      ensures Valid() && View() == P.INITIAL
    {
      phase, tasks, disk, cancellations, cancelled := P.Down, map[], map[], map[], {};
      stopping, downloadSlot, drivers, submissions, nextTask, nextDriver := false, None, map[], map[], 0, 0;
      dropped := {};
      new;
      P.ReachesSelf(P.INITIAL);
    }

    /** One record of the directory: read, repaired, written back, entered in the table. */
    method OpenEntry(id: TaskId, readable: bool, saved: bool) returns (ok: bool)
      requires Valid() && P.Enabled(View(), P.OpenEntry(id, readable, saved))
      modifies this
      ensures Valid() && View() == P.Next(old(View()), P.OpenEntry(id, readable, saved))
      ensures ok <==> (readable ==> saved)
    {
      T.Proceed(View(), P.OpenEntry(id, readable, saved));
      if readable {
        var task := P.Recover(disk[id]);
        if !saved {
          phase, tasks := P.Down, map[];
          return false;
        }
        disk := disk[id := task];
        tasks := tasks[id := task];
      }
      phase := P.Opening(phase.todo - {id});
      ok := true;
    }

    /** The loop over the directory; it ends early at the first record that cannot be written back. */
    method LoadEntries(ghost start: P.System, entries: seq<TaskId>, readable: TaskId -> bool, saved: TaskId -> bool) returns (ok: bool)
      requires T.Reachable(start) && View() == Opened(start, {}, readable) && P.Reaches(start, View())
      requires forall id :: id in entries <==> id in start.disk
      requires forall i, j :: 0 <= i < j < |entries| ==> entries[i] != entries[j]
      modifies this
      ensures Valid() && P.Reaches(start, View())
      ensures ok <==> forall id :: id in start.disk && readable(id) ==> saved(id)
      ensures if ok then View() == Opened(start, start.disk.Keys, readable) else phase.Down? && tasks == map[]
    {
      ghost var done: set<TaskId> := {};
      T.ReachableVia(start, View());
      var i := 0;
      while i < |entries|
        invariant 0 <= i <= |entries| && Valid()
        invariant View() == Opened(start, done, readable) && P.Reaches(start, Opened(start, done, readable))
        invariant done <= start.disk.Keys
        invariant forall j :: 0 <= j < |entries| ==> (entries[j] in done <==> j < i)
        invariant forall id :: id in done && readable(id) ==> saved(id)
      {
        var id := entries[i];
        assert id in start.disk && id !in done;
        OpenedNext(start, done, id, readable, saved(id));
        ok := OpenEntry(id, readable(id), saved(id));
        if !ok {
          return;
        }
        done := done + {id};
        i := i + 1;
      }
      assert done == start.disk.Keys by {
        assert forall id :: id in start.disk ==> id in done;
      }
      ok := true;
    }

    /**
     Loads and repairs every readable record; one record that cannot be rewritten fails the whole
     opening, and the records rewritten before it stay rewritten.
     */
    method Open(entries: seq<TaskId>, readable: TaskId -> bool, saved: TaskId -> bool) returns (ok: bool)
      requires Valid() && phase.Down?
      requires forall id :: id in entries <==> id in disk
      requires forall i, j :: 0 <= i < j < |entries| ==> entries[i] != entries[j]
      modifies this
      ensures Valid() && P.Reaches(old(View()), View())
      ensures ok <==> forall id :: id in old(disk) && readable(id) ==> saved(id)
      ensures ok ==> View() == Opened(old(View()), old(disk).Keys, readable).(phase := P.Up)
      ensures !ok ==> phase.Down? && tasks == map[]
    {
      ghost var start := View();
      T.DownIsEmpty(start);
      OpenedStart(start, readable);
      phase := P.Opening(disk.Keys);
      ok := LoadEntries(start, entries, readable, saved);
      if ok {
        OpenedAll(start, readable);
        phase := P.Up;
        T.ReachableVia(start, View());
      }
    }

    // -------------------------------------------------------------- start and submission

    /** Creates the durable record; nothing is charged and nothing is in the table yet. */
    method Start(saved: bool) returns (id: TaskId, ok: bool)
      requires Valid() && phase.Up?
      modifies this
      ensures Valid() && View() == P.Next(old(View()), P.Start(saved))
      ensures id == old(nextTask) && ok == saved
    {
      T.Proceed(View(), P.Start(saved));
      id := nextTask;
      nextTask := nextTask + 1;
      if !saved {
        return id, false;
      }
      disk := disk[id := P.NEW_TASK];
      drivers := drivers[nextDriver := P.Driver(id, P.StartPersisted)];
      nextDriver := nextDriver + 1;
      ok := true;
    }

    method InsertStarted(d: DriverId) returns (snapshot: Task)
      requires Valid() && P.Enabled(View(), P.StartInsert(d))
      modifies this
      ensures Valid() && View() == P.Next(old(View()), P.StartInsert(d))
      ensures snapshot == tasks[drivers[d].task]
    {
      T.Proceed(View(), P.StartInsert(d));
      snapshot := P.NEW_TASK;
      tasks := tasks[drivers[d].task := snapshot];
      drivers := drivers[d := drivers[d].(pc := P.StartInserted)];
    }

    /** Registers the token of a new driver and lets it run. */
    method SpawnDriver(d: DriverId)
      requires Valid() && (P.At(View(), d, P.StartInserted) || P.At(View(), d, P.RetryPersisted))
      modifies this
      ensures Valid() && View() == P.Next(old(View()), if old(drivers)[d].pc.StartInserted? then P.StartSpawn(d) else P.RetrySpawn(d))
    {
      T.Proceed(View(), if drivers[d].pc.StartInserted? then P.StartSpawn(d) else P.RetrySpawn(d));
      cancellations := cancellations[drivers[d].task := d];
      var pc := if drivers[d].pc.StartInserted? then P.SubmitPending else P.AwaitSlot;
      drivers := drivers[d := drivers[d].(pc := pc)];
    }

    /** Calls the remote submission: from here on the account may have been charged. */
    method Submit(d: DriverId)
      requires Valid() && P.Enabled(View(), P.Submit(d))
      modifies this
      ensures Valid() && View() == P.Next(old(View()), P.Submit(d))
    {
      T.Proceed(View(), P.Submit(d));
      var id := drivers[d].task;
      submissions := submissions[id := (if id in submissions then submissions[id] else 0) + 1];
      drivers := drivers[d := drivers[d].(pc := P.SubmitInFlight)];
    }

    /** Records the answer; a URL that cannot be saved makes the cost unknown. */
    method FinishSubmission(d: DriverId, answer: P.SubmitOutcome, saved: bool, savedUnknown: bool)
      requires Valid() && P.Enabled(View(), P.SubmitReturns(d, answer, saved, savedUnknown))
      modifies this
      ensures Valid() && View() == P.Next(old(View()), P.SubmitReturns(d, answer, saved, savedUnknown))
    {
      T.Proceed(View(), P.SubmitReturns(d, answer, saved, savedUnknown));
      var id := drivers[d].task;
      var task := tasks[id];
      var written, pc := saved, P.Cleanup;
      match answer {
        case Signed(url, zipName, now) =>
          task := task.(url := Some(url), zipName := zipName, acquiredAt := Some(now));
          task := P.Transition(task, P.Ready, None);
          if saved {
            pc := P.AwaitSlot;
          } else {
            task := P.Transition(task, P.CostUnknown, Some("URL could not be saved"));
            written := savedUnknown;
          }
        case Refused(message) =>
          task := P.Transition(task, P.CostUnknown, Some(message));
      }
      tasks := tasks[id := task];
      if written {
        disk := disk[id := task];
      }
      drivers := drivers[d := drivers[d].(pc := pc)];
    }

    // -------------------------------------------------------------- download

    /** The biased select: a cancelled driver never takes the permit. */
    method SelectSlot(d: DriverId) returns (acquired: bool)
      requires Valid() && P.At(View(), d, P.AwaitSlot) && (P.TokenCancelled(View(), d) || downloadSlot.None?)
      modifies this
      ensures acquired == !P.TokenCancelled(old(View()), d)
      ensures Valid() && View() == P.Next(old(View()), if acquired then P.AcquireSlot(d) else P.LoseSelect(d))
    {
      T.Proceed(View(), if !P.TokenCancelled(View(), d) then P.AcquireSlot(d) else P.LoseSelect(d));
      if stopping || d in cancelled {
        drivers := drivers[d := drivers[d].(pc := P.CancelPending)];
        return false;
      }
      downloadSlot := Some(d);
      drivers := drivers[d := drivers[d].(pc := P.HoldsSlot)];
      acquired := true;
    }

    method FinishCancelled(d: DriverId, saved: bool)
      requires Valid() && P.Enabled(View(), P.FinishCancelled(d, saved))
      modifies this
      ensures Valid() && View() == P.Next(old(View()), P.FinishCancelled(d, saved))
    {
      T.Proceed(View(), P.FinishCancelled(d, saved));
      var id := drivers[d].task;
      var task := P.Transition(tasks[id], P.Cancelled, None);
      tasks := tasks[id := task];
      if saved {
        disk := disk[id := task];
      }
      drivers := drivers[d := drivers[d].(pc := P.Cleanup)];
    }

    /** Shows the task as downloading and gives the URL it streams from, which every reachable state has. */
    method BeginStream(d: DriverId, saved: bool) returns (url: string)
      requires Valid() && P.Enabled(View(), P.BeginStream(d, saved))
      modifies this
      ensures Valid() && View() == P.Next(old(View()), P.BeginStream(d, saved))
      ensures tasks[drivers[d].task].url == Some(url)
    {
      T.Proceed(View(), P.BeginStream(d, saved));
      T.StreamHasUrl(View(), d);
      var id := drivers[d].task;
      var task := P.Transition(tasks[id], P.Downloading, None);
      tasks := tasks[id := task];
      if saved {
        disk := disk[id := task];
      }
      drivers := drivers[d := drivers[d].(pc := P.Streaming)];
      url := task.url.value;
    }

    method SaveProgress(d: DriverId, done: nat, total: nat, saved: bool)
      requires Valid() && P.Enabled(View(), P.SaveProgress(d, done, total, saved))
      modifies this
      ensures Valid() && View() == P.Next(old(View()), P.SaveProgress(d, done, total, saved))
    {
      T.Proceed(View(), P.SaveProgress(d, done, total, saved));
      var id := drivers[d].task;
      var task := tasks[id];
      task := task.(bytesDone := done);
      task := task.(bytesTotal := if total > 0 then Some(total) else None);
      task := task.(revision := task.revision + 1);
      tasks := tasks[id := task];
      if saved {
        disk := disk[id := task];
      }
    }

    /** The stream ended: the permit is free before the table says so. */
    method EndStream(d: DriverId, outcome: P.StreamOutcome)
      requires Valid() && P.Enabled(View(), P.StreamReturns(d, outcome))
      modifies this
      ensures Valid() && View() == P.Next(old(View()), P.StreamReturns(d, outcome))
    {
      T.Proceed(View(), P.StreamReturns(d, outcome));
      downloadSlot := None;
      drivers := drivers[d := drivers[d].(pc := P.StreamEnded(outcome))];
    }

    /** The record a stream leaves behind, with the counts of a complete one whether or not it could be renamed. */
    static method SettledRecord(t: Task, outcome: P.StreamOutcome, renamed: bool) returns (task: Task)
      ensures task == P.Settled(t, outcome, renamed)
    {
      task := t;
      match outcome {
        case Received(done, total, acceptRanges, resumed) =>
          task := task.(bytesDone := done, bytesTotal := total, resumeSupported := acceptRanges || resumed);
          if !renamed {
            task := P.Transition(task, P.Failed, Some("failed to finalize Archive ZIP"));
          } else {
            task := task.(finalPath := Some(task.zipName));
            task := P.Transition(task, P.Completed, None);
          }
        case Broken(wasCancelled, message) =>
          var state := if wasCancelled then P.Cancelled else P.Failed;
          task := P.Transition(task, state, Some(message));
      }
    }

    method Settle(d: DriverId, renamed: bool, saved: bool)
      requires Valid() && P.Enabled(View(), P.Settle(d, renamed, saved))
      modifies this
      ensures Valid() && View() == P.Next(old(View()), P.Settle(d, renamed, saved))
    {
      T.Proceed(View(), P.Settle(d, renamed, saved));
      var id := drivers[d].task;
      var task := SettledRecord(tasks[id], drivers[d].pc.outcome, renamed);
      tasks := tasks[id := task];
      if saved {
        disk := disk[id := task];
      }
      drivers := drivers[d := drivers[d].(pc := P.Cleanup)];
    }

    method RemoveToken(d: DriverId)
      requires Valid() && P.Enabled(View(), P.RemoveToken(d))
      modifies this
      ensures Valid() && View() == P.Next(old(View()), P.RemoveToken(d))
    {
      T.Proceed(View(), P.RemoveToken(d));
      cancellations := cancellations - {drivers[d].task};
      drivers := drivers - {d};
    }

    // -------------------------------------------------------------- calls

    method Cancel(id: TaskId) returns (r: Result<Task, CancelError>)
      requires Valid() && phase.Up?
      modifies this
      ensures Valid() && View() == P.Next(old(View()), P.Cancel(id))
      ensures r == if id !in old(tasks) then Err(UnknownTask)
                   else if id !in old(cancellations) then Err(NotAllowed(old(tasks)[id].state))
                   else Ok(old(tasks)[id])
    {
      T.Proceed(View(), P.Cancel(id));
      if id !in tasks {
        return Err(UnknownTask);
      }
      if id !in cancellations {
        return Err(NotAllowed(tasks[id].state));
      }
      cancelled := cancelled + {cancellations[id]};
      r := Ok(tasks[id]);
    }

    /** A failed write reports an error and leaves the table showing `Ready` without a driver. */
    method Retry(id: TaskId, now: int, saved: bool) returns (r: Result<Task, RetryError>)
      requires Valid() && phase.Up?
      modifies this
      ensures Valid() && View() == P.Next(old(View()), P.Retry(id, now, saved))
      ensures var refusal := P.RetryCheck(old(View()), id, now);
              r == if refusal.Some? then Err(Refused(refusal.value))
                   else if saved then Ok(P.Transition(old(tasks)[id], P.Ready, None))
                   else Err(NotSaved)
    {
      T.Proceed(View(), P.Retry(id, now, saved));
      if id !in tasks {
        return Err(Refused(P.NotFound));
      }
      var task := tasks[id];
      if !(task.state.Failed? || task.state.Cancelled?) || task.url.None? {
        return Err(Refused(P.NotRetryable));
      }
      if task.acquiredAt.None? {
        return Err(Refused(P.MissingTimestamp));
      }
      if now - task.acquiredAt.value >= P.ARCHIVE_VALID_SECONDS {
        return Err(Refused(P.Expired));
      }
      task := P.Transition(task, P.Ready, None);
      tasks := tasks[id := task];
      if !saved {
        return Err(NotSaved);
      }
      disk := disk[id := task];
      drivers := drivers[nextDriver := P.Driver(id, P.RetryPersisted)];
      nextDriver := nextDriver + 1;
      r := Ok(task);
    }

    method MarkConsumed(id: TaskId, gallery: Option<string>, error: Option<string>, saved: bool)
      returns (r: Result<Task, ConsumeError>)
      requires Valid() && phase.Up?
      modifies this
      ensures Valid() && View() == P.Next(old(View()), P.MarkConsumed(id, gallery, error, saved))
      ensures r == if id !in old(tasks) then Err(NoSuchTask)
                   else if old(tasks)[id].state != P.Completed then Err(NotCompleted)
                   else if saved then Ok(tasks[id]) else Err(WriteFailed)
    {
      T.Proceed(View(), P.MarkConsumed(id, gallery, error, saved));
      if id !in tasks {
        return Err(NoSuchTask);
      }
      var task := tasks[id];
      if task.state != P.Completed {
        return Err(NotCompleted);
      }
      if error.Some? {
        task := task.(consumeError := error, revision := task.revision + 1);
      } else {
        task := task.(finalPath := gallery, consumeError := None);
        task := P.Transition(task, P.Consumed, None);
      }
      tasks := tasks[id := task];
      if !saved {
        return Err(WriteFailed);
      }
      disk := disk[id := task];
      r := Ok(task);
    }

    /** Forgets the path of a deleted gallery; a second call changes nothing. */
    method MarkLocalGalleryDeleted(id: TaskId, saved: bool) returns (r: Result<Option<Task>, ConsumeError>)
      requires Valid() && phase.Up?
      modifies this
      ensures Valid() && View() == P.Next(old(View()), P.MarkGalleryDeleted(id, saved))
      ensures r == if id !in old(tasks) then Ok(None)
                   else if old(tasks)[id].state != P.Consumed then Err(NotCompleted)
                   else if saved || old(tasks)[id].finalPath.None? then Ok(Some(tasks[id])) else Err(WriteFailed)
    {
      T.Proceed(View(), P.MarkGalleryDeleted(id, saved));
      if id !in tasks {
        return Ok(None);
      }
      var task := tasks[id];
      if task.state != P.Consumed {
        return Err(NotCompleted);
      }
      if task.finalPath.None? {
        return Ok(Some(task));
      }
      task := task.(finalPath := None, revision := task.revision + 1);
      tasks := tasks[id := task];
      if !saved {
        return Err(WriteFailed);
      }
      disk := disk[id := task];
      r := Ok(Some(task));
    }

    method Shutdown()
      requires Valid() && phase.Up?
      modifies this
      ensures Valid() && View() == P.Next(old(View()), P.Shutdown)
    {
      T.Proceed(View(), P.Shutdown);
      stopping := true;
    }

    /** The process dies; only the durable records and the ledger survive. */
    method Crash()
      requires Valid()
      modifies this
      ensures Valid() && View() == P.DoCrash(old(View()))
    {
      T.Proceed(View(), P.Crash);
      phase, tasks, cancellations, cancelled := P.Down, map[], map[], {};
      stopping, downloadSlot, drivers := false, None, map[];
    }

    /** The caller of `start` or `retry` goes away while its call waits; a spawned driver stays. */
    method DropCall(d: DriverId)
      requires Valid() && P.Enabled(View(), P.Drop(d))
      modifies this`drivers, this`dropped
      ensures Valid() && View() == P.Next(old(View()), P.Drop(d))
    {
      T.Proceed(View(), P.Drop(d));
      dropped := dropped + {drivers[d].task};
      drivers := drivers - {d};
    }

    // -------------------------------------------------------------- the progress loop

    /** The select loop of one stream: it saves whenever a tick finds that the stream moved. */
    method StreamBytes(d: DriverId, offset: nat, ticks: seq<Tick>)
      requires Valid() && P.At(View(), d, P.Streaming)
      modifies this
      ensures Valid() && P.Reaches(old(View()), View())
      ensures old(drivers)[d].task in old(tasks) && View() == Streamed(old(View()), d, offset, ticks)
    {
      ghost var start := View();
      T.StreamHasUrl(start, d);
      P.ReachesSelf(start);
      var lastSaved: nat := offset;
      var i := 0;
      assert ticks[0..] == ticks;
      while i < |ticks|
        invariant 0 <= i <= |ticks|
        invariant Valid() && P.Reaches(start, View())
        invariant P.At(View(), d, P.Streaming) && drivers[d].task in tasks
        invariant Streamed(View(), d, lastSaved, ticks[i..]) == Streamed(start, d, offset, ticks)
      {
        var current := ticks[i].done;
        assert ticks[i..][1..] == ticks[i + 1..];
        if (if current >= lastSaved then current - lastSaved else 0) >= SAVE_STEP || current != lastSaved {
          P.ReachesNext(start, View(), P.SaveProgress(d, current, ticks[i].total, ticks[i].saved));
          lastSaved := current;
          SaveProgress(d, current, ticks[i].total, ticks[i].saved);
        }
        i := i + 1;
      }
    }
  }
}
