/**
 The download manager as an object.

 Each method is one section of the original under its lock, proved to do one step of
 `ManagerProtocol`; `Valid` says that the state is reachable, and every method keeps it.  Saves are
 assumed to succeed; the executor is the set of workers.
 */
module DownloadManager {
  import P = ManagerProtocol
  import T = ManagerTheorems

  type TaskId = P.TaskId
  type FutureId = P.FutureId

  type Table = map<TaskId, P.Status>

  predicate Distinct(ids: seq<TaskId>) {
    forall i, j :: 0 <= i < j < |ids| ==> ids[i] != ids[j]
  }

  lemma LoadOne(t: Table, snaps: Table, done: set<TaskId>, id: TaskId)
    requires id in t && id !in done
    ensures P.LoadedPart(t, done + {id}) == P.LoadedPart(t, done)[id := P.Loaded(t[id])]
    ensures t[id] == P.Running ==> snaps + P.RepairedPart(t, done + {id}) == (snaps + P.RepairedPart(t, done))[id := P.Failed]
    ensures t[id] == P.Running ==> (t + P.RepairedPart(t, done))[id := P.Failed] == t + P.RepairedPart(t, done + {id})
    ensures t[id] != P.Running ==> P.RepairedPart(t, done + {id}) == P.RepairedPart(t, done)
    ensures (t + P.RepairedPart(t, done))[id] == t[id]
  {
  }

  lemma RecoverOne(known: Table, snaps: Table, done: set<TaskId>, id: TaskId)
    requires id in snaps && id !in done
    ensures var unknown := snaps - known.Keys;
            var part, more := P.LoadedPart(unknown, done), P.LoadedPart(unknown, done + {id});
            && (snaps + part)[id] == snaps[id]
            && (id in known + part <==> id in known)
            && (id in known ==> more == part)
            && (id !in known ==> known + more == (known + part)[id := P.Loaded(snaps[id])])
            && (id !in known ==> snaps + more == (snaps + part)[id := P.Loaded(snaps[id])])
  {
  }

  /** What the two loops leave, once the rows are loaded and the snapshots without a row are recovered. */
  lemma Restarted(s: P.System, loaded: Table, snaps: Table, found: Table)
    requires loaded == P.LoadedPart(s.rows, s.rows.Keys) && snaps == s.snaps + P.RepairedPart(s.rows, s.rows.Keys)
    requires found == P.LoadedPart(snaps - loaded.Keys, s.snaps.Keys)
    ensures P.DoRestart(s) == P.System(loaded + found, loaded + found, snaps + found, {}, map[], map[], {}, map[], {}, s.nextTask, s.nextFuture)
  {
  }

  class DownloadManager {
    var tasks: map<TaskId, P.Status>
    var rows: map<TaskId, P.Status>
    var snapshots: map<TaskId, P.Status>
    var doomed: set<TaskId>
    var futures: map<TaskId, FutureId>
    var workers: map<FutureId, P.Worker>
    var cancelRequested: set<TaskId>
    ghost var cancelledAt: map<TaskId, nat>
    var deleteAfterStop: set<TaskId>
    var nextTask: TaskId
    var nextFuture: FutureId

    ghost function View(): P.System
      reads this
    {
      P.System(tasks, rows, snapshots, doomed, futures, workers, cancelRequested, cancelledAt, deleteAfterStop, nextTask, nextFuture)
    }

    /** The state is one that some run from an empty installation leads to, so the theorems hold of it. */
    ghost predicate Valid()
      reads this
    {
      T.Reachable(View())
    }

    constructor ()
      ensures Valid() && View() == P.INITIAL
    {
      tasks, rows, snapshots, doomed, futures, workers := map[], map[], map[], {}, map[], map[];
      cancelRequested, cancelledAt, deleteAfterStop, nextTask, nextFuture := {}, map[], {}, 0, 0;
      new;
      T.InitiallyReachable();
    }

    /** Writes the snapshot and the row of a task whose object now has the given status. */
    method SaveTask(id: TaskId, status: P.Status)
      modifies this`tasks, this`rows, this`snapshots
      ensures View() == P.Save(old(View()), id, status)
    {
      if id in tasks {
        tasks := tasks[id := status];
      }
      snapshots := snapshots[id := status];
      rows := rows[id := status];
    }

    method CreateTask() returns (id: TaskId)
      requires Valid()
      modifies this
      ensures Valid() && View() == P.Next(old(View()), P.Create) && id == old(nextTask)
    {
      T.Proceed(View(), P.Create);
      id := nextTask;
      nextTask := nextTask + 1;
      tasks := tasks[id := P.Queued];
      SaveTask(id, P.Queued);
    }

    /** Submits a worker unless the task is unknown or already has one. */
    method StartTask(id: TaskId) returns (submitted: bool)
      requires Valid()
      modifies this
      ensures Valid() && View() == P.DoStart(old(View()), id)
      ensures submitted <==> P.Startable(old(View()), id)
    {
      T.StartProceeds(View(), id);
      if id !in tasks {
        return false;
      }
      var busy := id in futures && futures[id] in workers && !workers[futures[id]].pc.Done?;
      if tasks[id] == P.Running || busy {
        return false;
      }
      Submit(id);
      submitted := true;
    }

    method Submit(id: TaskId)
      requires P.Startable(View(), id)
      modifies this
      ensures View() == P.DoStart(old(View()), id)
    {
      cancelRequested := cancelRequested - {id};
      SaveTask(id, P.Queued);
      var future := nextFuture;
      nextFuture := nextFuture + 1;
      workers := workers[future := P.Worker(id, P.Pending)];
      futures := futures[id := future];
    }

    method CancelTask(id: TaskId)
      requires Valid()
      modifies this
      ensures Valid() && View() == P.DoCancel(old(View()), id)
    {
      T.Proceed(View(), P.Cancel(id));
      cancelRequested := cancelRequested + {id};
      cancelledAt := cancelledAt[id := nextFuture];
      if id in tasks && tasks[id] == P.Queued {
        SaveTask(id, P.Cancelled);
      }
    }

    /** Failed, cancelled and completed tasks start again; anything else is left alone. */
    method RetryTask(id: TaskId) returns (submitted: bool)
      requires Valid()
      modifies this
      ensures Valid()
      ensures submitted <==> P.Startable(old(View()), id) && old(tasks)[id] in {P.Failed, P.Cancelled, P.Completed}
      ensures View() == if submitted then P.DoStart(old(View()), id) else old(View())
    {
      if id !in tasks || tasks[id] !in {P.Failed, P.Cancelled, P.Completed} {
        return false;
      }
      submitted := StartTask(id);
    }

    method DeleteTask(id: TaskId) returns (removed: bool)
      requires Valid()
      modifies this
      ensures Valid() && View() == P.DoDelete(old(View()), id)
      ensures removed <==> id in old(tasks) && !P.Unfinished(old(View()), id)
    {
      T.Proceed(View(), P.Delete(id));
      var busy := id in futures && futures[id] in workers && !workers[futures[id]].pc.Done?;
      if id in tasks && busy {
        cancelRequested := cancelRequested + {id};
        cancelledAt := cancelledAt[id := nextFuture];
        deleteAfterStop := deleteAfterStop + {id};
        return false;
      }
      removed := id in tasks;
      RemoveTask(id);
    }

    method RemoveTask(id: TaskId)
      modifies this`tasks, this`rows, this`cancelRequested, this`doomed
      ensures View() == P.Remove(old(View()), id)
    {
      if id in tasks {
        doomed := doomed + {id};
      }
      tasks := tasks - {id};
      cancelRequested := cancelRequested - {id};
      rows := rows - {id};
    }

    method RemoveDirectory(id: TaskId, ok: bool)
      requires Valid() && id in doomed
      modifies this
      ensures Valid() && View() == P.Next(old(View()), P.RmTree(id, ok))
    {
      T.Proceed(View(), P.RmTree(id, ok));
      doomed := doomed - {id};
      if ok {
        snapshots := snapshots - {id};
      }
    }

    method MarkConsumed(id: TaskId, failed: bool)
      requires Valid()
      modifies this
      ensures Valid() && View() == P.Next(old(View()), P.MarkConsumed(id, failed))
    {
      T.Proceed(View(), P.MarkConsumed(id, failed));
      if id !in tasks {
        return;
      }
      SaveTask(id, if failed then tasks[id] else P.Consumed);
    }

    // -------------------------------------------------------------- worker sections

    method FetchTask(f: FutureId)
      requires Valid() && P.Enabled(View(), P.Fetch(f))
      modifies this
      ensures Valid() && View() == P.Next(old(View()), P.Fetch(f))
    {
      T.Proceed(View(), P.Fetch(f));
      var pc := if workers[f].task in tasks then P.Holding else P.Done;
      workers := workers[f := workers[f].(pc := pc)];
    }

    method MarkRunning(f: FutureId)
      requires Valid() && P.Enabled(View(), P.MarkRunning(f))
      modifies this
      ensures Valid() && View() == P.Next(old(View()), P.MarkRunning(f))
    {
      T.Proceed(View(), P.MarkRunning(f));
      SaveTask(workers[f].task, P.Running);
      workers := workers[f := workers[f].(pc := P.Active)];
    }

    method CancelIfRequested(f: FutureId) returns (stop: bool)
      requires Valid() && P.Enabled(View(), P.CheckCancel(f))
      modifies this
      ensures Valid() && View() == P.DoCheckCancel(old(View()), f)
      ensures stop <==> workers[f].pc.Done?
    {
      T.Proceed(View(), P.CheckCancel(f));
      var id := workers[f].task;
      if id !in cancelRequested {
        return false;
      }
      if id in tasks {
        SaveTask(id, P.Cancelled);
      }
      workers := workers[f := workers[f].(pc := P.Done)];
      stop := true;
    }

    /** A worker saves its own task object, even if the manager has forgotten it. */
    method SaveProgress(f: FutureId)
      requires Valid() && P.Enabled(View(), P.SaveProgress(f))
      modifies this
      ensures Valid() && View() == P.Next(old(View()), P.SaveProgress(f))
    {
      T.Proceed(View(), P.SaveProgress(f));
      var id := workers[f].task;
      SaveTask(id, if id in tasks then tasks[id] else P.Running);
    }

    method Complete(f: FutureId)
      requires Valid() && P.Enabled(View(), P.Complete(f))
      modifies this
      ensures Valid() && View() == P.Next(old(View()), P.Complete(f))
    {
      T.Proceed(View(), P.Complete(f));
      SaveTask(workers[f].task, P.Completed);
      workers := workers[f := workers[f].(pc := P.Notifying)];
    }

    method Finish(f: FutureId)
      requires Valid() && P.Enabled(View(), P.Finish(f))
      modifies this
      ensures Valid() && View() == P.Next(old(View()), P.Finish(f))
    {
      T.Proceed(View(), P.Finish(f));
      workers := workers[f := workers[f].(pc := P.Done)];
    }

    method Fail(f: FutureId)
      requires Valid() && P.Enabled(View(), P.Fail(f))
      modifies this
      ensures Valid() && View() == P.Next(old(View()), P.Fail(f))
    {
      T.Proceed(View(), P.Fail(f));
      if workers[f].task in tasks {
        SaveTask(workers[f].task, P.Failed);
      }
      workers := workers[f := workers[f].(pc := P.Done)];
    }

    /** The completion callback: it carries out a deletion that had to wait. */
    method ForgetFuture(f: FutureId)
      requires Valid() && P.Enabled(View(), P.Forget(f))
      modifies this
      ensures Valid() && View() == P.DoForget(old(View()), f)
    {
      T.ForgetProceeds(View(), f);
      var id := workers[f].task;
      RemoveWorker(f);
      if id in deleteAfterStop {
        deleteAfterStop := deleteAfterStop - {id};
        RemoveTask(id);
      }
    }

    /** The task's own future is forgotten, a later one is not. */
    method RemoveWorker(f: FutureId)
      requires f in workers
      modifies this`workers, this`futures
      ensures View() == P.WithoutWorker(old(View()), f)
    {
      var id := workers[f].task;
      workers := workers - {f};
      if id in futures && futures[id] == f {
        futures := futures - {id};
      }
    }

    // -------------------------------------------------------------- loading

    /** Everything in memory is lost, then rows are loaded and snapshots without a row are recovered. */
    method Restart(rowIds: seq<TaskId>, snapshotIds: seq<TaskId>)
      requires Valid()
      requires Distinct(rowIds) && forall id :: id in rowIds <==> id in rows
      requires Distinct(snapshotIds) && forall id :: id in snapshotIds <==> id in snapshots
      modifies this
      ensures Valid() && View() == P.DoRestart(old(View()))
    {
      T.RestartProceeds(View());
      Reload(rowIds, snapshotIds);
    }

    method Reload(rowIds: seq<TaskId>, snapshotIds: seq<TaskId>)
      requires Distinct(rowIds) && forall id :: id in rowIds <==> id in rows
      requires Distinct(snapshotIds) && forall id :: id in snapshotIds <==> id in snapshots
      modifies this
      ensures View() == P.DoRestart(old(View()))
    {
      ghost var s := View();
      Clear();
      LoadRows(rowIds);
      Restarted(s, tasks, snapshots, P.LoadedPart(snapshots - tasks.Keys, s.snaps.Keys));
      RecoverSnapshots(snapshotIds, s.snaps.Keys);
    }

    method Clear()
      modifies this`tasks, this`doomed, this`futures, this`workers, this`cancelRequested, this`cancelledAt, this`deleteAfterStop
      ensures tasks == map[] && doomed == {} && futures == map[] && workers == map[]
      ensures cancelRequested == {} && cancelledAt == map[] && deleteAfterStop == {}
    {
      tasks, doomed, futures, workers := map[], {}, map[], map[];
      cancelRequested, cancelledAt, deleteAfterStop := {}, map[], {};
    }

    method LoadRows(ids: seq<TaskId>)
      requires tasks == map[] && Distinct(ids) && forall id :: id in ids <==> id in rows
      modifies this`tasks, this`rows, this`snapshots
      ensures tasks == P.LoadedPart(old(rows), old(rows).Keys) && rows == tasks
      ensures snapshots == old(snapshots) + P.RepairedPart(old(rows), old(rows).Keys)
    {
      ghost var done: set<TaskId> := {};
      var i := 0;
      while i < |ids|
        invariant 0 <= i <= |ids| && done <= old(rows).Keys
        invariant forall j :: 0 <= j < |ids| ==> (ids[j] in done <==> j < i)
        invariant tasks == P.LoadedPart(old(rows), done)
        invariant rows == old(rows) + P.RepairedPart(old(rows), done)
        invariant snapshots == old(snapshots) + P.RepairedPart(old(rows), done)
      {
        var id := ids[i];
        assert id in old(rows);
        LoadOne(old(rows), old(snapshots), done, id);
        var status := rows[id];
        if status == P.Running {
          status := P.Failed;
          snapshots := snapshots[id := status];
          rows := rows[id := status];
        }
        tasks := tasks[id := status];
        done := done + {id};
        i := i + 1;
      }
      assert done == old(rows).Keys by {
        assert forall id :: id in old(rows) ==> id in done;
      }
    }

    method RecoverSnapshots(ids: seq<TaskId>, ghost listed: set<TaskId>)
      requires rows == tasks && Distinct(ids) && (forall id :: id in ids <==> id in listed) && listed <= snapshots.Keys
      modifies this`tasks, this`rows, this`snapshots
      ensures rows == tasks
      ensures tasks == old(tasks) + P.LoadedPart(old(snapshots) - old(tasks).Keys, listed)
      ensures snapshots == old(snapshots) + P.LoadedPart(old(snapshots) - old(tasks).Keys, listed)
    {
      ghost var done: set<TaskId> := {};
      ghost var unknown := snapshots - tasks.Keys;
      var i := 0;
      while i < |ids|
        invariant 0 <= i <= |ids| && rows == tasks
        invariant forall j :: 0 <= j < |ids| ==> (ids[j] in done <==> j < i)
        invariant forall id :: id in done ==> id in ids
        invariant tasks == old(tasks) + P.LoadedPart(unknown, done)
        invariant snapshots == old(snapshots) + P.LoadedPart(unknown, done)
      {
        var id := ids[i];
        RecoverOne(old(tasks), old(snapshots), done, id);
        if id !in tasks {
          var status := P.Loaded(snapshots[id]);
          tasks := tasks[id := status];
          SaveTask(id, status);
        }
        done := done + {id};
        i := i + 1;
      }
      assert done == listed by {
        assert forall id :: id in listed ==> id in done;
      }
    }
  }
}
