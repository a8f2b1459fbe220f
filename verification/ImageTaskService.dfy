/**
 The coordinator and the task service as objects.  Each method is one critical section or one command
 of the original, proved to do the step of `ImageLoads` with its name.
 */
module ImageTaskService {
  import P = ImageLoads

  type Url = P.Url
  type EntryId = P.EntryId
  type SubId = P.SubId
  type TaskId = P.TaskId

  class ImageTaskService {
    var heap: map<EntryId, P.Entry>
    var current: map<Url, EntryId>
    ghost var told: set<EntryId>
    ghost var maintained: set<EntryId>
    var tasks: map<TaskId, P.Task>
    ghost var owner: map<SubId, TaskId>
    var nextEntry: EntryId
    var nextSub: SubId
    var nextTask: TaskId

    ghost function View(): P.System
      reads this
    {
      P.System(heap, current, told, maintained, tasks, owner, nextEntry, nextSub, nextTask)
    }

    constructor ()
      ensures View() == P.INITIAL
    {
      heap, current, told, maintained, tasks, owner := map[], map[], {}, {}, map[], map[];
      nextEntry, nextSub, nextTask := 0, 0, 0;
    }

    // -------------------------------------------------------------- coordinator

    method Subscribe(url: Url, ghost t: TaskId) returns (h: P.Handle)
      requires P.UrlOk(View(), url)
      modifies this`heap, this`current, this`owner, this`nextEntry, this`nextSub
      ensures View() == P.Subscribe(old(View()), url, t)
      ensures h == P.Handle(P.EntryFor(old(View()), url), old(nextSub), false)
    {
      var isNew := url !in current || heap[current[url]].cancelled || heap[current[url]].done;
      var e := if isNew then nextEntry else current[url];
      if isNew {
        heap := heap[e := P.Entry(url, false, false, {})];
        current := current[url := e];
        nextEntry := nextEntry + 1;
      }
      heap := heap[e := heap[e].(subscribers := heap[e].subscribers + {nextSub})];
      h := P.Handle(e, nextSub, false);
      owner := owner[nextSub := t];
      nextSub := nextSub + 1;
    }

    /** Whether the subscription was still counted. */
    method Unsubscribe(h: P.Handle) returns (left: bool)
      requires h.entry in heap
      modifies this`heap
      ensures View() == P.Unsubscribe(old(View()), h)
      ensures left <==> !h.cancelled && P.Current(old(View()), h.entry) && h.sub in old(heap)[h.entry].subscribers
    {
      if h.cancelled {
        return false;
      }
      var entry := heap[h.entry];
      if entry.url !in current || current[entry.url] != h.entry || h.sub !in entry.subscribers {
        return false;
      }
      var rest := entry.subscribers - {h.sub};
      entry := entry.(subscribers := rest);
      if rest == {} && !entry.done {
        entry := entry.(cancelled := true);
      }
      heap := heap[h.entry := entry];
      left := true;
    }

    method Finish(e: EntryId)
      requires P.Enabled(View(), P.Finish(e))
      modifies this`heap
      ensures View() == P.Next(old(View()), P.Finish(e))
    {
      heap := heap[e := heap[e].(done := true)];
    }

    method Complete(e: EntryId)
      requires P.Enabled(View(), P.Complete(e))
      modifies this`current, this`told
      ensures View() == P.Next(old(View()), P.Complete(e))
    {
      var url := heap[e].url;
      if url in current && current[url] == e {
        current := current - {url};
      }
      told := told + {e};
    }

    // -------------------------------------------------------------- tasks

    /** Refuses an empty URL. */
    method Start(url: Url) returns (ok: bool, t: TaskId)
      requires P.Inv(View())
      modifies this
      ensures P.Inv(View()) && View() == P.Next(old(View()), P.Start(url))
      ensures ok <==> url != ""
      ensures ok ==> t == old(nextTask) && tasks.Keys == old(tasks).Keys + {t} && t !in old(tasks)
    {
      P.StepKeepsInv(View(), P.Start(url));
      t := nextTask;
      assert P.TaskOk(View(), t);
      if url == "" {
        return false, t;
      }
      ok := true;
      assert P.UrlOk(View(), url);
      var h := Subscribe(url, t);
      nextTask := nextTask + 1;
      tasks := tasks[t := P.Task(url, h, false)];
    }

    method Cancel(t: TaskId) returns (found: bool)
      requires P.Inv(View())
      modifies this
      ensures P.Inv(View()) && (found <==> t in old(tasks))
      ensures View() == if found then P.Next(old(View()), P.Cancel(t)) else old(View())
    {
      found := t in tasks;
      if found {
        P.StepKeepsInv(View(), P.Cancel(t));
        assert P.TaskOk(View(), t);
        var task := tasks[t];
        var _ := Unsubscribe(task.handle);
        tasks := tasks[t := P.Task(task.url, task.handle.(cancelled := true), true)];
      }
    }

    method Retry(t: TaskId) returns (found: bool)
      requires P.Inv(View())
      modifies this
      ensures P.Inv(View()) && (found <==> t in old(tasks))
      ensures View() == if found then P.Next(old(View()), P.Retry(t)) else old(View())
    {
      found := t in tasks;
      if found {
        P.StepKeepsInv(View(), P.Retry(t));
        P.UnsubscribeLeaves(View(), t);
        assert P.TaskOk(View(), t);
        var task := tasks[t];
        var _ := Unsubscribe(task.handle);
        assert P.UrlOk(View(), task.url);
        var h := Subscribe(task.url, t);
        tasks := tasks[t := P.Task(task.url, h, false)];
      }
    }

    method Remove(t: TaskId) returns (found: bool)
      requires P.Inv(View())
      modifies this
      ensures P.Inv(View()) && (found <==> t in old(tasks))
      ensures View() == if found then P.Next(old(View()), P.Remove(t)) else old(View())
    {
      found := t in tasks;
      if found {
        P.StepKeepsInv(View(), P.Remove(t));
        assert P.TaskOk(View(), t);
        var _ := Unsubscribe(tasks[t].handle);
        tasks := tasks - {t};
      }
    }
  }
}
