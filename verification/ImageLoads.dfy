/**
 Shared image loads: any number of tasks want a URL, one fetch serves them, and the last to leave cancels it.

 Entries, subscriptions and tasks are objects of the original; here they are records under an identity.
 One step is one critical section, or one command of the task service.
 */
module ImageLoads {
  type Url = string
  type EntryId = nat
  type SubId = nat
  type TaskId = nat

  datatype Entry = Entry(url: Url, done: bool, cancelled: bool, subscribers: set<SubId>)

  /** A subscription: the task's end of an entry. */
  datatype Handle = Handle(entry: EntryId, sub: SubId, cancelled: bool)

  datatype Task = Task(url: Url, handle: Handle, cancelled: bool)

  datatype System = System(
    heap: map<EntryId, Entry>,
    current: map<Url, EntryId>,
    told: set<EntryId>,        // entries whose completion callback has run
    maintained: set<EntryId>,  // ledger: entries cancelled by cache maintenance
    tasks: map<TaskId, Task>,
    owner: map<SubId, TaskId>, // ledger: who a subscription was made for
    nextEntry: EntryId,
    nextSub: SubId,
    nextTask: TaskId)

  const INITIAL := System(map[], map[], {}, {}, map[], map[], 0, 0, 0)

  datatype Step =
    | Start(url: Url)
    | Cancel(t: TaskId)
    | Retry(t: TaskId)
    | Remove(t: TaskId)
    | Finish(e: EntryId)             // the future is done, whatever its outcome
    | Complete(e: EntryId)           // its callback, any time later
    | Maintain(hit: set<EntryId>)    // cache maintenance sets the events of unfinished fetches

  predicate Live(s: System, e: EntryId) {
    e in s.heap && !s.heap[e].done && !s.heap[e].cancelled
  }

  predicate Current(s: System, e: EntryId) {
    e in s.heap && s.heap[e].url in s.current && s.current[s.heap[e].url] == e
  }

  predicate Reusable(s: System, url: Url) {
    url in s.current && Live(s, s.current[url])
  }

  function EntryFor(s: System, url: Url): EntryId {
    if Reusable(s, url) then s.current[url] else s.nextEntry
  }

  /** Joins the live fetch of the URL, or starts one. */
  function Subscribe(s: System, url: Url, t: TaskId): System {
    var e := EntryFor(s, url);
    var entry := if Reusable(s, url) then s.heap[e] else Entry(url, false, false, {});
    s.(heap := s.heap[e := entry.(subscribers := entry.subscribers + {s.nextSub})],
       current := s.current[url := e],
       owner := s.owner[s.nextSub := t],
       nextSub := s.nextSub + 1,
       nextEntry := if Reusable(s, url) then s.nextEntry else s.nextEntry + 1)
  }

  /** Leaves an entry if it is still the current one; the last to leave before completion cancels it. */
  function Unsubscribe(s: System, h: Handle): System {
    if h.cancelled || !Current(s, h.entry) || h.sub !in s.heap[h.entry].subscribers then
      s
    else
      var entry := s.heap[h.entry];
      var left := entry.subscribers - {h.sub};
      s.(heap := s.heap[h.entry := entry.(subscribers := left, cancelled := entry.cancelled || (left == {} && !entry.done))])
  }

  predicate Enabled(s: System, step: Step) {
    match step
    case Start(_) => true
    case Cancel(t) => t in s.tasks
    case Retry(t) => t in s.tasks
    case Remove(t) => t in s.tasks
    case Finish(e) => e in s.heap && !s.heap[e].done
    case Complete(e) => e in s.heap && s.heap[e].done && e !in s.told
    case Maintain(hit) => forall e :: e in hit ==> e in s.heap && !s.heap[e].done
  }

  /** A new handle for a task. */
  function Attach(s: System, t: TaskId, url: Url): System {
    Subscribe(s, url, t).(tasks := s.tasks[t := Task(url, Handle(EntryFor(s, url), s.nextSub, false), false)])
  }

  function Next(s: System, step: Step): System
    requires Enabled(s, step)
  {
    match step
    case Start(url) => if url == "" then s else Attach(s.(nextTask := s.nextTask + 1), s.nextTask, url)
    case Cancel(t) =>
      var task := s.tasks[t];
      Unsubscribe(s, task.handle).(tasks := s.tasks[t := Task(task.url, task.handle.(cancelled := true), true)])
    case Retry(t) => Attach(Unsubscribe(s, s.tasks[t].handle), t, s.tasks[t].url)
    case Remove(t) => Unsubscribe(s, s.tasks[t].handle).(tasks := s.tasks - {t})
    case Finish(e) => s.(heap := s.heap[e := s.heap[e].(done := true)])
    case Complete(e) =>
      s.(told := s.told + {e}, current := if Current(s, e) then s.current - {s.heap[e].url} else s.current)
    case Maintain(hit) =>
      s.(heap := map e | e in s.heap :: if e in hit then s.heap[e].(cancelled := true) else s.heap[e],
         maintained := s.maintained + hit)
  }

  predicate IsRun(s: System, steps: seq<Step>)
    decreases |steps|
  {
    steps == [] || (Enabled(s, steps[0]) && IsRun(Next(s, steps[0]), steps[1..]))
  }

  function After(s: System, steps: seq<Step>): System
    requires IsRun(s, steps)
    decreases |steps|
  {
    if steps == [] then s else After(Next(s, steps[0]), steps[1..])
  }

  // ---------------------------------------------------------------- invariant

  predicate EntryOk(s: System, e: EntryId) {
    if e !in s.heap then
      e !in s.told && e !in s.maintained
    else
      var entry := s.heap[e];
      && e < s.nextEntry
      && (Live(s, e) ==> Current(s, e))
      && (!entry.done ==> (entry.cancelled <==> entry.subscribers == {} || e in s.maintained))
      && (entry.cancelled && e !in s.maintained ==> entry.subscribers == {})
      && (e in s.told ==> entry.done)
  }

  predicate UrlOk(s: System, url: Url) {
    url in s.current ==> s.current[url] in s.heap && s.heap[s.current[url]].url == url && s.current[url] !in s.told
  }

  predicate TaskOk(s: System, t: TaskId) {
    t in s.tasks ==>
      var task, h := s.tasks[t], s.tasks[t].handle;
      && t < s.nextTask && task.cancelled == h.cancelled
      && h.entry in s.heap && s.heap[h.entry].url == task.url
      && h.sub < s.nextSub && h.sub in s.owner && s.owner[h.sub] == t
      && (!h.cancelled ==> h.sub in s.heap[h.entry].subscribers)
  }

  /** A subscriber of a live fetch is the current handle of a task that still wants it. */
  predicate SubscriberOk(s: System, e: EntryId, x: SubId) {
    e in s.heap && x in s.heap[e].subscribers ==>
      && x < s.nextSub
      && (Live(s, e) ==> x in s.owner && s.owner[x] in s.tasks && s.tasks[s.owner[x]].handle == Handle(e, x, false))
  }

  ghost predicate Inv(s: System) {
    && (forall e: EntryId :: EntryOk(s, e))
    && (forall url: Url :: UrlOk(s, url))
    && (forall t: TaskId :: TaskOk(s, t))
    && (forall e: EntryId, x: SubId :: SubscriberOk(s, e, x))
  }

  /** The invariant with the promise to one task left open: between leaving its handle and getting another. */
  ghost predicate InvBut(s: System, t: TaskId) {
    && (forall e: EntryId :: EntryOk(s, e))
    && (forall url: Url :: UrlOk(s, url))
    && (forall i: TaskId :: i != t ==> TaskOk(s, i))
    && (forall e: EntryId, x: SubId :: SubscriberOk(s, e, x))
    && (forall e: EntryId, x: SubId :: Live(s, e) && x in s.heap[e].subscribers ==> x in s.owner && s.owner[x] != t)
    && t < s.nextTask
  }

  // ---------------------------------------------------------------- every step

  lemma UnsubscribeLeaves(s: System, t: TaskId)
    requires Inv(s) && t in s.tasks
    ensures InvBut(Unsubscribe(s, s.tasks[t].handle), t)
  {
    var h := s.tasks[t].handle;
    var r := Unsubscribe(s, h);
    assert TaskOk(s, t) && EntryOk(s, h.entry);
    forall e: EntryId
      ensures EntryOk(r, e)
    {
      assert EntryOk(s, e);
    }
    forall url: Url
      ensures UrlOk(r, url)
    {
      assert UrlOk(s, url);
    }
    forall i: TaskId | i != t
      ensures TaskOk(r, i)
    {
      assert TaskOk(s, i);
    }
    forall e: EntryId, x: SubId
      ensures SubscriberOk(r, e, x)
      ensures Live(r, e) && x in r.heap[e].subscribers ==> x in r.owner && r.owner[x] != t
    {
      assert SubscriberOk(s, e, x) && EntryOk(s, e);
    }
  }

  lemma ReleaseKeepsInv(s: System, t: TaskId, r: System)
    requires InvBut(s, t) && r == s.(tasks := r.tasks) && TaskOk(r, t)
    requires forall i :: i != t ==> (i in r.tasks <==> i in s.tasks) && (i in r.tasks ==> r.tasks[i] == s.tasks[i])
    ensures Inv(r)
  {
    forall e: EntryId
      ensures EntryOk(r, e)
    {
      assert EntryOk(s, e);
    }
    forall url: Url
      ensures UrlOk(r, url)
    {
      assert UrlOk(s, url);
    }
    forall i: TaskId
      ensures TaskOk(r, i)
    {
      assert i != t ==> TaskOk(s, i);
    }
    forall e: EntryId, x: SubId
      ensures SubscriberOk(r, e, x)
    {
      assert SubscriberOk(s, e, x);
    }
  }

  lemma AttachKeepsInv(s: System, t: TaskId, url: Url)
    requires InvBut(s, t)
    ensures Inv(Attach(s, t, url))
  {
    var r := Attach(s, t, url);
    var e0 := EntryFor(s, url);
    assert UrlOk(s, url) && EntryOk(s, e0) && SubscriberOk(s, e0, s.nextSub);
    forall e: EntryId
      ensures EntryOk(r, e)
    {
      assert EntryOk(s, e);
    }
    forall u: Url
      ensures UrlOk(r, u)
    {
      assert UrlOk(s, u);
    }
    forall i: TaskId
      ensures TaskOk(r, i)
    {
      assert i != t ==> TaskOk(s, i);
    }
    forall e: EntryId, x: SubId
      ensures SubscriberOk(r, e, x)
    {
      assert SubscriberOk(s, e, x);
    }
  }

  lemma StartKeepsInv(s: System, url: Url)
    requires Inv(s)
    ensures Inv(Next(s, Start(url)))
  {
    if url != "" {
      var t := s.nextTask;
      var r := s.(nextTask := t + 1);
      assert TaskOk(s, t);
      forall e: EntryId
        ensures EntryOk(r, e)
      {
        assert EntryOk(s, e);
      }
      forall u: Url
        ensures UrlOk(r, u)
      {
        assert UrlOk(s, u);
      }
      forall i: TaskId
        ensures TaskOk(r, i)
      {
        assert TaskOk(s, i);
      }
      forall e: EntryId, x: SubId
        ensures SubscriberOk(r, e, x)
        ensures Live(r, e) && x in r.heap[e].subscribers ==> x in r.owner && r.owner[x] != t
      {
        assert SubscriberOk(s, e, x);
      }
      AttachKeepsInv(r, t, url);
    }
  }

  lemma CommandKeepsInv(s: System, step: Step)
    requires Inv(s) && Enabled(s, step) && (step.Cancel? || step.Retry? || step.Remove?)
    ensures Inv(Next(s, step))
  {
    UnsubscribeLeaves(s, step.t);
    assert TaskOk(s, step.t);
    var r := Unsubscribe(s, s.tasks[step.t].handle);
    if step.Retry? {
      AttachKeepsInv(r, step.t, s.tasks[step.t].url);
    } else {
      ReleaseKeepsInv(r, step.t, Next(s, step));
    }
  }

  lemma FetchKeepsInv(s: System, step: Step)
    requires Inv(s) && Enabled(s, step) && (step.Finish? || step.Complete?)
    ensures Inv(Next(s, step))
  {
    var r := Next(s, step);
    assert EntryOk(s, step.e);
    forall e: EntryId
      ensures EntryOk(r, e)
    {
      assert EntryOk(s, e);
    }
    forall u: Url
      ensures UrlOk(r, u)
    {
      assert UrlOk(s, u);
    }
    forall i: TaskId
      ensures TaskOk(r, i)
    {
      assert TaskOk(s, i);
    }
    forall e: EntryId, x: SubId
      ensures SubscriberOk(r, e, x)
    {
      assert SubscriberOk(s, e, x);
    }
  }

  lemma MaintainKeepsInv(s: System, hit: set<EntryId>)
    requires Inv(s) && Enabled(s, Maintain(hit))
    ensures Inv(Next(s, Maintain(hit)))
  {
    var r := Next(s, Maintain(hit));
    forall e: EntryId
      ensures EntryOk(r, e)
    {
      assert EntryOk(s, e);
    }
    forall u: Url
      ensures UrlOk(r, u)
    {
      assert UrlOk(s, u);
    }
    forall i: TaskId
      ensures TaskOk(r, i)
    {
      assert TaskOk(s, i);
    }
    forall e: EntryId, x: SubId
      ensures SubscriberOk(r, e, x)
    {
      assert SubscriberOk(s, e, x);
    }
  }

  lemma {:induction false} RunKeepsInv(s: System, steps: seq<Step>)
    requires Inv(s) && IsRun(s, steps)
    ensures Inv(After(s, steps))
    decreases |steps|
  {
    if steps != [] {
      StepKeepsInv(s, steps[0]);
      RunKeepsInv(Next(s, steps[0]), steps[1..]);
    }
  }

  lemma StepKeepsInv(s: System, step: Step)
    requires Inv(s) && Enabled(s, step)
    ensures Inv(Next(s, step))
  {
    match step
    case Start(url) => StartKeepsInv(s, url);
    case Cancel(_) => CommandKeepsInv(s, step);
    case Retry(_) => CommandKeepsInv(s, step);
    case Remove(_) => CommandKeepsInv(s, step);
    case Finish(_) => FetchKeepsInv(s, step);
    case Complete(_) => FetchKeepsInv(s, step);
    case Maintain(hit) => MaintainKeepsInv(s, hit);
  }

  // ---------------------------------------------------------------- theorems

  ghost predicate Reachable(s: System) {
    exists steps: seq<Step> :: IsRun(INITIAL, steps) && After(INITIAL, steps) == s
  }

  lemma ReachableInv(s: System)
    requires Reachable(s)
    ensures Inv(s)
  {
    var steps: seq<Step> :| IsRun(INITIAL, steps) && After(INITIAL, steps) == s;
    RunKeepsInv(INITIAL, steps);
  }

  /** No URL is ever fetched twice at once. */
  lemma OneLiveFetchPerUrl(s: System, e1: EntryId, e2: EntryId)
    requires Reachable(s) && Live(s, e1) && Live(s, e2) && s.heap[e1].url == s.heap[e2].url
    ensures e1 == e2
  {
    ReachableInv(s);
    assert EntryOk(s, e1) && EntryOk(s, e2);
  }

  /** Apart from maintenance, an unfinished fetch is cancelled exactly when nobody subscribes to it any more. */
  lemma CancelledExactlyWhenAbandoned(s: System, e: EntryId)
    requires Reachable(s) && e in s.heap && !s.heap[e].done && e !in s.maintained
    ensures s.heap[e].cancelled <==> s.heap[e].subscribers == {}
  {
    ReachableInv(s);
    assert EntryOk(s, e);
  }

  /** A live fetch has a subscriber, and every subscriber is the handle of a task that has not been cancelled or removed. */
  lemma LiveFetchIsWanted(s: System, e: EntryId)
    requires Reachable(s) && Live(s, e)
    ensures s.heap[e].subscribers != {}
    ensures forall x :: x in s.heap[e].subscribers ==>
              exists t :: t in s.tasks && !s.tasks[t].cancelled && s.tasks[t].handle == Handle(e, x, false)
  {
    ReachableInv(s);
    assert EntryOk(s, e);
    forall x | x in s.heap[e].subscribers
      ensures exists t :: t in s.tasks && !s.tasks[t].cancelled && s.tasks[t].handle == Handle(e, x, false)
    {
      assert SubscriberOk(s, e, x) && TaskOk(s, s.owner[x]);
    }
  }

  /** Whatever others do, a task that still wants its image is subscribed to a fetch no other task can have cancelled. */
  lemma OthersNeverCancelMyFetch(s: System, t: TaskId)
    requires Reachable(s) && t in s.tasks && !s.tasks[t].cancelled
    ensures var h := s.tasks[t].handle;
            && h.entry in s.heap && s.heap[h.entry].url == s.tasks[t].url && h.sub in s.heap[h.entry].subscribers
            && (s.heap[h.entry].cancelled ==> h.entry in s.maintained)
  {
    ReachableInv(s);
    assert TaskOk(s, t) && EntryOk(s, s.tasks[t].handle.entry);
  }

  /** A task never holds on to two live fetches: all live subscriptions made for it are its present handle. */
  lemma OneLiveHandlePerTask(s: System, t: TaskId, e: EntryId, x: SubId)
    requires Reachable(s) && Live(s, e) && x in s.heap[e].subscribers && x in s.owner && s.owner[x] == t
    ensures t in s.tasks && s.tasks[t].handle == Handle(e, x, false)
  {
    ReachableInv(s);
    assert SubscriberOk(s, e, x);
  }

  /** No two tasks share a handle, so none can leave for another. */
  lemma HandlesAreDistinct(s: System, t1: TaskId, t2: TaskId)
    requires Reachable(s) && t1 in s.tasks && t2 in s.tasks && s.tasks[t1].handle.sub == s.tasks[t2].handle.sub
    ensures t1 == t2
  {
    ReachableInv(s);
    assert TaskOk(s, t1) && TaskOk(s, t2);
  }

  /** A completion callback, however late, leaves every live fetch in the table and joinable. */
  lemma OldCompletionKeepsTheNewFetch(s: System, e: EntryId, f: EntryId)
    requires Reachable(s) && Enabled(s, Complete(e)) && Live(s, f)
    ensures var r := Next(s, Complete(e)); Live(r, f) && Reusable(r, s.heap[f].url) && EntryFor(r, s.heap[f].url) == f
  {
    ReachableInv(s);
    assert EntryOk(s, f) && UrlOk(s, s.heap[f].url);
  }

  /** Once every fetch is over and reported, nothing is left in the table. */
  lemma TableEmptiesOut(s: System)
    requires Reachable(s) && forall e :: e in s.heap ==> e in s.told
    ensures s.current == map[]
  {
    ReachableInv(s);
    forall url: Url
      ensures url !in s.current
    {
      assert UrlOk(s, url);
    }
  }

  /** A start submits a new fetch exactly when no live fetch of that URL exists anywhere. */
  lemma StartSharesWhatIsLive(s: System, url: Url)
    requires Reachable(s) && url != ""
    ensures var r := Next(s, Start(url));
            |r.heap.Keys - s.heap.Keys| == 0 <==> exists e :: Live(s, e) && s.heap[e].url == url
  {
    ReachableInv(s);
    var r := Next(s, Start(url));
    var e0 := EntryFor(s, url);
    assert UrlOk(s, url) && EntryOk(s, s.nextEntry);
    if Reusable(s, url) {
      assert Live(s, e0) && s.heap[e0].url == url;
      assert r.heap.Keys - s.heap.Keys == {};
    } else {
      assert e0 in r.heap.Keys - s.heap.Keys;
      forall e | Live(s, e)
        ensures s.heap[e].url != url
      {
        assert EntryOk(s, e);
      }
    }
  }

  // ---------------------------------------------------------------- what the commands achieve

  /** The task wants its image and is subscribed to a fetch of its URL that is under way. */
  predicate Wants(s: System, t: TaskId) {
    && t in s.tasks && !s.tasks[t].cancelled
    && var h := s.tasks[t].handle;
    && !h.cancelled && Live(s, h.entry) && s.heap[h.entry].url == s.tasks[t].url && h.sub in s.heap[h.entry].subscribers
  }

  /** The handle no longer counts: its entry is not the current one, or has lost this subscriber. */
  predicate HasLeft(s: System, h: Handle) {
    Current(s, h.entry) ==> h.sub !in s.heap[h.entry].subscribers
  }

  lemma AttachWants(s: System, t: TaskId, url: Url)
    requires UrlOk(s, url)
    ensures var r := Attach(s, t, url); Wants(r, t) && r.tasks[t].url == url && r.tasks[t].handle.sub == s.nextSub
    ensures forall i :: i != t ==> (i in Attach(s, t, url).tasks <==> i in s.tasks) && (i in s.tasks ==> Attach(s, t, url).tasks[i] == s.tasks[i])
  {
  }

  lemma UnsubscribeHasLeft(s: System, h: Handle)
    requires h.cancelled ==> HasLeft(s, h)
    ensures HasLeft(Unsubscribe(s, h), h)
    ensures var r := Unsubscribe(s, h);
            r.tasks == s.tasks && r.current == s.current && r.nextSub == s.nextSub && r.heap.Keys == s.heap.Keys
  {
  }

  /** A start of a URL gives a new task that wants it, and leaves all others alone. */
  lemma StartedTaskWants(s: System, url: Url)
    requires Inv(s) && url != ""
    ensures var r := Next(s, Start(url));
            && Wants(r, s.nextTask) && r.tasks[s.nextTask].url == url && s.nextTask !in s.tasks
            && forall i :: i in s.tasks ==> i in r.tasks && r.tasks[i] == s.tasks[i]
  {
    assert TaskOk(s, s.nextTask) && UrlOk(s, url);
    AttachWants(s.(nextTask := s.nextTask + 1), s.nextTask, url);
  }

  /** A task that has been cancelled has left whatever it was subscribed to. */
  lemma CancelledTaskHasLeft(s: System, t: TaskId)
    requires Inv(s) && t in s.tasks && s.tasks[t].cancelled
    ensures Live(s, s.tasks[t].handle.entry) ==> HasLeft(s, s.tasks[t].handle)
  {
    var h := s.tasks[t].handle;
    assert TaskOk(s, t) && SubscriberOk(s, h.entry, h.sub);
  }

  /**
   Whether it was waiting, done or cancelled, a retried task wants the same URL again, under a new handle; the
   handle it had no longer counts for any fetch under way.
   */
  lemma RetriedTaskWantsAgain(s: System, t: TaskId)
    requires Inv(s) && t in s.tasks
    ensures var r := Next(s, Retry(t));
            && Wants(r, t) && r.tasks[t].url == s.tasks[t].url && r.tasks[t].handle.sub != s.tasks[t].handle.sub
            && (Live(r, s.tasks[t].handle.entry) || (!s.tasks[t].cancelled && Current(s, s.tasks[t].handle.entry)) ==>
                  s.tasks[t].handle.sub !in r.heap[s.tasks[t].handle.entry].subscribers)
            && forall i :: i in s.tasks && i != t ==> i in r.tasks && r.tasks[i] == s.tasks[i]
  {
    var h := s.tasks[t].handle;
    var r := Next(s, Retry(t));
    assert TaskOk(s, t) && EntryOk(s, h.entry);
    UnsubscribeLeaves(s, t);
    AttachWants(Unsubscribe(s, h), t, s.tasks[t].url);
    CommandKeepsInv(s, Retry(t));
    assert SubscriberOk(r, h.entry, h.sub);
    RetryKeepsOwner(s, t, h.sub);
  }

  lemma RetryKeepsOwner(s: System, t: TaskId, x: SubId)
    requires Inv(s) && t in s.tasks && x < s.nextSub && x in s.owner
    ensures x in Next(s, Retry(t)).owner && Next(s, Retry(t)).owner[x] == s.owner[x]
  {
  }

  /** Leaving a fetch that is under way: the last one out cancels it, anybody else leaves it running. */
  lemma LeavingDecides(s: System, t: TaskId)
    requires Inv(s) && Wants(s, t)
    ensures var h, r := s.tasks[t].handle, Unsubscribe(s, s.tasks[t].handle);
            && h.entry in r.heap && r.heap[h.entry].subscribers == s.heap[h.entry].subscribers - {h.sub}
            && (r.heap[h.entry].cancelled <==> s.heap[h.entry].subscribers == {h.sub})
            && forall e :: e in s.heap && e != h.entry ==> e in r.heap && r.heap[e] == s.heap[e]
  {
    var h := s.tasks[t].handle;
    assert EntryOk(s, h.entry);
    assert s.heap[h.entry].subscribers - {h.sub} == {} <==> s.heap[h.entry].subscribers == {h.sub};
  }

  /** A cancelled task no longer wants anything; a fetch that was its alone is cancelled, a shared one runs on. */
  lemma CancelLetsGo(s: System, t: TaskId)
    requires Inv(s) && Wants(s, t)
    ensures var h, r := s.tasks[t].handle, Next(s, Cancel(t));
            && t in r.tasks && r.tasks[t].cancelled && r.tasks[t].url == s.tasks[t].url && !Wants(r, t)
            && h.entry in r.heap && h.sub !in r.heap[h.entry].subscribers
            && (Live(r, h.entry) <==> s.heap[h.entry].subscribers != {h.sub})
            && forall i :: i in s.tasks && i != t ==> i in r.tasks && r.tasks[i] == s.tasks[i]
  {
    LeavingDecides(s, t);
  }

  /** So does a removed one, and the task is gone. */
  lemma RemoveLetsGo(s: System, t: TaskId)
    requires Inv(s) && Wants(s, t)
    ensures var h, r := s.tasks[t].handle, Next(s, Remove(t));
            && t !in r.tasks && h.entry in r.heap && h.sub !in r.heap[h.entry].subscribers
            && (Live(r, h.entry) <==> s.heap[h.entry].subscribers != {h.sub})
            && forall i :: i in s.tasks && i != t ==> i in r.tasks && r.tasks[i] == s.tasks[i]
  {
    LeavingDecides(s, t);
  }

  /** Cancelling and retrying a task that was alone with its fetch leaves that one cancelled and starts another. */
  lemma CancelThenRetryFetchesAnew(s: System, t: TaskId)
    requires Inv(s) && Wants(s, t) && s.heap[s.tasks[t].handle.entry].subscribers == {s.tasks[t].handle.sub}
    ensures var h, r := s.tasks[t].handle, Next(Next(s, Cancel(t)), Retry(t));
            Wants(r, t) && r.tasks[t].handle.entry != h.entry && h.entry in r.heap && r.heap[h.entry].cancelled
  {
    var h := s.tasks[t].handle;
    var q := Next(s, Cancel(t));
    CancelLetsGo(s, t);
    CommandKeepsInv(s, Cancel(t));
    RetriedTaskWantsAgain(q, t);
    assert TaskOk(q, t) && q.tasks[t].handle.cancelled;
    assert UrlOk(q, q.tasks[t].url) && EntryOk(q, h.entry);
  }

  /** A fetch that is over and reported is no longer in the table; whoever asks next gets a new one. */
  lemma ReportedFetchIsReplaced(s: System, e: EntryId)
    requires Inv(s) && Enabled(s, Complete(e))
    ensures var r, url := Next(s, Complete(e)), s.heap[e].url;
            !Current(r, e) && (Current(s, e) && url != "" ==> Next(r, Start(url)).tasks[r.nextTask].handle.entry == r.nextEntry)
  {
  }

  /** Maintenance ends every fetch it hits and no other. */
  lemma MaintenanceEndsFetches(s: System, hit: set<EntryId>, e: EntryId)
    requires Inv(s) && Enabled(s, Maintain(hit)) && Live(s, e)
    ensures Live(Next(s, Maintain(hit)), e) <==> e !in hit
  {
  }
}
