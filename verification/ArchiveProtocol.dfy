/**
 The paid Archive task protocol as a state machine.

 One `System` value is everything the protocol can see: the in-memory task table, the durable
 `task.json` records, the cancellation tokens, the download permit, every asynchronous driver with
 its program counter, and a ghost-like ledger that counts paid submissions.  Every critical section
 of the service between two suspension points is one `Step`; crashes, reopening, failed
 persists and dropped calls are steps too.  What `ArchiveSafety` proves, it proves over all sequences of steps.
 */
module ArchiveProtocol {
  import opened Common

  type TaskId = nat
  type DriverId = nat

  datatype TaskState =
    Queued | Submitting | Ready | Downloading | Completed | Consumed | Failed | Cancelled | CostUnknown

  /** The states whose task may be retried with the signed URL it already has. */
  predicate Resumable(st: TaskState) {
    st.Failed? || st.Cancelled?
  }

  /** One record of the task table; a `task.json` file holds the same fields. */
  datatype Task = Task(
    state: TaskState,
    revision: nat,
    url: Option<string>,
    acquiredAt: Option<int>,
    retrySupported: bool,
    bytesDone: nat,
    bytesTotal: Option<nat>,
    resumeSupported: bool,
    zipName: string,
    finalPath: Option<string>,
    error: Option<string>,
    consumeError: Option<string>)

  const ARCHIVE_VALID_SECONDS := 86_400

  const NEW_TASK := Task(Submitting, 1, None, None, false, 0, None, false, "payload.zip", None, None, None)

  function Transition(t: Task, st: TaskState, error: Option<string>): Task {
    t.(state := st,
       error := error,
       retrySupported := Resumable(st) && t.url.Some?,
       revision := t.revision + 1)
  }

  /** What reopening the service makes of a durable record. */
  function Recover(t: Task): Task {
    var r :=
      match t.state
      case Submitting => t.(state := CostUnknown, error := Some("stopped during paid submission"))
      case Downloading => t.(state := Failed, error := Some("stopped during download"))
      case Queued => t.(state := Cancelled, error := Some("stopped before submission"))
      case _ => t;
    r.(retrySupported := Resumable(r.state) && r.url.Some?)
  }

  /** The answer of the remote submission call, which may cost money whatever it answers. */
  datatype SubmitOutcome = Signed(url: string, zipName: string, now: int) | Refused(message: string)

  /** The end of the byte stream. */
  datatype StreamOutcome =
    | Received(bytesDone: nat, bytesTotal: Option<nat>, acceptRanges: bool, resumed: bool)
    | Broken(cancelled: bool, message: string)

  /** Where one asynchronous activity stands: a `start` or `retry` call, then the spawned task. */
  datatype Pc =
    | StartPersisted      // `start` wrote the durable record, the table does not hold it yet
    | StartInserted       // the table holds the record, no token yet
    | SubmitPending       // `run_submission` is spawned, the paid call has not been made
    | SubmitInFlight      // the paid call is running
    | RetryPersisted      // `retry` left its critical section, no token yet
    | AwaitSlot           // `run_download` waits for the permit or its cancellation
    | CancelPending       // `run_download` lost the select and is about to finish as cancelled
    | HoldsSlot           // permit acquired, table not updated yet
    | Streaming           // bytes are being written to the part file
    | StreamEnded(outcome: StreamOutcome)  // permit dropped, table not updated yet
    | Cleanup             // the task is settled, only the token is still to be removed

  /** Still part of the caller's future, which disappears with the caller; a spawned task does not. */
  predicate IsCall(pc: Pc) {
    pc.StartPersisted? || pc.StartInserted? || pc.RetryPersisted?
  }

  datatype Driver = Driver(task: TaskId, pc: Pc)

  datatype Phase = Down | Opening(todo: set<TaskId>) | Up

  datatype System = System(
    phase: Phase,
    mem: map<TaskId, Task>,
    disk: map<TaskId, Task>,
    tokens: map<TaskId, DriverId>,   // the token of which driver `cancellations` holds for a task
    fired: set<DriverId>,            // drivers whose token was cancelled one by one
    shutdown: bool,                  // the parent of every token was cancelled
    slot: Option<DriverId>,
    drivers: map<DriverId, Driver>,
    paid: map<TaskId, nat>,
    dropped: set<TaskId>,            // ledger: tasks whose `start` or `retry` call was dropped half-way
    nextTask: TaskId,
    nextDriver: DriverId)

  const INITIAL := System(Down, map[], map[], map[], {}, false, None, map[], map[], {}, 0, 0)

  function Paid(s: System, id: TaskId): nat {
    if id in s.paid then s.paid[id] else 0
  }

  predicate TokenCancelled(s: System, d: DriverId) {
    s.shutdown || d in s.fired
  }

  predicate At(s: System, d: DriverId, pc: Pc) {
    s.phase.Up? && d in s.drivers && s.drivers[d].pc == pc
  }

  datatype Step =
    | Start(ok: bool)
    | StartInsert(d: DriverId)
    | StartSpawn(d: DriverId)
    | Submit(d: DriverId)
    | SubmitReturns(d: DriverId, answer: SubmitOutcome, ok: bool, okUnknown: bool)
    | AcquireSlot(d: DriverId)
    | LoseSelect(d: DriverId)
    | FinishCancelled(d: DriverId, ok: bool)
    | BeginStream(d: DriverId, ok: bool)
    | SaveProgress(d: DriverId, done: nat, total: nat, ok: bool)
    | StreamReturns(d: DriverId, outcome: StreamOutcome)
    | Settle(d: DriverId, renamed: bool, ok: bool)
    | RemoveToken(d: DriverId)
    | Cancel(id: TaskId)
    | Retry(id: TaskId, now: int, ok: bool)
    | RetrySpawn(d: DriverId)
    | Drop(d: DriverId)              // the caller of `start` or `retry` goes away at an await
    | MarkConsumed(id: TaskId, gallery: Option<string>, error: Option<string>, ok: bool)
    | MarkGalleryDeleted(id: TaskId, ok: bool)
    | Shutdown
    | Crash
    | OpenBegin
    | OpenEntry(id: TaskId, readable: bool, ok: bool)
    | OpenEnd

  // ---------------------------------------------------------------- building blocks

  /** Replaces a task in the table and, when the write succeeds, on disk. */
  function Commit(s: System, id: TaskId, t: Task, ok: bool): System {
    s.(mem := s.mem[id := t], disk := if ok then s.disk[id := t] else s.disk)
  }

  function Goto(s: System, d: DriverId, pc: Pc): System
    requires d in s.drivers
  {
    s.(drivers := s.drivers[d := s.drivers[d].(pc := pc)])
  }

  /** One critical section of a driver: it rewrites its task, persists it and goes on to `pc`. */
  function Move(s: System, d: DriverId, t: Task, ok: bool, pc: Pc): System
    requires d in s.drivers
  {
    Goto(Commit(s, s.drivers[d].task, t, ok), d, pc)
  }

  function Spawn(s: System, id: TaskId, pc: Pc): System {
    s.(drivers := s.drivers[s.nextDriver := Driver(id, pc)], nextDriver := s.nextDriver + 1)
  }

  /** The table entry that a settled stream leaves behind. */
  function Settled(t: Task, outcome: StreamOutcome, renamed: bool): Task {
    match outcome
    case Received(done, total, acceptRanges, resumed) =>
      var r := t.(bytesDone := done, bytesTotal := total, resumeSupported := acceptRanges || resumed);
      if renamed
      then Transition(r.(finalPath := Some(r.zipName)), Completed, None)
      else Transition(r, Failed, Some("failed to finalize Archive ZIP"))
    case Broken(cancelled, message) =>
      Transition(t, if cancelled then Cancelled else Failed, Some(message))
  }

  function WithUrl(t: Task, url: string, zipName: string, now: int): Task {
    t.(url := Some(url), zipName := zipName, acquiredAt := Some(now))
  }

  /** Why `retry` refuses, in the order in which it checks. */
  datatype RetryRefusal = NotFound | NotRetryable | MissingTimestamp | Expired

  function RetryCheck(s: System, id: TaskId, now: int): Option<RetryRefusal> {
    if id !in s.mem then Some(NotFound)
    else if !Resumable(s.mem[id].state) || s.mem[id].url.None? then Some(NotRetryable)
    else if s.mem[id].acquiredAt.None? then Some(MissingTimestamp)
    else if now - s.mem[id].acquiredAt.value >= ARCHIVE_VALID_SECONDS then Some(Expired)
    else None
  }

  // ---------------------------------------------------------------- transitions

  function TaskOf(s: System, d: DriverId): Task
    requires d in s.drivers && s.drivers[d].task in s.mem
  {
    s.mem[s.drivers[d].task]
  }

  /** Which steps the scheduler, a caller or the environment may take in a state. */
  predicate Enabled(s: System, step: Step) {
    match step
    case Start(_) => s.phase.Up?
    case StartInsert(d) => At(s, d, StartPersisted) && s.drivers[d].task in s.disk
    case StartSpawn(d) => At(s, d, StartInserted)
    case Submit(d) => At(s, d, SubmitPending) && s.drivers[d].task in s.mem
    case SubmitReturns(d, _, _, _) => At(s, d, SubmitInFlight) && s.drivers[d].task in s.mem
    case AcquireSlot(d) => At(s, d, AwaitSlot) && !TokenCancelled(s, d) && s.slot.None?
    case LoseSelect(d) => At(s, d, AwaitSlot) && TokenCancelled(s, d)
    case FinishCancelled(d, _) => At(s, d, CancelPending) && s.drivers[d].task in s.mem
    case BeginStream(d, _) => At(s, d, HoldsSlot) && s.drivers[d].task in s.mem
    case SaveProgress(d, _, _, _) => At(s, d, Streaming) && s.drivers[d].task in s.mem
    case StreamReturns(d, _) => At(s, d, Streaming)
    case Settle(d, _, _) =>
      s.phase.Up? && d in s.drivers && s.drivers[d].pc.StreamEnded? && s.drivers[d].task in s.mem
    case RemoveToken(d) => At(s, d, Cleanup)
    case Cancel(_) => s.phase.Up?
    case Retry(_, _, _) => s.phase.Up?
    case RetrySpawn(d) => At(s, d, RetryPersisted)
    case Drop(d) => s.phase.Up? && d in s.drivers && IsCall(s.drivers[d].pc)
    case MarkConsumed(_, _, _, _) => s.phase.Up?
    case MarkGalleryDeleted(_, _) => s.phase.Up?
    case Shutdown => s.phase.Up?
    case Crash => true
    case OpenBegin => s.phase.Down?
    case OpenEntry(id, _, _) => s.phase.Opening? && id in s.phase.todo && id in s.disk
    case OpenEnd => s.phase.Opening? && s.phase.todo == {}
  }

  function DoStart(s: System, ok: bool): System {
    var r := s.(nextTask := s.nextTask + 1);
    if ok then Spawn(r.(disk := r.disk[s.nextTask := NEW_TASK]), s.nextTask, StartPersisted) else r
  }

  function DoSubmitReturns(s: System, d: DriverId, answer: SubmitOutcome, ok: bool, okUnknown: bool): System
    requires d in s.drivers && s.drivers[d].task in s.mem
  {
    var t := s.mem[s.drivers[d].task];
    match answer
    case Signed(url, zipName, now) =>
      var ready := Transition(WithUrl(t, url, zipName, now), Ready, None);
      if ok then Move(s, d, ready, true, AwaitSlot)
      else Move(s, d, Transition(ready, CostUnknown, Some("URL could not be saved")), okUnknown, Cleanup)
    case Refused(message) =>
      Move(s, d, Transition(t, CostUnknown, Some(message)), ok, Cleanup)
  }

  function DoRetry(s: System, id: TaskId, now: int, ok: bool): System {
    if RetryCheck(s, id, now).Some? then s
    else
      var r := Commit(s, id, Transition(s.mem[id], Ready, None), ok);
      if ok then Spawn(r, id, RetryPersisted) else r
  }

  function DoMarkConsumed(s: System, id: TaskId, gallery: Option<string>, error: Option<string>, ok: bool): System {
    if id !in s.mem || s.mem[id].state != Completed then s
    else if error.Some? then
      Commit(s, id, s.mem[id].(consumeError := error, revision := s.mem[id].revision + 1), ok)
    else
      Commit(s, id, Transition(s.mem[id].(finalPath := gallery, consumeError := None), Consumed, None), ok)
  }

  function DoMarkGalleryDeleted(s: System, id: TaskId, ok: bool): System {
    if id !in s.mem || s.mem[id].state != Consumed || s.mem[id].finalPath.None? then s
    else Commit(s, id, s.mem[id].(finalPath := None, revision := s.mem[id].revision + 1), ok)
  }

  function WithProgress(t: Task, done: nat, total: nat): Task {
    t.(bytesDone := done, bytesTotal := if total > 0 then Some(total) else None, revision := t.revision + 1)
  }

  function DoOpenEntry(s: System, id: TaskId, readable: bool, ok: bool): System
    requires s.phase.Opening? && id in s.disk
  {
    if !readable then s.(phase := Opening(s.phase.todo - {id}))
    else if !ok then s.(phase := Down, mem := map[])
    else Commit(s, id, Recover(s.disk[id]), true).(phase := Opening(s.phase.todo - {id}))
  }

  /** Everything in memory is gone, everything on disk stays. */
  function DoCrash(s: System): System {
    s.(phase := Down, mem := map[], tokens := map[], fired := {}, shutdown := false, slot := None, drivers := map[])
  }

  function Next(s: System, step: Step): System
    requires Enabled(s, step)
  {
    match step
    case Start(ok) => DoStart(s, ok)
    case StartInsert(d) => Goto(s.(mem := s.mem[s.drivers[d].task := NEW_TASK]), d, StartInserted)
    case StartSpawn(d) => Goto(s.(tokens := s.tokens[s.drivers[d].task := d]), d, SubmitPending)
    case Submit(d) => Goto(s.(paid := s.paid[s.drivers[d].task := Paid(s, s.drivers[d].task) + 1]), d, SubmitInFlight)
    case SubmitReturns(d, answer, ok, okUnknown) => DoSubmitReturns(s, d, answer, ok, okUnknown)
    case AcquireSlot(d) => Goto(s.(slot := Some(d)), d, HoldsSlot)
    case LoseSelect(d) => Goto(s, d, CancelPending)
    case FinishCancelled(d, ok) => Move(s, d, Transition(TaskOf(s, d), Cancelled, None), ok, Cleanup)
    case BeginStream(d, ok) => Move(s, d, Transition(TaskOf(s, d), Downloading, None), ok, Streaming)
    case SaveProgress(d, done, total, ok) => Commit(s, s.drivers[d].task, WithProgress(TaskOf(s, d), done, total), ok)
    case StreamReturns(d, outcome) => Goto(s.(slot := None), d, StreamEnded(outcome))
    case Settle(d, renamed, ok) => Move(s, d, Settled(TaskOf(s, d), s.drivers[d].pc.outcome, renamed), ok, Cleanup)
    case RemoveToken(d) => s.(tokens := s.tokens - {s.drivers[d].task}, drivers := s.drivers - {d})
    case Cancel(id) => if id in s.mem && id in s.tokens then s.(fired := s.fired + {s.tokens[id]}) else s
    case Retry(id, now, ok) => DoRetry(s, id, now, ok)
    case RetrySpawn(d) => Goto(s.(tokens := s.tokens[s.drivers[d].task := d]), d, AwaitSlot)
    case Drop(d) => s.(drivers := s.drivers - {d}, dropped := s.dropped + {s.drivers[d].task})
    case MarkConsumed(id, gallery, error, ok) => DoMarkConsumed(s, id, gallery, error, ok)
    case MarkGalleryDeleted(id, ok) => DoMarkGalleryDeleted(s, id, ok)
    case Shutdown => s.(shutdown := true)
    case Crash => DoCrash(s)
    case OpenBegin => s.(phase := Opening(s.disk.Keys))
    case OpenEntry(id, readable, ok) => DoOpenEntry(s, id, readable, ok)
    case OpenEnd => s.(phase := Up)
  }

  // ---------------------------------------------------------------- runs

  /** `steps` can be taken one after the other from `s`. */
  predicate IsRun(s: System, steps: seq<Step>)
    decreases |steps|
  {
    steps == [] || (Enabled(s, steps[0]) && IsRun(Next(s, steps[0]), steps[1..]))
  }

  /** The state a run ends in. */
  function After(s: System, steps: seq<Step>): System
    requires IsRun(s, steps)
    decreases |steps|
  {
    if steps == [] then s else After(Next(s, steps[0]), steps[1..])
  }

  lemma {:induction false} ExtendRun(s: System, steps: seq<Step>, step: Step)
    requires IsRun(s, steps) && Enabled(After(s, steps), step)
    ensures IsRun(s, steps + [step]) && After(s, steps + [step]) == Next(After(s, steps), step)
    decreases |steps|
  {
    if steps == [] {
      assert [] + [step] == [step];
    } else {
      assert (steps + [step])[1..] == steps[1..] + [step];
      ExtendRun(Next(s, steps[0]), steps[1..], step);
    }
  }

  /** Some run leads from `s` to `r`. */
  ghost predicate Reaches(s: System, r: System) {
    exists steps: seq<Step> :: IsRun(s, steps) && After(s, steps) == r
  }

  lemma ReachesSelf(s: System)
    ensures Reaches(s, s)
  {
    var none: seq<Step> := [];
    assert IsRun(s, none) && After(s, none) == s;
  }

  lemma ReachesNext(s: System, r: System, step: Step)
    requires Reaches(s, r) && Enabled(r, step)
    ensures Reaches(s, Next(r, step))
  {
    var steps: seq<Step> :| IsRun(s, steps) && After(s, steps) == r;
    ExtendRun(s, steps, step);
  }
}
