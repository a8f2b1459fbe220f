/**
 What every run of the paid Archive protocol keeps: money is spent at most once per task, a
 possible charge is never hidden, a durable signed URL is never lost, and a part file has one writer.
 */
module ArchiveSafety {
  import opened Common
  import opened ArchiveProtocol

  // ---------------------------------------------------------------- invariant

  /** The cost ledger of one record, in memory or on disk. */
  predicate LedgerOk(t: Task) {
    && t.state != Queued
    && (t.url.Some? <==> t.acquiredAt.Some?)
    && (t.state == Submitting ==> t.url.None?)
    && (t.state != Submitting && t.state != CostUnknown ==> t.url.Some?)
    && t.retrySupported == (Resumable(t.state) && t.url.Some?)
  }

  /** The driver has not made the paid call yet and will make it next. */
  predicate BeforePayment(pc: Pc) {
    pc.StartPersisted? || pc.StartInserted? || pc.SubmitPending?
  }

  /** What a program counter promises about the table entry, the durable record and the ledger. */
  predicate PcOk(pc: Pc, m: Option<Task>, k: Task, paid: nat) {
    match pc
    case StartPersisted => m.None? && k == NEW_TASK && paid == 0
    case StartInserted => m.Some? && m.value.state == Submitting && k.state == Submitting && paid == 0
    case SubmitPending => m.Some? && m.value.state == Submitting && k.state == Submitting && paid == 0
    case SubmitInFlight => m.Some? && m.value.state == Submitting && k.state == Submitting
    case RetryPersisted => m.Some? && m.value.state == Ready && k.state == Ready
    case AwaitSlot => m.Some? && m.value.state == Ready
    case CancelPending => m.Some? && m.value.state == Ready
    case HoldsSlot => m.Some? && m.value.state == Ready
    case Streaming => m.Some? && m.value.state == Downloading
    case StreamEnded(_) => m.Some? && m.value.state == Downloading
    case Cleanup => false
  }

  /** The invariant of one task: its table entry, durable record, owning driver, payments and dropped calls. */
  predicate TaskOk(m: Option<Task>, k: Option<Task>, pc: Option<Pc>, paid: nat, dropped: bool) {
    && paid <= 1
    && (k.None? ==> m.None? && pc.None? && paid == 0 && !dropped)
    && (pc.Some? && (BeforePayment(pc.value) || pc.value.SubmitInFlight?) ==> !dropped)
    && (k.Some? ==> LedgerOk(k.value))
    && (pc.Some? && k.Some? ==> PcOk(pc.value, m, k.value, paid))
    && (m.Some? && k.Some? ==>
          && LedgerOk(m.value)
          && k.value.revision <= m.value.revision
          && (k.value.url.Some? ==> m.value.url == k.value.url)
          && (m.value.state == CostUnknown ==> k.value.state == Submitting || k.value.state == CostUnknown)
          && (m.value.state == Submitting && pc.None? ==> dropped && paid == 0 && k.value.state == Submitting)
          && (m.value.state == Downloading ==> pc.Some?))
  }

  function Lookup<V>(m: map<TaskId, V>, id: TaskId): Option<V> {
    if id in m then Some(m[id]) else None
  }

  function PcOf(s: System, own: map<TaskId, DriverId>, id: TaskId): Option<Pc> {
    if id in own && own[id] in s.drivers then Some(s.drivers[own[id]].pc) else None
  }

  predicate IdOk(s: System, own: map<TaskId, DriverId>, id: TaskId) {
    TaskOk(Lookup(s.mem, id), Lookup(s.disk, id), PcOf(s, own, id), Paid(s, id), id in s.dropped)
  }

  /** `own` names, for every task a driver may still change, that one driver. */
  predicate OwnersOk(s: System, own: map<TaskId, DriverId>) {
    && (forall d :: d in s.drivers ==> d < s.nextDriver)
    && (forall d :: d in s.drivers ==> s.drivers[d].pc.Cleanup? || (s.drivers[d].task in own && own[s.drivers[d].task] == d))
    && (forall id :: id in own ==> own[id] in s.drivers && s.drivers[own[id]].task == id && !s.drivers[own[id]].pc.Cleanup?)
  }

  predicate UsesSlot(pc: Pc) {
    pc.HoldsSlot? || pc.Streaming?
  }

  predicate SlotOk(s: System) {
    && (forall d :: d in s.drivers ==> UsesSlot(s.drivers[d].pc) ==> s.slot == Some(d))
    && (s.slot.Some? ==> s.slot.value in s.drivers && UsesSlot(s.drivers[s.slot.value].pc))
  }

  predicate PhaseOk(s: System) {
    && (!s.phase.Up? ==> s.drivers == map[] && s.slot == None)
    && (s.phase.Down? ==> s.mem == map[])
    && (s.phase.Opening? ==> s.phase.todo <= s.disk.Keys)
    && (forall id :: id in s.disk ==> id < s.nextTask)
    && (forall id :: id in s.mem ==> id in s.disk)
  }

  ghost predicate InvWith(s: System, own: map<TaskId, DriverId>) {
    && PhaseOk(s)
    && OwnersOk(s, own)
    && SlotOk(s)
    && (forall id: TaskId :: IdOk(s, own, id))
  }

  /** How a step hands a task over: starting and retrying take it, settling it gives it up. */
  function NextOwner(s: System, own: map<TaskId, DriverId>, step: Step): map<TaskId, DriverId>
    requires Enabled(s, step)
  {
    match step
    case Start(ok) => if ok then own[s.nextTask := s.nextDriver] else own
    case Retry(id, now, ok) => if ok && RetryCheck(s, id, now).None? then own[id := s.nextDriver] else own
    case SubmitReturns(d, answer, ok, _) => if answer.Signed? && ok then own else own - {s.drivers[d].task}
    case FinishCancelled(d, _) => own - {s.drivers[d].task}
    case Settle(d, _, _) => own - {s.drivers[d].task}
    case Drop(d) => own - {s.drivers[d].task}
    case Crash => map[]
    case _ => own
  }

  // ---------------------------------------------------------------- three shapes of a step

  /** Who owns what after `d` moved to `pc`: a driver in `Cleanup` owns nothing. */
  function Release(own: map<TaskId, DriverId>, id: TaskId, pc: Pc): map<TaskId, DriverId> {
    if pc.Cleanup? then own - {id} else own
  }

  predicate MayMove(s: System, d: DriverId, pc: Pc) {
    && s.phase.Up?
    && d in s.drivers
    && !s.drivers[d].pc.Cleanup?
    && s.drivers[d].task in s.disk
    && UsesSlot(pc) == UsesSlot(s.drivers[d].pc)
  }

  lemma MoveKeepsOwners(s: System, own: map<TaskId, DriverId>, d: DriverId, t: Task, ok: bool, pc: Pc)
    requires PhaseOk(s) && OwnersOk(s, own) && SlotOk(s) && MayMove(s, d, pc)
    ensures var r := Move(s, d, t, ok, pc);
            PhaseOk(r) && OwnersOk(r, Release(own, s.drivers[d].task, pc)) && SlotOk(r)
  {
  }

  lemma MoveKeepsTask(s: System, own: map<TaskId, DriverId>, d: DriverId, t: Task, ok: bool, pc: Pc, id: TaskId)
    requires OwnersOk(s, own) && MayMove(s, d, pc)
    requires if id == s.drivers[d].task
             then TaskOk(Some(t), Some(if ok then t else s.disk[id]), if pc.Cleanup? then None else Some(pc), Paid(s, id), id in s.dropped)
             else IdOk(s, own, id)
    ensures IdOk(Move(s, d, t, ok, pc), Release(own, s.drivers[d].task, pc), id)
  {
    var r := Move(s, d, t, ok, pc);
    if id != s.drivers[d].task {
      assert PcOf(r, Release(own, s.drivers[d].task, pc), id) == PcOf(s, own, id);
    }
  }

  /** A driver rewrites its task and moves on or settles it. */
  lemma MoveKeepsInv(s: System, own: map<TaskId, DriverId>, d: DriverId, t: Task, ok: bool, pc: Pc)
    requires InvWith(s, own) && MayMove(s, d, pc)
    requires var id := s.drivers[d].task;
             TaskOk(Some(t), Some(if ok then t else s.disk[id]), if pc.Cleanup? then None else Some(pc), Paid(s, id), id in s.dropped)
    ensures InvWith(Move(s, d, t, ok, pc), Release(own, s.drivers[d].task, pc))
  {
    var r, o := Move(s, d, t, ok, pc), Release(own, s.drivers[d].task, pc);
    MoveKeepsOwners(s, own, d, t, ok, pc);
    forall id: TaskId
      ensures IdOk(r, o, id)
    {
      assert IdOk(s, own, id);
      MoveKeepsTask(s, own, d, t, ok, pc, id);
    }
  }

  /** The table entry of a task changes while its driver, if any, stays where it is. */
  lemma CommitKeepsInv(s: System, own: map<TaskId, DriverId>, id: TaskId, t: Task, ok: bool)
    requires InvWith(s, own) && !s.phase.Down?
    requires id in s.disk
    requires TaskOk(Some(t), Some(if ok then t else s.disk[id]), PcOf(s, own, id), Paid(s, id), id in s.dropped)
    ensures InvWith(Commit(s, id, t, ok), own)
  {
    var r := Commit(s, id, t, ok);
    forall i: TaskId
      ensures IdOk(r, own, i)
    {
      assert IdOk(s, own, i);
    }
  }

  /** A driver moves on without touching its task. */
  lemma GotoKeepsInv(s: System, own: map<TaskId, DriverId>, d: DriverId, pc: Pc, slot: Option<DriverId>)
    requires InvWith(s, own) && s.phase.Up?
    requires d in s.drivers && !s.drivers[d].pc.Cleanup? && !pc.Cleanup?
    requires if UsesSlot(pc) then slot == Some(d) && (s.slot.None? || s.slot == Some(d))
             else slot == if UsesSlot(s.drivers[d].pc) then None else s.slot
    requires var id := s.drivers[d].task;
             TaskOk(Lookup(s.mem, id), Lookup(s.disk, id), Some(pc), Paid(s, id), id in s.dropped)
    ensures InvWith(Goto(s.(slot := slot), d, pc), own)
  {
    var r := Goto(s.(slot := slot), d, pc);
    forall id: TaskId
      ensures IdOk(r, own, id)
    {
      assert IdOk(s, own, id);
    }
  }

  /** A driver takes over a task nobody owns. */
  lemma SpawnKeepsInv(s: System, own: map<TaskId, DriverId>, id: TaskId, pc: Pc)
    requires InvWith(s, own) && s.phase.Up?
    requires id !in own && !pc.Cleanup? && !UsesSlot(pc)
    requires TaskOk(Lookup(s.mem, id), Lookup(s.disk, id), Some(pc), Paid(s, id), id in s.dropped)
    ensures InvWith(Spawn(s, id, pc), own[id := s.nextDriver])
  {
    var r, o := Spawn(s, id, pc), own[id := s.nextDriver];
    forall i: TaskId
      ensures IdOk(r, o, i)
    {
      assert IdOk(s, own, i);
    }
  }

  /** A new task identifier has never been used. */
  lemma NextTaskIsFresh(s: System, own: map<TaskId, DriverId>)
    requires InvWith(s, own)
    ensures s.nextTask !in own && s.nextTask !in s.mem && s.nextTask !in s.disk && Paid(s, s.nextTask) == 0 && s.nextTask !in s.dropped
    ensures InvWith(s.(nextTask := s.nextTask + 1), own)
  {
    assert IdOk(s, own, s.nextTask);
    var r := s.(nextTask := s.nextTask + 1);
    forall id: TaskId
      ensures IdOk(r, own, id)
    {
      assert IdOk(s, own, id);
    }
  }

  /** A fresh task gets its durable record before anything else happens to it. */
  lemma NewRecordKeepsInv(s: System, own: map<TaskId, DriverId>, id: TaskId)
    requires InvWith(s, own)
    requires id < s.nextTask && id !in own && id !in s.mem && id !in s.disk && Paid(s, id) == 0 && id !in s.dropped
    ensures InvWith(s.(disk := s.disk[id := NEW_TASK]), own)
  {
    var r := s.(disk := s.disk[id := NEW_TASK]);
    forall i: TaskId
      ensures IdOk(r, own, i)
    {
      assert IdOk(s, own, i);
    }
  }

  /** Tokens decide only which step is enabled. */
  lemma TokensDoNotMatter(s: System, own: map<TaskId, DriverId>, tokens: map<TaskId, DriverId>, fired: set<DriverId>, shutdown: bool)
    requires InvWith(s, own)
    ensures InvWith(s.(tokens := tokens, fired := fired, shutdown := shutdown), own)
  {
    var r := s.(tokens := tokens, fired := fired, shutdown := shutdown);
    forall id: TaskId
      ensures IdOk(r, own, id)
    {
      assert IdOk(s, own, id);
    }
  }

  /** What the invariant says at a driver that owns its task. */
  lemma AtOwner(s: System, own: map<TaskId, DriverId>, d: DriverId)
    requires InvWith(s, own) && d in s.drivers && !s.drivers[d].pc.Cleanup?
    ensures s.phase.Up? && own == own[s.drivers[d].task := d]
    ensures var id := s.drivers[d].task;
            id in s.disk && TaskOk(Lookup(s.mem, id), Some(s.disk[id]), Some(s.drivers[d].pc), Paid(s, id), id in s.dropped)
    ensures !s.drivers[d].pc.StartPersisted? <==> s.drivers[d].task in s.mem
  {
    assert IdOk(s, own, s.drivers[d].task);
  }

  // ---------------------------------------------------------------- every step

  lemma StartStep(s: System, own: map<TaskId, DriverId>, ok: bool)
    requires InvWith(s, own) && Enabled(s, Start(ok))
    ensures InvWith(Next(s, Start(ok)), NextOwner(s, own, Start(ok)))
  {
    NextTaskIsFresh(s, own);
    if ok {
      var r := s.(nextTask := s.nextTask + 1);
      NewRecordKeepsInv(r, own, s.nextTask);
      SpawnKeepsInv(r.(disk := r.disk[s.nextTask := NEW_TASK]), own, s.nextTask, StartPersisted);
    }
  }

  lemma StartInsertStep(s: System, own: map<TaskId, DriverId>, d: DriverId)
    requires InvWith(s, own) && Enabled(s, StartInsert(d))
    ensures InvWith(Next(s, StartInsert(d)), own)
  {
    AtOwner(s, own, d);
    MoveKeepsInv(s, own, d, NEW_TASK, false, StartInserted);
  }

  lemma SpawnSteps(s: System, own: map<TaskId, DriverId>, step: Step)
    requires InvWith(s, own) && Enabled(s, step)
    requires step.StartSpawn? || step.RetrySpawn?
    ensures InvWith(Next(s, step), own)
  {
    var d := step.d;
    AtOwner(s, own, d);
    var q := s.(tokens := s.tokens[s.drivers[d].task := d]);
    TokensDoNotMatter(s, own, q.tokens, s.fired, s.shutdown);
    GotoKeepsInv(q, own, d, if step.StartSpawn? then SubmitPending else AwaitSlot, s.slot);
  }

  lemma SubmitStep(s: System, own: map<TaskId, DriverId>, d: DriverId)
    requires InvWith(s, own) && Enabled(s, Submit(d))
    ensures InvWith(Next(s, Submit(d)), own)
  {
    var r := Next(s, Submit(d));
    AtOwner(s, own, d);
    forall id: TaskId
      ensures IdOk(r, own, id)
    {
      assert IdOk(s, own, id);
    }
  }

  lemma SubmitReturnsStep(s: System, own: map<TaskId, DriverId>, d: DriverId, answer: SubmitOutcome, ok: bool, okUnknown: bool)
    requires InvWith(s, own) && Enabled(s, SubmitReturns(d, answer, ok, okUnknown))
    ensures var step := SubmitReturns(d, answer, ok, okUnknown);
            InvWith(Next(s, step), NextOwner(s, own, step))
  {
    AtOwner(s, own, d);
    var t := TaskOf(s, d);
    match answer
    case Signed(url, zipName, now) =>
      var ready := Transition(WithUrl(t, url, zipName, now), Ready, None);
      if ok {
        MoveKeepsInv(s, own, d, ready, true, AwaitSlot);
      } else {
        MoveKeepsInv(s, own, d, Transition(ready, CostUnknown, Some("URL could not be saved")), okUnknown, Cleanup);
      }
    case Refused(message) =>
      MoveKeepsInv(s, own, d, Transition(t, CostUnknown, Some(message)), ok, Cleanup);
  }

  lemma SlotSteps(s: System, own: map<TaskId, DriverId>, step: Step)
    requires InvWith(s, own) && Enabled(s, step)
    requires step.AcquireSlot? || step.LoseSelect? || step.StreamReturns?
    ensures InvWith(Next(s, step), NextOwner(s, own, step))
  {
    var d := step.d;
    AtOwner(s, own, d);
    var r := Next(s, step);
    GotoKeepsInv(s, own, d, r.drivers[d].pc, r.slot);
  }

  lemma DownloadSteps(s: System, own: map<TaskId, DriverId>, step: Step)
    requires InvWith(s, own) && Enabled(s, step)
    requires step.FinishCancelled? || step.BeginStream?
    ensures InvWith(Next(s, step), NextOwner(s, own, step))
  {
    AtOwner(s, own, step.d);
    if step.FinishCancelled? {
      MoveKeepsInv(s, own, step.d, Transition(TaskOf(s, step.d), Cancelled, None), step.ok, Cleanup);
    } else {
      MoveKeepsInv(s, own, step.d, Transition(TaskOf(s, step.d), Downloading, None), step.ok, Streaming);
    }
  }

  lemma SaveProgressStep(s: System, own: map<TaskId, DriverId>, d: DriverId, done: nat, total: nat, ok: bool)
    requires InvWith(s, own) && Enabled(s, SaveProgress(d, done, total, ok))
    ensures InvWith(Next(s, SaveProgress(d, done, total, ok)), own)
  {
    AtOwner(s, own, d);
    CommitKeepsInv(s, own, s.drivers[d].task, WithProgress(TaskOf(s, d), done, total), ok);
  }

  lemma SettledIsOk(t: Task, k: Task, outcome: StreamOutcome, renamed: bool, ok: bool, paid: nat, dropped: bool)
    requires TaskOk(Some(t), Some(k), Some(StreamEnded(outcome)), paid, dropped)
    ensures var r := Settled(t, outcome, renamed); TaskOk(Some(r), Some(if ok then r else k), None, paid, dropped)
  {
  }

  lemma SettleStep(s: System, own: map<TaskId, DriverId>, d: DriverId, renamed: bool, ok: bool)
    requires InvWith(s, own) && Enabled(s, Settle(d, renamed, ok))
    ensures InvWith(Next(s, Settle(d, renamed, ok)), own - {s.drivers[d].task})
  {
    AtOwner(s, own, d);
    var id := s.drivers[d].task;
    SettledIsOk(s.mem[id], s.disk[id], s.drivers[d].pc.outcome, renamed, ok, Paid(s, id), id in s.dropped);
    MoveKeepsInv(s, own, d, Settled(TaskOf(s, d), s.drivers[d].pc.outcome, renamed), ok, Cleanup);
  }

  lemma RetryStep(s: System, own: map<TaskId, DriverId>, id: TaskId, now: int, ok: bool)
    requires InvWith(s, own) && Enabled(s, Retry(id, now, ok))
    ensures InvWith(Next(s, Retry(id, now, ok)), NextOwner(s, own, Retry(id, now, ok)))
  {
    assert IdOk(s, own, id);
    if RetryCheck(s, id, now).None? {
      var t := Transition(s.mem[id], Ready, None);
      assert id !in own;
      CommitKeepsInv(s, own, id, t, ok);
      if ok {
        SpawnKeepsInv(Commit(s, id, t, ok), own, id, RetryPersisted);
      }
    }
  }

  lemma MarkConsumedStep(s: System, own: map<TaskId, DriverId>, id: TaskId, gallery: Option<string>, error: Option<string>, ok: bool)
    requires InvWith(s, own)
    ensures InvWith(DoMarkConsumed(s, id, gallery, error, ok), own)
  {
    assert IdOk(s, own, id);
    var r := DoMarkConsumed(s, id, gallery, error, ok);
    if id in s.mem && s.mem[id].state == Completed {
      CommitKeepsInv(s, own, id, r.mem[id], ok);
    }
  }

  lemma MarkGalleryDeletedStep(s: System, own: map<TaskId, DriverId>, id: TaskId, ok: bool)
    requires InvWith(s, own)
    ensures InvWith(DoMarkGalleryDeleted(s, id, ok), own)
  {
    assert IdOk(s, own, id);
    var r := DoMarkGalleryDeleted(s, id, ok);
    if id in s.mem && s.mem[id].state == Consumed && s.mem[id].finalPath.Some? {
      CommitKeepsInv(s, own, id, r.mem[id], ok);
    }
  }

  lemma TokenSteps(s: System, own: map<TaskId, DriverId>, step: Step)
    requires InvWith(s, own) && Enabled(s, step)
    requires step.RemoveToken? || step.Cancel? || step.Shutdown?
    ensures InvWith(Next(s, step), NextOwner(s, own, step))
  {
    var r := Next(s, step);
    TokensDoNotMatter(s, own, r.tokens, r.fired, r.shutdown);
    if step.RemoveToken? {
      forall id: TaskId
        ensures IdOk(r, own, id)
      {
        assert IdOk(s, own, id);
      }
    }
  }

  /** A dropped call leaves its task without an owner. */
  lemma DropStep(s: System, own: map<TaskId, DriverId>, d: DriverId)
    requires InvWith(s, own) && Enabled(s, Drop(d))
    ensures InvWith(Next(s, Drop(d)), own - {s.drivers[d].task})
  {
    AtOwner(s, own, d);
    var r := Next(s, Drop(d));
    forall id: TaskId
      ensures IdOk(r, own - {s.drivers[d].task}, id)
    {
      assert IdOk(s, own, id);
    }
  }

  lemma CrashStep(s: System, own: map<TaskId, DriverId>)
    requires InvWith(s, own)
    ensures InvWith(DoCrash(s), map[])
  {
    forall id: TaskId
      ensures IdOk(DoCrash(s), map[], id)
    {
      assert IdOk(s, own, id);
    }
  }

  /** Rewriting the phase between `Down` and `Up` is safe while no driver runs. */
  lemma PhaseSteps(s: System, own: map<TaskId, DriverId>, phase: Phase)
    requires InvWith(s, own) && !s.phase.Up? && !phase.Down?
    requires phase.Opening? ==> phase.todo <= s.disk.Keys
    ensures InvWith(s.(phase := phase), own)
  {
    var r := s.(phase := phase);
    forall id: TaskId
      ensures IdOk(r, own, id)
    {
      assert IdOk(s, own, id);
    }
  }

  lemma OpenEntryStep(s: System, own: map<TaskId, DriverId>, id: TaskId, readable: bool, ok: bool)
    requires InvWith(s, own) && Enabled(s, OpenEntry(id, readable, ok))
    ensures InvWith(DoOpenEntry(s, id, readable, ok), own)
  {
    assert IdOk(s, own, id);
    if readable && !ok {
      CrashStep(s, own);
      var r := DoOpenEntry(s, id, readable, ok);
      TokensDoNotMatter(DoCrash(s), map[], r.tokens, r.fired, r.shutdown);
    } else {
      PhaseSteps(s, own, Opening(s.phase.todo - {id}));
      if readable {
        CommitKeepsInv(s.(phase := Opening(s.phase.todo - {id})), own, id, Recover(s.disk[id]), true);
      }
    }
  }

  /** The steps in which a running driver works. */
  predicate IsDriverStep(step: Step) {
    step.StartInsert? || step.StartSpawn? || step.Submit? || step.SubmitReturns? || step.AcquireSlot?
    || step.LoseSelect? || step.FinishCancelled? || step.BeginStream? || step.SaveProgress?
    || step.StreamReturns? || step.Settle? || step.RetrySpawn?
  }

  lemma DriverStepKeepsInv(s: System, own: map<TaskId, DriverId>, step: Step)
    requires InvWith(s, own) && Enabled(s, step) && IsDriverStep(step)
    ensures InvWith(Next(s, step), NextOwner(s, own, step))
  {
    match step
    case StartInsert(d) => StartInsertStep(s, own, d);
    case StartSpawn(_) => SpawnSteps(s, own, step);
    case Submit(d) => SubmitStep(s, own, d);
    case SubmitReturns(d, answer, ok, okUnknown) => SubmitReturnsStep(s, own, d, answer, ok, okUnknown);
    case AcquireSlot(_) => SlotSteps(s, own, step);
    case LoseSelect(_) => SlotSteps(s, own, step);
    case FinishCancelled(_, _) => DownloadSteps(s, own, step);
    case BeginStream(_, _) => DownloadSteps(s, own, step);
    case SaveProgress(d, done, total, ok) => SaveProgressStep(s, own, d, done, total, ok);
    case StreamReturns(_, _) => SlotSteps(s, own, step);
    case Settle(d, renamed, ok) => SettleStep(s, own, d, renamed, ok);
    case RetrySpawn(_) => SpawnSteps(s, own, step);
  }

  lemma StepKeepsInv(s: System, own: map<TaskId, DriverId>, step: Step)
    requires InvWith(s, own) && Enabled(s, step)
    ensures InvWith(Next(s, step), NextOwner(s, own, step))
  {
    if IsDriverStep(step) {
      DriverStepKeepsInv(s, own, step);
    } else {
      match step
      case Start(ok) => StartStep(s, own, ok);
      case Retry(id, now, ok) => RetryStep(s, own, id, now, ok);
      case MarkConsumed(id, gallery, error, ok) => MarkConsumedStep(s, own, id, gallery, error, ok);
      case MarkGalleryDeleted(id, ok) => MarkGalleryDeletedStep(s, own, id, ok);
      case RemoveToken(_) => TokenSteps(s, own, step);
      case Cancel(_) => TokenSteps(s, own, step);
      case Shutdown => TokenSteps(s, own, step);
      case Drop(d) => DropStep(s, own, d);
      case Crash => CrashStep(s, own);
      case OpenBegin => PhaseSteps(s, own, Opening(s.disk.Keys));
      case OpenEntry(id, readable, ok) => OpenEntryStep(s, own, id, readable, ok);
      case OpenEnd => PhaseSteps(s, own, Up);
    }
  }
}
