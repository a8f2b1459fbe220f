/**
 The queue of image results of one page and the threads that empty it.

 A step is what one thread does between two points where another may run.  Workers are usually alone, but
 a worker that is leaving resets the flag without looking, so two can be at work for a while.
 */
module ResultPump {
  type Item = nat
  type AgentId = nat

  /** Where a thread is: one that was asked to start a worker, or a worker. */
  datatype Pc =
    | Starting      // the flag is set, the worker not yet started
    | Top           // about to take a batch
    | Applying
    | Checking      // about to refresh the page
    | Ending        // out of the loop, before the last look at the queue
    | Restarting    // found more to do, about to start a worker again
    | Stopping      // starting failed, about to give the flag back

  datatype System = System(
    pending: seq<Item>,
    running: bool,
    agents: map<AgentId, Pc>,
    next: AgentId,
    alive: bool,             // the page
    batchSize: nat,
    enqueued: seq<Item>,     // ledger
    popped: seq<Item>,       // ledger
    failed: bool)            // ledger: starting a worker has failed at least once

  function Initial(batchSize: nat): System {
    System([], false, map[], 0, true, batchSize, [], [], false)
  }

  datatype Step =
    | Enqueue(item: Item)
    | StartWorker(a: AgentId, ok: bool)
    | Take(a: AgentId, delayed: bool)
    | Apply(a: AgentId)
    | Refresh(a: AgentId, ok: bool)
    | End(a: AgentId)
    | Stop(a: AgentId)
    | Close

  predicate At(s: System, a: AgentId, pc: Pc) {
    a in s.agents && s.agents[a] == pc
  }

  predicate Enabled(s: System, step: Step) {
    match step
    case Enqueue(_) => true
    case StartWorker(a, _) => At(s, a, Starting) || At(s, a, Restarting)
    case Take(a, _) => At(s, a, Top)
    case Apply(a) => At(s, a, Applying)
    case Refresh(a, _) => At(s, a, Checking)
    case End(a) => At(s, a, Ending)
    case Stop(a) => At(s, a, Stopping)
    case Close => true
  }

  function Goto(s: System, a: AgentId, pc: Pc): System {
    s.(agents := s.agents[a := pc])
  }

  function BatchOf(s: System): nat {
    if |s.pending| < s.batchSize then |s.pending| else s.batchSize
  }

  function Next(s: System, step: Step): System
    requires Enabled(s, step)
  {
    match step
    case Enqueue(item) =>
      var q := s.(pending := s.pending + [item], enqueued := s.enqueued + [item]);
      if s.running then q else q.(running := true, agents := s.agents[s.next := Starting], next := s.next + 1)
    case StartWorker(a, ok) =>
      if ok && (s.alive || s.agents[a].Restarting?) then Goto(s, a, Top) else Goto(s, a, Stopping).(failed := true)
    case Take(a, delayed) =>
      var k := BatchOf(s);
      if delayed then s
      else if k == 0 then Goto(s, a, Ending).(running := false)
      else Goto(s, a, Applying).(pending := s.pending[k..], popped := s.popped + s.pending[..k])
    case Apply(a) => Goto(s, a, Checking)
    case Refresh(a, ok) => Goto(s, a, if s.alive && ok then Top else Ending)
    case End(a) =>
      if s.pending != [] && s.alive then Goto(s, a, Restarting).(running := true)
      else s.(running := false, agents := s.agents - {a})
    case Stop(a) => s.(running := false, agents := s.agents - {a})
    case Close => s.(alive := false)
  }

  predicate IsRun(s: System, steps: seq<Step>)
    decreases |steps|
  {
    steps == [] || (Enabled(s, steps[0]) && IsRun(Next(s, steps[0]), steps[1..]))
  }

  function After(s: System, steps: seq<Step>): System
    requires IsRun(s, steps)
    decreases |steps|
  {
    if steps == [] then s else After(Next(s, steps[0]), steps[1..])
  }

  // ---------------------------------------------------------------- invariant

  /** Somebody who will look at the queue again. */
  ghost predicate Attended(s: System) {
    exists a :: a in s.agents && !s.agents[a].Stopping?
  }

  ghost predicate Inv(s: System) {
    && s.batchSize > 0
    && s.popped + s.pending == s.enqueued
    && (forall a :: a in s.agents ==> a < s.next)
    && (s.running ==> exists a :: a in s.agents)
    && (!s.failed ==> forall a :: a in s.agents ==> !s.agents[a].Stopping?)
    && (s.pending != [] && s.alive && !s.failed ==> Attended(s))
  }

  lemma GotoKeepsInv(s: System, a: AgentId, pc: Pc)
    requires Inv(s) && a in s.agents && !pc.Stopping?
    ensures Inv(Goto(s, a, pc)) && Attended(Goto(s, a, pc))
  {
    assert a in Goto(s, a, pc).agents;
  }

  lemma EnqueueKeepsInv(s: System, item: Item)
    requires Inv(s)
    ensures Inv(Next(s, Enqueue(item)))
  {
    var r := Next(s, Enqueue(item));
    assert r.popped + r.pending == (s.popped + s.pending) + [item];
    if !s.running {
      assert s.next in r.agents;
    } else {
      var a :| a in s.agents;
      assert a in r.agents;
    }
  }

  lemma TakeKeepsInv(s: System, a: AgentId, delayed: bool)
    requires Inv(s) && Enabled(s, Take(a, delayed))
    ensures Inv(Next(s, Take(a, delayed)))
  {
    var k := BatchOf(s);
    GotoKeepsInv(s, a, Ending);
    GotoKeepsInv(s, a, Applying);
    if !delayed && k > 0 {
      assert (s.popped + s.pending[..k]) + s.pending[k..] == s.popped + s.pending;
      var r := Next(s, Take(a, delayed));
      assert a in r.agents;
    }
  }

  lemma StepKeepsInv(s: System, step: Step)
    requires Inv(s) && Enabled(s, step)
    ensures Inv(Next(s, step))
  {
    match step
    case Enqueue(item) => EnqueueKeepsInv(s, item);
    case StartWorker(a, ok) =>
      GotoKeepsInv(s, a, Top);
      assert a in Next(s, step).agents;
    case Take(a, delayed) => TakeKeepsInv(s, a, delayed);
    case Apply(a) => GotoKeepsInv(s, a, Checking);
    case Refresh(a, ok) => GotoKeepsInv(s, a, if s.alive && ok then Top else Ending);
    case End(a) =>
      GotoKeepsInv(s, a, Restarting);
      assert s.pending != [] && s.alive ==> a in Next(s, step).agents;
    case Stop(a) => assert s.failed;
    case Close =>
  }

  lemma {:induction false} RunKeepsInv(s: System, steps: seq<Step>)
    requires Inv(s) && IsRun(s, steps)
    ensures Inv(After(s, steps))
    decreases |steps|
  {
    if steps != [] {
      StepKeepsInv(s, steps[0]);
      RunKeepsInv(Next(s, steps[0]), steps[1..]);
    }
  }

  // ---------------------------------------------------------------- theorems

  ghost predicate Reachable(s: System) {
    exists n: nat, steps: seq<Step> :: n > 0 && IsRun(Initial(n), steps) && After(Initial(n), steps) == s
  }

  lemma ReachableInv(s: System)
    requires Reachable(s)
    ensures Inv(s)
  {
    var n: nat, steps: seq<Step> :| n > 0 && IsRun(Initial(n), steps) && After(Initial(n), steps) == s;
    RunKeepsInv(Initial(n), steps);
  }

  /** While the page lives and workers can be started, a waiting result or a set flag always has somebody to attend to it. */
  lemma NoLostWakeup(s: System)
    requires Reachable(s) && s.alive && !s.failed && (s.pending != [] || s.running)
    ensures Attended(s)
  {
    ReachableInv(s);
  }

  /** Every result is taken once, in the order it came. */
  lemma EachResultOnceInOrder(s: System)
    requires Reachable(s)
    ensures s.popped <= s.enqueued && s.enqueued[|s.popped|..] == s.pending
  {
    ReachableInv(s);
  }

  /** A worker that may go on takes what waits, but no more than a batch, and leaves only an empty queue. */
  lemma BatchIsLimited(s: System, a: AgentId)
    requires Reachable(s) && At(s, a, Top)
    ensures var r := Next(s, Take(a, false));
            && |r.popped| - |s.popped| <= s.batchSize
            && (r.pending != [] ==> |r.popped| - |s.popped| == s.batchSize)
            && (s.pending == [] <==> At(r, a, Ending) && !r.running)
            && (s.pending != [] <==> At(r, a, Applying) && |r.popped| > |s.popped|)
    ensures Next(s, Take(a, true)) == s
  {
    ReachableInv(s);
  }

  lemma ThreeSteps(s: System, x: Step, y: Step, z: Step)
    requires Enabled(s, x) && Enabled(Next(s, x), y) && Enabled(Next(Next(s, x), y), z)
    ensures IsRun(s, [x, y, z]) && After(s, [x, y, z]) == Next(Next(Next(s, x), y), z)
  {
    var t := Next(s, x);
    var u := Next(t, y);
    assert [z][1..] == [] && IsRun(u, [z]) && After(u, [z]) == Next(u, z);
    assert [y, z][1..] == [z] && IsRun(t, [y, z]) && After(t, [y, z]) == Next(u, z);
    assert [x, y, z][1..] == [y, z];
  }

  /** One round of a worker: it comes back for the rest, unless the page has gone or refused the refresh. */
  lemma RoundOfAWorker(s: System, a: AgentId, ok: bool)
    requires Reachable(s) && At(s, a, Top) && s.pending != []
    ensures var round := [Take(a, false), Apply(a), Refresh(a, ok)];
            && IsRun(s, round)
            && var r := After(s, round);
               && r.popped + r.pending == s.popped + s.pending && |r.pending| < |s.pending|
               && At(r, a, if s.alive && ok then Top else Ending) && r.running == s.running
  {
    ReachableInv(s);
    TakeKeepsInv(s, a, false);
    ThreeSteps(s, Take(a, false), Apply(a), Refresh(a, ok));
  }

  /** A start that is granted leads to a worker, any other gives the flag back so that the next result tries again. */
  lemma StartOrGiveUp(s: System, a: AgentId, item: Item)
    requires Reachable(s) && At(s, a, Starting)
    ensures s.alive ==> At(Next(s, StartWorker(a, true)), a, Top)
    ensures var t := Next(s, StartWorker(a, false));
            At(t, a, Stopping) && At(Next(Next(t, Stop(a)), Enqueue(item)), s.next, Starting)
  {
    ReachableInv(s);
  }

  /** Even when everybody has stopped, after a failed start or with the page gone, the next result sets out to start a worker again. */
  lemma NextResultStartsAgain(s: System, item: Item)
    requires Reachable(s) && forall a :: a !in s.agents
    ensures At(Next(s, Enqueue(item)), s.next, Starting)
  {
    ReachableInv(s);
  }

  /** How far an agent is from taking a batch. */
  function Distance(pc: Pc): nat {
    match pc
    case Top => 0
    case Starting => 1
    case Restarting => 1
    case Ending => 2
    case Checking => 3
    case Applying => 4
    case Stopping => 5
  }

  /** What an agent does next when nothing goes wrong. */
  function Forward(s: System, a: AgentId): Step
    requires a in s.agents
  {
    match s.agents[a]
    case Top => Take(a, false)
    case Starting => StartWorker(a, true)
    case Restarting => StartWorker(a, true)
    case Ending => End(a)
    case Checking => Refresh(a, true)
    case Applying => Apply(a)
    case Stopping => Stop(a)
  }

  predicate IsWork(step: Step) {
    !step.Enqueue? && !step.Close?
  }

  lemma ForwardAdvances(s: System, a: AgentId)
    requires Inv(s) && s.alive && !s.failed && s.pending != [] && a in s.agents
    ensures var r := Next(s, Forward(s, a));
            && r.alive && !r.failed && a in r.agents
            && (|r.pending| < |s.pending| || (r.pending == s.pending && Distance(r.agents[a]) < Distance(s.agents[a])))
  {
  }

  /** No reachable state is stuck: the threads there are can take everything that waits, with no further enqueue. */
  lemma {:induction false} CanDrain(s: System, a: AgentId) returns (steps: seq<Step>)
    requires Inv(s) && s.alive && !s.failed && (s.pending != [] ==> a in s.agents)
    ensures IsRun(s, steps) && After(s, steps).pending == [] && forall i :: 0 <= i < |steps| ==> IsWork(steps[i])
    decreases |s.pending|, if a in s.agents then Distance(s.agents[a]) else 0
  {
    if s.pending == [] {
      return [];
    }
    var step := Forward(s, a);
    ForwardAdvances(s, a);
    StepKeepsInv(s, step);
    var rest := CanDrain(Next(s, step), a);
    steps := [step] + rest;
    assert steps[1..] == rest;
  }

  lemma QueueCanAlwaysDrain(s: System)
    requires Reachable(s) && s.alive && !s.failed
    ensures exists steps: seq<Step> :: IsRun(s, steps) && After(s, steps).pending == [] && forall i :: 0 <= i < |steps| ==> IsWork(steps[i])
  {
    ReachableInv(s);
    var a: AgentId := 0;
    if s.pending != [] {
      a :| a in s.agents && !s.agents[a].Stopping?;
    }
    var steps := CanDrain(s, a);
  }

  // ---------------------------------------------------------------- two workers

  predicate Single(s: System) {
    forall a, b :: a in s.agents && b in s.agents ==> a == b
  }

  /** A result finds the flag set, or nobody at all. */
  ghost predicate Timely(s: System, step: Step) {
    step.Enqueue? ==> s.running || forall a :: a !in s.agents
  }

  ghost predicate IsTimelyRun(s: System, steps: seq<Step>)
    decreases |steps|
  {
    steps == [] || (Enabled(s, steps[0]) && Timely(s, steps[0]) && IsTimelyRun(Next(s, steps[0]), steps[1..]))
  }

  lemma StepKeepsSingle(s: System, step: Step)
    requires Single(s) && Enabled(s, step) && Timely(s, step)
    ensures Single(Next(s, step))
  {
  }

  /** As long as no result arrives while a worker is leaving, there is never a second thread at work. */
  lemma {:induction false} TimelyRunsHaveOneWorker(s: System, steps: seq<Step>)
    requires Single(s) && IsTimelyRun(s, steps)
    ensures IsRun(s, steps) && Single(After(s, steps))
    decreases |steps|
  {
    if steps != [] {
      StepKeepsSingle(s, steps[0]);
      TimelyRunsHaveOneWorker(Next(s, steps[0]), steps[1..]);
    }
  }

  /** From any state with at most one thread, a result keeps it so exactly when it finds the flag set or nobody at all. */
  lemma SecondWorkerExactlyWhenLeaving(s: System, item: Item)
    requires Reachable(s) && Single(s)
    ensures Single(Next(s, Enqueue(item))) <==> Timely(s, Enqueue(item))
  {
    ReachableInv(s);
    if !Timely(s, Enqueue(item)) {
      var a :| a in s.agents;
      var r := Next(s, Enqueue(item));
      assert a in r.agents && s.next in r.agents && a != s.next;
    }
  }

  lemma Extend(s: System, steps: seq<Step>, step: Step)
    requires IsRun(s, steps) && Enabled(After(s, steps), step)
    ensures IsRun(s, steps + [step]) && After(s, steps + [step]) == Next(After(s, steps), step)
    decreases |steps|
  {
    if steps == [] {
      assert [step][1..] == [];
    } else {
      Extend(Next(s, steps[0]), steps[1..], step);
      assert (steps + [step])[1..] == steps[1..] + [step];
    }
  }

  ghost predicate StepsTo(s: System, step: Step, r: System) {
    Enabled(s, step) && Next(s, step) == r
  }

  lemma Proceed(s: System, step: Step)
    requires Reachable(s) && Enabled(s, step)
    ensures Reachable(Next(s, step))
  {
    Continue(s, step, Next(s, step));
  }

  lemma InitiallyReachable(n: nat)
    requires n > 0
    ensures Reachable(Initial(n))
  {
    assert IsRun(Initial(n), []) && After(Initial(n), []) == Initial(n);
  }

  lemma Continue(s: System, step: Step, r: System)
    requires Reachable(s) && StepsTo(s, step, r)
    ensures Reachable(r)
  {
    var n: nat, steps: seq<Step> :| n > 0 && IsRun(Initial(n), steps) && After(Initial(n), steps) == s;
    Extend(Initial(n), steps, step);
  }

  function Begun(first: Pc): System {
    System([7], true, map[0 := first], 1, true, 1, [7], [], false)
  }

  /** One result taken by the first worker, which is now at the given point. */
  function First(pc: Pc, running: bool): System {
    System([], running, map[0 := pc], 1, true, 1, [7], [7], false)
  }

  function Second(first: Pc, second: Pc): System {
    System([8], true, map[0 := first, 1 := second], 2, true, 1, [7, 8], [7], false)
  }

  lemma BeginSteps()
    ensures StepsTo(Initial(1), Enqueue(7), Begun(Starting))
    ensures StepsTo(Begun(Starting), StartWorker(0, true), Begun(Top))
    ensures StepsTo(Begun(Top), Take(0, false), First(Applying, true))
  {
    var s := Initial(1);
    assert s.pending + [7] == [7] && s.enqueued + [7] == [7];
    var t := Begun(Top);
    assert t.pending[1..] == [] && t.popped + t.pending[..1] == [7];
  }

  lemma FirstSteps()
    ensures StepsTo(First(Applying, true), Apply(0), First(Checking, true))
    ensures StepsTo(First(Checking, true), Refresh(0, true), First(Top, true))
    ensures StepsTo(First(Top, true), Take(0, false), First(Ending, false))
  {
  }

  lemma SecondSteps()
    ensures StepsTo(First(Ending, false), Enqueue(8), Second(Ending, Starting))
    ensures StepsTo(Second(Ending, Starting), StartWorker(1, true), Second(Ending, Top))
    ensures StepsTo(Second(Ending, Top), End(0), Second(Restarting, Top))
    ensures StepsTo(Second(Restarting, Top), StartWorker(0, true), Second(Top, Top))
  {
    var s := First(Ending, false);
    assert s.pending + [8] == [8] && s.enqueued + [8] == [7, 8];
    assert s.agents[1 := Starting] == map[0 := Ending, 1 := Starting];
  }

  lemma FirstLeaves()
    ensures Reachable(First(Ending, false))
  {
    InitiallyReachable(1);
    BeginSteps();
    FirstSteps();
    Continue(Initial(1), Enqueue(7), Begun(Starting));
    Continue(Begun(Starting), StartWorker(0, true), Begun(Top));
    Continue(Begun(Top), Take(0, false), First(Applying, true));
    Continue(First(Applying, true), Apply(0), First(Checking, true));
    Continue(First(Checking, true), Refresh(0, true), First(Top, true));
    Continue(First(Top, true), Take(0, false), First(Ending, false));
  }

  /** A single worker is not what the flag guarantees: one that is leaving restarts itself beside the next. */
  lemma TwoWorkersCanCoexist()
    ensures Reachable(Second(Top, Top))
  {
    FirstLeaves();
    SecondSteps();
    Continue(First(Ending, false), Enqueue(8), Second(Ending, Starting));
    Continue(Second(Ending, Starting), StartWorker(1, true), Second(Ending, Top));
    Continue(Second(Ending, Top), End(0), Second(Restarting, Top));
    Continue(Second(Restarting, Top), StartWorker(0, true), Second(Top, Top));
  }
}
