/**
 The exclusive window in which the cache is cleared, against threads that enter the cache re-entrantly.

 One condition variable serves both sides: `asleep` threads wait on it until it is notified.
 */
module CacheMaintenance {
  type ThreadId = nat

  datatype Thread =
    | Out
    | Waiting(asleep: bool)
    | Admitted               // counted, not yet marked as inside
    | Inside(depth: nat)
    | Leaving                // marked as outside, still counted

  datatype Maintainer = Free | Draining(asleep: bool) | Window

  datatype System = System(
    threads: map<ThreadId, Thread>,
    active: int,
    flag: bool,
    maintainer: Maintainer)

  const INITIAL := System(map[], 0, false, Free)

  datatype Step =
    | Enter(t: ThreadId)
    | Mark(t: ThreadId)
    | Nest(t: ThreadId)
    | Unnest(t: ThreadId)
    | Leave(t: ThreadId)
    | Announce
    | Drain
    | Close

  function Of(s: System, t: ThreadId): Thread {
    if t in s.threads then s.threads[t] else Out
  }

  predicate Enabled(s: System, step: Step) {
    match step
    case Enter(t) => Of(s, t).Out? || Of(s, t) == Waiting(false)
    case Mark(t) => Of(s, t).Admitted?
    case Nest(t) => Of(s, t).Inside?
    case Unnest(t) => Of(s, t).Inside?
    case Leave(t) => Of(s, t).Leaving?
    case Announce => s.maintainer.Free?
    case Drain => s.maintainer == Draining(false)
    case Close => s.maintainer.Window?
  }

  function Goto(s: System, t: ThreadId, to: Thread): System {
    s.(threads := s.threads[t := to])
  }

  function Woken(t: Thread): Thread {
    if t.Waiting? then Waiting(false) else t
  }

  /** Everybody who waits looks again. */
  function NotifyAll(s: System): System {
    s.(threads := map t | t in s.threads :: Woken(s.threads[t]),
       maintainer := if s.maintainer.Draining? then Draining(false) else s.maintainer)
  }

  function Next(s: System, step: Step): System
    requires Enabled(s, step)
  {
    match step
    case Enter(t) => if s.flag then Goto(s, t, Waiting(true)) else Goto(s, t, Admitted).(active := s.active + 1)
    case Mark(t) => Goto(s, t, Inside(1))
    case Nest(t) => Goto(s, t, Inside(Of(s, t).depth + 1))
    case Unnest(t) => Goto(s, t, if Of(s, t).depth > 1 then Inside(Of(s, t).depth - 1) else Leaving)
    case Leave(t) =>
      var r := Goto(s, t, Out).(active := s.active - 1);
      if r.active == 0 then NotifyAll(r) else r
    case Announce => s.(flag := true, maintainer := Draining(false))
    case Drain => s.(maintainer := if s.active != 0 then Draining(true) else Window)
    case Close => NotifyAll(s.(flag := false, maintainer := Free))
  }

  predicate IsRun(s: System, steps: seq<Step>)
    decreases |steps|
  {
    steps == [] || (Enabled(s, steps[0]) && IsRun(Next(s, steps[0]), steps[1..]))
  }

  function After(s: System, steps: seq<Step>): System
    requires IsRun(s, steps)
    decreases |steps|
  {
    if steps == [] then s else After(Next(s, steps[0]), steps[1..])
  }

  // ---------------------------------------------------------------- invariant

  predicate IsCounted(t: Thread) {
    t.Admitted? || t.Inside? || t.Leaving?
  }

  function Counted(s: System): set<ThreadId> {
    set t | t in s.threads && IsCounted(s.threads[t])
  }

  ghost predicate Inv(s: System) {
    && s.active == |Counted(s)|
    && (s.flag <==> !s.maintainer.Free?)
    && (s.maintainer.Window? ==> s.active == 0)
    && (s.maintainer == Draining(true) ==> s.active != 0)
    && (forall t :: t in s.threads && s.threads[t] == Waiting(true) ==> s.flag)
    && (forall t :: t in s.threads && s.threads[t].Inside? ==> s.threads[t].depth > 0)
  }

  lemma CountedGoto(s: System, t: ThreadId, to: Thread)
    ensures Counted(Goto(s, t, to)) == if IsCounted(to) then Counted(s) + {t} else Counted(s) - {t}
  {
  }

  lemma CountedWoken(s: System)
    ensures Counted(NotifyAll(s)) == Counted(s)
  {
  }

  /** A thread that moves on without entering or leaving. */
  lemma MoveKeepsInv(s: System, t: ThreadId, to: Thread)
    requires Inv(s) && IsCounted(to) == IsCounted(Of(s, t))
    requires (to == Waiting(true) ==> s.flag) && (to.Inside? ==> to.depth > 0)
    ensures Inv(Goto(s, t, to))
  {
    assert Counted(Goto(s, t, to)) == Counted(s);
  }

  lemma EnterKeepsInv(s: System, t: ThreadId)
    requires Inv(s) && Enabled(s, Enter(t))
    ensures Inv(Next(s, Enter(t)))
  {
    if s.flag {
      MoveKeepsInv(s, t, Waiting(true));
    } else {
      assert t !in Counted(s);
      assert Counted(Next(s, Enter(t))) == Counted(s) + {t};
    }
  }

  lemma LeaveKeepsInv(s: System, t: ThreadId)
    requires Inv(s) && Enabled(s, Leave(t))
    ensures Inv(Next(s, Leave(t)))
  {
    CountedGoto(s, t, Out);
    assert t in Counted(s);
    var r := Goto(s, t, Out).(active := s.active - 1);
    assert Counted(r) == Counted(Goto(s, t, Out));
    CountedWoken(r);
  }

  lemma MaintainerKeepsInv(s: System, step: Step)
    requires Inv(s) && Enabled(s, step) && (step.Announce? || step.Drain? || step.Close?)
    ensures Inv(Next(s, step))
  {
    var r := Next(s, step);
    if step.Close? {
      CountedWoken(s.(flag := false, maintainer := Free));
    }
    assert Counted(r) == Counted(s);
  }

  lemma StepKeepsInv(s: System, step: Step)
    requires Inv(s) && Enabled(s, step)
    ensures Inv(Next(s, step))
  {
    match step
    case Enter(t) => EnterKeepsInv(s, t);
    case Mark(t) => MoveKeepsInv(s, t, Inside(1));
    case Nest(t) => MoveKeepsInv(s, t, Inside(Of(s, t).depth + 1));
    case Unnest(t) => MoveKeepsInv(s, t, if Of(s, t).depth > 1 then Inside(Of(s, t).depth - 1) else Leaving);
    case Leave(t) => LeaveKeepsInv(s, t);
    case Announce => MaintainerKeepsInv(s, step);
    case Drain => MaintainerKeepsInv(s, step);
    case Close => MaintainerKeepsInv(s, step);
  }

  lemma {:induction false} RunKeepsInv(s: System, steps: seq<Step>)
    requires Inv(s) && IsRun(s, steps)
    ensures Inv(After(s, steps))
    decreases |steps|
  {
    if steps != [] {
      StepKeepsInv(s, steps[0]);
      RunKeepsInv(Next(s, steps[0]), steps[1..]);
    }
  }

  // ---------------------------------------------------------------- theorems

  ghost predicate Reachable(s: System) {
    exists steps: seq<Step> :: IsRun(INITIAL, steps) && After(INITIAL, steps) == s
  }

  lemma ReachableInv(s: System)
    requires Reachable(s)
    ensures Inv(s)
  {
    var steps: seq<Step> :| IsRun(INITIAL, steps) && After(INITIAL, steps) == s;
    RunKeepsInv(INITIAL, steps);
  }

  lemma {:induction false} Extend(s: System, steps: seq<Step>, step: Step)
    requires IsRun(s, steps) && Enabled(After(s, steps), step)
    ensures IsRun(s, steps + [step]) && After(s, steps + [step]) == Next(After(s, steps), step)
    decreases |steps|
  {
    if steps == [] {
      assert [step][1..] == [];
    } else {
      Extend(Next(s, steps[0]), steps[1..], step);
      assert (steps + [step])[1..] == steps[1..] + [step];
    }
  }

  lemma Proceed(s: System, step: Step)
    requires Reachable(s) && Enabled(s, step)
    ensures Reachable(Next(s, step))
  {
    var steps: seq<Step> :| IsRun(INITIAL, steps) && After(INITIAL, steps) == s;
    Extend(INITIAL, steps, step);
  }

  lemma InitiallyReachable()
    ensures Reachable(INITIAL)
  {
    var none: seq<Step> := [];
    assert IsRun(INITIAL, none) && After(INITIAL, none) == INITIAL;
  }

  /** While the cache is being maintained no thread is inside it, however deeply nested, nor about to be. */
  lemma WindowIsExclusive(s: System, t: ThreadId)
    requires Reachable(s) && s.maintainer.Window?
    ensures !IsCounted(Of(s, t))
  {
    ReachableInv(s);
    assert Counted(s) == {};
    assert t !in Counted(s);
  }

  /** The counter is the number of threads between entering and leaving, each counted once whatever its depth. */
  lemma CounterIsExact(s: System)
    requires Reachable(s)
    ensures s.active == |Counted(s)|
    ensures (forall t :: t in s.threads ==> !s.threads[t].Admitted? && !s.threads[t].Leaving?) ==>
              s.active == |set t | t in s.threads && s.threads[t].Inside? && s.threads[t].depth > 0|
  {
    ReachableInv(s);
    if forall t :: t in s.threads ==> !s.threads[t].Admitted? && !s.threads[t].Leaving? {
      assert Counted(s) == set t | t in s.threads && s.threads[t].Inside? && s.threads[t].depth > 0;
    }
  }

  /** Nobody sleeps without somebody who will notify: threads only while maintenance is on, the maintainer only while threads are inside. */
  lemma NobodySleepsInVain(s: System)
    requires Reachable(s)
    ensures forall t :: Of(s, t) == Waiting(true) ==> !s.maintainer.Free?
    ensures s.maintainer == Draining(true) ==> exists t :: IsCounted(Of(s, t))
  {
    ReachableInv(s);
    if s.maintainer == Draining(true) {
      assert Counted(s) != {};
      var t :| t in Counted(s);
      assert IsCounted(Of(s, t));
    }
  }

  /** Without maintenance a thread is let in at once. */
  lemma FreeCacheAdmits(s: System, t: ThreadId)
    requires Reachable(s) && s.maintainer.Free? && Enabled(s, Enter(t))
    ensures var inside := Next(s, Enter(t));
            && Enabled(inside, Mark(t)) && inside.active == s.active + 1
            && Of(Next(inside, Mark(t)), t) == Inside(1)
  {
    ReachableInv(s);
  }

  /** When maintenance ends, whoever waited can enter, and is let in. */
  lemma ClosedWindowLetsEverybodyIn(s: System, t: ThreadId)
    requires Reachable(s) && s.maintainer.Window? && Of(s, t).Waiting?
    ensures var r := Next(s, Close);
            && !r.flag && r.maintainer.Free? && Enabled(r, Enter(t))
            && Of(Next(r, Enter(t)), t).Admitted? && Next(r, Enter(t)).active == r.active + 1
  {
    ReachableInv(s);
  }

  /** Once maintenance is announced nobody new is let in, and the last one out wakes the maintainer, who may then begin. */
  lemma LastOneOutOpensTheWindow(s: System, t: ThreadId, u: ThreadId)
    requires Reachable(s) && s.maintainer.Draining? && Of(s, t).Leaving? && s.active == 1
    ensures Enabled(s, Enter(u)) ==> !IsCounted(Of(Next(s, Enter(u)), u))
    ensures var r := Next(s, Leave(t));
            Enabled(r, Drain) && Next(r, Drain).maintainer.Window?
  {
    ReachableInv(s);
  }

  /** A thread inside can always nest deeper, even while others have to wait, and coming back it is where it was. */
  lemma NestingIsTransparent(s: System, t: ThreadId)
    requires Reachable(s) && Of(s, t).Inside?
    ensures Enabled(s, Nest(t)) && Enabled(Next(s, Nest(t)), Unnest(t))
    ensures Next(Next(s, Nest(t)), Unnest(t)) == s
  {
    ReachableInv(s);
    var r := Next(s, Nest(t));
    assert r.threads[t := Of(s, t)] == s.threads;
  }

  predicate IsOwn(step: Step, t: ThreadId) {
    (step.Enter? || step.Mark? || step.Nest? || step.Unnest? || step.Leave?) && step.t == t
  }

  lemma OthersLeaveInside(s: System, step: Step, t: ThreadId)
    requires Enabled(s, step) && !IsOwn(step, t) && Of(s, t).Inside?
    ensures Of(Next(s, step), t) == Of(s, t)
  {
  }

  /**
   Whatever the others do, maintenance included, a thread inside keeps its depth, can nest deeper and come
   back, and holds off the window.
   */
  lemma {:induction false} OthersNeverBlockNesting(s: System, steps: seq<Step>, t: ThreadId)
    requires Inv(s) && Of(s, t).Inside? && IsRun(s, steps) && forall i :: 0 <= i < |steps| ==> !IsOwn(steps[i], t)
    ensures var r := After(s, steps);
            && Of(r, t) == Of(s, t) && Enabled(r, Nest(t)) && Enabled(Next(r, Nest(t)), Unnest(t))
            && Of(Next(Next(r, Nest(t)), Unnest(t)), t) == Of(s, t) && !r.maintainer.Window?
    decreases |steps|
  {
    if steps == [] {
      assert t in Counted(s);
    } else {
      OthersLeaveInside(s, steps[0], t);
      StepKeepsInv(s, steps[0]);
      OthersNeverBlockNesting(Next(s, steps[0]), steps[1..], t);
    }
  }

  // ---------------------------------------------------------------- the window comes

  function Distance(t: Thread): nat {
    match t
    case Out => 0
    case Waiting(_) => 0
    case Admitted => 3
    case Inside(d) => d + 1
    case Leaving => 1
  }

  predicate IsExit(step: Step) {
    step.Mark? || step.Unnest? || step.Leave? || step.Drain?
  }

  /** Steps that take one thread out, as long as no other thread comes in. */
  lemma {:induction false} CanLeave(s: System, t: ThreadId) returns (steps: seq<Step>)
    requires Inv(s) && s.flag && !s.maintainer.Window?
    ensures IsRun(s, steps) && forall i :: 0 <= i < |steps| ==> IsExit(steps[i])
    ensures var r := After(s, steps);
            Inv(r) && r.flag && !r.maintainer.Window? && Counted(r) == Counted(s) - {t}
    decreases Distance(Of(s, t))
  {
    if !IsCounted(Of(s, t)) {
      assert Counted(s) - {t} == Counted(s);
      return [];
    }
    var step := match Of(s, t) case Admitted => Mark(t) case Inside(_) => Unnest(t) case _ => Leave(t);
    StepKeepsInv(s, step);
    var r := Next(s, step);
    ExitAdvances(s, t, step);
    var rest := CanLeave(r, t);
    steps := [step] + rest;
    assert steps[1..] == rest;
  }

  lemma ExitAdvances(s: System, t: ThreadId, step: Step)
    requires Inv(s) && Enabled(s, step) && (step == Mark(t) || step == Unnest(t) || step == Leave(t))
    ensures var r := Next(s, step);
            && Distance(Of(r, t)) < Distance(Of(s, t)) && r.flag == s.flag && r.maintainer.Window? == s.maintainer.Window?
            && Counted(r) - {t} == Counted(s) - {t}
  {
  }

  lemma {:induction false} Chain(s: System, first: seq<Step>, second: seq<Step>)
    requires IsRun(s, first) && IsRun(After(s, first), second)
    ensures IsRun(s, first + second) && After(s, first + second) == After(After(s, first), second)
    decreases |first|
  {
    if first == [] {
      assert first + second == second;
    } else {
      Chain(Next(s, first[0]), first[1..], second);
      assert (first + second)[1..] == first[1..] + second;
    }
  }

  lemma {:induction false} CanOpenFrom(s: System) returns (steps: seq<Step>)
    requires Inv(s) && s.flag
    ensures IsRun(s, steps) && After(s, steps).maintainer.Window? && forall i :: 0 <= i < |steps| ==> IsExit(steps[i])
    decreases Counted(s)
  {
    if s.maintainer.Window? {
      return [];
    }
    if Counted(s) == {} {
      steps := [Drain];
      assert steps[1..] == [] && After(s, steps) == Next(s, Drain);
      return;
    }
    var t :| t in Counted(s);
    var first := CanLeave(s, t);
    var second := CanOpenFrom(After(s, first));
    Chain(s, first, second);
    steps := first + second;
  }

  /** Once maintenance is announced its window can always be reached: the threads inside only have to finish. */
  lemma WindowCanAlwaysOpen(s: System)
    requires Reachable(s) && !s.maintainer.Free?
    ensures exists steps: seq<Step> :: IsRun(s, steps) && After(s, steps).maintainer.Window? && forall i :: 0 <= i < |steps| ==> IsExit(steps[i])
  {
    ReachableInv(s);
    var steps := CanOpenFrom(s);
  }
}
