/** The pump of `ResultPump` as an object; each method is one of its sections under the lock. */
module ImageResultPump {
  import P = ResultPump

  class ImageResultPump {
    var pending: seq<P.Item>
    var running: bool
    ghost var agents: map<P.AgentId, P.Pc>
    ghost var next: P.AgentId
    var alive: bool
    const batchSize: nat
    ghost var enqueued: seq<P.Item>
    ghost var popped: seq<P.Item>
    ghost var failed: bool

    ghost function View(): P.System
      reads this
    {
      P.System(pending, running, agents, next, alive, batchSize, enqueued, popped, failed)
    }

    /** The state is reachable, so the theorems of `ResultPump` hold of it. */
    ghost predicate Valid()
      reads this
    {
      P.Reachable(View())
    }

    constructor (batchSize: int)
      ensures Valid() && View() == P.Initial(if batchSize < 1 then 1 else batchSize)
    {
      pending, running, agents, next, alive := [], false, map[], 0, true;
      this.batchSize := if batchSize < 1 then 1 else batchSize;
      enqueued, popped, failed := [], [], false;
      new;
      P.InitiallyReachable(this.batchSize);
    }

    /** Whether the caller now has to start a worker. */
    method Enqueue(item: P.Item) returns (start: bool)
      requires Valid()
      modifies this
      ensures Valid() && View() == P.Next(old(View()), P.Enqueue(item)) && start == !old(running)
    {
      P.Proceed(View(), P.Enqueue(item));
      pending, enqueued := pending + [item], enqueued + [item];
      start := !running;
      if start {
        running := true;
        agents, next := agents[next := P.Starting], next + 1;
      }
    }

    method PopFront(k: nat) returns (batch: seq<P.Item>)
      requires k <= |pending|
      modifies this`pending
      ensures batch == old(pending)[..k] && pending == old(pending)[k..]
    {
      batch := [];
      var i := 0;
      while i < k
        invariant 0 <= i <= k && k <= |old(pending)| && batch == old(pending)[..i] && pending == old(pending)[i..]
      {
        batch := batch + [pending[0]];
        pending := pending[1..];
        i := i + 1;
      }
    }

    /** Takes up to a batch off the front; an empty batch gives the flag back. */
    method TakeBatch(ghost a: P.AgentId, delayed: bool) returns (batch: seq<P.Item>, leave: bool)
      requires Valid() && P.Enabled(View(), P.Take(a, delayed))
      modifies this
      ensures Valid() && View() == P.Next(old(View()), P.Take(a, delayed))
      ensures popped == old(popped) + batch && batch + pending == old(pending)
      ensures leave <==> !delayed && batch == []
      ensures |batch| <= batchSize && (!delayed && pending != [] ==> |batch| == batchSize) && (delayed ==> batch == [])
    {
      P.ReachableInv(View());
      P.Proceed(View(), P.Take(a, delayed));
      if delayed {
        assert popped + [] == popped && [] + pending == pending;
        return [], false;
      }
      var k := if batchSize < |pending| then batchSize else |pending|;
      leave := k == 0;
      if leave {
        assert popped + [] == popped && [] + pending == pending;
        batch, running := [], false;
        agents := agents[a := P.Ending];
      } else {
        batch := PopFront(k);
        popped := popped + batch;
        agents := agents[a := P.Applying];
      }
    }

    /** The last look at the queue on the way out. */
    method EndRun(ghost a: P.AgentId) returns (restart: bool)
      requires Valid() && P.Enabled(View(), P.End(a))
      modifies this
      ensures Valid() && View() == P.Next(old(View()), P.End(a)) && (restart <==> pending != [] && alive)
    {
      P.Proceed(View(), P.End(a));
      running, restart := false, false;
      if pending != [] && alive {
        running, restart := true, true;
        agents := agents[a := P.Restarting];
      } else {
        agents := agents - {a};
      }
    }

    method StopRun(ghost a: P.AgentId)
      requires Valid() && P.Enabled(View(), P.Stop(a))
      modifies this
      ensures Valid() && View() == P.Next(old(View()), P.Stop(a))
    {
      P.Proceed(View(), P.Stop(a));
      running := false;
      agents := agents - {a};
    }

    /** What a thread does outside the lock: it starts, applies its batch, or refreshes the page. */
    ghost method Advance(step: P.Step)
      requires Valid() && P.Enabled(View(), step) && (step.StartWorker? || step.Apply? || step.Refresh?)
      modifies this`agents, this`failed
      ensures Valid() && View() == P.Next(old(View()), step)
    {
      P.Proceed(View(), step);
      var r := P.Next(View(), step);
      agents, failed := r.agents, r.failed;
    }

    method ClosePage()
      requires Valid()
      modifies this`alive
      ensures Valid() && View() == P.Next(old(View()), P.Close)
    {
      P.Proceed(View(), P.Close);
      alive := false;
    }
  }
}
