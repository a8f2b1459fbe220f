/**
 The gate of `CacheMaintenance` as an object.  Each method is one section under the condition's lock, or
 one change of a thread's own depth; waiting and waking belong to the condition variable.
 */
module CacheGate {
  import P = CacheMaintenance

  class CacheGate {
    var depths: map<P.ThreadId, P.Thread>
    var activeWorkers: int
    var maintenanceActive: bool
    ghost var maintainer: P.Maintainer

    ghost function View(): P.System
      reads this
    {
      P.System(depths, activeWorkers, maintenanceActive, maintainer)
    }

    /** The state is reachable, so the theorems of `CacheMaintenance` hold of it. */
    ghost predicate Valid()
      reads this
    {
      P.Reachable(View())
    }

    constructor ()
      ensures Valid() && View() == P.INITIAL
    {
      depths, activeWorkers, maintenanceActive, maintainer := map[], 0, false, P.Free;
      new;
      P.InitiallyReachable();
    }

    /** One look at the flag by a thread that is not inside: it is counted, or it waits. */
    method Enter(t: P.ThreadId) returns (entered: bool)
      requires Valid() && P.Enabled(View(), P.Enter(t))
      modifies this
      ensures Valid() && View() == P.Next(old(View()), P.Enter(t)) && entered == !maintenanceActive
    {
      P.Proceed(View(), P.Enter(t));
      entered := !maintenanceActive;
      if entered {
        activeWorkers := activeWorkers + 1;
        depths := depths[t := P.Admitted];
      } else {
        depths := depths[t := P.Waiting(true)];
      }
    }

    /** A thread inside goes one level deeper without a look at anything shared; a counted one becomes the first level. */
    method Deepen(t: P.ThreadId)
      requires Valid() && (P.Enabled(View(), P.Nest(t)) || P.Enabled(View(), P.Mark(t)))
      modifies this`depths
      ensures Valid() && View() == P.Next(old(View()), if P.Of(old(View()), t).Inside? then P.Nest(t) else P.Mark(t))
    {
      P.Proceed(View(), if P.Of(View(), t).Inside? then P.Nest(t) else P.Mark(t));
      depths := depths[t := P.Inside(if depths[t].Inside? then depths[t].depth + 1 else 1)];
    }

    method ComeBack(t: P.ThreadId) returns (outermost: bool)
      requires Valid() && P.Enabled(View(), P.Unnest(t))
      modifies this`depths
      ensures Valid() && View() == P.Next(old(View()), P.Unnest(t)) && outermost == P.Of(View(), t).Leaving?
    {
      P.Proceed(View(), P.Unnest(t));
      var d := depths[t].depth;
      outermost := d <= 1;
      depths := depths[t := if outermost then P.Leaving else P.Inside(d - 1)];
    }

    /** The last one out wakes everybody. */
    method Leave(t: P.ThreadId)
      requires Valid() && P.Enabled(View(), P.Leave(t))
      modifies this
      ensures Valid() && View() == P.Next(old(View()), P.Leave(t))
    {
      P.Proceed(View(), P.Leave(t));
      activeWorkers := activeWorkers - 1;
      depths := depths[t := P.Out];
      if activeWorkers == 0 {
        NotifyAll();
      }
    }

    method NotifyAll()
      modifies this`depths, this`maintainer
      ensures View() == P.NotifyAll(old(View()))
    {
      depths := map t | t in depths :: P.Woken(depths[t]);
      maintainer := if maintainer.Draining? then P.Draining(false) else maintainer;
    }

    method BeginMaintenance()
      requires Valid() && P.Enabled(View(), P.Announce)
      modifies this
      ensures Valid() && View() == P.Next(old(View()), P.Announce)
    {
      P.Proceed(View(), P.Announce);
      maintenanceActive := true;
      maintainer := P.Draining(false);
    }

    /** One look at the counter: the callback may run, or the maintainer waits. */
    method AwaitWorkers() returns (exclusive: bool)
      requires Valid() && P.Enabled(View(), P.Drain)
      modifies this`maintainer
      ensures Valid() && View() == P.Next(old(View()), P.Drain)
      ensures exclusive ==> forall t :: !P.IsCounted(P.Of(View(), t))
      ensures !exclusive ==> exists t :: P.IsCounted(P.Of(View(), t))
    {
      P.Proceed(View(), P.Drain);
      P.ReachableInv(View());
      exclusive := activeWorkers == 0;
      maintainer := if exclusive then P.Window else P.Draining(true);
      ghost var counted := P.Counted(View());
      assert counted == P.Counted(old(View()));
      if exclusive {
        forall t
          ensures !P.IsCounted(P.Of(View(), t))
        {
          assert t !in counted;
        }
      } else {
        ghost var t :| t in counted;
        assert P.IsCounted(P.Of(View(), t));
      }
    }

    /** After the callback, whether or not it failed. */
    method EndMaintenance()
      requires Valid() && P.Enabled(View(), P.Close)
      modifies this
      ensures Valid() && View() == P.Next(old(View()), P.Close)
    {
      P.Proceed(View(), P.Close);
      maintenanceActive := false;
      maintainer := P.Free;
      NotifyAll();
    }
  }
}
