/** Revisions of the table against those of the durable records. */
module ArchiveRevisions {
  import opened Common
  import opened ArchiveProtocol
  import opened ArchiveSafety
  import T = ArchiveTheorems

  /** The disk never runs ahead of the table; it falls behind by failed writes. */
  lemma DiskNeverAhead(s: System, id: TaskId)
    requires T.Reachable(s) && id in s.mem
    ensures id in s.disk && s.disk[id].revision <= s.mem[id].revision
  {
    T.ReachableInv(s);
    var own: map<TaskId, DriverId> :| InvWith(s, own);
    assert IdOk(s, own, id);
  }

  /** The service after a crash, when it has read back one record. */
  function Reread(s: System, id: TaskId): System
    requires id in s.disk
  {
    var t := Recover(s.disk[id]);
    DoCrash(s).(phase := Opening(s.disk.Keys - {id}), mem := map[id := t], disk := s.disk[id := t])
  }

  lemma RereadSteps(s: System, id: TaskId)
    requires id in s.disk
    ensures Next(s, Crash) == DoCrash(s) && Enabled(DoCrash(s), OpenBegin)
    ensures var q := DoCrash(s).(phase := Opening(s.disk.Keys));
            && Next(DoCrash(s), OpenBegin) == q
            && Enabled(q, OpenEntry(id, true, true)) && Next(q, OpenEntry(id, true, true)) == Reread(s, id)
  {
  }

  /**
   From every state of the running service a crash and a reopen show the durable record again, recovered, under
   the revision it had: never a higher one than was shown before, a lower one exactly after failed writes.
   */
  lemma ReopeningReusesRevisions(s: System, id: TaskId)
    requires T.Reachable(s) && s.phase.Up? && id in s.mem
    ensures id in s.disk && T.Reachable(Reread(s, id))
    ensures var t := Reread(s, id).mem[id];
            && t == Recover(s.disk[id]) && t.revision == s.disk[id].revision
            && (t.revision < s.mem[id].revision <==> s.disk[id].revision != s.mem[id].revision)
            && t.revision <= s.mem[id].revision
            && (t.state != s.disk[id].state <==> s.disk[id].state in {Submitting, Downloading})
  {
    DiskNeverAhead(s, id);
    RereadSteps(s, id);
    T.ReachableInv(s);
    var own: map<TaskId, DriverId> :| InvWith(s, own);
    assert IdOk(s, own, id);
    T.RecoveryKeepsTheRevision(s.disk[id]);
    T.ReachableNext(s, Crash, DoCrash(s));
    var q := DoCrash(s).(phase := Opening(s.disk.Keys));
    T.ReachableNext(DoCrash(s), OpenBegin, q);
    T.ReachableNext(q, OpenEntry(id, true, true), Reread(s, id));
  }

  /** One state follows the other, and the same revision stands for two different states of a task. */
  lemma OneRevisionTwoStates() returns (s: System, r: System)
    ensures T.Reachable(s) && T.Reachable(r) && 0 in s.mem && 0 in r.mem
    ensures r.mem[0].revision == s.mem[0].revision && s.mem[0].state == Submitting && r.mem[0].state == CostUnknown
  {
    T.StartIsReachable();
    s := T.OneTask(NEW_TASK, StartInserted, None).(tokens := map[], paid := map[]);
    ReopeningReusesRevisions(s, 0);
    r := Reread(s, 0);
  }
}
