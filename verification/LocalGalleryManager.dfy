/**
 The completion handler as a method over directories and tables.  The program counter and the two
 ledgers are ghost; every call is shown to be a run of `GalleryCommit`.
 */
module LocalGalleryManager {
  import opened Common
  import opened GalleryCommit
  import L = LocalGalleries

  /** The directory names the handler tries in turn: the plain one, then the numbered ones. */
  const LAST_NUMBER := 999

  ghost predicate NameLeft(dirs: map<Name, Directory>, base: Name, numbered: nat -> Name) {
    base !in dirs || exists k | 1 <= k <= LAST_NUMBER :: numbered(k) !in dirs
  }

  class LocalGalleryManager {
    const fold: Fold
    const info: map<TaskId, Info>
    var sources: map<TaskId, Zip>
    ghost var downloaded: map<TaskId, set<Zip>>
    var hidden: map<(Name, TaskId), Directory>
    var dirs: map<Name, Directory>
    ghost var owner: map<Name, TaskId>
    ghost var pcs: map<TaskId, Pc>
    var consumed: set<TaskId>

    ghost function View(): System
      reads this
    {
      System(fold, info, sources, downloaded, hidden, dirs, owner, pcs, consumed)
    }

    constructor (fold: Fold, info: map<TaskId, Info>)
      ensures View() == Start(fold, info)
    {
      this.fold := fold;
      this.info := info;
      sources, downloaded, hidden, dirs := map[], map[], map[], map[];
      owner, pcs, consumed := map[], map[], {};
    }

    /** Looks through the directories in view, in whatever order they are listed. */
    method FindCommitted(t: TaskId, entries: seq<Name>) returns (r: Option<Name>)
      requires forall n :: n in entries <==> n in dirs
      ensures r.Some? <==> L.HasDirectory(fold, dirs, t)
      ensures r.Some? ==> r.value in dirs && CommittedFor(fold, dirs[r.value], t)
    {
      var i := 0;
      while i < |entries|
        invariant 0 <= i <= |entries|
        invariant forall j :: 0 <= j < i ==> !CommittedFor(fold, dirs[entries[j]], t)
      {
        assert entries[i] in dirs;
        if CommittedFor(fold, dirs[entries[i]], t) {
          return Some(entries[i]);
        }
        i := i + 1;
      }
      r := None;
    }

    /** The first name not taken. */
    method UniquePath(base: Name, numbered: nat -> Name) returns (r: Option<Name>)
      ensures r.Some? ==> r.value !in dirs
      ensures r.Some? && base in dirs ==>
                exists k | 1 <= k <= LAST_NUMBER :: r.value == numbered(k) && forall j :: 1 <= j < k ==> numbered(j) in dirs
      ensures base !in dirs ==> r == Some(base)
      ensures r.Some? <==> NameLeft(dirs, base, numbered)
    {
      if base !in dirs {
        return Some(base);
      }
      var idx := 1;
      while idx <= LAST_NUMBER
        invariant 1 <= idx <= LAST_NUMBER + 1
        invariant forall j :: 1 <= j < idx ==> numbered(j) in dirs
      {
        if numbered(idx) !in dirs {
          return Some(numbered(idx));
        }
        idx := idx + 1;
      }
      r := None;
    }

    /** A fresh staging directory with the archive in it; whatever an earlier attempt left there is gone. */
    method CopyIntoStaging(t: TaskId, name: Name)
      requires t in info && t in sources
      modifies this`hidden
      ensures View() == L.Filled(old(View()), t, name, map[fold(info[t].archiveName) := Archive(sources[t])])
    {
      var d: Directory := map[];
      hidden := hidden[(name, t) := d];
      hidden := hidden[(name, t) := hidden[(name, t)][fold(info[t].archiveName) := Archive(sources[t])]];
      assert d[fold(info[t].archiveName) := Archive(sources[t])] == map[fold(info[t].archiveName) := Archive(sources[t])];
    }

    method Describe(ghost s: System, t: TaskId, name: Name, cover: Option<string>)
      requires t in info && t in sources && View() == L.Filled(s, t, name, map[fold(info[t].archiveName) := Archive(sources[t])])
      modifies this`hidden
      ensures View() == L.Filled(s, t, name, L.Committed(fold, info[t], t, sources[t], cover))
    {
      if cover.Some? {
        hidden := hidden[(name, t) := hidden[(name, t)][fold(cover.value) := Cover]];
      }
      hidden := hidden[(name, t) := hidden[(name, t)][fold(JSON) := Metadata(t, info[t].gid, info[t].token, info[t].archiveName)]];
    }

    method RemoveStaging(ghost s: System, t: TaskId, name: Name, ghost d: Directory)
      requires View() == L.Filled(s, t, name, d)
      modifies this`hidden, this`pcs
      ensures View() == L.Abandoned(s, t, name)
    {
      hidden := hidden - {(name, t)};
      pcs := pcs[t := Idle];
      assert hidden == s.hidden - {(name, t)};
    }

    method RenameIntoView(ghost s: System, t: TaskId, name: Name, ghost d: Directory)
      requires View() == L.Filled(s, t, name, d)
      modifies this`hidden, this`dirs, this`owner, this`pcs
      ensures View() == L.InView(s, t, name, d)
    {
      dirs := dirs[name := hidden[(name, t)]];
      hidden := hidden - {(name, t)};
      owner, pcs := owner[name := t], pcs[t := Renamed(name)];
      assert hidden == s.hidden - {(name, t)};
    }

    /** Fills a staging directory and renames it into view, or removes it when the archive or its cover is unusable. */
    method Commit(ghost s0: System, t: TaskId, name: Name, intact: bool, cover: Option<string>)
      requires PcOf(View(), t).Idle? && L.CanCommit(View(), t, name, cover) && Reaches(s0, View())
      modifies this`hidden, this`dirs, this`owner, this`pcs
      ensures Reaches(s0, View())
      ensures View() == L.Outcome(old(View()), t, name, intact, cover) && L.NoNewStaging(old(hidden), hidden, t)
    {
      ghost var s := View();
      ghost var d1: Directory := map[fold(info[t].archiveName) := Archive(sources[t])];
      L.OutcomeRun(s0, s, t, name, intact, cover);
      L.OutcomeStaging(s, t, name, intact, cover);
      CopyIntoStaging(t, name);
      if !intact {
        RemoveStaging(s, t, name, d1);
        return;
      }
      Describe(s, t, name, cover);
      RenameIntoView(s, t, name, L.Committed(fold, info[t], t, sources[t], cover));
    }

    /** Removes the download and records the task as consumed, as far as nothing fails. */
    method Finish(ghost s0: System, t: TaskId, ghost name: Name, failure: L.Failure) returns (ok: bool)
      requires Reaches(s0, View()) && (PcOf(View(), t) == Renamed(name) || PcOf(View(), t) == Found(name))
      modifies this`sources, this`consumed, this`pcs
      ensures Reaches(s0, View()) && View() == L.Concluded(old(View()), t, failure)
      ensures ok <==> !failure.BeforeUnlink? && !failure.AfterUnlink?
    {
      L.ConcludedRun(s0, View(), t, name, failure);
      pcs := pcs[t := Idle];
      ok := false;
      if !failure.BeforeUnlink? {
        sources := sources - {t};
        if !failure.AfterUnlink? {
          consumed := consumed + {t};
          ok := true;
        }
      }
    }

    /** The handler comes to a directory in view: an earlier one, or a new one. */
    ghost predicate Commits(t: TaskId, base: Name, numbered: nat -> Name, failure: L.Failure)
      reads this
    {
      t in sources && (L.HasDirectory(fold, dirs, t) || (!failure.InStaging? && NameLeft(dirs, base, numbered)))
    }

    /**
     Consumes a completed download.  It comes to a directory exactly when the download is there and either an
     earlier commit is found, which is kept as it is, or a free name is left and staging does not fail; the
     download goes only after that, and whatever fails is a run of the protocol.
     */
    method HandleDownloadCompleted(t: TaskId, entries: seq<Name>, base: Name, numbered: nat -> Name, failure: L.Failure, cover: Option<string>)
      returns (ok: bool)
      requires t in info && PcOf(View(), t).Idle? && forall n :: n in entries <==> n in dirs
      requires cover.Some? ==> cover.value in COVERS
      modifies this
      ensures Reaches(old(View()), View()) && PcOf(View(), t).Idle?
      ensures ok <==> old(Commits(t, base, numbered, failure)) && !failure.BeforeUnlink? && !failure.AfterUnlink?
      ensures sources == if old(Commits(t, base, numbered, failure)) && !failure.BeforeUnlink? then old(sources) - {t} else old(sources)
      ensures consumed == if ok then old(consumed) + {t} else old(consumed)
      ensures if old(Commits(t, base, numbered, failure)) && !L.HasDirectory(fold, old(dirs), t)
              then t in old(sources) && L.OneMore(old(dirs), dirs, L.Committed(fold, info[t], t, old(sources)[t], cover))
              else dirs == old(dirs)
      ensures L.NoNewStaging(old(hidden), hidden, t)
    {
      if t !in sources {
        ReachesSelf(View());
        return false;
      }
      var earlier := FindCommitted(t, entries);
      if earlier.Some? {
        ok := ConsumeEarlier(t, earlier.value, failure);
        return;
      }
      ok := ArchiveNew(t, base, numbered, failure, cover);
    }

    /** The commit of an earlier attempt stays as it is. */
    method ConsumeEarlier(t: TaskId, name: Name, failure: L.Failure) returns (ok: bool)
      requires t in info && t in sources && PcOf(View(), t).Idle? && name in dirs && CommittedFor(fold, dirs[name], t)
      modifies this`sources, this`consumed, this`pcs
      ensures Reaches(old(View()), View()) && PcOf(View(), t).Idle?
      ensures ok <==> !failure.BeforeUnlink? && !failure.AfterUnlink?
      ensures sources == if failure.BeforeUnlink? then old(sources) else old(sources) - {t}
      ensures consumed == if ok then old(consumed) + {t} else old(consumed)
    {
      ghost var s0 := View();
      L.FoundRun(s0, t, name);
      pcs := pcs[t := Found(name)];
      ok := Finish(s0, t, name, failure);
    }

    method ArchiveNew(t: TaskId, base: Name, numbered: nat -> Name, failure: L.Failure, cover: Option<string>) returns (ok: bool)
      requires t in info && t in sources && PcOf(View(), t).Idle? && !L.HasDirectory(fold, dirs, t)
      requires cover.Some? ==> cover.value in COVERS
      modifies this
      ensures Reaches(old(View()), View()) && PcOf(View(), t).Idle?
      ensures ok <==> failure.Nowhere? && NameLeft(old(dirs), base, numbered)
      ensures consumed == if ok then old(consumed) + {t} else old(consumed)
      ensures !failure.InStaging? && NameLeft(old(dirs), base, numbered) ==>
                && L.OneMore(old(dirs), dirs, L.Committed(fold, info[t], t, old(sources)[t], cover))
                && sources == if failure.BeforeUnlink? then old(sources) else old(sources) - {t}
      ensures failure.InStaging? || !NameLeft(old(dirs), base, numbered) ==> sources == old(sources) && dirs == old(dirs)
      ensures L.NoNewStaging(old(hidden), hidden, t)
    {
      ghost var s0 := View();
      ReachesSelf(s0);
      var name := UniquePath(base, numbered);
      if name.None? {
        L.NoNameRun(s0, t);
        pcs := pcs[t := Idle];
        return false;
      }
      Commit(s0, t, name.value, !failure.InStaging?, cover);
      ok := false;
      if !failure.InStaging? {
        ok := Finish(s0, t, name.value, failure);
      }
    }
  }
}
