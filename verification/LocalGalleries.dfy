/**
 The completion handler as it runs, and exactly when the promises of `GalleryCommit` hold.
 */
module LocalGalleries {
  import opened Common
  import opened GalleryCommit

  // ---------------------------------------------------------------- one undisturbed commit

  function WithCover(fold: Fold, d: Directory, cover: Option<string>): Directory {
    if cover.Some? then d[fold(cover.value) := Cover] else d
  }

  /** The directory a commit leaves: the archive, then the cover, then the metadata, in that order. */
  function Committed(fold: Fold, i: Info, t: TaskId, zip: Zip, cover: Option<string>): (d: Directory)
    ensures fold(JSON) in d && d[fold(JSON)] == Metadata(t, i.gid, i.token, i.archiveName)
    ensures SafeName(fold, i) && (cover.Some? ==> cover.value in COVERS) ==>
              fold(i.archiveName) in d && d[fold(i.archiveName)] == Archive(zip)
    ensures cover.Some? && fold(cover.value) != fold(JSON) ==> fold(cover.value) in d && d[fold(cover.value)] == Cover
    ensures forall file :: file in d ==> file in {fold(i.archiveName), fold(JSON)} || (cover.Some? && file == fold(cover.value))
  {
    WithCover(fold, map[fold(i.archiveName) := Archive(zip)], cover)[fold(JSON) := Metadata(t, i.gid, i.token, i.archiveName)]
  }

  ghost predicate HasDirectory(fold: Fold, dirs: map<Name, Directory>, t: TaskId) {
    exists n :: n in dirs && CommittedFor(fold, dirs[n], t)
  }

  ghost predicate OneMore(before: map<Name, Directory>, after: map<Name, Directory>, d: Directory) {
    exists name :: name !in before && after == before[name := d]
  }

  /** Of a task's staging directories some may be gone, none is new or changed; other tasks keep theirs. */
  ghost predicate NoNewStaging(before: map<(Name, TaskId), Directory>, after: map<(Name, TaskId), Directory>, t: TaskId) {
    && (forall k :: k in after ==> k in before && after[k] == before[k])
    && (forall k :: k in before && k.1 != t ==> k in after)
  }

  ghost predicate CanCommit(s: System, t: TaskId, name: Name, cover: Option<string>) {
    && t in s.info && t in s.sources && name !in s.dirs && (cover.Some? ==> cover.value in COVERS) && !HasDirectory(s.fold, s.dirs, t)
  }

  /** The state with the staging directory holding the given files. */
  function Staged(s: System, t: TaskId, name: Name, d: Directory, stage: Stage): System {
    s.(hidden := s.hidden[(name, t) := d], pcs := s.pcs[t := Staging(name, stage)])
  }

  function Filled(s: System, t: TaskId, name: Name, d: Directory): System {
    s.(hidden := s.hidden[(name, t) := d])
  }

  function InView(s: System, t: TaskId, name: Name, d: Directory): System {
    s.(dirs := s.dirs[name := d], owner := s.owner[name := t], hidden := s.hidden - {(name, t)}, pcs := s.pcs[t := Renamed(name)])
  }

  /** One step, from one explicitly given state to another. */
  ghost predicate StepsTo(r: System, step: Step, next: System) {
    Enabled(r, step) && Next(r, step) == next
  }

  lemma Continue(s: System, r: System, step: Step, next: System)
    requires Reaches(s, r) && StepsTo(r, step, next)
    ensures Reaches(s, next)
  {
    ReachesNext(s, r, step);
  }

  lemma ScanSteps(s: System, t: TaskId, name: Name)
    requires CanCommit(s, t, name, None) && PcOf(s, t).Idle?
    ensures StepsTo(s, Begin(t), Goto(s, t, Scanning))
    ensures StepsTo(Goto(s, t, Scanning), ScanNothing(t, name), Goto(s, t, Staging(name, Chosen)))
    ensures StepsTo(Goto(s, t, Staging(name, Chosen)), MakeStaging(t), Staged(s, t, name, map[], Made))
  {
    var s1 := Goto(s, t, Scanning);
    assert Goto(s1, t, Staging(name, Chosen)) == Goto(s, t, Staging(name, Chosen));
  }

  lemma CopyStep(s: System, t: TaskId, name: Name, d: Directory)
    requires t in s.info && t in s.sources
    ensures StepsTo(Staged(s, t, name, d, Made), CopyArchive(t),
                    Staged(s, t, name, d[s.fold(s.info[t].archiveName) := Archive(s.sources[t])], Copied))
  {
    assert PcOf(Staged(s, t, name, d, Made), t) == Staging(name, Made);
  }

  lemma DescribeStep(s: System, t: TaskId, name: Name, d: Directory)
    requires t in s.info && t in s.sources
    ensures StepsTo(Staged(s, t, name, d, Covered), Describe(t), Staged(s, t, name, d[s.fold(JSON) := MetadataOf(s, t)], Described))
  {
    assert PcOf(Staged(s, t, name, d, Covered), t) == Staging(name, Covered);
  }

  lemma CoverStep(s: System, t: TaskId, name: Name, d: Directory, cover: Option<string>)
    requires t in s.info && t in s.sources && (cover.Some? ==> cover.value in COVERS)
    ensures StepsTo(Staged(s, t, name, d, Copied), ExtractCover(t, cover), Staged(s, t, name, WithCover(s.fold, d, cover), Covered))
  {
    assert PcOf(Staged(s, t, name, d, Copied), t) == Staging(name, Copied);
  }

  lemma RenameStep(s: System, t: TaskId, name: Name, d: Directory)
    requires t in s.info && t in s.sources && name !in s.dirs
    ensures StepsTo(Staged(s, t, name, d, Described), Rename(t), InView(s, t, name, d))
  {
    var r := Staged(s, t, name, d, Described);
    assert r.hidden - {(name, t)} == s.hidden - {(name, t)};
    assert r.pcs[t := Renamed(name)] == s.pcs[t := Renamed(name)];
  }

  lemma CopiedRun(s0: System, s: System, t: TaskId, name: Name)
    requires Reaches(s0, s) && CanCommit(s, t, name, None) && PcOf(s, t).Idle?
    ensures Reaches(s0, Staged(s, t, name, map[s.fold(s.info[t].archiveName) := Archive(s.sources[t])], Copied))
  {
    var d0: Directory := map[];
    var d1: Directory := map[s.fold(s.info[t].archiveName) := Archive(s.sources[t])];
    ScanSteps(s, t, name);
    Continue(s0, s, Begin(t), Goto(s, t, Scanning));
    Continue(s0, Goto(s, t, Scanning), ScanNothing(t, name), Goto(s, t, Staging(name, Chosen)));
    Continue(s0, Goto(s, t, Staging(name, Chosen)), MakeStaging(t), Staged(s, t, name, d0, Made));
    CopyStep(s, t, name, d0);
    assert d0[s.fold(s.info[t].archiveName) := Archive(s.sources[t])] == d1;
    Continue(s0, Staged(s, t, name, d0, Made), CopyArchive(t), Staged(s, t, name, d1, Copied));
  }

  /** Undisturbed, the handler brings exactly one directory into view and touches nothing else. */
  lemma CommitRun(s0: System, s: System, t: TaskId, name: Name, cover: Option<string>)
    requires Reaches(s0, s) && CanCommit(s, t, name, cover) && PcOf(s, t).Idle?
    ensures Reaches(s0, InView(s, t, name, Committed(s.fold, s.info[t], t, s.sources[t], cover)))
  {
    var d1: Directory := map[s.fold(s.info[t].archiveName) := Archive(s.sources[t])];
    var d2 := WithCover(s.fold, d1, cover);
    var d3 := Committed(s.fold, s.info[t], t, s.sources[t], cover);
    CopiedRun(s0, s, t, name);
    CoverStep(s, t, name, d1, cover);
    Continue(s0, Staged(s, t, name, d1, Copied), ExtractCover(t, cover), Staged(s, t, name, d2, Covered));
    DescribeStep(s, t, name, d2);
    Continue(s0, Staged(s, t, name, d2, Covered), Describe(t), Staged(s, t, name, d3, Described));
    RenameStep(s, t, name, d3);
    Continue(s0, Staged(s, t, name, d3, Described), Rename(t), InView(s, t, name, d3));
  }

  /** Once a directory is in view: the table, the download, the task. */
  function Unlinking(s: System, t: TaskId): System {
    s.(sources := s.sources - {t}, pcs := s.pcs[t := Unlinked])
  }

  lemma UnlinkRun(s0: System, s: System, t: TaskId, name: Name)
    requires Reaches(s0, s) && (PcOf(s, t) == Renamed(name) || PcOf(s, t) == Found(name))
    ensures Reaches(s0, Unlinking(s, t))
  {
    var s1 := Goto(s, t, Indexed(name));
    assert StepsTo(s, Index(t), s1);
    Continue(s0, s, Index(t), s1);
    assert s1.pcs[t := Unlinked] == s.pcs[t := Unlinked];
    assert StepsTo(s1, Unlink(t), Unlinking(s, t));
    Continue(s0, s1, Unlink(t), Unlinking(s, t));
  }

  lemma FoundRun(s: System, t: TaskId, name: Name)
    requires t in s.info && t in s.sources && PcOf(s, t).Idle? && name in s.dirs && CommittedFor(s.fold, s.dirs[name], t)
    ensures Reaches(s, Goto(s, t, Found(name)))
  {
    var s1 := Goto(s, t, Scanning);
    assert s1.pcs[t := Found(name)] == s.pcs[t := Found(name)];
    ReachesSelf(s);
    Continue(s, s, Begin(t), s1);
    Continue(s, s1, ScanFound(t, name), Goto(s, t, Found(name)));
  }

  lemma NoNameRun(s: System, t: TaskId)
    requires t in s.info && t in s.sources && PcOf(s, t).Idle?
    ensures Reaches(s, Goto(s, t, Idle))
  {
    var s1 := Goto(s, t, Scanning);
    assert s1.pcs[t := Idle] == s.pcs[t := Idle];
    ReachesSelf(s);
    Continue(s, s, Begin(t), s1);
    Continue(s, s1, Fail(t), Goto(s, t, Idle));
  }

  /** An unusable archive: the staging directory goes away, with whatever an earlier attempt left in it. */
  function Abandoned(s: System, t: TaskId, name: Name): System {
    s.(hidden := s.hidden - {(name, t)}, pcs := s.pcs[t := Idle])
  }

  lemma AbandonStep(s: System, t: TaskId, name: Name, d: Directory)
    ensures StepsTo(Staged(s, t, name, d, Copied), Fail(t), Abandoned(s, t, name))
  {
    var r := Staged(s, t, name, d, Copied);
    assert r.hidden - {(name, t)} == s.hidden - {(name, t)};
    assert r.pcs[t := Idle] == s.pcs[t := Idle];
  }

  lemma AbandonRun(s0: System, s: System, t: TaskId, name: Name)
    requires Reaches(s0, s) && CanCommit(s, t, name, None) && PcOf(s, t).Idle?
    ensures Reaches(s0, Abandoned(s, t, name))
  {
    var d: Directory := map[s.fold(s.info[t].archiveName) := Archive(s.sources[t])];
    CopiedRun(s0, s, t, name);
    AbandonStep(s, t, name, d);
    Continue(s0, Staged(s, t, name, d, Copied), Fail(t), Abandoned(s, t, name));
  }

  /** Where the handler is stopped by an exception, if it is. */
  datatype Failure = Nowhere | InStaging | BeforeUnlink | AfterUnlink

  function Outcome(s: System, t: TaskId, name: Name, intact: bool, cover: Option<string>): System
    requires t in s.info && t in s.sources
  {
    if intact then InView(s, t, name, Committed(s.fold, s.info[t], t, s.sources[t], cover)) else Abandoned(s, t, name)
  }

  lemma OutcomeRun(s0: System, s: System, t: TaskId, name: Name, intact: bool, cover: Option<string>)
    requires Reaches(s0, s) && CanCommit(s, t, name, cover) && PcOf(s, t).Idle?
    ensures Reaches(s0, Outcome(s, t, name, intact, cover))
  {
    if intact {
      CommitRun(s0, s, t, name, cover);
    } else {
      AbandonRun(s0, s, t, name);
    }
  }

  lemma OutcomeStaging(s: System, t: TaskId, name: Name, intact: bool, cover: Option<string>)
    requires t in s.info && t in s.sources
    ensures NoNewStaging(s.hidden, Outcome(s, t, name, intact, cover).hidden, t)
  {
  }

  /** From a directory in view to the end: the download goes unless something fails before, the task is consumed unless something fails after. */
  function Concluded(s: System, t: TaskId, failure: Failure): System {
    var r := s.(pcs := s.pcs[t := Idle]);
    match failure
    case BeforeUnlink => r
    case AfterUnlink => r.(sources := s.sources - {t})
    case _ => r.(sources := s.sources - {t}, consumed := s.consumed + {t})
  }

  lemma ConcludedRun(s0: System, s: System, t: TaskId, name: Name, failure: Failure)
    requires Reaches(s0, s) && (PcOf(s, t) == Renamed(name) || PcOf(s, t) == Found(name))
    ensures Reaches(s0, Concluded(s, t, failure))
  {
    if failure.BeforeUnlink? {
      assert StepsTo(s, Fail(t), Concluded(s, t, failure));
      Continue(s0, s, Fail(t), Concluded(s, t, failure));
    } else {
      UnlinkRun(s0, s, t, name);
      var q := Unlinking(s, t);
      assert q.pcs[t := Idle] == s.pcs[t := Idle];
      if failure.AfterUnlink? {
        assert StepsTo(q, Fail(t), Concluded(s, t, failure));
        Continue(s0, q, Fail(t), Concluded(s, t, failure));
      } else {
        assert StepsTo(q, Consume(t), Concluded(s, t, failure));
        Continue(s0, q, Consume(t), Concluded(s, t, failure));
      }
    }
  }

  /** A later download of a task whose gallery is committed is removed without a copy of it being made. */
  lemma LaterDownloadIsDropped(s: System, t: TaskId, name: Name)
    requires t in s.info && t in s.sources && PcOf(s, t).Idle? && name in s.dirs && CommittedFor(s.fold, s.dirs[name], t)
    ensures var r := Concluded(Goto(s, t, Found(name)), t, Nowhere);
            && Reaches(s, r) && r.sources == s.sources - {t} && r.dirs == s.dirs && r.hidden == s.hidden && t in r.consumed
  {
    FoundRun(s, t, name);
    ConcludedRun(s, Goto(s, t, Found(name)), t, name, Nowhere);
  }

  /** A task that was downloaded once keeps that very archive. */
  lemma OnlyDownloadIsKept(fold: Fold, info: map<TaskId, Info>, s: System, t: TaskId, zip: Zip)
    requires Reaches(Start(fold, info), s) && t in s.info && SafeName(s.fold, s.info[t]) && Downloaded(s, t) == {zip}
    ensures (t in s.sources && s.sources[t] == zip)
            || exists name :: name in s.dirs && s.fold(s.info[t].archiveName) in s.dirs[name]
                 && s.dirs[name][s.fold(s.info[t].archiveName)] == Archive(zip)
  {
    ReachableInv(fold, info, s);
    DownloadIsNeverLost(fold, info, s, t);
    assert TaskOk(s, t);
    if t !in s.sources {
      var name :| name in s.dirs && Holds(s, s.dirs[name], t);
      assert s.dirs[name][s.fold(s.info[t].archiveName)].zip in {zip};
    }
  }

  // ---------------------------------------------------------------- exactly when

  function Fetched(fold: Fold, info: map<TaskId, Info>, t: TaskId, zip: Zip): System {
    Start(fold, info).(sources := map[t := zip], downloaded := map[t := {zip}])
  }

  lemma FetchedRun(fold: Fold, info: map<TaskId, Info>, t: TaskId, zip: Zip)
    requires t in info
    ensures Reaches(Start(fold, info), Fetched(fold, info, t, zip))
  {
    ReachesSelf(Start(fold, info));
    assert Downloaded(Start(fold, info), t) + {zip} == {zip};
    assert Next(Start(fold, info), Download(t, zip)) == Fetched(fold, info, t, zip);
    assert StepsTo(Start(fold, info), Download(t, zip), Fetched(fold, info, t, zip));
    Continue(Start(fold, info), Start(fold, info), Download(t, zip), Fetched(fold, info, t, zip));
  }

  lemma StepKeepsInfo(s: System, step: Step)
    requires Enabled(s, step)
    ensures Next(s, step).info == s.info && Next(s, step).fold == s.fold
  {
  }

  lemma {:induction false} RunKeepsInfo(s: System, steps: seq<Step>)
    requires IsRun(s, steps)
    ensures After(s, steps).info == s.info && After(s, steps).fold == s.fold
    decreases |steps|
  {
    if steps != [] {
      StepKeepsInfo(s, steps[0]);
      RunKeepsInfo(Next(s, steps[0]), steps[1..]);
    }
  }

  lemma InfoStays(fold: Fold, info: map<TaskId, Info>, s: System)
    requires Reaches(Start(fold, info), s)
    ensures s.info == info && s.fold == fold
  {
    var steps: seq<Step> :| IsRun(Start(fold, info), steps) && After(Start(fold, info), steps) == s;
    RunKeepsInfo(Start(fold, info), steps);
  }

  /** A cover that takes the place of the archive; the metadata does if none can. */
  function CoverOver(fold: Fold, i: Info): (cover: Option<string>)
    ensures cover.Some? ==> cover.value in COVERS && fold(cover.value) == fold(i.archiveName)
    ensures cover.None? && !SafeName(fold, i) ==> fold(i.archiveName) == fold(JSON)
  {
    var name := fold(i.archiveName);
    if name == fold("thumb.jpg") then Some("thumb.jpg")
    else if name == fold("thumb.png") then Some("thumb.png")
    else if name == fold("thumb.webp") then Some("thumb.webp")
    else if name == fold("thumb.gif") then Some("thumb.gif")
    else None
  }

  /** The state after an archive was overwritten by its own cover or metadata and the download removed. */
  function Lost(fold: Fold, info: map<TaskId, Info>, t: TaskId, zip: Zip): System
    requires t in info
  {
    var i := info[t];
    var cover := CoverOver(fold, i);
    Unlinking(InView(Fetched(fold, info, t, zip), t, "gallery", Committed(fold, i, t, zip, cover)), t)
  }

  lemma LostRun(fold: Fold, info: map<TaskId, Info>, t: TaskId, zip: Zip)
    requires t in info && !SafeName(fold, info[t])
    ensures Reaches(Start(fold, info), Lost(fold, info, t, zip))
  {
    var i := info[t];
    var cover := CoverOver(fold, i);
    var s1 := Fetched(fold, info, t, zip);
    FetchedRun(fold, info, t, zip);
    CommitRun(Start(fold, info), s1, t, "gallery", cover);
    UnlinkRun(Start(fold, info), InView(s1, t, "gallery", Committed(fold, i, t, zip, cover)), t, "gallery");
  }

  /** Such a file name leaves no copy of the archive anywhere: not as a download, not in any directory. */
  lemma UnsafeNameLosesTheArchive(fold: Fold, info: map<TaskId, Info>, t: TaskId, zip: Zip)
    requires t in info && !SafeName(fold, info[t])
    ensures Reaches(Start(fold, info), Lost(fold, info, t, zip)) && !Kept(Lost(fold, info, t, zip), t)
    ensures var s := Lost(fold, info, t, zip);
            && Downloaded(s, t) == {zip} && s.sources == map[] && s.hidden == map[]
            && (forall n, file :: n in s.dirs && file in s.dirs[n] ==> !s.dirs[n][file].Archive?)
  {
    LostRun(fold, info, t, zip);
  }

  /** The handler keeps every download of a task exactly when no cover or metadata can be written over the archive. */
  lemma DownloadsAreKeptExactlyWhenSafe(fold: Fold, info: map<TaskId, Info>, t: TaskId)
    requires t in info
    ensures SafeName(fold, info[t]) <==> forall s :: Reaches(Start(fold, info), s) ==> Kept(s, t)
  {
    if SafeName(fold, info[t]) {
      forall s | Reaches(Start(fold, info), s)
        ensures Kept(s, t)
      {
        InfoStays(fold, info, s);
        DownloadIsNeverLost(fold, info, s, t);
      }
    } else {
      UnsafeNameLosesTheArchive(fold, info, t, 0);
    }
  }

  ghost predicate CommittedTwice(s: System, t: TaskId) {
    exists n1, n2 :: n1 in s.owner && n2 in s.owner && s.owner[n1] == t && s.owner[n2] == t && n1 != n2
  }

  /** The handler was stopped right after its directory came into view. */
  function Stopped(fold: Fold, info: map<TaskId, Info>, t: TaskId, zip: Zip): System
    requires t in info
  {
    InView(Fetched(fold, info, t, zip), t, "a", Committed(fold, info[t], t, zip, None)).(pcs := map[])
  }

  lemma StoppedRun(fold: Fold, info: map<TaskId, Info>, t: TaskId, zip: Zip)
    requires t in info
    ensures Reaches(Start(fold, info), Stopped(fold, info, t, zip))
  {
    var s1 := Fetched(fold, info, t, zip);
    FetchedRun(fold, info, t, zip);
    CommitRun(Start(fold, info), s1, t, "a", None);
    var s2 := InView(s1, t, "a", Committed(fold, info[t], t, zip, None));
    assert StepsTo(s2, Crash, Stopped(fold, info, t, zip));
    Continue(Start(fold, info), s2, Crash, Stopped(fold, info, t, zip));
  }

  /** A task without a gallery id or token is not recognised when its handler runs again. */
  lemma UnidentifiedCommitsTwice(fold: Fold, info: map<TaskId, Info>, t: TaskId, zip: Zip)
    requires t in info && !Identified(info[t])
    ensures exists s :: Reaches(Start(fold, info), s) && CommittedTwice(s, t)
  {
    var s := Stopped(fold, info, t, zip);
    StoppedRun(fold, info, t, zip);
    CommitRun(Start(fold, info), s, t, "b", None);
    var r := InView(s, t, "b", Committed(fold, info[t], t, zip, None));
    assert "a" != "b" && r.owner["a"] == t && r.owner["b"] == t;
  }

  /** Replays yield one directory per task exactly when the metadata names a gallery. */
  lemma CommitsAreUniqueExactlyWhenIdentified(fold: Fold, info: map<TaskId, Info>, t: TaskId)
    requires t in info
    ensures Identified(info[t]) <==> forall s :: Reaches(Start(fold, info), s) ==> !CommittedTwice(s, t)
  {
    if Identified(info[t]) {
      forall s | Reaches(Start(fold, info), s)
        ensures !CommittedTwice(s, t)
      {
        InfoStays(fold, info, s);
        ReachableInv(fold, info, s);
      }
    } else {
      UnidentifiedCommitsTwice(fold, info, t, 0);
    }
  }
}
