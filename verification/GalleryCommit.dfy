/**
 Turning a downloaded archive into a library directory.

 The handler copies the archive into a hidden staging directory, adds cover and metadata, renames the
 directory into view, and only then removes the download.  It may stop at any point and is run again
 for every task that is still completed.  Handlers of different tasks may interleave.
 */
module GalleryCommit {
  import opened Common

  type TaskId = nat
  type Name = string   // a directory, under the name the file system finds it by
  type Zip = int   // the content of an archive

  /** What a task says about its gallery; `archiveName` is the sanitised file name of the download. */
  datatype Info = Info(gid: string, token: string, archiveName: string)

  datatype Content = Archive(zip: Zip) | Cover | Metadata(task: TaskId, gid: string, token: string, archive: string)

  /** How a file system tells names apart: the identity where case matters, a case folding where it does not. */
  type Fold = string -> string

  /** The files of a directory, by folded name. */
  type Directory = map<string, Content>

  const JSON := "gallery.json"

  /** How far the staging directory is. */
  datatype Stage = Chosen | Made | Copied | Covered | Described

  datatype Pc =
    | Idle
    | Scanning               // the download is there; looking for an earlier commit
    | Found(name: Name)      // an earlier commit exists
    | Staging(name: Name, stage: Stage)
    | Renamed(name: Name)    // the directory is in view
    | Indexed(name: Name)    // the library table knows it
    | Unlinked               // the download is removed

  datatype System = System(
    fold: Fold,
    info: map<TaskId, Info>,
    sources: map<TaskId, Zip>,               // `payload.zip` of every task that has one
    downloaded: map<TaskId, set<Zip>>,       // ledger: everything that ever was a task's download
    hidden: map<(Name, TaskId), Directory>,  // staging directories
    dirs: map<Name, Directory>,              // directories whose name does not start with a dot
    owner: map<Name, TaskId>,                // ledger: whose commit created a directory
    pcs: map<TaskId, Pc>,
    consumed: set<TaskId>)

  function Start(fold: Fold, info: map<TaskId, Info>): System {
    System(fold, info, map[], map[], map[], map[], map[], map[], {})
  }

  function PcOf(s: System, t: TaskId): Pc {
    if t in s.pcs then s.pcs[t] else Idle
  }

  function Downloaded(s: System, t: TaskId): set<Zip> {
    if t in s.downloaded then s.downloaded[t] else {}
  }

  /** What `_validate_gallery_metadata` demands. */
  predicate WellFormed(fold: Fold, d: Directory) {
    var json := fold(JSON);
    json in d && d[json].Metadata? && d[json].gid != "" && d[json].token != "" && d[json].archive != "" && fold(d[json].archive) in d
  }

  predicate CommittedFor(fold: Fold, d: Directory, t: TaskId) {
    WellFormed(fold, d) && d[fold(JSON)].task == t
  }

  predicate Broken(fold: Fold, d: Directory) {
    fold(JSON) in d && !WellFormed(fold, d)
  }

  function SetAside(fold: Fold, d: Directory, backup: string): Directory
    requires Broken(fold, d)
  {
    (d - {fold(JSON)})[backup := d[fold(JSON)]]
  }

  datatype Step =
    | Download(t: TaskId, zip: Zip)
    | Begin(t: TaskId)
    | ScanFound(t: TaskId, name: Name)
    | ScanNothing(t: TaskId, name: Name)
    | MakeStaging(t: TaskId)
    | CopyArchive(t: TaskId)
    | ExtractCover(t: TaskId, cover: Option<string>)
    | Describe(t: TaskId)
    | Rename(t: TaskId)
    | Index(t: TaskId)
    | Unlink(t: TaskId)
    | Consume(t: TaskId)
    | Fail(t: TaskId)             // an exception anywhere
    | Crash
    | LibraryScan(name: Name, backup: string)              // a scan sets broken metadata aside,
    | StagingScan(name: Name, t: TaskId, backup: string)   // in hidden directories as well

  const COVERS := {"thumb.jpg", "thumb.png", "thumb.webp", "thumb.gif"}

  predicate AtStage(s: System, t: TaskId, stage: Stage) {
    PcOf(s, t).Staging? && PcOf(s, t).stage == stage && t in s.info && t in s.sources
    && (stage.Chosen? || (PcOf(s, t).name, t) in s.hidden)
  }

  predicate Enabled(s: System, step: Step) {
    match step
    case Download(t, _) => t in s.info && PcOf(s, t).Idle?
    case Begin(t) => t in s.info && PcOf(s, t).Idle?
    case ScanFound(t, name) => PcOf(s, t).Scanning? && name in s.dirs && CommittedFor(s.fold, s.dirs[name], t)
    case ScanNothing(t, name) =>
      PcOf(s, t).Scanning? && name !in s.dirs && forall n :: n in s.dirs ==> !CommittedFor(s.fold, s.dirs[n], t)
    case MakeStaging(t) => AtStage(s, t, Chosen)
    case CopyArchive(t) => AtStage(s, t, Made)
    case ExtractCover(t, cover) => AtStage(s, t, Copied) && (cover.Some? ==> cover.value in COVERS)
    case Describe(t) => AtStage(s, t, Covered)
    case Rename(t) => AtStage(s, t, Described) && PcOf(s, t).name !in s.dirs
    case Index(t) => PcOf(s, t).Renamed? || PcOf(s, t).Found?
    case Unlink(t) => PcOf(s, t).Indexed?
    case Consume(t) => PcOf(s, t).Unlinked?
    case Fail(t) => !PcOf(s, t).Idle?
    case Crash => true
    case LibraryScan(name, backup) =>
      name in s.dirs && Broken(s.fold, s.dirs[name]) && backup !in s.dirs[name]
    case StagingScan(name, t, backup) =>
      (name, t) in s.hidden && Broken(s.fold, s.hidden[(name, t)]) && backup !in s.hidden[(name, t)]
  }

  function Goto(s: System, t: TaskId, pc: Pc): System {
    s.(pcs := s.pcs[t := pc])
  }

  /** Puts one file into the staging directory of a task. */
  function Put(s: System, t: TaskId, file: string, content: Content, stage: Stage): System
    requires PcOf(s, t).Staging? && (PcOf(s, t).name, t) in s.hidden
  {
    var name := PcOf(s, t).name;
    Goto(s.(hidden := s.hidden[(name, t) := s.hidden[(name, t)][file := content]]), t, Staging(name, stage))
  }

  function Next(s: System, step: Step): System
    requires Enabled(s, step)
  {
    match step
    case Download(t, zip) =>
      s.(sources := s.sources[t := zip], downloaded := s.downloaded[t := Downloaded(s, t) + {zip}])
    case Begin(t) => if t in s.sources then Goto(s, t, Scanning) else s
    case ScanFound(t, name) => Goto(s, t, Found(name))
    case ScanNothing(t, name) => Goto(s, t, Staging(name, Chosen))
    case MakeStaging(t) =>
      Goto(s.(hidden := s.hidden[(PcOf(s, t).name, t) := map[]]), t, Staging(PcOf(s, t).name, Made))
    case CopyArchive(t) => Put(s, t, s.fold(s.info[t].archiveName), Archive(s.sources[t]), Copied)
    case ExtractCover(t, cover) =>
      if cover.Some? then Put(s, t, s.fold(cover.value), Cover, Covered) else Goto(s, t, Staging(PcOf(s, t).name, Covered))
    case Describe(t) =>
      Put(s, t, s.fold(JSON), Metadata(t, s.info[t].gid, s.info[t].token, s.info[t].archiveName), Described)
    case Rename(t) =>
      var name := PcOf(s, t).name;
      Goto(s.(dirs := s.dirs[name := s.hidden[(name, t)]], owner := s.owner[name := t], hidden := s.hidden - {(name, t)}),
           t, Renamed(name))
    case Index(t) => Goto(s, t, Indexed(PcOf(s, t).name))
    case Unlink(t) => Goto(s.(sources := s.sources - {t}), t, Unlinked)
    case Consume(t) => Goto(s.(consumed := s.consumed + {t}), t, Idle)
    case Fail(t) =>
      var pc := PcOf(s, t);
      Goto(if pc.Staging? && !pc.stage.Chosen? then s.(hidden := s.hidden - {(pc.name, t)}) else s, t, Idle)
    case Crash => s.(pcs := map[])
    case LibraryScan(name, backup) =>
      s.(dirs := s.dirs[name := SetAside(s.fold, s.dirs[name], backup)])
    case StagingScan(name, t, backup) =>
      s.(hidden := s.hidden[(name, t) := SetAside(s.fold, s.hidden[(name, t)], backup)])
  }

  predicate IsRun(s: System, steps: seq<Step>)
    decreases |steps|
  {
    steps == [] || (Enabled(s, steps[0]) && IsRun(Next(s, steps[0]), steps[1..]))
  }

  function After(s: System, steps: seq<Step>): System
    requires IsRun(s, steps)
    decreases |steps|
  {
    if steps == [] then s else After(Next(s, steps[0]), steps[1..])
  }

  ghost predicate Reaches(s: System, r: System) {
    exists steps: seq<Step> :: IsRun(s, steps) && After(s, steps) == r
  }

  lemma ReachesSelf(s: System)
    ensures Reaches(s, s)
  {
    assert IsRun(s, []) && After(s, []) == s;
  }

  lemma {:induction false} Extend(s: System, steps: seq<Step>, step: Step)
    requires IsRun(s, steps) && Enabled(After(s, steps), step)
    ensures IsRun(s, steps + [step]) && After(s, steps + [step]) == Next(After(s, steps), step)
    decreases |steps|
  {
    if steps == [] {
      assert [step][1..] == [];
    } else {
      Extend(Next(s, steps[0]), steps[1..], step);
      assert (steps + [step])[1..] == steps[1..] + [step];
    }
  }

  lemma ReachesNext(s: System, r: System, step: Step)
    requires Reaches(s, r) && Enabled(r, step)
    ensures Reaches(s, Next(r, step))
  {
    var steps: seq<Step> :| IsRun(s, steps) && After(s, steps) == r;
    Extend(s, steps, step);
  }

  // ---------------------------------------------------------------- invariant

  /** The archive keeps its own file: no cover and no metadata is written over it. */
  predicate SafeName(fold: Fold, i: Info) {
    fold(i.archiveName) != fold(JSON) && forall c :: c in COVERS ==> fold(i.archiveName) != fold(c)
  }

  /** The metadata will name a gallery; the file name is never empty once it is sanitised. */
  predicate Identified(i: Info) {
    i.gid != "" && i.token != "" && i.archiveName != ""
  }

  function MetadataOf(s: System, t: TaskId): Content
    requires t in s.info
  {
    Metadata(t, s.info[t].gid, s.info[t].token, s.info[t].archiveName)
  }

  /** The directory holds a download of its owner under the name its metadata gives. */
  predicate Holds(s: System, d: Directory, t: TaskId) {
    t in s.info && s.fold(s.info[t].archiveName) in d
    && d[s.fold(s.info[t].archiveName)].Archive? && d[s.fold(s.info[t].archiveName)].zip in Downloaded(s, t)
  }

  /** What a finished directory of a task looks like. */
  predicate Finished(s: System, d: Directory, t: TaskId)
    requires t in s.info
  {
    && (s.fold(JSON) in d && d[s.fold(JSON)].Metadata? ==> d[s.fold(JSON)] == MetadataOf(s, t))
    && (SafeName(s.fold, s.info[t]) ==> Holds(s, d, t))
    && (Identified(s.info[t]) ==> CommittedFor(s.fold, d, t))
  }

  predicate DirOk(s: System, name: Name) {
    name in s.dirs ==> name in s.owner && s.owner[name] in s.info && Finished(s, s.dirs[name], s.owner[name])
  }

  predicate StageOk(s: System, t: TaskId, pc: Pc)
    requires pc.Staging?
  {
    && t in s.info && t in s.sources
    && (pc.stage.Chosen? || (pc.name, t) in s.hidden)
    && (pc.stage.Made? ==> s.hidden[(pc.name, t)] == map[])
    && (pc.stage.Copied? || pc.stage.Covered? ==>
          var d := s.hidden[(pc.name, t)];
          && (s.fold(s.info[t].archiveName) in d || s.fold(s.info[t].archiveName) == s.fold(JSON))
          && (SafeName(s.fold, s.info[t]) ==> Holds(s, d, t)))
    && (pc.stage.Described? ==> Finished(s, s.hidden[(pc.name, t)], t))
  }

  predicate Owns(s: System, t: TaskId, name: Name) {
    name in s.dirs && name in s.owner && s.owner[name] == t
  }

  predicate PcOk(s: System, t: TaskId) {
    match PcOf(s, t)
    case Idle => true
    case Scanning => t in s.info && t in s.sources
    case Found(name) => Owns(s, t, name)
    case Staging(_, _) => StageOk(s, t, PcOf(s, t))
    case Renamed(name) => Owns(s, t, name)
    case Indexed(name) => Owns(s, t, name)
    case Unlinked => true
  }

  ghost predicate HasCommit(s: System, t: TaskId) {
    exists name :: name in s.owner && s.owner[name] == t
  }

  ghost predicate TaskOk(s: System, t: TaskId) {
    && (t in s.sources ==> s.sources[t] in Downloaded(s, t))
    && (Downloaded(s, t) != {} ==> t in s.info && (t in s.sources || HasCommit(s, t)))
    && (Regular(s, t) && PcOf(s, t).Staging? ==> !HasCommit(s, t))
    && PcOk(s, t)
  }

  predicate Regular(s: System, t: TaskId) {
    t in s.info && Identified(s.info[t])
  }

  ghost predicate OneCommit(s: System) {
    forall n1, n2 :: n1 in s.owner && n2 in s.owner && s.owner[n1] == s.owner[n2] && Regular(s, s.owner[n1]) ==> n1 == n2
  }

  ghost predicate Inv(s: System) {
    && s.owner.Keys == s.dirs.Keys
    && (forall name: Name :: DirOk(s, name))
    && (forall t: TaskId :: TaskOk(s, t))
    && OneCommit(s)
  }

  // ---------------------------------------------------------------- every step

  lemma DownloadKeepsInv(s: System, t: TaskId, zip: Zip)
    requires Inv(s) && Enabled(s, Download(t, zip))
    ensures Inv(Next(s, Download(t, zip)))
  {
    var r := Next(s, Download(t, zip));
    assert TaskOk(s, t);
    forall n: Name
      ensures DirOk(r, n)
    {
      assert DirOk(s, n);
    }
    forall i: TaskId
      ensures TaskOk(r, i)
    {
      assert TaskOk(s, i);
    }
  }

  /** Moving on without touching a file, to any point but a staging one. */
  lemma GotoKeepsInv(s: System, t: TaskId, pc: Pc)
    requires Inv(s) && !pc.Staging? && PcOk(Goto(s, t, pc), t)
    ensures Inv(Goto(s, t, pc))
  {
    var r := Goto(s, t, pc);
    forall n: Name
      ensures DirOk(r, n)
    {
      assert DirOk(s, n);
    }
    forall i: TaskId
      ensures TaskOk(r, i)
    {
      assert TaskOk(s, i);
    }
  }

  lemma ConsumeKeepsInv(s: System, t: TaskId)
    requires Inv(s) && Enabled(s, Consume(t))
    ensures Inv(Next(s, Consume(t)))
  {
    var r := Next(s, Consume(t));
    forall n: Name
      ensures DirOk(r, n)
    {
      assert DirOk(s, n);
    }
    forall i: TaskId
      ensures TaskOk(r, i)
    {
      assert TaskOk(s, i);
    }
  }

  lemma ProgressKeepsInv(s: System, step: Step)
    requires Inv(s) && Enabled(s, step) && (step.Begin? || step.ScanFound? || step.Index?)
    ensures Inv(Next(s, step))
  {
    assert TaskOk(s, step.t);
    match step
    case Begin(t) =>
      if t in s.sources {
        GotoKeepsInv(s, t, Scanning);
      }
    case ScanFound(t, name) =>
      assert DirOk(s, name);
      GotoKeepsInv(s, t, Found(name));
    case Index(t) => GotoKeepsInv(s, t, Indexed(PcOf(s, t).name));
  }

  lemma CommitsAreFound(s: System, t: TaskId)
    requires Inv(s) && Regular(s, t)
    ensures forall n :: n in s.owner && s.owner[n] == t ==> n in s.dirs && CommittedFor(s.fold, s.dirs[n], t)
  {
    forall n | n in s.owner && s.owner[n] == t
      ensures n in s.dirs && CommittedFor(s.fold, s.dirs[n], t)
    {
      assert DirOk(s, n);
    }
  }

  lemma ScanNothingKeepsInv(s: System, t: TaskId, name: Name)
    requires Inv(s) && Enabled(s, ScanNothing(t, name))
    ensures Inv(Next(s, ScanNothing(t, name)))
  {
    var r := Next(s, ScanNothing(t, name));
    if Regular(s, t) {
      CommitsAreFound(s, t);
    }
    forall n: Name
      ensures DirOk(r, n)
    {
      assert DirOk(s, n);
    }
    forall i: TaskId
      ensures TaskOk(r, i)
    {
      assert TaskOk(s, i);
    }
  }

  lemma MakeStagingKeepsInv(s: System, t: TaskId)
    requires Inv(s) && Enabled(s, MakeStaging(t))
    ensures Inv(Next(s, MakeStaging(t)))
  {
    var r := Next(s, MakeStaging(t));
    assert TaskOk(s, t);
    forall n: Name
      ensures DirOk(r, n)
    {
      assert DirOk(s, n);
    }
    forall i: TaskId
      ensures TaskOk(r, i)
    {
      assert TaskOk(s, i);
    }
  }

  lemma CopyArchiveKeepsInv(s: System, t: TaskId)
    requires Inv(s) && Enabled(s, CopyArchive(t))
    ensures Inv(Next(s, CopyArchive(t)))
  {
    var r := Next(s, CopyArchive(t));
    assert TaskOk(s, t);
    forall n: Name
      ensures DirOk(r, n)
    {
      assert DirOk(s, n);
    }
    forall i: TaskId
      ensures TaskOk(r, i)
    {
      assert TaskOk(s, i);
    }
  }

  lemma ExtractCoverKeepsInv(s: System, t: TaskId, cover: Option<string>)
    requires Inv(s) && Enabled(s, ExtractCover(t, cover))
    ensures Inv(Next(s, ExtractCover(t, cover)))
  {
    var r := Next(s, ExtractCover(t, cover));
    assert TaskOk(s, t);
    forall n: Name
      ensures DirOk(r, n)
    {
      assert DirOk(s, n);
    }
    forall i: TaskId
      ensures TaskOk(r, i)
    {
      assert TaskOk(s, i);
    }
  }

  lemma DescribeKeepsInv(s: System, t: TaskId)
    requires Inv(s) && Enabled(s, Describe(t))
    ensures Inv(Next(s, Describe(t)))
  {
    var r := Next(s, Describe(t));
    assert TaskOk(s, t);
    forall n: Name
      ensures DirOk(r, n)
    {
      assert DirOk(s, n);
    }
    forall i: TaskId
      ensures TaskOk(r, i)
    {
      assert TaskOk(s, i);
    }
  }

  lemma RenameKeepsInv(s: System, t: TaskId)
    requires Inv(s) && Enabled(s, Rename(t))
    ensures Inv(Next(s, Rename(t)))
  {
    var r := Next(s, Rename(t));
    var name := PcOf(s, t).name;
    assert TaskOk(s, t) && DirOk(s, name);
    assert r.owner[name] == t;
    forall i | HasCommit(s, i)
      ensures HasCommit(r, i)
    {
      var n :| n in s.owner && s.owner[n] == i;
      assert n in r.owner && r.owner[n] == i;
    }
    assert HasCommit(r, t);
    forall n: Name
      ensures DirOk(r, n)
    {
      assert DirOk(s, n);
    }
    forall i: TaskId
      ensures TaskOk(r, i)
    {
      assert TaskOk(s, i);
    }
  }

  lemma UnlinkKeepsInv(s: System, t: TaskId)
    requires Inv(s) && Enabled(s, Unlink(t))
    ensures Inv(Next(s, Unlink(t)))
  {
    var r := Next(s, Unlink(t));
    assert TaskOk(s, t);
    forall n: Name
      ensures DirOk(r, n)
    {
      assert DirOk(s, n);
    }
    forall i: TaskId
      ensures TaskOk(r, i)
    {
      assert TaskOk(s, i);
    }
  }

  lemma FailStagingKeepsInv(s: System, t: TaskId)
    requires Inv(s) && Enabled(s, Fail(t)) && PcOf(s, t).Staging? && !PcOf(s, t).stage.Chosen?
    ensures Inv(Next(s, Fail(t)))
  {
    var r := Next(s, Fail(t));
    var name := PcOf(s, t).name;
    assert r == Goto(s.(hidden := s.hidden - {(name, t)}), t, Idle);
    assert TaskOk(s, t);
    forall n: Name
      ensures DirOk(r, n)
    {
      assert DirOk(s, n);
    }
    forall i: TaskId
      ensures TaskOk(r, i)
    {
      assert TaskOk(s, i);
    }
  }

  lemma CrashKeepsInv(s: System)
    requires Inv(s)
    ensures Inv(Next(s, Crash))
  {
    var r := Next(s, Crash);
    forall n: Name
      ensures DirOk(r, n)
    {
      assert DirOk(s, n);
    }
    forall i: TaskId
      ensures TaskOk(r, i)
    {
      assert TaskOk(s, i);
    }
  }

  lemma LibraryScanKeepsInv(s: System, name: Name, backup: string)
    requires Inv(s) && Enabled(s, LibraryScan(name, backup))
    ensures Inv(Next(s, LibraryScan(name, backup)))
  {
    var r := Next(s, LibraryScan(name, backup));
    forall n: Name
      ensures DirOk(r, n)
    {
      assert DirOk(s, n);
    }
    forall i: TaskId
      ensures TaskOk(r, i)
    {
      assert TaskOk(s, i);
    }
  }

  lemma StagingScanKeepsInv(s: System, name: Name, t: TaskId, backup: string)
    requires Inv(s) && Enabled(s, StagingScan(name, t, backup))
    ensures Inv(Next(s, StagingScan(name, t, backup)))
  {
    var r := Next(s, StagingScan(name, t, backup));
    forall n: Name
      ensures DirOk(r, n)
    {
      assert DirOk(s, n);
    }
    forall i: TaskId
      ensures TaskOk(r, i)
    {
      assert TaskOk(s, i);
    }
  }

  lemma StepKeepsInv(s: System, step: Step)
    requires Inv(s) && Enabled(s, step)
    ensures Inv(Next(s, step))
  {
    match step
    case Download(t, zip) => DownloadKeepsInv(s, t, zip);
    case Begin(_) => ProgressKeepsInv(s, step);
    case Index(_) => ProgressKeepsInv(s, step);
    case ScanFound(_, _) => ProgressKeepsInv(s, step);
    case Consume(t) => ConsumeKeepsInv(s, t);
    case ScanNothing(t, name) => ScanNothingKeepsInv(s, t, name);
    case MakeStaging(t) => MakeStagingKeepsInv(s, t);
    case CopyArchive(t) => CopyArchiveKeepsInv(s, t);
    case ExtractCover(t, cover) => ExtractCoverKeepsInv(s, t, cover);
    case Describe(t) => DescribeKeepsInv(s, t);
    case Rename(t) => RenameKeepsInv(s, t);
    case Unlink(t) => UnlinkKeepsInv(s, t);
    case Fail(t) =>
      if PcOf(s, t).Staging? && !PcOf(s, t).stage.Chosen? {
        FailStagingKeepsInv(s, t);
      } else {
        GotoKeepsInv(s, t, Idle);
      }
    case Crash => CrashKeepsInv(s);
    case LibraryScan(name, backup) => LibraryScanKeepsInv(s, name, backup);
    case StagingScan(name, t, backup) => StagingScanKeepsInv(s, name, t, backup);
  }

  lemma {:induction false} RunKeepsInv(s: System, steps: seq<Step>)
    requires Inv(s) && IsRun(s, steps)
    ensures Inv(After(s, steps))
    decreases |steps|
  {
    if steps != [] {
      StepKeepsInv(s, steps[0]);
      RunKeepsInv(Next(s, steps[0]), steps[1..]);
    }
  }

  lemma ReachableInv(fold: Fold, info: map<TaskId, Info>, s: System)
    requires Reaches(Start(fold, info), s)
    ensures Inv(s)
  {
    var steps: seq<Step> :| IsRun(Start(fold, info), steps) && After(Start(fold, info), steps) == s;
    RunKeepsInv(Start(fold, info), steps);
  }

  // ---------------------------------------------------------------- theorems

  /** The task never had a download, or it is still there, or a directory in view holds one. */
  ghost predicate Kept(s: System, t: TaskId) {
    Downloaded(s, t) != {} ==> t in s.sources || exists name :: name in s.dirs && Holds(s, s.dirs[name], t)
  }

  /** At every point of every run the download is there or a directory of that task is. */
  lemma DownloadIsNeverLost(fold: Fold, info: map<TaskId, Info>, s: System, t: TaskId)
    requires Reaches(Start(fold, info), s) && t in s.info && SafeName(s.fold, s.info[t])
    ensures Kept(s, t)
  {
    ReachableInv(fold, info, s);
    assert TaskOk(s, t);
    if Downloaded(s, t) != {} && t !in s.sources {
      var n :| n in s.owner && s.owner[n] == t;
      assert DirOk(s, n);
    }
  }

  /** No matter how often the handler is replayed, a task whose metadata names a gallery has at most one directory in view. */
  lemma AtMostOneCommit(fold: Fold, info: map<TaskId, Info>, s: System, t: TaskId, n1: Name, n2: Name)
    requires Reaches(Start(fold, info), s) && Regular(s, t)
    requires n1 in s.owner && s.owner[n1] == t && n2 in s.owner && s.owner[n2] == t
    ensures n1 == n2 && n1 in s.dirs && CommittedFor(s.fold, s.dirs[n1], t)
  {
    ReachableInv(fold, info, s);
    assert DirOk(s, n1);
  }

  /** A directory in view that has metadata also has the archive the metadata names, for the task it names. */
  lemma ViewedMeansComplete(fold: Fold, info: map<TaskId, Info>, s: System, name: Name)
    requires Reaches(Start(fold, info), s) && name in s.dirs && s.fold(JSON) in s.dirs[name] && s.dirs[name][s.fold(JSON)].Metadata?
    ensures name in s.owner && s.owner[name] in s.info && s.dirs[name][s.fold(JSON)].task == s.owner[name]
    ensures SafeName(s.fold, s.info[s.owner[name]]) ==>
              var d, file := s.dirs[name], s.fold(s.dirs[name][s.fold(JSON)].archive);
              file in d && d[file].Archive? && d[file].zip in Downloaded(s, s.owner[name])
  {
    ReachableInv(fold, info, s);
    assert DirOk(s, name);
  }

  // ---------------------------------------------------------------- what single steps bring about

  /** Metadata that is set aside is out of the way but not lost, and every other file stays. */
  lemma SetAsideKeepsFiles(fold: Fold, d: Directory, backup: string)
    requires Broken(fold, d) && backup !in d
    ensures var r := SetAside(fold, d, backup);
            && !Broken(fold, r) && fold(JSON) !in r && backup in r && r[backup] == d[fold(JSON)]
            && forall file :: file in d && file != fold(JSON) ==> file in r && r[file] == d[file]
  {
  }

  /** A failure leaves downloads, directories in view and records alone; the staging directory it was filling is gone. */
  lemma FailureCleansUp(s: System, t: TaskId)
    requires Enabled(s, Fail(t))
    ensures var r := Next(s, Fail(t));
            && PcOf(r, t).Idle? && r.sources == s.sources && r.dirs == s.dirs && r.consumed == s.consumed
            && (PcOf(s, t).Staging? && !PcOf(s, t).stage.Chosen? ==> (PcOf(s, t).name, t) !in r.hidden)
            && (forall k :: k in s.hidden && k != (if PcOf(s, t).Staging? then PcOf(s, t).name else "", t) ==> k in r.hidden && r.hidden[k] == s.hidden[k])
            && (t in s.info && t in s.sources ==> Enabled(r, Begin(t)) && PcOf(Next(r, Begin(t)), t).Scanning?)
  {
  }

  /** What has come to a directory: everything after the rename, and every task recorded as consumed. */
  ghost predicate Settled(s: System, t: TaskId) {
    PcOf(s, t).Unlinked? || t in s.consumed ==> HasCommit(s, t)
  }

  ghost predicate AllSettled(s: System) {
    forall t: TaskId :: Settled(s, t)
  }

  lemma CommitStays(s: System, step: Step, t: TaskId)
    requires Inv(s) && Enabled(s, step) && HasCommit(s, t)
    ensures HasCommit(Next(s, step), t)
  {
    var name :| name in s.owner && s.owner[name] == t;
    var r := Next(s, step);
    assert name in r.owner && r.owner[name] == t;
  }

  lemma StepKeepsSettled(s: System, step: Step, t: TaskId)
    requires Inv(s) && AllSettled(s) && Enabled(s, step)
    ensures Settled(Next(s, step), t)
  {
    assert TaskOk(s, t) && Settled(s, t);
    if HasCommit(s, t) {
      CommitStays(s, step, t);
    }
  }

  lemma {:induction false} RunKeepsSettled(s: System, steps: seq<Step>)
    requires Inv(s) && AllSettled(s) && IsRun(s, steps)
    ensures AllSettled(After(s, steps))
    decreases |steps|
  {
    if steps != [] {
      var r := Next(s, steps[0]);
      forall t: TaskId
        ensures Settled(r, t)
      {
        StepKeepsSettled(s, steps[0], t);
      }
      StepKeepsInv(s, steps[0]);
      RunKeepsSettled(r, steps[1..]);
    }
  }

  /** A task is recorded as consumed only once a directory of its own is in view. */
  lemma ConsumedMeansCommitted(fold: Fold, info: map<TaskId, Info>, s: System, t: TaskId)
    requires Reaches(Start(fold, info), s) && t in s.consumed
    ensures exists name :: name in s.dirs && name in s.owner && s.owner[name] == t
  {
    var steps: seq<Step> :| IsRun(Start(fold, info), steps) && After(Start(fold, info), steps) == s;
    RunKeepsSettled(Start(fold, info), steps);
    assert Settled(s, t);
    ReachableInv(fold, info, s);
    var name :| name in s.owner && s.owner[name] == t;
    assert name in s.dirs;
  }
}
