/**
 * The runtime CAD loader: a single-flight admission guard in front of an
 * import coroutine, the import timer, the start/end notifications, and the
 * post-load placement of the imported model (union of its renderer bounds,
 * then recentering). The CAD reader itself is an opaque step between
 * `LoadCAD` and `CompleteImport`; the file system and the clock are
 * parameters.
 */
module CadImport {
  import opened Geometry

  datatype Option<T> = None | Some(value: T)

  // ---------------------------------------------------------------------------
  // Level-of-detail settings handed to the importer
  // ---------------------------------------------------------------------------

  /** One LOD descriptor: the quality level (an unchecked enum cast) and the error threshold. */
  datatype LodSettings = LodSettings(quality: int, threshold: real)

  const DefaultLodThreshold: real := 0.01

  /** The single LOD the loader configures: the requested quality, threshold 0.01. */
  function GetDefaultLODSettings(lodQuality: int): (lod: LodSettings)
    ensures lod.quality == lodQuality
    ensures lod.threshold == DefaultLodThreshold
  {
    LodSettings(lodQuality, DefaultLodThreshold)
  }

  /** The one-entry LOD list built at the start of an import. */
  function LodSettingsList(meshQuality: int): (lods: seq<LodSettings>)
    ensures |lods| == 1
    ensures lods[0].quality == meshQuality && lods[0].threshold == DefaultLodThreshold
  {
    [GetDefaultLODSettings(meshQuality)]
  }

  // ---------------------------------------------------------------------------
  // Post-load geometry
  // ---------------------------------------------------------------------------

  /** What `getSize` returns: the default zero box when there is no renderer, else the union. */
  function BoundsOf(renderers: seq<Box>): Box
  {
    if |renderers| == 0 then ZeroBox else Hull(renderers)
  }

  /**
   * `getSize`: walks the renderer bounds once; the first one initialises the
   * accumulator, every later one is encapsulated into it.
   */
  method GetSize(renderers: seq<Box>) returns (bounds: Box)
    ensures bounds == BoundsOf(renderers)
    ensures forall i :: 0 <= i < |renderers| ==> Encloses(bounds, renderers[i])
  {
    var first := true;
    bounds := ZeroBox;
    for i := 0 to |renderers|
      invariant first <==> i == 0
      invariant first ==> bounds == ZeroBox
      invariant !first ==> bounds == Hull(renderers[..i])
    {
      var child := renderers[i];
      if first {
        first := false;
        bounds := child;
        assert renderers[..1] == [child];
      } else {
        assert renderers[..i + 1][..i] == renderers[..i];
        bounds := Encapsulate(bounds, child);
      }
    }
    assert renderers[..|renderers|] == renderers;
  }

  /**
   * The local position given to the imported model: the negated horizontal
   * center of its bounds, and `0.5 - center.y - size.y / 2`, which is 0.5
   * minus the TOP of the bounds. The ensures describe the box value shifted
   * by that offset; they do not claim anything about where the scene object
   * ends up.
   */
  function RecenteredPosition(b: Box): (p: Vec3)
    ensures p.x == -Center(b).x && p.z == -Center(b).z
    ensures p.y == 0.5 - b.max.y
    ensures Center(Translate(b, p)).x == 0.0 && Center(Translate(b, p)).z == 0.0
    ensures Translate(b, p).max.y == 0.5
  {
    var center := Center(b);
    var size := Size(b);
    Vec3(0.0 - center.x, (0.5 - center.y) - size.y / 2.0, 0.0 - center.z)
  }

  /**
   * The placement step after the load: measure the imported model, then
   * compute its new local position.
   */
  method PlaceImportedModel(childRenderers: seq<Box>) returns (localPosition: Vec3)
    ensures localPosition == RecenteredPosition(BoundsOf(childRenderers))
  {
    var tmp := GetSize(childRenderers);
    localPosition := RecenteredPosition(tmp);
  }

  // ---------------------------------------------------------------------------
  // Collaborators, reduced to the state the loader touches
  // ---------------------------------------------------------------------------

  /** A scene node; only its identity matters here. */
  class GameObject {
    constructor () { }
  }

  /** The cooperative scheduler that runs the import coroutine. */
  class CoroutineScheduler {
    var hasCoroutines: bool

    constructor ()
      ensures !hasCoroutines
    {
      hasCoroutines := false;
    }

    method StartCoroutine()
      modifies this
      ensures hasCoroutines
    {
      hasCoroutines := true;
    }

    method StopAllCoroutines()
      modifies this
      ensures !hasCoroutines
    {
      hasCoroutines := false;
    }
  }

  /** The importer object; the loader reads and sets its progress report. */
  class PiXYZLoader {
    var progress: real
    var progressStatus: string

    // The importer's initial report is its own business: nothing is promised.
    constructor ()
    {
      progress := 0.0;
      progressStatus := "";
    }

    method SetProgress(status: string, value: real)
      modifies this
      ensures progressStatus == status && progress == value
    {
      progressStatus := status;
      progress := value;
    }
  }

  // ---------------------------------------------------------------------------
  // The loader's state and its transitions
  // ---------------------------------------------------------------------------

  /** Outcome of the admission check: accepted, or the branch that refused. */
  datatype Admission = Admitted | AlreadyAtWork | RootNotSpecified | BadFilePath

  /**
   * The admission guard. It accepts exactly when no import is running, a
   * scene root is set, and the file name is non-empty and names an existing
   * file; the rules are tried in that order and the first that fails decides.
   * `fileExists` is what the file system answers for `cadFileName`.
   */
  function CheckCADLoader(isImporting: bool, sceneRoot: GameObject?, cadFileName: string,
                          fileExists: bool): (verdict: Admission)
    ensures verdict == Admitted <==>
              !isImporting && sceneRoot != null && |cadFileName| > 0 && fileExists
    ensures isImporting ==> verdict == AlreadyAtWork
    ensures (!isImporting && sceneRoot == null) ==> verdict == RootNotSpecified
    ensures (!isImporting && sceneRoot != null && (|cadFileName| == 0 || !fileExists))
              ==> verdict == BadFilePath
  {
    if isImporting then AlreadyAtWork
    else if sceneRoot == null then RootNotSpecified
    else if |cadFileName| == 0 || !fileExists then BadFilePath
    else Admitted
  }

  /** Mesh quality and source coordinate convention handed to the importer. */
  datatype ImportOptions = ImportOptions(meshQuality: int, scale: real, zUp: bool, rightHanded: bool)

  /** The arguments of one `LoadCAD` call besides the clock and the file system. */
  datatype LoadRequest = LoadRequest(isLastOne: bool, index: int, options: ImportOptions)

  /** The arguments the scheduled import coroutine was started with. */
  datatype ImportArgs = ImportArgs(filePath: string, parent: GameObject, request: LoadRequest)

  /**
   * The loader's fields as a value. `hasLoader` stands for `loader != null`;
   * the two counters say how often each notification has been delivered.
   */
  datatype LoaderState = LoaderState(
    sceneRoot: GameObject?, cadFileName: string,
    startedHandler: bool, endedHandler: bool,
    isImporting: bool, beginTime: real, timing: real,
    activeImport: Option<ImportArgs>, hasLoader: bool,
    startedFired: nat, endedFired: nat)

  /** An import is in flight exactly when the flag is set, and it then owns a loader. */
  predicate Consistent(s: LoaderState)
  {
    (s.isImporting <==> s.activeImport.Some?) && (s.isImporting <==> s.hasLoader)
  }

  /** The fields the loader never writes itself: its inputs and its subscribers. */
  predicate SameSetup(s: LoaderState, t: LoaderState)
  {
    t.sceneRoot == s.sceneRoot && t.cadFileName == s.cadFileName &&
    t.startedHandler == s.startedHandler && t.endedHandler == s.endedHandler
  }

  function AdmissionOf(s: LoaderState, fileExists: bool): Admission
  {
    CheckCADLoader(s.isImporting, s.sceneRoot, s.cadFileName, fileExists)
  }

  /**
   * `LoadCAD`: a refused request changes nothing; in particular nothing
   * changes while an import is running. An accepted one raises the busy
   * flag, restarts the batch timer only for the first file of a batch
   * (`index <= 1`), delivers `ImportStarted` once when subscribed, and
   * schedules the import with a fresh loader.
   */
  function LoadCADState(s: LoaderState, req: LoadRequest, now: real, fileExists: bool): (t: LoaderState)
    ensures AdmissionOf(s, fileExists) != Admitted ==> t == s
    ensures s.isImporting ==> t == s
    ensures AdmissionOf(s, fileExists) == Admitted ==>
      && t.isImporting && t.hasLoader
      && t.beginTime == (if req.index <= 1 then now else s.beginTime)
      && t.timing == s.timing
      && t.startedFired == s.startedFired + (if s.startedHandler then 1 else 0)
      && t.endedFired == s.endedFired
      && t.activeImport.Some? && t.activeImport.value.filePath == s.cadFileName
      && t.activeImport.value.parent == s.sceneRoot && t.activeImport.value.request == req
    ensures SameSetup(s, t)
    ensures Consistent(s) ==> Consistent(t)
  {
    if AdmissionOf(s, fileExists) != Admitted then s else StartImportState(s, req, now)
  }

  /** The accepted path of `LoadCAD`. */
  function StartImportState(s: LoaderState, req: LoadRequest, now: real): LoaderState
    requires s.sceneRoot != null
  {
    s.(isImporting := true,
       beginTime := if req.index <= 1 then now else s.beginTime,
       startedFired := if s.startedHandler then s.startedFired + 1 else s.startedFired,
       activeImport := Some(ImportArgs(s.cadFileName, s.sceneRoot, req)),
       hasLoader := true)
  }

  /**
   * The end of the import coroutine: the busy flag drops, the timing is the
   * time since the batch start, `ImportEnded` is delivered only for the last
   * file of a batch (and only when subscribed), and the loader is dropped.
   */
  function CompleteImportState(s: LoaderState, now: real): (t: LoaderState)
    requires s.activeImport.Some?
    ensures !t.isImporting && !t.hasLoader && Consistent(t)
    ensures t.timing == now - s.beginTime && t.beginTime == s.beginTime
    ensures t.startedFired == s.startedFired
    ensures t.endedFired ==
              s.endedFired + (if s.activeImport.value.request.isLastOne && s.endedHandler then 1 else 0)
    ensures SameSetup(s, t)
  {
    var ended := s.activeImport.value.request.isLastOne && s.endedHandler;
    s.(isImporting := false,
       timing := now - s.beginTime,
       endedFired := if ended then s.endedFired + 1 else s.endedFired,
       activeImport := None,
       hasLoader := false)
  }

  // ---------------------------------------------------------------------------
  // Batches: several files imported one after the other
  // ---------------------------------------------------------------------------

  /**
   * One file of a batch as a caller drives the loader: it sets `cadFileName`,
   * calls `LoadCAD` at `startTime`, and the import completes at `finishTime`.
   * `fileExists` is what the file system answers for `fileName`.
   */
  datatype FileRun = FileRun(fileName: string, fileExists: bool, startTime: real, finishTime: real)

  function ImportFile(s: LoaderState, run: FileRun, index: int, total: int, options: ImportOptions): LoaderState
  {
    var named := s.(cadFileName := run.fileName);
    var loaded := LoadCADState(named, LoadRequest(index == total, index, options), run.startTime, run.fileExists);
    if AdmissionOf(named, run.fileExists) == Admitted then CompleteImportState(loaded, run.finishTime)
    else loaded
  }

  /** Files `next`, `next + 1`, ... of a batch of `total`, each imported to completion. */
  function ImportFrom(s: LoaderState, runs: seq<FileRun>, next: int, total: int, options: ImportOptions): LoaderState
    decreases |runs|
  {
    if runs == [] then s
    else ImportFrom(ImportFile(s, runs[0], next, total, options), runs[1..], next + 1, total, options)
  }

  /** A whole batch: the files get indices 1 .. |runs| and only the last is flagged last. */
  function ImportBatch(s: LoaderState, runs: seq<FileRun>, options: ImportOptions): LoaderState
  {
    ImportFrom(s, runs, 1, |runs|, options)
  }

  /** The loader is idle and can accept the files of `runs`. */
  predicate ReadyFor(s: LoaderState, runs: seq<FileRun>)
  {
    !s.isImporting && Consistent(s) && s.sceneRoot != null &&
    forall k :: 0 <= k < |runs| ==> |runs[k].fileName| > 0 && runs[k].fileExists
  }

  /**
   * The files after the first one keep the batch start time; the last one
   * alone delivers `ImportEnded`.
   */
  lemma {:induction false} ImportFromKeepsBatchStart(s: LoaderState, runs: seq<FileRun>, next: int,
                                                     total: int, options: ImportOptions)
    decreases |runs|
    requires |runs| > 0 && next >= 2 && next + |runs| - 1 == total
    requires ReadyFor(s, runs)
    ensures var t := ImportFrom(s, runs, next, total, options);
      && !t.isImporting && Consistent(t)
      && t.beginTime == s.beginTime
      && t.timing == runs[|runs| - 1].finishTime - s.beginTime
      && t.startedFired == s.startedFired + (if s.startedHandler then |runs| else 0)
      && t.endedFired == s.endedFired + (if s.endedHandler then 1 else 0)
      && t.sceneRoot == s.sceneRoot
      && t.startedHandler == s.startedHandler && t.endedHandler == s.endedHandler
  {
    var u := ImportFile(s, runs[0], next, total, options);
    if |runs| > 1 {
      assert ReadyFor(u, runs[1..]) by {
        forall k | 0 <= k < |runs| - 1
          ensures |runs[1..][k].fileName| > 0 && runs[1..][k].fileExists
        {
          assert runs[1..][k] == runs[k + 1];
        }
      }
      ImportFromKeepsBatchStart(u, runs[1..], next + 1, total, options);
    }
  }

  /**
   * A batch of files imported one after the other on an idle loader: the
   * recorded timing spans the whole batch, from the first file's `LoadCAD`
   * to the last file's completion; `ImportStarted` is delivered once per
   * file and `ImportEnded` once, when subscribed; the loader ends idle.
   */
  lemma {:induction false} BatchTiming(s: LoaderState, runs: seq<FileRun>, options: ImportOptions)
    requires |runs| > 0 && ReadyFor(s, runs)
    ensures var t := ImportBatch(s, runs, options);
      && !t.isImporting && !t.hasLoader
      && t.timing == runs[|runs| - 1].finishTime - runs[0].startTime
      && t.startedFired == s.startedFired + (if s.startedHandler then |runs| else 0)
      && t.endedFired == s.endedFired + (if s.endedHandler then 1 else 0)
  {
    var u := ImportFile(s, runs[0], 1, |runs|, options);
    assert u.beginTime == runs[0].startTime;
    assert ImportBatch(s, runs, options) == ImportFrom(u, runs[1..], 2, |runs|, options);
    if |runs| == 1 {
      assert ImportFrom(u, runs[1..], 2, |runs|, options) == u;
    } else {
      assert ReadyFor(u, runs[1..]) by {
        forall k | 0 <= k < |runs| - 1
          ensures |runs[1..][k].fileName| > 0 && runs[1..][k].fileExists
        {
          assert runs[1..][k] == runs[k + 1];
        }
      }
      ImportFromKeepsBatchStart(u, runs[1..], 2, |runs|, options);
    }
  }

  // ---------------------------------------------------------------------------
  // The loader object
  // ---------------------------------------------------------------------------

  class CADLoader {
    var sceneRoot: GameObject?
    var cadFileName: string
    var coroutineScheduler: CoroutineScheduler?
    var loader: PiXYZLoader?
    /** Whether anybody subscribed to `ImportStarted` / `ImportEnded`. */
    var hasImportStartedHandler: bool
    var hasImportEndedHandler: bool
    var isImporting: bool
    var cadImportBeginTime: real
    var cadImportTiming: real
    /** The running import coroutine, by its arguments; None when there is none. */
    var activeImport: Option<ImportArgs>
    /** How many times each notification has been delivered. */
    ghost var importStartedFired: nat
    ghost var importEndedFired: nat

    ghost function State(): LoaderState
      reads this
    {
      LoaderState(sceneRoot, cadFileName, hasImportStartedHandler, hasImportEndedHandler,
                  isImporting, cadImportBeginTime, cadImportTiming,
                  activeImport, loader != null, importStartedFired, importEndedFired)
    }

    /** The state is consistent, and a running import is scheduled. */
    ghost predicate Valid()
      reads this, coroutineScheduler
    {
      Consistent(State()) &&
      (isImporting ==> coroutineScheduler != null && coroutineScheduler.hasCoroutines)
    }

    constructor (sceneRoot: GameObject?, cadFileName: string,
                 hasImportStartedHandler: bool, hasImportEndedHandler: bool)
      ensures Valid()
      ensures State() == LoaderState(sceneRoot, cadFileName, hasImportStartedHandler,
                                     hasImportEndedHandler, false, 0.0, 0.0, None, false, 0, 0)
      ensures coroutineScheduler == null
    {
      this.sceneRoot := sceneRoot;
      this.cadFileName := cadFileName;
      this.hasImportStartedHandler := hasImportStartedHandler;
      this.hasImportEndedHandler := hasImportEndedHandler;
      coroutineScheduler := null;
      loader := null;
      isImporting := false;
      cadImportBeginTime := 0.0;
      cadImportTiming := 0.0;
      activeImport := None;
      importStartedFired := 0;
      importEndedFired := 0;
    }

    /** The importer's progress fraction, 0 when no import owns a loader. */
    function Progress(): (p: real)
      reads this, loader
      ensures loader == null ==> p == 0.0
      ensures loader != null ==> p == loader.progress
    {
      if loader != null then loader.progress else 0.0
    }

    /** The importer's stage label, empty when no import owns a loader. */
    function ProgressStatus(): (s: string)
      reads this, loader
      ensures loader == null ==> s == ""
      ensures loader != null ==> s == loader.progressStatus
    {
      if loader != null then loader.progressStatus else ""
    }

    /**
     * Requests an import of `cadFileName` under `sceneRoot`; `now` is the
     * clock and `fileExists` what the file system answers for `cadFileName`.
     */
    method LoadCAD(isLastOne: bool, index: int, meshQuality: int, scale: real,
                   zUp: bool, rightHanded: bool, now: real, fileExists: bool)
      requires Valid()
      modifies this
      ensures Valid()
      ensures State() == LoadCADState(old(State()),
                                      LoadRequest(isLastOne, index, ImportOptions(meshQuality, scale, zUp, rightHanded)),
                                      now, fileExists)
      ensures old(AdmissionOf(State(), fileExists)) != Admitted ==> unchanged(this)
      ensures old(AdmissionOf(State(), fileExists)) == Admitted ==> fresh(loader) && fresh(coroutineScheduler)
    {
      if CheckCADLoader(isImporting, sceneRoot, cadFileName, fileExists) != Admitted {
        return;
      }
      StartImport(LoadRequest(isLastOne, index, ImportOptions(meshQuality, scale, zUp, rightHanded)), now);
    }

    /**
     * The accepted path of `LoadCAD`: raise the flag, start the timer for the
     * first file of a batch, notify, and schedule the import.
     */
    method StartImport(request: LoadRequest, now: real)
      requires Valid() && !isImporting && sceneRoot != null
      modifies this
      ensures Valid()
      ensures State() == StartImportState(old(State()), request, now)
      ensures fresh(loader) && fresh(coroutineScheduler)
    {
      var scheduler := new CoroutineScheduler();
      scheduler.StartCoroutine();
      var importer := new PiXYZLoader();

      isImporting := true;
      if request.index <= 1 {
        cadImportBeginTime := now;
      }
      if hasImportStartedHandler {
        importStartedFired := importStartedFired + 1;
      }
      coroutineScheduler := scheduler;
      loader := importer;
      activeImport := Some(ImportArgs(cadFileName, sceneRoot, request));
    }

    /**
     * The tail of the import coroutine, once the importer has finished.
     * `childRenderers` are the bounds of the renderers under the parent's
     * first child; the result is the local position given to the imported
     * model. The importer is marked done, dropped, and the scheduler stopped.
     */
    method CompleteImport(now: real, childRenderers: seq<Box>) returns (localPosition: Vec3)
      requires Valid() && isImporting
      modifies this, loader, coroutineScheduler
      ensures Valid()
      ensures State() == CompleteImportState(old(State()), now)
      ensures localPosition == RecenteredPosition(BoundsOf(childRenderers))
      ensures old(loader).progressStatus == "Done !" && old(loader).progress == 1.0
      ensures coroutineScheduler == old(coroutineScheduler) && !coroutineScheduler.hasCoroutines
      ensures Progress() == 0.0 && ProgressStatus() == ""
    {
      var args := activeImport.value;
      var importer := loader;
      importer.SetProgress("Finalizing...", 0.95);

      isImporting := false;
      cadImportTiming := now - cadImportBeginTime;

      localPosition := PlaceImportedModel(childRenderers);

      if hasImportEndedHandler && args.request.isLastOne {
        importEndedFired := importEndedFired + 1;
      }

      ReleaseImporter();
    }

    /** Marks the importer done, drops it and stops the scheduler. */
    method ReleaseImporter()
      requires loader != null && coroutineScheduler != null
      modifies this, loader, coroutineScheduler
      ensures loader == null && activeImport == None
      ensures old(loader).progressStatus == "Done !" && old(loader).progress == 1.0
      ensures coroutineScheduler == old(coroutineScheduler) && !coroutineScheduler.hasCoroutines
      ensures State() == old(State()).(activeImport := None, hasLoader := false)
    {
      loader.SetProgress("Done !", 1.0);
      coroutineScheduler.StopAllCoroutines();
      loader := null;
      activeImport := None;
    }
  }
}
