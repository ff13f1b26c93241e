/**
 * The background worker (`worker.py`, class `BackgroundWorker`): a Blender
 * process that loads the queue manifest, counts the frames to render, walks
 * the jobs in order, applies each job's overrides to its scene, renders it
 * and writes a status snapshot after every event.
 *
 * What the worker cannot decide itself is passed in:
 *   - the manifest file, as the parsed content at the manifest path;
 *   - each job's render, as the frames Blender renders (with, per frame,
 *     whether the pause file was present, the whole seconds elapsed since the
 *     batch started and the outcome of saving the preview) and the error the
 *     render raised, if any;
 *   - the directory of the open `.blend` file, for `//` paths;
 *   - whether the process has a window (`bpy.context.window` is not `None`);
 *     one started with `-b`, as the packaged add-on starts it, has none.
 * The status file is modelled as the sequence of snapshots written to it.
 */
module Worker {
  import opened Wrappers
  import opened Strings
  import opened Blender
  import opened Manifest
  import opened WorkerStatus
  import VersionCompat

  const PREVIEW_FILE: string := ".rendercue_preview.jpg"
  const DEFAULT_OUTPUT: string := "//"
  const DEFAULT_STRUCTURE: string := "SEPARATE"
  const CALCULATING: string := "Calculating..."

  /** The preview image sits next to the status file. */
  function PreviewPath(statusPath: string): string {
    PathJoin(Dirname(statusPath), PREVIEW_FILE)
  }

  /** What opening a path yields: its content, or `None` when it does not exist. */
  function Read(files: map<string, Content>, path: string): Option<Content> {
    if path in files then Some(files[path]) else None
  }

  // ------------------------------------------------------------ oracles

  /**
   * Saving the preview after a frame: there was no `Render Result` image, it
   * was saved, or `save_render` raised after the scene's file format had
   * been switched to JPEG.
   */
  datatype Preview = NoRenderResult | PreviewSaved | PreviewFailed

  /**
   * One rendered frame. `pause` is `None` when the pause file was absent as
   * the frame started, and otherwise the number of one-second sleeps until
   * it disappeared.
   */
  datatype FrameEvent = FrameEvent(pause: Option<nat>, frame: int, elapsed: nat, preview: Preview)

  /** One `bpy.ops.render.render` call: the frames it rendered, then the error it raised, if any. */
  datatype RenderRun = RenderRun(frames: seq<FrameEvent>, failure: Option<string>)

  /**
   * How `run` ends: the manifest did not load, all jobs were walked, a
   * render raised, or an uncaught exception (a missing key, a non-object
   * job entry) ended the process.
   */
  datatype Outcome = NoManifest | Completed | RenderFailed(message: string) | Crashed

  // ------------------------------------------------------ worker state

  /** The worker's counters, Blender's scenes and the status file's history. */
  datatype View = View(
    currentJobIndex: nat,
    totalJobs: nat,
    totalFrames: int,
    finishedFrames: nat,
    scenes: seq<Scene>,
    log: seq<Status>
  )

  /** `log_status`: a whole snapshot of the counters, with a 1-based job index. */
  function Snapshot(v: View, message: string, etr: string, finished: bool,
                    error: StatusError, lastFrame: string): Status
  {
    Status(v.currentJobIndex + 1, v.totalJobs, message, etr, finished, error,
           v.finishedFrames, v.totalFrames, lastFrame)
  }

  function Logged(v: View, message: string, etr: string, finished: bool,
                  error: StatusError, lastFrame: string): View
  {
    v.(log := v.log + [Snapshot(v, message, etr, finished, error, lastFrame)])
  }

  // ------------------------------------------------------ frame counting

  /** `scene_name and scene_name in bpy.data.scenes`. */
  predicate Counted(f: NameField, scenes: seq<Scene>) {
    f.Name? && f.name != "" && HasScene(scenes, f.name)
  }

  /**
   * One job's share of `total_frames_to_render`. `None` is an uncaught
   * exception: `.get` on an entry that is not an object, or the frame keys
   * missing while the range override is on. A counted job adds the length of
   * its range: the job's own frames when the override is on, and otherwise
   * its recorded frames with the scene's as the fallback.
   */
  function JobFrames(e: JobEntry, scenes: seq<Scene>): (r: Option<int>)
    ensures e.JobNotObject? ==> r.None?
    ensures e.JobObject? && !Counted(e.rec.sceneName, scenes) ==> r == Some(0)
    ensures e.JobObject? && Counted(e.rec.sceneName, scenes) ==>
      var rec := e.rec;
      var sc := scenes[FindScene(scenes, rec.sceneName.name).value];
      && (r.None? <==> Truthy(rec.overrideFrameRange) && (rec.frameStart.None? || rec.frameEnd.None?))
      && (Truthy(rec.overrideFrameRange) && r.Some? ==> r == Some(rec.frameEnd.value - rec.frameStart.value + 1))
      && (!Truthy(rec.overrideFrameRange) ==>
            r == Some(rec.frameEnd.GetOr(sc.frameEnd) - rec.frameStart.GetOr(sc.frameStart) + 1))
  {
    match e
    case JobNotObject => None
    case JobObject(rec) =>
      if !Counted(rec.sceneName, scenes) then Some(0)
      else
        var scene := scenes[FindScene(scenes, rec.sceneName.name).value];
        if Truthy(rec.overrideFrameRange) && (rec.frameStart.None? || rec.frameEnd.None?) then None
        else Some(rec.frameEnd.GetOr(scene.frameEnd) - rec.frameStart.GetOr(scene.frameStart) + 1)
  }

  /** A running total, and whether no exception interrupted it. */
  datatype Tally = Tally(total: int, ok: bool)

  /** The total after the first `n` jobs; the first exception stops the count. */
  function CountFrames(jobs: seq<JobEntry>, scenes: seq<Scene>, n: nat): Tally
    requires n <= |jobs|
  {
    if n == 0 then Tally(0, true)
    else
      var t := CountFrames(jobs, scenes, n - 1);
      if !t.ok then t
      else match JobFrames(jobs[n - 1], scenes)
        case None => Tally(t.total, false)
        case Some(c) => Tally(t.total + c, true)
  }

  /** The count is interrupted exactly when some job's share raises. */
  lemma {:induction false} CountFramesOk(jobs: seq<JobEntry>, scenes: seq<Scene>, n: nat)
    requires n <= |jobs|
    ensures CountFrames(jobs, scenes, n).ok <==> forall i :: 0 <= i < n ==> JobFrames(jobs[i], scenes).Some?
  {
    if n > 0 {
      CountFramesOk(jobs, scenes, n - 1);
    }
  }

  /** Once the count is interrupted, later jobs change nothing. */
  lemma {:induction false} CountFramesStops(jobs: seq<JobEntry>, scenes: seq<Scene>, k: nat, n: nat)
    requires k <= n <= |jobs| && !CountFrames(jobs, scenes, k).ok
    ensures CountFrames(jobs, scenes, n) == CountFrames(jobs, scenes, k)
    decreases n - k
  {
    if k < n {
      CountFramesStops(jobs, scenes, k, n - 1);
    }
  }

  /**
   * The frame keys of a job are counted even when its range override is
   * off, while rendering then uses the scene's own range: whenever the
   * recorded range differs in length from the scene's, the pre-count differs
   * from the frames the job renders.
   */
  lemma CountIgnoresOverrideFlag(rec: JobRecord, scenes: seq<Scene>, name: string, k: nat)
    requires FindScene(scenes, name) == Some(k) && name != ""
    requires rec.sceneName == Name(name) && !Truthy(rec.overrideFrameRange)
    requires rec.frameStart.Some? && rec.frameEnd.Some?
    requires rec.frameEnd.value - rec.frameStart.value != scenes[k].frameEnd - scenes[k].frameStart
    ensures JobFrames(JobObject(rec), scenes) == Some(rec.frameEnd.value - rec.frameStart.value + 1)
    ensures JobFrames(JobObject(rec), scenes) != Some(scenes[k].frameEnd - scenes[k].frameStart + 1)
  {
    assert Counted(rec.sceneName, scenes);
  }

  // ------------------------------------------------------ render handlers

  /** `on_render_pre`: with the pause file present, "Paused" before waiting and "Resuming..." after. */
  function Paused(v: View, pause: Option<nat>): View {
    match pause
    case None => v
    case Some(_) =>
      Logged(Logged(v, "Paused", "Paused", false, NoError, ""),
             "Resuming...", CALCULATING, false, NoError, "")
  }

  function RenderingMessage(jobIndex: nat, totalJobs: nat, sceneName: string, frame: int): string {
    "Rendering " + IntToString(jobIndex + 1) + "/" + IntToString(totalJobs) + ": "
      + sceneName + " (Frame " + IntToString(frame) + ")"
  }

  /**
   * `on_render_post` for scene `k`: one more finished frame, a new estimate,
   * and the preview path when the preview was saved. A failed save leaves
   * the scene's file format at JPEG.
   */
  function Posted(v: View, k: nat, ev: FrameEvent, statusPath: string): View
    requires k < |v.scenes|
  {
    var v1 := v.(finishedFrames := v.finishedFrames + 1);
    var scene := v.scenes[k];
    var scenes := if ev.preview == PreviewFailed then SetScene(v.scenes, k, scene.(fileFormat := "JPEG")) else v.scenes;
    var path := if ev.preview == PreviewSaved then PreviewPath(statusPath) else "";
    Logged(v1.(scenes := scenes),
           RenderingMessage(v.currentJobIndex, v.totalJobs, scene.name, ev.frame),
           Etr(v1.finishedFrames, v1.totalFrames, ev.elapsed), false, NoError, path)
  }

  /** The handlers Blender calls for each rendered frame of scene `k`, in order. */
  function Rendered(v: View, k: nat, frames: seq<FrameEvent>, statusPath: string): (w: View)
    requires k < |v.scenes|
    ensures |w.scenes| == |v.scenes|
    decreases |frames|
  {
    if frames == [] then v
    else
      var u := Rendered(v, k, frames[..|frames| - 1], statusPath);
      var ev := frames[|frames| - 1];
      Posted(Paused(u, ev.pause), k, ev, statusPath)
  }

  /** Rendering one frame more than a prefix: the handlers of that frame after the prefix's. */
  lemma RenderedSnoc(v: View, k: nat, frames: seq<FrameEvent>, f: nat, statusPath: string)
    requires k < |v.scenes| && f < |frames|
    ensures Rendered(v, k, frames[..f + 1], statusPath)
      == Posted(Paused(Rendered(v, k, frames[..f], statusPath), frames[f].pause), k, frames[f], statusPath)
  {
    assert frames[..f + 1][..f] == frames[..f];
  }

  /** Every rendered frame adds exactly one to the finished count; the job index stays. */
  lemma {:induction false} RenderedCountsFrames(v: View, k: nat, frames: seq<FrameEvent>, statusPath: string)
    requires k < |v.scenes|
    ensures var w := Rendered(v, k, frames, statusPath);
      w.finishedFrames == v.finishedFrames + |frames|
      && w.currentJobIndex == v.currentJobIndex && w.totalJobs == v.totalJobs
      && w.totalFrames == v.totalFrames
    decreases |frames|
  {
    if frames != [] {
      RenderedCountsFrames(v, k, frames[..|frames| - 1], statusPath);
    }
  }

  // ------------------------------------------------- per-job configuration

  /** `bpy.path.abspath` of a `//`-relative path. */
  function Abspath(p: string, blendDir: string): string
    requires StartsWith(p, "//")
  {
    PathJoin(blendDir, p[2..])
  }

  /** The base output path: the job's own when `override_output` is set, else the global one. */
  function BasePath(rec: JobRecord, globalOutput: string): Option<string> {
    match rec.overrideOutput
    case None => None
    case Some(b) => if b then rec.outputPath else Some(globalOutput)
  }

  /** The output directory; SEPARATE adds a directory named after the scene. */
  function OutputDir(base: string, structure: string, sceneName: string, blendDir: string): string {
    var b := if StartsWith(base, "//") then Abspath(base, blendDir) else base;
    if structure == "SEPARATE" then PathJoin(b, sceneName) else b
  }

  /** What follows the file stem: a movie extension, or `_` before Blender's frame number. */
  function StemSuffix(format: string): string {
    if format == "FFMPEG" then ".mp4"
    else if format == "AVI_JPEG" || format == "AVI_RAW" then ".avi"
    else "_"
  }

  /** The scene name with spaces replaced by underscores. */
  function FileStem(sceneName: string): (r: string)
    ensures |r| == |sceneName| && ' ' !in r
  {
    ReplaceChar(sceneName, ' ', '_')
  }

  function OutputFile(dir: string, sceneName: string, format: string): string {
    PathJoin(dir, FileStem(sceneName) + StemSuffix(format))
  }

  /** The format that decides the file name: the job's when `override_format` is set, else the scene's. */
  function ChosenFormat(rec: JobRecord, scene: Scene): Option<string> {
    match rec.overrideFormat
    case None => None
    case Some(b) => if b then rec.renderFormat else Some(scene.fileFormat)
  }

  /**
   * `override_frame_range`: on, the scene takes the job's range; off, the
   * scene is kept. A key read with `[...]` raises when it is missing.
   */
  function WithFrameRange(sc: Scene, rec: JobRecord): (r: Option<Scene>)
    ensures r.None? <==> rec.overrideFrameRange.None?
                         || (Truthy(rec.overrideFrameRange) && (rec.frameStart.None? || rec.frameEnd.None?))
    ensures r.Some? && Truthy(rec.overrideFrameRange) ==>
      r.value == sc.(frameStart := rec.frameStart.value, frameEnd := rec.frameEnd.value)
    ensures r.Some? && !Truthy(rec.overrideFrameRange) ==> r.value == sc
  {
    match rec.overrideFrameRange
    case None => None
    case Some(b) =>
      if !b then Some(sc)
      else if rec.frameStart.None? || rec.frameEnd.None? then None
      else Some(sc.(frameStart := rec.frameStart.value, frameEnd := rec.frameEnd.value))
  }

  /** `override_engine` (read with `.get`): the scene takes the job's engine. */
  function WithEngine(sc: Scene, rec: JobRecord): (r: Option<Scene>)
    ensures r.None? <==> Truthy(rec.overrideEngine) && rec.renderEngine.None?
    ensures r.Some? && Truthy(rec.overrideEngine) ==> r.value == sc.(engine := rec.renderEngine.value)
    ensures !Truthy(rec.overrideEngine) ==> r == Some(sc)
  {
    if !Truthy(rec.overrideEngine) then Some(sc)
    else match rec.renderEngine
      case None => None
      case Some(e) => Some(sc.(engine := e))
  }

  /** Every view layer is used exactly when its name is `name`. */
  function UseOnly(layers: seq<ViewLayer>, name: string): (r: seq<ViewLayer>)
    ensures |r| == |layers|
    ensures forall i :: 0 <= i < |layers| ==> r[i] == ViewLayer(layers[i].name, layers[i].name == name)
  {
    seq(|layers|, i requires 0 <= i < |layers| => ViewLayer(layers[i].name, layers[i].name == name))
  }

  /** The view-layer override is on and names a layer of the scene. */
  predicate LayerChosen(sc: Scene, rec: JobRecord) {
    Truthy(rec.overrideViewLayer) && rec.viewLayer.Some? && rec.viewLayer.value != ""
    && rec.viewLayer.value in LayerNames(sc.viewLayers)
  }

  /**
   * `override_view_layer` (read with `.get`): only the named layer is used
   * when the scene has it; a name the scene lacks changes nothing.
   */
  function WithViewLayer(sc: Scene, rec: JobRecord): (r: Option<Scene>)
    ensures r.None? <==> Truthy(rec.overrideViewLayer) && rec.viewLayer.None?
    ensures LayerChosen(sc, rec) ==> r == Some(sc.(viewLayers := UseOnly(sc.viewLayers, rec.viewLayer.value)))
    ensures r.Some? && !LayerChosen(sc, rec) ==> r.value == sc
  {
    if !Truthy(rec.overrideViewLayer) then Some(sc)
    else match rec.viewLayer
      case None => None
      case Some(n) =>
        if n != "" && n in LayerNames(sc.viewLayers) then Some(sc.(viewLayers := UseOnly(sc.viewLayers, n)))
        else Some(sc)
  }

  /** `override_resolution`: the scene takes the job's percentage. */
  function WithResolution(sc: Scene, rec: JobRecord): (r: Option<Scene>)
    ensures r.None? <==> rec.overrideResolution.None?
                         || (Truthy(rec.overrideResolution) && rec.resolutionScale.None?)
    ensures r.Some? && Truthy(rec.overrideResolution) ==>
      r.value == sc.(resolutionPercentage := rec.resolutionScale.value)
    ensures r.Some? && !Truthy(rec.overrideResolution) ==> r.value == sc
  {
    match rec.overrideResolution
    case None => None
    case Some(b) =>
      if !b then Some(sc)
      else match rec.resolutionScale
        case None => None
        case Some(p) => Some(sc.(resolutionPercentage := p))
  }

  /** `override_format`: the scene takes the job's file format. */
  function WithFormat(sc: Scene, rec: JobRecord): (r: Option<Scene>)
    ensures r.None? <==> rec.overrideFormat.None? || (Truthy(rec.overrideFormat) && rec.renderFormat.None?)
    ensures r.Some? && Truthy(rec.overrideFormat) ==> r.value == sc.(fileFormat := rec.renderFormat.value)
    ensures r.Some? && !Truthy(rec.overrideFormat) ==> r.value == sc
  {
    match rec.overrideFormat
    case None => None
    case Some(b) =>
      if !b then Some(sc)
      else match rec.renderFormat
        case None => None
        case Some(f) => Some(sc.(fileFormat := f))
  }

  predicate IsEevee(engine: string) {
    engine == "BLENDER_EEVEE" || engine == "BLENDER_EEVEE_NEXT"
  }

  /** The sample override applies to the scene's engine: Cycles or Eevee. */
  predicate SamplesApply(sc: Scene, rec: JobRecord) {
    Truthy(rec.overrideSamples) && (sc.engine == "CYCLES" || IsEevee(sc.engine))
  }

  /**
   * The sample override goes to Cycles, or to whichever Eevee attribute the
   * running build has (none: nothing changes), as `set_eevee_samples` does;
   * other engines are left alone. `job["samples"]` is read before the
   * attribute, so a missing key raises `KeyError` for Eevee as well.
   */
  function WithSamples(sc: Scene, rec: JobRecord): (r: Option<Scene>)
    ensures r.None? <==> rec.overrideSamples.None? || (SamplesApply(sc, rec) && rec.samples.None?)
    ensures r.Some? && SamplesApply(sc, rec) && sc.engine == "CYCLES" ==>
      r.value == sc.(cyclesSamples := rec.samples.value)
    ensures r.Some? && SamplesApply(sc, rec) && IsEevee(sc.engine) ==>
      r.value == sc.(eevee := VersionCompat.SetEeveeSamples(sc.eevee, rec.samples.value).0)
    ensures r.Some? && !SamplesApply(sc, rec) ==> r.value == sc
  {
    match rec.overrideSamples
    case None => None
    case Some(b) =>
      if !b then Some(sc)
      else if sc.engine == "CYCLES" then
        match rec.samples
        case None => None
        case Some(n) => Some(sc.(cyclesSamples := n))
      else if IsEevee(sc.engine) then
        match rec.samples
        case None => None
        case Some(n) => Some(sc.(eevee := VersionCompat.SetEeveeSamples(sc.eevee, n).0))
      else Some(sc)
  }

  /**
   * The scene after a job's overrides and output path, in the order the
   * worker assigns them; `None` when a key the worker indexes directly is
   * missing.
   */
  function Configure(sc: Scene, rec: JobRecord, globalOutput: string, structure: string,
                     blendDir: string): Option<Scene>
  {
    match WithFrameRange(sc, rec)
    case None => None
    case Some(s1) =>
      match BasePath(rec, globalOutput)
      case None => None
      case Some(base) =>
        match ChosenFormat(rec, s1)
        case None => None
        case Some(fmt) =>
          var s2 := s1.(filepath := OutputFile(OutputDir(base, structure, sc.name, blendDir), sc.name, fmt));
          match WithEngine(s2, rec)
          case None => None
          case Some(s3) =>
            match WithViewLayer(s3, rec)
            case None => None
            case Some(s4) =>
              match WithResolution(s4, rec)
              case None => None
              case Some(s5) =>
                match WithFormat(s5, rec)
                case None => None
                case Some(s6) => WithSamples(s6, rec)
  }

  /**
   * The output file lies in the job's output directory, named after the
   * scene with the suffix of the chosen format, and the scene keeps its name.
   */
  lemma ConfigureOutput(sc: Scene, rec: JobRecord, globalOutput: string, structure: string, blendDir: string)
    requires Configure(sc, rec, globalOutput, structure, blendDir).Some?
    ensures BasePath(rec, globalOutput).Some? && ChosenFormat(rec, sc).Some?
    ensures var s := Configure(sc, rec, globalOutput, structure, blendDir).value;
      s.name == sc.name
      && s.filepath == OutputFile(OutputDir(BasePath(rec, globalOutput).value, structure, sc.name, blendDir),
                                  sc.name, ChosenFormat(rec, sc).value)
  {
  }

  /** With every override off, only the output path of the scene changes. */
  lemma ConfigureWithoutOverrides(sc: Scene, rec: JobRecord, globalOutput: string, structure: string, blendDir: string)
    requires rec.overrideFrameRange == Some(false) && rec.overrideOutput == Some(false)
    requires rec.overrideFormat == Some(false) && rec.overrideResolution == Some(false)
    requires rec.overrideSamples == Some(false)
    requires !Truthy(rec.overrideEngine) && !Truthy(rec.overrideViewLayer)
    ensures Configure(sc, rec, globalOutput, structure, blendDir)
      == Some(sc.(filepath := OutputFile(OutputDir(globalOutput, structure, sc.name, blendDir), sc.name, sc.fileFormat)))
  {
  }

  /** The engine a configured scene renders with: the job's when `override_engine` is truthy. */
  function ChosenEngine(sc: Scene, rec: JobRecord): string
    requires Truthy(rec.overrideEngine) ==> rec.renderEngine.Some?
  {
    if Truthy(rec.overrideEngine) then rec.renderEngine.value else sc.engine
  }

  /**
   * The scene just before the sample override: each setting whose override
   * is on holds the job's value, and the rest, but the output file, is the
   * scene's.
   */
  lemma ConfigureStages(sc: Scene, rec: JobRecord, globalOutput: string, structure: string, blendDir: string)
    returns (s6: Scene)
    requires Configure(sc, rec, globalOutput, structure, blendDir).Some?
    ensures Truthy(rec.overrideFrameRange) ==> rec.frameStart.Some? && rec.frameEnd.Some?
    ensures Truthy(rec.overrideEngine) ==> rec.renderEngine.Some?
    ensures Truthy(rec.overrideResolution) ==> rec.resolutionScale.Some?
    ensures Truthy(rec.overrideFormat) ==> rec.renderFormat.Some?
    ensures Configure(sc, rec, globalOutput, structure, blendDir) == WithSamples(s6, rec)
    ensures s6 == sc.(filepath := s6.filepath,
                      frameStart := if Truthy(rec.overrideFrameRange) then rec.frameStart.value else sc.frameStart,
                      frameEnd := if Truthy(rec.overrideFrameRange) then rec.frameEnd.value else sc.frameEnd,
                      engine := ChosenEngine(sc, rec),
                      viewLayers := if LayerChosen(sc, rec) then UseOnly(sc.viewLayers, rec.viewLayer.value)
                                    else sc.viewLayers,
                      resolutionPercentage := if Truthy(rec.overrideResolution) then rec.resolutionScale.value
                                              else sc.resolutionPercentage,
                      fileFormat := if Truthy(rec.overrideFormat) then rec.renderFormat.value else sc.fileFormat)
  {
    var s1 := WithFrameRange(sc, rec).value;
    var base := BasePath(rec, globalOutput).value;
    var fmt := ChosenFormat(rec, s1).value;
    var s2 := s1.(filepath := OutputFile(OutputDir(base, structure, sc.name, blendDir), sc.name, fmt));
    var s3 := WithEngine(s2, rec).value;
    assert LayerChosen(s3, rec) == LayerChosen(sc, rec);
    var s4 := WithViewLayer(s3, rec).value;
    var s5 := WithResolution(s4, rec).value;
    s6 := WithFormat(s5, rec).value;
  }

  /**
   * What a configured scene holds: each setting whose override is on takes
   * the job's value, and the named view layer alone is used when the scene
   * has it; the name, camera, objects and base resolution are the scene's.
   */
  lemma ConfigureMeaning(sc: Scene, rec: JobRecord, globalOutput: string, structure: string, blendDir: string)
    requires Configure(sc, rec, globalOutput, structure, blendDir).Some?
    ensures Truthy(rec.overrideFrameRange) ==> rec.frameStart.Some? && rec.frameEnd.Some?
    ensures Truthy(rec.overrideEngine) ==> rec.renderEngine.Some?
    ensures Truthy(rec.overrideResolution) ==> rec.resolutionScale.Some?
    ensures Truthy(rec.overrideFormat) ==> rec.renderFormat.Some?
    ensures var s := Configure(sc, rec, globalOutput, structure, blendDir).value;
      && s.name == sc.name && s.camera == sc.camera && s.objects == sc.objects
      && s.resolutionX == sc.resolutionX && s.resolutionY == sc.resolutionY
      && s.frameStart == (if Truthy(rec.overrideFrameRange) then rec.frameStart.value else sc.frameStart)
      && s.frameEnd == (if Truthy(rec.overrideFrameRange) then rec.frameEnd.value else sc.frameEnd)
      && s.engine == ChosenEngine(sc, rec)
      && s.viewLayers == (if LayerChosen(sc, rec) then UseOnly(sc.viewLayers, rec.viewLayer.value) else sc.viewLayers)
      && s.resolutionPercentage == (if Truthy(rec.overrideResolution) then rec.resolutionScale.value
                                    else sc.resolutionPercentage)
      && s.fileFormat == (if Truthy(rec.overrideFormat) then rec.renderFormat.value else sc.fileFormat)
  {
    var s6 := ConfigureStages(sc, rec, globalOutput, structure, blendDir);
  }

  /** Where a configured scene's samples go: to the engine it has after the engine override. */
  lemma ConfigureSamples(sc: Scene, rec: JobRecord, globalOutput: string, structure: string, blendDir: string)
    requires Configure(sc, rec, globalOutput, structure, blendDir).Some?
    ensures Truthy(rec.overrideEngine) ==> rec.renderEngine.Some?
    ensures var s := Configure(sc, rec, globalOutput, structure, blendDir).value;
      var engine := ChosenEngine(sc, rec);
      && (Truthy(rec.overrideSamples) && engine == "CYCLES" ==>
            rec.samples.Some? && s.cyclesSamples == rec.samples.value && s.eevee == sc.eevee)
      && (Truthy(rec.overrideSamples) && IsEevee(engine) ==>
            rec.samples.Some? && s.cyclesSamples == sc.cyclesSamples
            && s.eevee == VersionCompat.SetEeveeSamples(sc.eevee, rec.samples.value).0)
      && (!(Truthy(rec.overrideSamples) && (engine == "CYCLES" || IsEevee(engine))) ==>
            s.cyclesSamples == sc.cyclesSamples && s.eevee == sc.eevee)
  {
    var s6 := ConfigureStages(sc, rec, globalOutput, structure, blendDir);
  }

  // ------------------------------------------------------------ the run

  /** The state after some jobs, and the outcome if the run has ended. */
  datatype Step = Step(view: View, stop: Option<Outcome>)

  /** Rendering a job whose scene, at position `k`, has been configured as `sc`. */
  function RenderJob(v: View, k: nat, n: string, sc: Scene, run: RenderRun, statusPath: string): Step
    requires k < |v.scenes|
  {
    var v1 := Logged(v.(scenes := SetScene(v.scenes, k, sc)), "Starting " + n + "...",
                     CALCULATING, false, NoError, "");
    var v2 := Rendered(v1, k, run.frames, statusPath);
    match run.failure
    case None => Step(v2, None)
    case Some(err) =>
      var msg := "Error rendering " + n + ": " + err;
      Step(Logged(v2, msg, NO_ETR, false, ErrorText(err), ""), Some(RenderFailed(msg)))
  }

  /**
   * The body of the job loop for job `i`. An entry that is not an object,
   * or a `scene_name` that is absent or null, raises (`TypeError` for
   * `None in bpy.data.scenes`). Making a found scene the window's scene
   * comes before anything else and outside any `try`: without a window it
   * raises `AttributeError`.
   */
  function JobStep(v: View, i: nat, e: JobEntry, run: RenderRun, window: bool, globalOutput: string,
                   structure: string, blendDir: string, statusPath: string): Step
  {
    var v0 := v.(currentJobIndex := i);
    if e.JobNotObject? || !e.rec.sceneName.Name? then Step(v0, Some(Crashed))
    else
      var n := e.rec.sceneName.name;
      match FindScene(v0.scenes, n)
      case None => Step(Logged(v0, "Scene " + n + " not found", NO_ETR, false, ErrorFlag, ""), None)
      case Some(k) =>
        if !window then Step(v0, Some(Crashed))
        else match Configure(v0.scenes[k], e.rec, globalOutput, structure, blendDir)
          case None => Step(v0, Some(Crashed))
          case Some(sc) => RenderJob(v0, k, n, sc, run, statusPath)
  }

  /** The loop body of `run` for the jobs of a manifest. */
  function Body(jobs: seq<JobEntry>, runs: nat -> RenderRun, window: bool, globalOutput: string, structure: string,
                blendDir: string, statusPath: string): (View, nat) -> Step
  {
    (w: View, i: nat) =>
      if i < |jobs| then JobStep(w, i, jobs[i], runs(i), window, globalOutput, structure, blendDir, statusPath)
      else Step(w, None)
  }

  /** The job loop over the first `n` jobs: `step` runs until one of them ends the run. */
  function Loop(v: View, n: nat, step: (View, nat) -> Step): Step {
    if n == 0 then Step(v, None)
    else
      var s := Loop(v, n - 1, step);
      if s.stop.Some? then s else step(s.view, n - 1)
  }

  /** While the loop of `run` goes on, its next pass is the job step of the next job. */
  lemma BodyNext(v: View, i: nat, jobs: seq<JobEntry>, runs: nat -> RenderRun, window: bool, globalOutput: string,
                 structure: string, blendDir: string, statusPath: string)
    requires i < |jobs|
    requires Loop(v, i, Body(jobs, runs, window, globalOutput, structure, blendDir, statusPath)).stop.None?
    ensures var step := Body(jobs, runs, window, globalOutput, structure, blendDir, statusPath);
      Loop(v, i + 1, step)
      == JobStep(Loop(v, i, step).view, i, jobs[i], runs(i), window, globalOutput, structure, blendDir, statusPath)
  {
  }

  /** A pass of the loop of `run` that goes from `before` to `after`, and where the loop then stands. */
  lemma WalkStep(v: View, i: nat, jobs: seq<JobEntry>, runs: nat -> RenderRun, window: bool, globalOutput: string,
                 structure: string, blendDir: string, statusPath: string, before: View, after: View,
                 stop: Option<Outcome>)
    requires i < |jobs|
    requires Step(before, None) == Loop(v, i, Body(jobs, runs, window, globalOutput, structure, blendDir, statusPath))
    requires Step(after, stop) == JobStep(before, i, jobs[i], runs(i), window, globalOutput, structure, blendDir, statusPath)
    ensures var step := Body(jobs, runs, window, globalOutput, structure, blendDir, statusPath);
      Step(after, stop) == Loop(v, i + 1, step)
      && (stop.Some? ==> Step(after, stop) == Loop(v, |jobs|, step))
  {
    var step := Body(jobs, runs, window, globalOutput, structure, blendDir, statusPath);
    BodyNext(v, i, jobs, runs, window, globalOutput, structure, blendDir, statusPath);
    if stop.Some? {
      LoopStops(v, i + 1, |jobs|, step);
    }
  }

  /** Once the loop has ended, later jobs change nothing. */
  lemma {:induction false} LoopStops(v: View, k: nat, n: nat, step: (View, nat) -> Step)
    requires k <= n && Loop(v, k, step).stop.Some?
    ensures Loop(v, n, step) == Loop(v, k, step)
    decreases n - k
  {
    if k < n {
      LoopStops(v, k, n - 1, step);
    }
  }

  /** The jobs of a parsed manifest; `None` when it did not load. */
  function ManifestJobs(c: Option<Content>): Option<seq<JobEntry>> {
    if c.Some? && c.value.Parsed? && c.value.doc.DocObject? then Some(c.value.doc.rec.jobs.GetOr([])) else None
  }

  /** How `run` ends, and the state it leaves. */
  datatype Ran = Ran(view: View, outcome: Outcome)

  /** What `run` does, from the manifest's content. */
  function Batch(v: View, c: Option<Content>, runs: nat -> RenderRun, window: bool, blendDir: string, statusPath: string): Ran {
    if !(c.Some? && c.value.Parsed? && c.value.doc.DocObject?) then Ran(v, NoManifest)
    else
      var r := c.value.doc.rec;
      var jobs := r.jobs.GetOr([]);
      var t := CountFrames(jobs, v.scenes, |jobs|);
      var v1 := v.(totalJobs := |jobs|, totalFrames := t.total);
      if !t.ok then Ran(v1, Crashed)
      else
        Finish(Loop(v1, |jobs|, Body(jobs, runs, window, r.globalOutputPath.GetOr(DEFAULT_OUTPUT),
                                     r.outputStructure.GetOr(DEFAULT_STRUCTURE), blendDir, statusPath)))
  }

  /** After the job loop: its stop, or "All Jobs Completed" when every job went through. */
  function Finish(s: Step): Ran {
    match s.stop
    case Some(o) => Ran(s.view, o)
    case None => Ran(Logged(s.view, "All Jobs Completed", NO_ETR, true, NoError, ""), Completed)
  }

  // ------------------------------------------------ what the log looks like

  /**
   * The statuses of a run in progress: none is `finished`, each "Paused" is
   * followed at once by "Resuming...", and neither the job index nor the
   * finished-frame count ever goes down.
   */
  predicate Orderly(log: seq<Status>) {
    (forall i :: 0 <= i < |log| ==> !log[i].finished)
    && (forall i :: 0 <= i < |log| && log[i].message == "Paused" ==>
          i + 1 < |log| && log[i + 1].message == "Resuming...")
    && (forall i :: 0 < i < |log| ==>
          log[i - 1].jobIndex <= log[i].jobIndex && log[i - 1].finishedFrames <= log[i].finishedFrames)
  }

  /** The last status is no further on than the counters. */
  predicate Behind(log: seq<Status>, jobIndex: int, finishedFrames: nat) {
    log == [] || (log[|log| - 1].jobIndex <= jobIndex && log[|log| - 1].finishedFrames <= finishedFrames)
  }

  /** Appending a status that is not "Paused", not finished and not behind keeps a log orderly. */
  lemma OrderlyAppend(log: seq<Status>, s: Status)
    requires Orderly(log) && Behind(log, s.jobIndex, s.finishedFrames)
    requires s.message != "Paused" && !s.finished
    ensures Orderly(log + [s])
  {
    var l := log + [s];
    forall i | 0 <= i < |l|
      ensures !l[i].finished
    {
      if i < |log| {
        assert l[i] == log[i];
      }
    }
    forall i | 0 <= i < |l| && l[i].message == "Paused"
      ensures i + 1 < |l| && l[i + 1].message == "Resuming..."
    {
      assert i < |log| && log[i] == l[i];
      assert log[i + 1] == l[i + 1];
    }
    forall i | 0 < i < |l|
      ensures l[i - 1].jobIndex <= l[i].jobIndex && l[i - 1].finishedFrames <= l[i].finishedFrames
    {
      assert l[i - 1] == log[i - 1];
      if i < |log| {
        assert l[i] == log[i];
      }
    }
  }

  /** So does appending the pair a pause writes. */
  lemma OrderlyAppendPause(log: seq<Status>, p: Status, q: Status)
    requires Orderly(log) && Behind(log, p.jobIndex, p.finishedFrames)
    requires p.message == "Paused" && q.message == "Resuming..." && !p.finished && !q.finished
    requires p.jobIndex == q.jobIndex && p.finishedFrames == q.finishedFrames
    ensures Orderly(log + [p, q])
  {
    var l := log + [p, q];
    forall i | 0 <= i < |l|
      ensures !l[i].finished
    {
      if i < |log| {
        assert l[i] == log[i];
      }
    }
    forall i | 0 <= i < |l| && l[i].message == "Paused"
      ensures i + 1 < |l| && l[i + 1].message == "Resuming..."
    {
      if i < |log| {
        assert log[i] == l[i];
        assert log[i + 1] == l[i + 1];
      }
    }
    forall i | 0 < i < |l|
      ensures l[i - 1].jobIndex <= l[i].jobIndex && l[i - 1].finishedFrames <= l[i].finishedFrames
    {
      if i < |log| {
        assert l[i - 1] == log[i - 1] && l[i] == log[i];
      } else if i == |log| {
        assert l[i - 1] == log[i - 1];
      }
    }
  }

  lemma LoggedOrderly(v: View, message: string, etr: string, error: StatusError, lastFrame: string)
    requires Orderly(v.log) && Behind(v.log, v.currentJobIndex + 1, v.finishedFrames)
    requires message != "Paused"
    ensures var w := Logged(v, message, etr, false, error, lastFrame);
      Orderly(w.log) && Behind(w.log, v.currentJobIndex + 1, v.finishedFrames)
  {
    OrderlyAppend(v.log, Snapshot(v, message, etr, false, error, lastFrame));
  }

  lemma PausedOrderly(v: View, pause: Option<nat>)
    requires Orderly(v.log) && Behind(v.log, v.currentJobIndex + 1, v.finishedFrames)
    ensures var w := Paused(v, pause);
      Orderly(w.log) && Behind(w.log, v.currentJobIndex + 1, v.finishedFrames)
      && w.currentJobIndex == v.currentJobIndex && w.finishedFrames == v.finishedFrames
      && w.scenes == v.scenes && w.totalJobs == v.totalJobs && w.totalFrames == v.totalFrames
  {
    if pause.Some? {
      var p := Snapshot(v, "Paused", "Paused", false, NoError, "");
      var q := Snapshot(v, "Resuming...", CALCULATING, false, NoError, "");
      assert Paused(v, pause).log == v.log + [p, q];
      OrderlyAppendPause(v.log, p, q);
    }
  }

  lemma PostedOrderly(v: View, k: nat, ev: FrameEvent, statusPath: string)
    requires k < |v.scenes|
    requires Orderly(v.log) && Behind(v.log, v.currentJobIndex + 1, v.finishedFrames)
    ensures var w := Posted(v, k, ev, statusPath);
      Orderly(w.log) && Behind(w.log, v.currentJobIndex + 1, v.finishedFrames + 1)
  {
    var msg := RenderingMessage(v.currentJobIndex, v.totalJobs, v.scenes[k].name, ev.frame);
    var etr := Etr(v.finishedFrames + 1, v.totalFrames, ev.elapsed);
    var path := if ev.preview == PreviewSaved then PreviewPath(statusPath) else "";
    var scenes := if ev.preview == PreviewFailed then SetScene(v.scenes, k, v.scenes[k].(fileFormat := "JPEG")) else v.scenes;
    var v1 := v.(finishedFrames := v.finishedFrames + 1, scenes := scenes);
    assert Posted(v, k, ev, statusPath) == Logged(v1, msg, etr, false, NoError, path);
    RenderingMessageNotPaused(v.currentJobIndex, v.totalJobs, v.scenes[k].name, ev.frame);
    LoggedOrderly(v1, msg, etr, NoError, path);
  }

  /** The post-frame handler adds one finished frame and keeps the job index and the scenes' number. */
  lemma PostedCounters(v: View, k: nat, ev: FrameEvent, statusPath: string)
    requires k < |v.scenes|
    ensures var w := Posted(v, k, ev, statusPath);
      w.currentJobIndex == v.currentJobIndex && w.finishedFrames == v.finishedFrames + 1
      && w.totalJobs == v.totalJobs && w.totalFrames == v.totalFrames && |w.scenes| == |v.scenes|
  {
  }

  lemma RenderingMessageNotPaused(jobIndex: nat, totalJobs: nat, sceneName: string, frame: int)
    ensures RenderingMessage(jobIndex, totalJobs, sceneName, frame) != "Paused"
  {
    assert RenderingMessage(jobIndex, totalJobs, sceneName, frame)[0] == 'R';
  }

  lemma {:induction false} RenderedOrderly(v: View, k: nat, frames: seq<FrameEvent>, statusPath: string)
    requires k < |v.scenes|
    requires Orderly(v.log) && Behind(v.log, v.currentJobIndex + 1, v.finishedFrames)
    ensures var w := Rendered(v, k, frames, statusPath);
      Orderly(w.log) && Behind(w.log, v.currentJobIndex + 1, w.finishedFrames)
      && w.currentJobIndex == v.currentJobIndex && w.finishedFrames >= v.finishedFrames
    decreases |frames|
  {
    if frames != [] {
      var u := Rendered(v, k, frames[..|frames| - 1], statusPath);
      var ev := frames[|frames| - 1];
      RenderedOrderly(v, k, frames[..|frames| - 1], statusPath);
      PausedOrderly(u, ev.pause);
      PostedOrderly(Paused(u, ev.pause), k, ev, statusPath);
      PostedCounters(Paused(u, ev.pause), k, ev, statusPath);
    }
  }

  lemma RenderJobOrderly(v: View, k: nat, n: string, sc: Scene, run: RenderRun, statusPath: string)
    requires k < |v.scenes|
    requires Orderly(v.log) && Behind(v.log, v.currentJobIndex + 1, v.finishedFrames)
    ensures var s := RenderJob(v, k, n, sc, run, statusPath);
      Orderly(s.view.log) && Behind(s.view.log, v.currentJobIndex + 1, s.view.finishedFrames)
      && s.view.currentJobIndex == v.currentJobIndex && s.view.totalJobs == v.totalJobs
      && (s.stop.None? || s.stop.value.RenderFailed?)
  {
    var u := v.(scenes := SetScene(v.scenes, k, sc));
    assert ("Starting " + n + "...")[0] == 'S';
    LoggedOrderly(u, "Starting " + n + "...", CALCULATING, NoError, "");
    var v1 := Logged(u, "Starting " + n + "...", CALCULATING, false, NoError, "");
    RenderedOrderly(v1, k, run.frames, statusPath);
    RenderedCountsFrames(v1, k, run.frames, statusPath);
    var v2 := Rendered(v1, k, run.frames, statusPath);
    var s := RenderJob(v, k, n, sc, run, statusPath);
    if run.failure.Some? {
      var msg := "Error rendering " + n + ": " + run.failure.value;
      assert msg[0] == 'E';
      LoggedOrderly(v2, msg, NO_ETR, ErrorText(run.failure.value), "");
      assert s == Step(Logged(v2, msg, NO_ETR, false, ErrorText(run.failure.value), ""), Some(RenderFailed(msg)));
    } else {
      assert s == Step(v2, None);
    }
  }

  /**
   * What one pass of the loop body keeps: an orderly log whose last status
   * carries job number `i + 1`; the run ends, if at all, by a crash or by a
   * render error right after reporting it.
   */
  predicate StepOrderly(s: Step, v: View, i: nat) {
    Orderly(s.view.log) && Behind(s.view.log, i + 1, s.view.finishedFrames)
    && s.view.currentJobIndex == i && s.view.totalJobs == v.totalJobs
    && (s.stop.None? || s.stop == Some(Crashed) || s.stop.value.RenderFailed?)
    && (s.stop.Some? && s.stop.value.RenderFailed? ==>
          s.view.log != [] && s.view.log[|s.view.log| - 1].error.ErrorText?
          && s.view.log[|s.view.log| - 1].message == s.stop.value.message)
  }

  /** The loop body keeps the log orderly for each of the first `n` jobs. */
  ghost predicate KeepsOrder(step: (View, nat) -> Step, n: nat) {
    forall w: View, i: nat :: i < n && Orderly(w.log) && Behind(w.log, i + 1, w.finishedFrames) ==>
      StepOrderly(step(w, i), w, i)
  }

  /** A job step keeps the log orderly; its statuses carry job number `i + 1`. */
  lemma JobStepOrderly(v: View, i: nat, e: JobEntry, run: RenderRun, window: bool, globalOutput: string,
                       structure: string, blendDir: string, statusPath: string)
    requires Orderly(v.log) && Behind(v.log, i + 1, v.finishedFrames)
    ensures StepOrderly(JobStep(v, i, e, run, window, globalOutput, structure, blendDir, statusPath), v, i)
  {
    var v0 := v.(currentJobIndex := i);
    var s := JobStep(v, i, e, run, window, globalOutput, structure, blendDir, statusPath);
    if e.JobObject? && e.rec.sceneName.Name? {
      var n := e.rec.sceneName.name;
      match FindScene(v0.scenes, n)
      case None =>
        NotFoundStepOrderly(v0, n);
        assert s == Step(Logged(v0, "Scene " + n + " not found", NO_ETR, false, ErrorFlag, ""), None);
      case Some(k) =>
        if !window {
          assert s == Step(v0, Some(Crashed));
        } else {
          match Configure(v0.scenes[k], e.rec, globalOutput, structure, blendDir)
          case None =>
            assert s == Step(v0, Some(Crashed));
          case Some(sc) =>
            RenderStepOrderly(v0, k, n, sc, run, statusPath);
            assert s == RenderJob(v0, k, n, sc, run, statusPath);
        }
    } else {
      assert s == Step(v0, Some(Crashed));
    }
  }

  lemma NotFoundStepOrderly(v: View, n: string)
    requires Orderly(v.log) && Behind(v.log, v.currentJobIndex + 1, v.finishedFrames)
    ensures StepOrderly(Step(Logged(v, "Scene " + n + " not found", NO_ETR, false, ErrorFlag, ""), None),
                        v, v.currentJobIndex)
  {
    assert ("Scene " + n + " not found")[0] == 'S';
    LoggedOrderly(v, "Scene " + n + " not found", NO_ETR, ErrorFlag, "");
  }

  lemma RenderStepOrderly(v: View, k: nat, n: string, sc: Scene, run: RenderRun, statusPath: string)
    requires k < |v.scenes|
    requires Orderly(v.log) && Behind(v.log, v.currentJobIndex + 1, v.finishedFrames)
    ensures StepOrderly(RenderJob(v, k, n, sc, run, statusPath), v, v.currentJobIndex)
  {
    RenderJobOrderly(v, k, n, sc, run, statusPath);
  }

  /** A loop whose body keeps the log orderly ends with an orderly log. */
  lemma {:induction false} LoopOrderly(v: View, n: nat, step: (View, nat) -> Step)
    requires v.log == [] && KeepsOrder(step, n)
    ensures var s := Loop(v, n, step);
      Orderly(s.view.log) && Behind(s.view.log, n, s.view.finishedFrames)
      && s.view.totalJobs == v.totalJobs
      && (s.stop.None? && n > 0 ==> s.view.currentJobIndex == n - 1)
      && (s.stop.None? || s.stop == Some(Crashed) || s.stop.value.RenderFailed?)
      && (s.stop.Some? && s.stop.value.RenderFailed? ==>
            s.view.log != [] && s.view.log[|s.view.log| - 1].error.ErrorText?
            && s.view.log[|s.view.log| - 1].message == s.stop.value.message)
  {
    if n > 0 {
      assert KeepsOrder(step, n - 1);
      LoopOrderly(v, n - 1, step);
      var s := Loop(v, n - 1, step);
      if s.stop.None? {
        assert StepOrderly(step(s.view, n - 1), s.view, n - 1);
      }
    }
  }

  /** The loop body of `run` keeps the log orderly. */
  lemma BodyKeepsOrder(jobs: seq<JobEntry>, runs: nat -> RenderRun, window: bool, globalOutput: string, structure: string,
                       blendDir: string, statusPath: string)
    ensures KeepsOrder(Body(jobs, runs, window, globalOutput, structure, blendDir, statusPath), |jobs|)
  {
    var step := Body(jobs, runs, window, globalOutput, structure, blendDir, statusPath);
    forall w: View, i: nat | i < |jobs| && Orderly(w.log) && Behind(w.log, i + 1, w.finishedFrames)
      ensures StepOrderly(step(w, i), w, i)
    {
      JobStepOrderly(w, i, jobs[i], runs(i), window, globalOutput, structure, blendDir, statusPath);
    }
  }

  /** The last status a completed run writes closes an orderly log. */
  lemma FinishedLog(log: seq<Status>, st: Status)
    requires Orderly(log) && Behind(log, st.jobIndex, st.finishedFrames)
    requires st.finished && st.message != "Paused"
    ensures var l := log + [st];
      && (forall i :: 0 <= i < |l| ==> (l[i].finished <==> i == |l| - 1))
      && (forall i :: 0 <= i < |l| && l[i].message == "Paused" ==> i + 1 < |l| && l[i + 1].message == "Resuming...")
      && (forall i :: 0 < i < |l| ==> l[i - 1].jobIndex <= l[i].jobIndex && l[i - 1].finishedFrames <= l[i].finishedFrames)
  {
    var l := log + [st];
    forall i | 0 <= i < |l| && l[i].message == "Paused"
      ensures i + 1 < |l| && l[i + 1].message == "Resuming..."
    {
      assert i < |log| && log[i] == l[i];
      assert log[i + 1] == l[i + 1];
    }
  }

  /**
   * The status file a run leaves: "finished" only once, as the last status
   * of a completed run, which reads "All Jobs Completed"; a render error as
   * the last status of a run it ended; every "Paused" followed at once by
   * "Resuming..."; job index and finished frames never going down.
   */
  predicate WellEnded(r: Ran) {
    var log := r.view.log;
    && (forall i :: 0 <= i < |log| ==> (log[i].finished <==> r.outcome == Completed && i == |log| - 1))
    && (r.outcome == Completed ==> log != [] && log[|log| - 1].message == "All Jobs Completed")
    && (r.outcome.RenderFailed? ==> log != [] && log[|log| - 1].error.ErrorText?
                                     && log[|log| - 1].message == r.outcome.message)
    && (forall i :: 0 <= i < |log| && log[i].message == "Paused" ==>
          i + 1 < |log| && log[i + 1].message == "Resuming...")
    && (forall i :: 0 < i < |log| ==>
          log[i - 1].jobIndex <= log[i].jobIndex && log[i - 1].finishedFrames <= log[i].finishedFrames)
  }

  /** The statuses `run` ends with, given an orderly job loop. */
  lemma FinishStatuses(s: Step)
    requires Orderly(s.view.log)
    requires s.stop.None? ==> Behind(s.view.log, s.view.currentJobIndex + 1, s.view.finishedFrames)
    requires s.stop.None? || s.stop == Some(Crashed) || s.stop.value.RenderFailed?
    requires s.stop.Some? && s.stop.value.RenderFailed? ==>
      s.view.log != [] && s.view.log[|s.view.log| - 1].error.ErrorText?
      && s.view.log[|s.view.log| - 1].message == s.stop.value.message
    ensures Finish(s).outcome != NoManifest && WellEnded(Finish(s))
  {
    if s.stop.None? {
      var st := Snapshot(s.view, "All Jobs Completed", NO_ETR, true, NoError, "");
      FinishedLog(s.view.log, st);
      assert Finish(s).view.log == s.view.log + [st];
    }
  }

  /** What the job loop of `run` leaves, for a fresh worker whose manifest loaded and whose count went through. */
  lemma BatchLoop(v1: View, jobs: seq<JobEntry>, runs: nat -> RenderRun, window: bool, globalOutput: string, structure: string,
                  blendDir: string, statusPath: string)
    requires v1.log == [] && v1.totalJobs == |jobs|
    ensures var s := Loop(v1, |jobs|, Body(jobs, runs, window, globalOutput, structure, blendDir, statusPath));
      Orderly(s.view.log)
      && (s.stop.None? ==> Behind(s.view.log, s.view.currentJobIndex + 1, s.view.finishedFrames))
      && (s.stop.None? || s.stop == Some(Crashed) || s.stop.value.RenderFailed?)
      && (s.stop.Some? && s.stop.value.RenderFailed? ==>
            s.view.log != [] && s.view.log[|s.view.log| - 1].error.ErrorText?
            && s.view.log[|s.view.log| - 1].message == s.stop.value.message)
  {
    var step := Body(jobs, runs, window, globalOutput, structure, blendDir, statusPath);
    BodyKeepsOrder(jobs, runs, window, globalOutput, structure, blendDir, statusPath);
    LoopOrderly(v1, |jobs|, step);
  }

  /**
   * A fresh worker's status file: nothing is written when the manifest does
   * not load; "finished" appears only once, as the last status of a run that
   * walked every job; every "Paused" is followed at once by "Resuming...";
   * job index and finished frames never go down; a render error ends the
   * run with an error status.
   */
  lemma RunStatuses(v: View, c: Option<Content>, runs: nat -> RenderRun, window: bool, blendDir: string, statusPath: string)
    requires v.log == []
    ensures var r := Batch(v, c, runs, window, blendDir, statusPath);
      && (r.outcome == NoManifest <==> ManifestJobs(c).None?)
      && (r.outcome == NoManifest ==> r.view == v)
      && WellEnded(r)
  {
    if c.Some? && c.value.Parsed? && c.value.doc.DocObject? {
      var rec := c.value.doc.rec;
      var jobs := rec.jobs.GetOr([]);
      var t := CountFrames(jobs, v.scenes, |jobs|);
      var v1 := v.(totalJobs := |jobs|, totalFrames := t.total);
      if t.ok {
        var gop := rec.globalOutputPath.GetOr(DEFAULT_OUTPUT);
        var structure := rec.outputStructure.GetOr(DEFAULT_STRUCTURE);
        BatchLoop(v1, jobs, runs, window, gop, structure, blendDir, statusPath);
        var s := Loop(v1, |jobs|, Body(jobs, runs, window, gop, structure, blendDir, statusPath));
        FinishStatuses(s);
        assert Batch(v, c, runs, window, blendDir, statusPath) == Finish(s);
      }
    }
  }

  /** A job whose scene is missing writes one error status and the loop goes on. */
  lemma MissingSceneSkipped(v: View, i: nat, rec: JobRecord, run: RenderRun, window: bool, globalOutput: string,
                            structure: string, blendDir: string, statusPath: string)
    requires rec.sceneName.Name? && !HasScene(v.scenes, rec.sceneName.name)
    ensures var s := JobStep(v, i, JobObject(rec), run, window, globalOutput, structure, blendDir, statusPath);
      s.stop.None? && s.view.scenes == v.scenes && s.view.finishedFrames == v.finishedFrames
      && s.view.log == v.log + [Status(i + 1, v.totalJobs, "Scene " + rec.sceneName.name + " not found",
                                       NO_ETR, false, ErrorFlag, v.finishedFrames, v.totalFrames, "")]
  {
  }

  /** A named job whose scene does not exist: the loop reports it and goes on. */
  predicate Missing(e: JobEntry, scenes: seq<Scene>) {
    e.JobObject? && e.rec.sceneName.Name? && !HasScene(scenes, e.rec.sceneName.name)
  }

  /**
   * Without a window the job loop changes no scene and renders no frame; it
   * gets past the first `n` jobs exactly when each of their scenes is
   * missing, and otherwise an exception ends it.
   */
  lemma {:induction false} HeadlessLoop(v: View, n: nat, jobs: seq<JobEntry>, runs: nat -> RenderRun,
                                        globalOutput: string, structure: string, blendDir: string, statusPath: string)
    requires n <= |jobs|
    ensures var s := Loop(v, n, Body(jobs, runs, false, globalOutput, structure, blendDir, statusPath));
      && s.view.scenes == v.scenes && s.view.finishedFrames == v.finishedFrames
      && (s.stop.None? <==> forall i :: 0 <= i < n ==> Missing(jobs[i], v.scenes))
      && (s.stop.Some? ==> s.stop == Some(Crashed))
    decreases n
  {
    if n > 0 {
      var step := Body(jobs, runs, false, globalOutput, structure, blendDir, statusPath);
      HeadlessLoop(v, n - 1, jobs, runs, globalOutput, structure, blendDir, statusPath);
      var s := Loop(v, n - 1, step);
      if s.stop.None? {
        BodyNext(v, n - 1, jobs, runs, false, globalOutput, structure, blendDir, statusPath);
        var t := JobStep(s.view, n - 1, jobs[n - 1], runs(n - 1), false, globalOutput, structure, blendDir, statusPath);
        assert Loop(v, n, step) == t;
        assert t.view.scenes == v.scenes && t.view.finishedFrames == v.finishedFrames;
        assert t.stop.None? <==> Missing(jobs[n - 1], v.scenes);
      }
    }
  }

  /**
   * A worker whose process has no window, as one started with `-b`: it
   * renders no frame and changes no scene; it completes exactly when the
   * manifest loads and no job's scene exists, and the first job whose scene
   * exists ends it with an uncaught `AttributeError`.
   */
  lemma HeadlessRun(v: View, c: Option<Content>, runs: nat -> RenderRun, blendDir: string, statusPath: string)
    ensures var r := Batch(v, c, runs, false, blendDir, statusPath);
      && r.view.scenes == v.scenes && r.view.finishedFrames == v.finishedFrames
      && (r.outcome == Completed <==>
            ManifestJobs(c).Some? && forall i :: 0 <= i < |ManifestJobs(c).value| ==> Missing(ManifestJobs(c).value[i], v.scenes))
      && (r.outcome == NoManifest || r.outcome == Crashed || r.outcome == Completed)
  {
    if c.Some? && c.value.Parsed? && c.value.doc.DocObject? {
      var rec := c.value.doc.rec;
      var jobs := rec.jobs.GetOr([]);
      var t := CountFrames(jobs, v.scenes, |jobs|);
      var v1 := v.(totalJobs := |jobs|, totalFrames := t.total);
      CountFramesOk(jobs, v.scenes, |jobs|);
      if forall i :: 0 <= i < |jobs| ==> Missing(jobs[i], v.scenes) {
        assert forall i :: 0 <= i < |jobs| ==> JobFrames(jobs[i], v.scenes).Some?;
      }
      if t.ok {
        var gop := rec.globalOutputPath.GetOr(DEFAULT_OUTPUT);
        var structure := rec.outputStructure.GetOr(DEFAULT_STRUCTURE);
        HeadlessLoop(v1, |jobs|, jobs, runs, gop, structure, blendDir, statusPath);
        var s := Loop(v1, |jobs|, Body(jobs, runs, false, gop, structure, blendDir, statusPath));
        assert Batch(v, c, runs, false, blendDir, statusPath) == Finish(s);
      }
    }
  }

  // ------------------------------------------------------- command line

  /** How `main` reads `sys.argv`. */
  datatype Invocation = NoSeparator | MissingArguments | Paths(manifest: string, status: string)

  /** `xs.index(x)`, the first position of `x`. */
  function IndexOf(xs: seq<string>, x: string): (r: Option<nat>)
    ensures r.Some? ==> r.value < |xs| && xs[r.value] == x && forall j :: 0 <= j < r.value ==> xs[j] != x
    ensures r.None? ==> x !in xs
    decreases |xs|
  {
    if xs == [] then None
    else if xs[0] == x then Some(0)
    else match IndexOf(xs[1..], x)
      case None => None
      case Some(k) => Some(k + 1)
  }

  /** `args[args.index(flag) + 1]`, or `None` where that raises. */
  function ArgAfter(args: seq<string>, flag: string): Option<string> {
    match IndexOf(args, flag)
    case None => None
    case Some(i) => if i + 1 < |args| then Some(args[i + 1]) else None
  }

  function ParseArgs(argv: seq<string>): Invocation {
    match IndexOf(argv, "--")
    case None => NoSeparator
    case Some(d) =>
      var args := argv[d + 1..];
      match ArgAfter(args, "--manifest")
      case None => MissingArguments
      case Some(m) =>
        match ArgAfter(args, "--status")
        case None => MissingArguments
        case Some(s) => Paths(m, s)
  }

  lemma {:induction false} IndexOfAfter(a: seq<string>, b: seq<string>, x: string)
    requires x !in a
    ensures IndexOf(a + b, x) == (match IndexOf(b, x) case None => None case Some(k) => Some(|a| + k))
    decreases |a|
  {
    if a != [] {
      assert (a + b)[0] == a[0] && a[0] != x;
      assert (a + b)[1..] == a[1..] + b;
      assert x !in a[1..];
      IndexOfAfter(a[1..], b, x);
      match IndexOf(b, x)
      case None =>
      case Some(k) =>
        assert IndexOf(a[1..] + b, x) == Some(|a| - 1 + k);
    } else {
      assert a + b == b;
    }
  }

  /**
   * Arguments laid out as `... -- --manifest M --status S` give back `M` and
   * `S`, whatever precedes the separator.
   */
  lemma ParseArgsOfLaunch(before: seq<string>, m: string, s: string)
    requires "--" !in before && m != "--status"
    ensures ParseArgs(before + ["--", "--manifest", m, "--status", s]) == Paths(m, s)
  {
    var argv := before + ["--", "--manifest", m, "--status", s];
    var tail := ["--", "--manifest", m, "--status", s];
    IndexOfAfter(before, tail, "--");
    assert IndexOf(tail, "--") == Some(0);
    assert IndexOf(argv, "--") == Some(|before|);
    assert argv[|before| + 1..] == tail[1..];
    LaunchFlags(m, s);
  }

  /** The flags after the separator of a launch command line. */
  lemma LaunchFlags(m: string, s: string)
    requires m != "--status"
    ensures ArgAfter(["--manifest", m, "--status", s], "--manifest") == Some(m)
    ensures ArgAfter(["--manifest", m, "--status", s], "--status") == Some(s)
  {
    var args := ["--manifest", m, "--status", s];
    assert IndexOf(args, "--manifest") == Some(0);
    assert args[1..] == [m, "--status", s];
    assert args[1..][1..] == ["--status", s];
    assert IndexOf(["--status", s], "--status") == Some(0);
    assert IndexOf([m, "--status", s], "--status") == Some(1);
    assert IndexOf(args, "--status") == Some(2);
  }

  // ------------------------------------------------------------ the class

  class BackgroundWorker {
    const manifestPath: string
    const statusPath: string
    var manifest: Document
    var jobs: seq<JobEntry>
    var totalJobs: nat
    var currentJobIndex: nat
    var startTime: int
    var totalFramesToRender: int
    var finishedFramesCount: nat
    /** `bpy.data.scenes` in the worker's Blender. */
    var scenes: seq<Scene>
    /** Every snapshot written to the status file, oldest first. */
    var statusLog: seq<Status>

    function State(): View
      reads this
    {
      View(currentJobIndex, totalJobs, totalFramesToRender, finishedFramesCount, scenes, statusLog)
    }

    constructor(manifestPath: string, statusPath: string, scenes: seq<Scene>)
      ensures this.manifestPath == manifestPath && this.statusPath == statusPath
      ensures manifest == DocObject(Record(None, None, None, None, None))
      ensures jobs == [] && totalJobs == 0 && currentJobIndex == 0
      ensures startTime == 0 && totalFramesToRender == 0 && finishedFramesCount == 0
      ensures this.scenes == scenes && statusLog == []
    {
      this.manifestPath := manifestPath;
      this.statusPath := statusPath;
      manifest := DocObject(Record(None, None, None, None, None));
      jobs := [];
      totalJobs := 0;
      currentJobIndex := 0;
      startTime := 0;
      totalFramesToRender := 0;
      finishedFramesCount := 0;
      this.scenes := scenes;
      statusLog := [];
    }

    /** `load_manifest`: succeeds exactly when the file parses to an object. */
    method LoadManifest(disk: Disk) returns (ok: bool)
      modifies this`manifest, this`jobs, this`totalJobs
      ensures ok <==> ManifestJobs(Read(disk.files, manifestPath)).Some?
      ensures ok ==> jobs == ManifestJobs(Read(disk.files, manifestPath)).value && totalJobs == |jobs|
                     && manifest == Read(disk.files, manifestPath).value.doc
      ensures !ok ==> jobs == old(jobs) && totalJobs == old(totalJobs)
    {
      if manifestPath !in disk.files {
        return false;
      }
      match disk.files[manifestPath]
      case Unparseable =>
        return false;
      case Parsed(d) =>
        manifest := d;
        match d
        case DocNotObject =>
          return false;
        case DocObject(r) =>
          jobs := r.jobs.GetOr([]);
          totalJobs := |jobs|;
          return true;
    }

    /** `log_status`: appends a snapshot of the current counters. */
    method LogStatus(message: string, etr: string, finished: bool, error: StatusError, lastFrame: string)
      modifies this`statusLog
      ensures State() == Logged(old(State()), message, etr, finished, error, lastFrame)
    {
      statusLog := statusLog + [Snapshot(State(), message, etr, finished, error, lastFrame)];
    }

    /** `calculate_total_frames`; `ok` is false when an exception interrupted it. */
    method CalculateTotalFrames() returns (ok: bool)
      modifies this`totalFramesToRender
      ensures Tally(totalFramesToRender, ok) == CountFrames(jobs, scenes, |jobs|)
    {
      totalFramesToRender := 0;
      var i := 0;
      while i < |jobs|
        invariant 0 <= i <= |jobs|
        invariant CountFrames(jobs, scenes, i) == Tally(totalFramesToRender, true)
      {
        match JobFrames(jobs[i], scenes)
        case None =>
          CountFramesStops(jobs, scenes, i + 1, |jobs|);
          return false;
        case Some(c) =>
          totalFramesToRender := totalFramesToRender + c;
        i := i + 1;
      }
      return true;
    }

    /** `on_render_pre`: waits while the pause file exists, reporting before and after. */
    method OnRenderPre(pause: Option<nat>)
      modifies this`statusLog
      ensures State() == Paused(old(State()), pause)
    {
      match pause
      case None =>
      case Some(polls) =>
        LogStatus("Paused", "Paused", false, NoError, "");
        var remaining := polls;
        while remaining > 0
          decreases remaining
        {
          remaining := remaining - 1;       // one `time.sleep(1)` with the file still present
        }
        LogStatus("Resuming...", CALCULATING, false, NoError, "");
    }

    /** `on_render_post` for the scene at position `k`. */
    method OnRenderPost(k: nat, ev: FrameEvent)
      requires k < |scenes|
      modifies this`finishedFramesCount, this`scenes, this`statusLog
      ensures State() == Posted(old(State()), k, ev, statusPath)
    {
      ghost var v := State();
      finishedFramesCount := finishedFramesCount + 1;
      var etr := Etr(finishedFramesCount, totalFramesToRender, ev.elapsed);
      var scene := scenes[k];
      var previewPath := PreviewPath(statusPath);
      match ev.preview {
        case NoRenderResult =>
          previewPath := "";
        case PreviewSaved =>
        case PreviewFailed =>
          scenes := SetScene(scenes, k, scene.(fileFormat := "JPEG"));
          previewPath := "";
      }
      ghost var u := State();
      assert u == v.(finishedFrames := v.finishedFrames + 1,
                     scenes := if ev.preview == PreviewFailed then SetScene(v.scenes, k, scene.(fileFormat := "JPEG"))
                               else v.scenes);
      LogStatus(RenderingMessage(currentJobIndex, totalJobs, scene.name, ev.frame), etr, false, NoError, previewPath);
      assert State() == Logged(u, RenderingMessage(v.currentJobIndex, v.totalJobs, scene.name, ev.frame),
                               Etr(u.finishedFrames, u.totalFrames, ev.elapsed), false, NoError, previewPath);
    }

    /** `bpy.ops.render.render(animation=True)` on scene `k`: the handlers, frame by frame. */
    method RenderScene(k: nat, frames: seq<FrameEvent>)
      requires k < |scenes|
      modifies this`finishedFramesCount, this`scenes, this`statusLog
      ensures State() == Rendered(old(State()), k, frames, statusPath)
    {
      ghost var v := State();
      for f := 0 to |frames|
        invariant k < |scenes|
        invariant State() == Rendered(v, k, frames[..f], statusPath)
      {
        OnRenderPre(frames[f].pause);
        OnRenderPost(k, frames[f]);
        RenderedSnoc(v, k, frames, f, statusPath);
      }
      assert frames[..|frames|] == frames;
    }

    /** One pass of the job loop; `stop` is the outcome when the run ends here. */
    method RunJob(i: nat, e: JobEntry, run: RenderRun, window: bool, globalOutput: string, structure: string,
                  blendDir: string) returns (stop: Option<Outcome>)
      modifies this`currentJobIndex, this`finishedFramesCount, this`scenes, this`statusLog
      ensures Step(State(), stop) == JobStep(old(State()), i, e, run, window, globalOutput, structure, blendDir, statusPath)
    {
      currentJobIndex := i;
      if e.JobNotObject? {
        return Some(Crashed);
      }
      var rec := e.rec;
      if !rec.sceneName.Name? {
        return Some(Crashed);
      }
      var n := rec.sceneName.name;
      var found := FindScene(scenes, n);
      if found.None? {
        LogStatus("Scene " + n + " not found", NO_ETR, false, ErrorFlag, "");
        return None;
      }
      var k := found.value;
      if !window {
        return Some(Crashed);     // `bpy.context.window.scene = scene` with no window
      }
      var configured := Configure(scenes[k], rec, globalOutput, structure, blendDir);
      if configured.None? {
        return Some(Crashed);
      }
      stop := RenderConfigured(k, n, configured.value, run);
    }

    /** Rendering a job whose scene, at position `k`, has been configured as `sc`. */
    method RenderConfigured(k: nat, n: string, sc: Scene, run: RenderRun) returns (stop: Option<Outcome>)
      requires k < |scenes|
      modifies this`finishedFramesCount, this`scenes, this`statusLog
      ensures Step(State(), stop) == RenderJob(old(State()), k, n, sc, run, statusPath)
    {
      scenes := SetScene(scenes, k, sc);
      LogStatus("Starting " + n + "...", CALCULATING, false, NoError, "");
      RenderScene(k, run.frames);
      if run.failure.Some? {
        var msg := "Error rendering " + n + ": " + run.failure.value;
        LogStatus(msg, NO_ETR, false, ErrorText(run.failure.value), "");
        return Some(RenderFailed(msg));
      }
      return None;
    }

    /** The job loop of `run`: each job in turn, until one ends the run. */
    method WalkJobs(runs: nat -> RenderRun, window: bool, globalOutput: string, structure: string, blendDir: string)
      returns (stop: Option<Outcome>)
      modifies this`currentJobIndex, this`finishedFramesCount, this`scenes, this`statusLog
      ensures Step(State(), stop) == Loop(old(State()), |jobs|, Body(jobs, runs, window, globalOutput, structure, blendDir, statusPath))
    {
      ghost var v := State();
      ghost var step := Body(jobs, runs, window, globalOutput, structure, blendDir, statusPath);
      var i := 0;
      while i < |jobs|
        invariant 0 <= i <= |jobs|
        invariant Step(State(), None) == Loop(v, i, step)
      {
        stop := NextJob(v, i, runs, window, globalOutput, structure, blendDir);
        if stop.Some? {
          return;
        }
        i := i + 1;
      }
      stop := None;
    }

    /** One pass of the job loop, for job `i`, where the loop started from `v`. */
    method NextJob(ghost v: View, i: nat, runs: nat -> RenderRun, window: bool, globalOutput: string, structure: string,
                   blendDir: string) returns (stop: Option<Outcome>)
      requires i < |jobs|
      requires Step(State(), None) == Loop(v, i, Body(jobs, runs, window, globalOutput, structure, blendDir, statusPath))
      modifies this`currentJobIndex, this`finishedFramesCount, this`scenes, this`statusLog
      ensures var step := Body(jobs, runs, window, globalOutput, structure, blendDir, statusPath);
        Step(State(), stop) == Loop(v, i + 1, step)
        && (stop.Some? ==> Step(State(), stop) == Loop(v, |jobs|, step))
    {
      ghost var before := State();
      stop := RunJob(i, jobs[i], runs(i), window, globalOutput, structure, blendDir);
      WalkStep(v, i, jobs, runs, window, globalOutput, structure, blendDir, statusPath, before, State(), stop);
    }

    /** `run`, with the manifest read from `disk` and `now` as the start time. */
    method Run(disk: Disk, now: int, runs: nat -> RenderRun, window: bool, blendDir: string) returns (outcome: Outcome)
      modifies this
      ensures Ran(State(), outcome) == Batch(old(State()), Read(disk.files, manifestPath), runs, window, blendDir, statusPath)
    {
      var loaded := LoadManifest(disk);
      if !loaded {
        return NoManifest;
      }
      var counted := CalculateTotalFrames();
      if !counted {
        return Crashed;
      }
      startTime := now;
      assert Read(disk.files, manifestPath) == Some(Parsed(manifest));
      var r := manifest.rec;
      var stop := WalkJobs(runs, window, r.globalOutputPath.GetOr(DEFAULT_OUTPUT), r.outputStructure.GetOr(DEFAULT_STRUCTURE), blendDir);
      if stop.Some? {
        return stop.value;
      }
      LogStatus("All Jobs Completed", NO_ETR, true, NoError, "");
      return Completed;
    }
  }
}
