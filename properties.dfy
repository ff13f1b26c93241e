/**
 * The packaged add-on's data: one `Job` per queued render and the global
 * `Settings` object (`RenderCueJob` and `RenderCueSettings`, stored on the
 * window manager). Defaults, enum items and hard bounds are those of the
 * property declarations.
 *
 * The operators, the supervisor and the helpers also read and write job and
 * settings fields that the property declarations do not list (camera,
 * device, frame step, per-job progress, the summary fields, ...). They are
 * modelled as ordinary fields with defaults chosen here: False, 0, "" or
 * None, except a frame step of 1 and the render status "PENDING". In
 * Blender, reading or writing such an undeclared name raises
 * `AttributeError`, so these defaults stand in for that crash.
 */
module Properties {
  import opened Wrappers

  const ENGINE_IDS: seq<string> := ["CYCLES", "BLENDER_EEVEE"]

  const FORMAT_IDS: seq<string> := [
    "PNG", "JPEG", "BMP", "IRIS", "JPEG2000", "TARGA", "TARGA_RAW", "CINEON",
    "DPX", "OPEN_EXR", "OPEN_EXR_MULTILAYER", "HDR", "TIFF", "AVI_JPEG",
    "AVI_RAW", "FFMPEG"
  ]

  const OUTPUT_STRUCTURES: seq<string> := ["SEPARATE", "SAME"]

  const LAST_RENDER_STATUSES: seq<string> := ["NONE", "SUCCESS", "FAILED", "CANCELLED"]

  /** `x in items`, spelled out recursively so that a membership test is only unfolded when needed. */
  predicate InList(x: string, items: seq<string>)
    decreases |items|
  {
    items != [] && (items[0] == x || InList(x, items[1..]))
  }

  lemma {:induction false} InListIsIn(x: string, items: seq<string>)
    ensures InList(x, items) <==> x in items
    decreases |items|
  {
    if items != [] {
      InListIsIn(x, items[1..]);
      assert items == [items[0]] + items[1..];
    }
  }

  predicate IsEngineId(id: string) { InList(id, ENGINE_IDS) }
  predicate IsFormatId(id: string) { InList(id, FORMAT_IDS) }

  /** Hard bounds of `resolution_scale` and the minimum of `samples`. */
  const SCALE_MIN: int := 1
  const SCALE_MAX: int := 200
  const SAMPLES_MIN: int := 1

  const DEFAULT_GLOBAL_OUTPUT: string := "//render_cue_output/"
  const DEFAULT_ETR: string := "--:--"

  datatype Job = Job(
    scene: Option<string>,        // the scene reference, by scene name
    overrideEngine: bool,
    renderEngine: string,
    overrideViewLayer: bool,
    viewLayer: string,
    overrideFrameRange: bool,
    frameStart: int,
    frameEnd: int,
    overrideOutput: bool,
    outputPath: string,
    overrideResolution: bool,
    resolutionScale: int,
    overrideSamples: bool,
    samples: int,
    overrideFormat: bool,
    renderFormat: string,
    // fields used elsewhere in the add-on but not declared on the property group
    overrideCamera: bool,
    camera: Option<string>,       // camera object, by name
    overrideDevice: bool,
    device: string,
    overrideFrameStep: bool,
    frameStep: int,
    overrideTransparent: bool,
    filmTransparent: bool,
    overrideCompositor: bool,
    useCompositor: bool,
    overrideDenoising: bool,
    useDenoising: bool,
    overrideTimeLimit: bool,
    timeLimit: int,
    overridePersistentData: bool,
    usePersistentData: bool,
    renderStatus: string,
    completedFrames: int,
    totalFrames: int,
    startTime: int,
    endTime: int
  )

  /** No override of any kind is switched on. */
  predicate NoOverrides(j: Job) {
    !j.overrideEngine && !j.overrideViewLayer && !j.overrideFrameRange
    && !j.overrideOutput && !j.overrideResolution && !j.overrideSamples
    && !j.overrideFormat && !j.overrideCamera && !j.overrideDevice
    && !j.overrideFrameStep && !j.overrideTransparent && !j.overrideCompositor
    && !j.overrideDenoising && !j.overrideTimeLimit && !j.overridePersistentData
  }

  /** The enum and bound constraints Blender enforces on a job's declared fields. */
  predicate ValidJob(j: Job) {
    IsEngineId(j.renderEngine) && IsFormatId(j.renderFormat)
    && SCALE_MIN <= j.resolutionScale <= SCALE_MAX && j.samples >= SAMPLES_MIN
  }

  /** The job `jobs.add()` creates. */
  function NewJob(): (j: Job)
    ensures j.scene.None? && NoOverrides(j)
    ensures j.frameStart == 1 && j.frameEnd == 250
    ensures j.outputPath == "//" && j.viewLayer == ""
    ensures j.resolutionScale == 100 && j.samples == 128
    ensures j.renderEngine == "CYCLES" && j.renderFormat == "PNG"
    ensures ValidJob(j)
  {
    Job(None, false, "CYCLES", false, "", false, 1, 250, false, "//", false, 100,
        false, 128, false, "PNG",
        false, None, false, "", false, 1, false, false, false, false, false, false,
        false, 0, false, false, "PENDING", 0, 0, 0, 0)
  }

  /** Assigning to an integer property with hard bounds clamps the value. */
  function Clamp(v: int, lo: int, hi: int): (r: int)
    requires lo <= hi
    ensures lo <= r <= hi
    ensures lo <= v <= hi ==> r == v
    ensures v < lo ==> r == lo
    ensures v > hi ==> r == hi
  {
    if v < lo then lo else if v > hi then hi else v
  }

  function ClampScale(v: int): (r: int)
    ensures SCALE_MIN <= r <= SCALE_MAX
    ensures SCALE_MIN <= v <= SCALE_MAX ==> r == v
  {
    Clamp(v, SCALE_MIN, SCALE_MAX)
  }

  function ClampSamples(v: int): (r: int)
    ensures r >= SAMPLES_MIN
    ensures v >= SAMPLES_MIN ==> r == v
  {
    if v < SAMPLES_MIN then SAMPLES_MIN else v
  }

  /** The settings object registered on the window manager. */
  class Settings {
    var jobs: seq<Job>
    var activeJobIndex: int
    var outputStructure: string
    var globalOutputPath: string
    var presetsPath: string
    var isRendering: bool
    var isPaused: bool
    var stopRequested: bool
    var currentJobIndex: int
    var totalJobsCount: int
    var progressMessage: string
    var etr: string
    var startTime: int
    var finishedFramesCount: int
    var totalFramesToRender: int
    var lastRenderedFrame: string
    var lastRenderStatus: string
    var lastRenderMessage: string
    // fields used elsewhere in the add-on but not declared on the property group
    var useCustomOutputPath: bool
    var hasPreviewImage: bool
    var summaryTotalJobs: int
    var summarySuccessfulJobs: int
    var summaryFailedJobs: int
    var summaryTotalFrames: int
    var summaryRenderTime: string
    var summaryBlendFile: string

    /** Every job valid and every enum field one of its items. */
    predicate Valid()
      reads this
    {
      (forall i :: 0 <= i < |jobs| ==> ValidJob(jobs[i]))
      && InList(outputStructure, OUTPUT_STRUCTURES)
      && InList(lastRenderStatus, LAST_RENDER_STATUSES)
    }

    constructor()
      ensures Valid()
      ensures jobs == [] && activeJobIndex == 0
      ensures outputStructure == "SEPARATE" && globalOutputPath == DEFAULT_GLOBAL_OUTPUT
      ensures presetsPath == "//presets/"
      ensures !isRendering && !isPaused && !stopRequested
      ensures currentJobIndex == 0 && totalJobsCount == 0
      ensures progressMessage == "" && etr == DEFAULT_ETR
      ensures startTime == 0 && finishedFramesCount == 0 && totalFramesToRender == 0
      ensures lastRenderedFrame == "" && lastRenderStatus == "NONE" && lastRenderMessage == ""
      ensures !useCustomOutputPath && !hasPreviewImage
      ensures summaryTotalJobs == 0 && summarySuccessfulJobs == 0
      ensures summaryFailedJobs == 0 && summaryTotalFrames == 0
      ensures summaryRenderTime == "" && summaryBlendFile == ""
    {
      jobs := [];
      activeJobIndex := 0;
      outputStructure := "SEPARATE";
      globalOutputPath := DEFAULT_GLOBAL_OUTPUT;
      presetsPath := "//presets/";
      isRendering := false;
      isPaused := false;
      stopRequested := false;
      currentJobIndex := 0;
      totalJobsCount := 0;
      progressMessage := "";
      etr := DEFAULT_ETR;
      startTime := 0;
      finishedFramesCount := 0;
      totalFramesToRender := 0;
      lastRenderedFrame := "";
      lastRenderStatus := "NONE";
      lastRenderMessage := "";
      useCustomOutputPath := false;
      hasPreviewImage := false;
      summaryTotalJobs := 0;
      summarySuccessfulJobs := 0;
      summaryFailedJobs := 0;
      summaryTotalFrames := 0;
      summaryRenderTime := "";
      summaryBlendFile := "";
    }
  }
}
