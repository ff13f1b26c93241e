/**
 * The data of the older, top-level generation of the add-on
 * (`properties.py`): a job carries its scene and five override pairs, and
 * the settings hold the queue, the active index, the output structure and
 * the global output path. Defaults, enum items and bounds are those of the
 * property declarations.
 */
module LegacyProperties {
  import opened Wrappers
  import opened Properties
  import opened Blender

  const LEGACY_FORMAT_IDS: seq<string> := ["PNG", "JPEG", "OPEN_EXR", "FFMPEG"]

  /** Hard bounds of the older `resolution_scale`, and the minimum of `samples`. */
  const LEGACY_SCALE_MIN: int := 1
  const LEGACY_SCALE_MAX: int := 1000

  predicate IsLegacyFormatId(id: string) { InList(id, LEGACY_FORMAT_IDS) }

  predicate IsOutputStructure(id: string) { InList(id, OUTPUT_STRUCTURES) }

  /** `RenderCueJob` of the older add-on; the scene reference is held by scene name. */
  datatype LegacyJob = LegacyJob(
    scene: Option<string>,
    overrideOutput: bool,
    outputPath: string,
    overrideFrameRange: bool,
    frameStart: int,
    frameEnd: int,
    overrideResolution: bool,
    resolutionScale: int,
    overrideFormat: bool,
    renderFormat: string,
    overrideSamples: bool,
    samples: int
  )

  predicate LegacyNoOverrides(j: LegacyJob) {
    !j.overrideOutput && !j.overrideFrameRange && !j.overrideResolution
    && !j.overrideFormat && !j.overrideSamples
  }

  /** The enum and bound constraints Blender enforces on a job. */
  predicate ValidLegacyJob(j: LegacyJob) {
    IsLegacyFormatId(j.renderFormat)
    && LEGACY_SCALE_MIN <= j.resolutionScale <= LEGACY_SCALE_MAX && j.samples >= SAMPLES_MIN
  }

  /** The job `jobs.add()` creates. */
  function NewLegacyJob(): (j: LegacyJob)
    ensures j.scene.None? && LegacyNoOverrides(j) && ValidLegacyJob(j)
    ensures j.outputPath == "//render/" && j.frameStart == 1 && j.frameEnd == 250
    ensures j.resolutionScale == 50 && j.renderFormat == "PNG" && j.samples == 128
  {
    LegacyJob(None, false, "//render/", false, 1, 250, false, 50, false, "PNG", false, 128)
  }

  function ClampLegacyScale(v: int): (r: int)
    ensures LEGACY_SCALE_MIN <= r <= LEGACY_SCALE_MAX
    ensures LEGACY_SCALE_MIN <= v <= LEGACY_SCALE_MAX ==> r == v
  {
    Clamp(v, LEGACY_SCALE_MIN, LEGACY_SCALE_MAX)
  }

  /** The scene a job points at, by position in the file; `None` when it has none. */
  function JobSceneIndex(job: LegacyJob, scenes: seq<Scene>): Option<nat> {
    PointedScene(job.scene, scenes)
  }

  /** `RenderCueSettings` of the older add-on. */
  class LegacySettings {
    var jobs: seq<LegacyJob>
    var activeJobIndex: int
    var outputStructure: string
    var globalOutputPath: string

    predicate Valid()
      reads this
    {
      (forall i :: 0 <= i < |jobs| ==> ValidLegacyJob(jobs[i])) && IsOutputStructure(outputStructure)
    }

    constructor()
      ensures Valid()
      ensures jobs == [] && activeJobIndex == 0
      ensures outputStructure == "SEPARATE" && globalOutputPath == DEFAULT_GLOBAL_OUTPUT
    {
      jobs := [];
      activeJobIndex := 0;
      outputStructure := "SEPARATE";
      globalOutputPath := DEFAULT_GLOBAL_OUTPUT;
    }
  }
}
