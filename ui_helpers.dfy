/**
 * The panel feedback helpers (`rendercue/ui_helpers.py`): scene counts,
 * a quick validation of the queue, the list of a job's active overrides
 * and the warning about a queue that mixes render engines.
 */
module UiHelpers {
  import opened Wrappers
  import opened Strings
  import opened Blender
  import opened Properties
  import Operators
  import ApplyOverride

  // ------------------------------------------------------ scene counts

  datatype Stats = Stats(total: nat, withCameras: nat, available: nat, inQueue: nat)

  function CountWithCamera(scenes: seq<Scene>): (n: nat)
    ensures n <= |scenes|
    decreases |scenes|
  {
    if scenes == [] then 0
    else CountWithCamera(scenes[..|scenes| - 1]) + if scenes[|scenes| - 1].camera.Some? then 1 else 0
  }

  /** The scenes with a camera whose name is not in `queued`. */
  function CountAvailable(queued: set<string>, scenes: seq<Scene>): (n: nat)
    ensures n <= CountWithCamera(scenes)
    decreases |scenes|
  {
    if scenes == [] then 0
    else
      var sc := scenes[|scenes| - 1];
      CountAvailable(queued, scenes[..|scenes| - 1]) + if sc.name !in queued && sc.camera.Some? then 1 else 0
  }

  /** `get_scene_statistics`. */
  function SceneStatistics(jobs: seq<Job>, scenes: seq<Scene>): (r: Stats)
    ensures r.total == |scenes|
    ensures r.available <= r.withCameras <= r.total
    ensures r.inQueue == |Operators.QueuedScenes(jobs)|
  {
    var queued := Operators.QueuedScenes(jobs);
    Stats(|scenes|, CountWithCamera(scenes), CountAvailable(queued, scenes), |queued|)
  }

  /** The scenes counted as available are exactly the ones "add all scenes" would queue. */
  lemma {:induction false} AvailableIsWhatPopulateAdds(queued: set<string>, scenes: seq<Scene>)
    ensures CountAvailable(queued, scenes) == |Operators.NewScenes(queued, scenes)|
    decreases |scenes|
  {
    if scenes != [] {
      AvailableIsWhatPopulateAdds(queued, scenes[..|scenes| - 1]);
    }
  }

  lemma StatisticsAvailable(jobs: seq<Job>, scenes: seq<Scene>)
    ensures SceneStatistics(jobs, scenes).available
         == |Operators.NewScenes(Operators.QueuedScenes(jobs), scenes)|
  {
    AvailableIsWhatPopulateAdds(Operators.QueuedScenes(jobs), scenes);
  }

  /** Distinct queued scenes never outnumber the jobs. */
  lemma {:induction false} InQueueAtMostJobs(jobs: seq<Job>)
    ensures |Operators.QueuedScenes(jobs)| <= |jobs|
    decreases |jobs|
  {
    if jobs != [] {
      var front := jobs[..|jobs| - 1];
      var last := jobs[|jobs| - 1];
      InQueueAtMostJobs(front);
      var extra: set<string> := if last.scene.Some? then {last.scene.value} else {};
      assert Operators.QueuedScenes(jobs) <= Operators.QueuedScenes(front) + extra by {
        forall x | x in Operators.QueuedScenes(jobs)
          ensures x in Operators.QueuedScenes(front) + extra
        {
          var j :| j in jobs && j.scene.Some? && j.scene.value == x;
          var k :| 0 <= k < |jobs| && jobs[k] == j;
          if k < |front| {
            assert front[k] == j;
          }
        }
      }
      assert |Operators.QueuedScenes(front) + extra| <= |Operators.QueuedScenes(front)| + |extra|;
      SubsetCard(Operators.QueuedScenes(jobs), Operators.QueuedScenes(front) + extra);
    }
  }

  lemma SubsetCard(a: set<string>, b: set<string>)
    requires a <= b
    ensures |a| <= |b|
  {
    assert b == a + (b - a);
  }

  // -------------------------------------------------------- validation

  datatype Validation = Validation(errors: seq<string>, warnings: seq<string>, isValid: bool)

  const EMPTY_QUEUE: string := "Queue is empty"

  function JobLabel(i: nat): string {
    "Job " + NatToString(i + 1) + ": "
  }

  /** The job has a scene, and that scene has a camera or the job overrides the camera. */
  predicate Runnable(j: Job, scenes: seq<Scene>) {
    var sc := ApplyOverride.JobScene(j, scenes);
    sc.Some? && (sc.value.camera.Some? || j.overrideCamera)
  }

  /** The error for job `i` (numbered from 1): no scene, else no camera. */
  function JobErrors(j: Job, i: nat, scenes: seq<Scene>): (r: seq<string>)
    ensures |r| <= 1
    ensures r == [] <==> Runnable(j, scenes)
  {
    match ApplyOverride.JobScene(j, scenes)
    case None => [JobLabel(i) + "No scene"]
    case Some(sc) => if sc.camera.None? && !j.overrideCamera then [JobLabel(i) + "No camera"] else []
  }

  /** The warnings for job `i`: an override camera the scene lacks, an override view layer it lacks. */
  function JobWarnings(j: Job, i: nat, scenes: seq<Scene>): (r: seq<string>)
    ensures |r| <= 2
  {
    match ApplyOverride.JobScene(j, scenes)
    case None => []
    case Some(sc) =>
      (if j.overrideCamera && j.camera.Some? && j.camera.value !in sc.objects
       then [JobLabel(i) + "Camera not in scene"] else [])
      + (if j.overrideViewLayer && j.viewLayer != "" && j.viewLayer !in LayerNames(sc.viewLayers)
         then [JobLabel(i) + "Invalid view layer"] else [])
  }

  function ErrorsOf(jobs: seq<Job>, scenes: seq<Scene>): seq<string>
    decreases |jobs|
  {
    if jobs == [] then []
    else ErrorsOf(jobs[..|jobs| - 1], scenes) + JobErrors(jobs[|jobs| - 1], |jobs| - 1, scenes)
  }

  function WarningsOf(jobs: seq<Job>, scenes: seq<Scene>): seq<string>
    decreases |jobs|
  {
    if jobs == [] then []
    else WarningsOf(jobs[..|jobs| - 1], scenes) + JobWarnings(jobs[|jobs| - 1], |jobs| - 1, scenes)
  }

  /** The summary `get_queue_validation_summary` returns. */
  function ValidationOf(jobs: seq<Job>, scenes: seq<Scene>): Validation {
    if jobs == [] then Validation([EMPTY_QUEUE], [], false)
    else
      var errors := ErrorsOf(jobs, scenes);
      Validation(errors, WarningsOf(jobs, scenes), |errors| == 0)
  }

  /** All jobs can run. */
  predicate AllRunnable(jobs: seq<Job>, scenes: seq<Scene>) {
    forall i :: 0 <= i < |jobs| ==> Runnable(jobs[i], scenes)
  }

  lemma AllRunnableStep(jobs: seq<Job>, scenes: seq<Scene>)
    requires jobs != []
    ensures AllRunnable(jobs, scenes)
        <==> AllRunnable(jobs[..|jobs| - 1], scenes) && Runnable(jobs[|jobs| - 1], scenes)
  {
    var front := jobs[..|jobs| - 1];
    assert forall i :: 0 <= i < |front| ==> front[i] == jobs[i];
  }

  /** Each job contributes one error exactly when it cannot run. */
  lemma {:induction false} ErrorsIffNotRunnable(jobs: seq<Job>, scenes: seq<Scene>)
    ensures ErrorsOf(jobs, scenes) == [] <==> AllRunnable(jobs, scenes)
    ensures |ErrorsOf(jobs, scenes)| <= |jobs|
    decreases |jobs|
  {
    if jobs != [] {
      var front := jobs[..|jobs| - 1];
      var last := jobs[|jobs| - 1];
      ErrorsIffNotRunnable(front, scenes);
      AllRunnableStep(jobs, scenes);
      var e := JobErrors(last, |jobs| - 1, scenes);
      assert ErrorsOf(jobs, scenes) == ErrorsOf(front, scenes) + e;
      assert e == [] <==> Runnable(last, scenes);
    }
  }

  /**
   * The queue is valid exactly when it is not empty and every job has a
   * scene with a camera or a camera override; a missing override camera
   * or view layer only warns.
   */
  lemma ValidIff(jobs: seq<Job>, scenes: seq<Scene>)
    ensures ValidationOf(jobs, scenes).isValid <==> ValidationOf(jobs, scenes).errors == []
    ensures ValidationOf(jobs, scenes).isValid
        <==> jobs != [] && AllRunnable(jobs, scenes)
  {
    ErrorsIffNotRunnable(jobs, scenes);
  }

  /** `get_queue_validation_summary`: the same checks, collected in a loop over the jobs. */
  method ValidateQueue(jobs: seq<Job>, scenes: seq<Scene>) returns (v: Validation)
    ensures v == ValidationOf(jobs, scenes)
    ensures jobs == [] ==> v.errors == [EMPTY_QUEUE] && v.warnings == [] && !v.isValid
  {
    if jobs == [] {
      return Validation([EMPTY_QUEUE], [], false);
    }
    var errors := [];
    var warnings := [];
    for i := 0 to |jobs|
      invariant errors == ErrorsOf(jobs[..i], scenes) && warnings == WarningsOf(jobs[..i], scenes)
    {
      assert jobs[..i + 1][..i] == jobs[..i];
      errors := errors + JobErrors(jobs[i], i, scenes);
      warnings := warnings + JobWarnings(jobs[i], i, scenes);
    }
    assert jobs[..|jobs|] == jobs;
    v := Validation(errors, warnings, |errors| == 0);
  }

  // -------------------------------------------------- override summary

  datatype Entry = Entry(name: string, value: string)

  datatype Summary = Summary(count: nat, overrides: seq<Entry>)

  /** The lines the summary can list. */
  datatype Line =
    | RangeLine | StepLine | CameraLine | ResolutionLine | SamplesLine | EngineLine | ViewLayerLine
    | FormatLine | OutputLine | TransparentLine | CompositorLine | DenoisingLine | DeviceLine
    | TimeLimitLine | PersistentDataLine

  /** The order in which the summary checks them. */
  const LINES: seq<Line> := [
    RangeLine, StepLine, CameraLine, ResolutionLine, SamplesLine, EngineLine, ViewLayerLine,
    FormatLine, OutputLine, TransparentLine, CompositorLine, DenoisingLine, DeviceLine,
    TimeLimitLine, PersistentDataLine
  ]

  lemma EveryLineChecked(l: Line)
    ensures l in LINES
  {
  }

  function Title(l: Line): string {
    match l
    case RangeLine => "Frame Range"
    case StepLine => "Frame Step"
    case CameraLine => "Camera"
    case ResolutionLine => "Resolution"
    case SamplesLine => "Samples"
    case EngineLine => "Engine"
    case ViewLayerLine => "View Layer"
    case FormatLine => "Format"
    case OutputLine => "Output"
    case TransparentLine => "Transparent"
    case CompositorLine => "Compositor"
    case DenoisingLine => "Denoising"
    case DeviceLine => "Device"
    case TimeLimitLine => "Time Limit"
    case PersistentDataLine => "Persistent Data"
  }

  /** A line is listed when its override is on; the camera also needs a camera, the time limit a positive one. */
  predicate Active(j: Job, l: Line) {
    match l
    case RangeLine => j.overrideFrameRange
    case StepLine => j.overrideFrameStep
    case CameraLine => j.overrideCamera && j.camera.Some?
    case ResolutionLine => j.overrideResolution
    case SamplesLine => j.overrideSamples
    case EngineLine => j.overrideEngine
    case ViewLayerLine => j.overrideViewLayer
    case FormatLine => j.overrideFormat
    case OutputLine => j.overrideOutput
    case TransparentLine => j.overrideTransparent
    case CompositorLine => j.overrideCompositor
    case DenoisingLine => j.overrideDenoising
    case DeviceLine => j.overrideDevice
    case TimeLimitLine => j.overrideTimeLimit && j.timeLimit > 0
    case PersistentDataLine => j.overridePersistentData
  }

  function YesNo(b: bool): string { if b then "Yes" else "No" }

  function Value(j: Job, l: Line): string {
    match l
    case RangeLine => IntToString(j.frameStart) + "-" + IntToString(j.frameEnd)
    case StepLine => IntToString(j.frameStep)
    case CameraLine => if j.camera.Some? then j.camera.value else ""
    case ResolutionLine => IntToString(j.resolutionScale) + "%"
    case SamplesLine => IntToString(j.samples)
    case EngineLine => j.renderEngine
    case ViewLayerLine => j.viewLayer
    case FormatLine => j.renderFormat
    case OutputLine => "Custom"
    case TransparentLine => YesNo(j.filmTransparent)
    case CompositorLine => YesNo(j.useCompositor)
    case DenoisingLine => YesNo(j.useDenoising)
    case DeviceLine => j.device
    case TimeLimitLine => IntToString(j.timeLimit) + "s"
    case PersistentDataLine => YesNo(j.usePersistentData)
  }

  /** The active lines among `ls`, in the order of `ls`. */
  function ActiveLines(j: Job, ls: seq<Line>): (r: seq<Line>)
    ensures |r| <= |ls|
    decreases |ls|
  {
    if ls == [] then []
    else (if Active(j, ls[0]) then [ls[0]] else []) + ActiveLines(j, ls[1..])
  }

  lemma {:induction false} ActiveLinesMembers(j: Job, ls: seq<Line>, l: Line)
    ensures l in ActiveLines(j, ls) <==> l in ls && Active(j, l)
    decreases |ls|
  {
    if ls != [] {
      ActiveLinesMembers(j, ls[1..], l);
      assert ls == [ls[0]] + ls[1..];
    }
  }

  lemma {:induction false} NoneActive(j: Job, ls: seq<Line>)
    requires forall k :: 0 <= k < |ls| ==> !Active(j, ls[k])
    ensures ActiveLines(j, ls) == []
    decreases |ls|
  {
    if ls != [] {
      NoneActive(j, ls[1..]);
    }
  }

  /** The entries for `ls`, one per line, with its title and the job's value. */
  function Entries(j: Job, ls: seq<Line>): (r: seq<Entry>)
    ensures |r| == |ls|
    ensures forall i :: 0 <= i < |ls| ==> r[i] == Entry(Title(ls[i]), Value(j, ls[i]))
    decreases |ls|
  {
    if ls == [] then [] else [Entry(Title(ls[0]), Value(j, ls[0]))] + Entries(j, ls[1..])
  }

  /**
   * `get_override_summary`: no job gives nothing; otherwise one entry per
   * active line, in the fixed order, with its title and value, and their number.
   */
  function OverrideSummary(job: Option<Job>): (r: Summary)
    ensures r.count == |r.overrides|
    ensures job.None? ==> r.overrides == []
    ensures job.Some? ==> r.overrides == Entries(job.value, ActiveLines(job.value, LINES))
  {
    if job.None? then Summary(0, [])
    else
      var entries := Entries(job.value, ActiveLines(job.value, LINES));
      Summary(|entries|, entries)
  }

  /** A line is in the summary exactly when it is active. */
  lemma ListedIff(j: Job, l: Line)
    ensures l in ActiveLines(j, LINES) <==> Active(j, l)
  {
    EveryLineChecked(l);
    ActiveLinesMembers(j, LINES, l);
  }

  /** A job without overrides has an empty summary. */
  lemma NoOverridesEmptySummary(j: Job)
    requires NoOverrides(j)
    ensures OverrideSummary(Some(j)).count == 0
  {
    forall k | 0 <= k < |LINES|
      ensures !Active(j, LINES[k])
    {
    }
    NoneActive(j, LINES);
  }

  // ---------------------------------------------------- engine warning

  /** The engine a job renders with: its override if on, else its scene's. */
  function EffectiveEngine(j: Job, sc: Scene): string {
    if j.overrideEngine then j.renderEngine else sc.engine
  }

  /** The engine a job renders with, when it has a scene. */
  function JobEngine(j: Job, scenes: seq<Scene>): Option<string> {
    match ApplyOverride.JobScene(j, scenes)
    case None => None
    case Some(sc) => Some(EffectiveEngine(j, sc))
  }

  /** The effective engines of the jobs that have a scene, `sorted(set(...))`. */
  function EnginesOf(jobs: seq<Job>, scenes: seq<Scene>): (r: seq<string>)
    ensures StrictlySorted(r)
    decreases |jobs|
  {
    if jobs == [] then []
    else
      var rest := EnginesOf(jobs[..|jobs| - 1], scenes);
      match JobEngine(jobs[|jobs| - 1], scenes)
      case None => rest
      case Some(e) => InsertSorted(e, rest)
  }

  /** Job `i` has a scene and renders with `e`. */
  predicate UsesEngine(jobs: seq<Job>, scenes: seq<Scene>, i: int, e: string) {
    0 <= i < |jobs| && JobEngine(jobs[i], scenes) == Some(e)
  }

  /** Some job of `jobs` uses `e`. */
  predicate SomeUses(jobs: seq<Job>, scenes: seq<Scene>, e: string) {
    exists i :: 0 <= i < |jobs| && UsesEngine(jobs, scenes, i, e)
  }

  lemma SomeUsesStep(jobs: seq<Job>, scenes: seq<Scene>, e: string)
    requires jobs != []
    ensures SomeUses(jobs, scenes, e)
        <==> SomeUses(jobs[..|jobs| - 1], scenes, e) || JobEngine(jobs[|jobs| - 1], scenes) == Some(e)
  {
    var front := jobs[..|jobs| - 1];
    var n := |jobs| - 1;
    if SomeUses(front, scenes, e) {
      var i :| 0 <= i < |front| && UsesEngine(front, scenes, i, e);
      assert front[i] == jobs[i];
      assert UsesEngine(jobs, scenes, i, e);
    }
    if JobEngine(jobs[n], scenes) == Some(e) {
      assert UsesEngine(jobs, scenes, n, e);
    }
    if SomeUses(jobs, scenes, e) {
      var i :| 0 <= i < |jobs| && UsesEngine(jobs, scenes, i, e);
      if i < n {
        assert front[i] == jobs[i];
        assert UsesEngine(front, scenes, i, e);
      }
    }
  }

  /** The listed engines are exactly the engines some job with a scene uses. */
  lemma {:induction false} EnginesOfMembers(jobs: seq<Job>, scenes: seq<Scene>, e: string)
    ensures e in EnginesOf(jobs, scenes) <==> SomeUses(jobs, scenes, e)
    decreases |jobs|
  {
    if jobs == [] {
      assert !SomeUses(jobs, scenes, e);
    } else {
      var front := jobs[..|jobs| - 1];
      EnginesOfMembers(front, scenes, e);
      SomeUsesStep(jobs, scenes, e);
      var rest := EnginesOf(front, scenes);
      match JobEngine(jobs[|jobs| - 1], scenes)
      case None =>
      case Some(x) =>
        ElemsMember(rest, e);
        ElemsMember(InsertSorted(x, rest), e);
    }
  }

  lemma ElemsMember(s: seq<string>, e: string)
    ensures e in s <==> e in Elems(s)
  {
  }

  /** The warning: `None` without jobs or with one engine at most, else the count and the sorted list. */
  function MixedEngineWarningOf(jobs: seq<Job>, scenes: seq<Scene>): Option<string> {
    var engines := EnginesOf(jobs, scenes);
    if jobs == [] || |engines| <= 1 then None
    else Some("Queue uses " + NatToString(|engines|) + " engines: " + JoinWith(engines, ", "))
  }

  /** Jobs `a` and `b` both have scenes and render with different engines. */
  predicate Differ(jobs: seq<Job>, scenes: seq<Scene>, a: int, b: int) {
    0 <= a < |jobs| && 0 <= b < |jobs|
    && JobEngine(jobs[a], scenes).Some? && JobEngine(jobs[b], scenes).Some?
    && JobEngine(jobs[a], scenes) != JobEngine(jobs[b], scenes)
  }

  lemma TwoMembers(s: seq<string>, x: string, y: string)
    requires x in s && y in s && x != y
    ensures |s| > 1
  {
  }

  /** There is a warning exactly when two jobs with scenes render with different engines. */
  lemma MixedIff(jobs: seq<Job>, scenes: seq<Scene>)
    ensures MixedEngineWarningOf(jobs, scenes).Some? <==> exists a, b :: Differ(jobs, scenes, a, b)
  {
    var engines := EnginesOf(jobs, scenes);
    if |engines| > 1 {
      EnginesOfMembers(jobs, scenes, engines[0]);
      EnginesOfMembers(jobs, scenes, engines[1]);
      LessIrreflexive(engines[0]);
      assert engines[0] in engines && engines[1] in engines;
      var a :| 0 <= a < |jobs| && UsesEngine(jobs, scenes, a, engines[0]);
      var b :| 0 <= b < |jobs| && UsesEngine(jobs, scenes, b, engines[1]);
      assert Differ(jobs, scenes, a, b);
    }
    if exists a, b :: Differ(jobs, scenes, a, b) {
      var a, b :| Differ(jobs, scenes, a, b);
      var ea, eb := JobEngine(jobs[a], scenes).value, JobEngine(jobs[b], scenes).value;
      assert UsesEngine(jobs, scenes, a, ea) && UsesEngine(jobs, scenes, b, eb);
      EnginesOfMembers(jobs, scenes, ea);
      EnginesOfMembers(jobs, scenes, eb);
      TwoMembers(engines, ea, eb);
    }
  }

  /** `get_mixed_engine_warning`: the engines are gathered in a loop, then counted and listed in order. */
  method MixedEngineWarning(jobs: seq<Job>, scenes: seq<Scene>) returns (w: Option<string>)
    ensures w == MixedEngineWarningOf(jobs, scenes)
  {
    if jobs == [] {
      return None;
    }
    var engines := [];
    for i := 0 to |jobs|
      invariant engines == EnginesOf(jobs[..i], scenes)
    {
      assert jobs[..i + 1][..i] == jobs[..i];
      var sc := ApplyOverride.JobScene(jobs[i], scenes);
      if sc.Some? {
        var engine := if jobs[i].overrideEngine then jobs[i].renderEngine else sc.value.engine;
        engines := InsertSorted(engine, engines);
      }
    }
    assert jobs[..|jobs|] == jobs;
    if |engines| > 1 {
      w := Some("Queue uses " + NatToString(|engines|) + " engines: " + JoinWith(engines, ", "));
    } else {
      w := None;
    }
  }
}
