/**
 * `apply_override_to_all.execute` (`rendercue/operators.py`): for each
 * override the user ticked, copy the active job's flag and value to every
 * job in the queue. A frame range is copied as a pair and its end clamped
 * to its start; a camera or view-layer override marked "smart" in the
 * override metadata skips the jobs whose scene lacks that camera object or
 * view layer, and counts them.
 *
 * The metadata table (`ui_helpers.OVERRIDE_METADATA`) is a parameter:
 * `None` stands for a table that does not exist, in which case the lookup
 * raises on the first ticked override; `Some(t)` maps a metadata key to its
 * `apply` entry, a missing key meaning "universal".
 */
module ApplyOverride {
  import opened Wrappers
  import opened Blender
  import opened Properties

  /** The fifteen overrides, in the order of the operator's mapping (`Layer` is the view layer). */
  datatype Kind = Output | FrameRange | Resolution | Samples | Camera | Engine | Device | Layer
                | FrameStep | Format | Transparent | Compositor | Denoising | TimeLimit | PersistentData

  const KINDS: seq<Kind> := [Output, FrameRange, Resolution, Samples, Camera, Engine, Device, Layer,
                             FrameStep, Format, Transparent, Compositor, Denoising, TimeLimit, PersistentData]

  predicate NoneTicked(kinds: seq<Kind>, selected: set<Kind>) {
    forall m :: 0 <= m < |kinds| ==> kinds[m] !in selected
  }

  lemma NoneTickedEmpty(selected: set<Kind>)
    requires NoneTicked(KINDS, selected)
    ensures selected == {}
  {
    if k :| k in selected {
      AllKindsListed(k);
    }
  }

  lemma AllKindsListed(k: Kind)
    ensures k in KINDS
  {
    match k
    case Output => assert KINDS[0] == k;
    case FrameRange => assert KINDS[1] == k;
    case Resolution => assert KINDS[2] == k;
    case Samples => assert KINDS[3] == k;
    case Camera => assert KINDS[4] == k;
    case Engine => assert KINDS[5] == k;
    case Device => assert KINDS[6] == k;
    case Layer => assert KINDS[7] == k;
    case FrameStep => assert KINDS[8] == k;
    case Format => assert KINDS[9] == k;
    case Transparent => assert KINDS[10] == k;
    case Compositor => assert KINDS[11] == k;
    case Denoising => assert KINDS[12] == k;
    case TimeLimit => assert KINDS[13] == k;
    case PersistentData => assert KINDS[14] == k;
  }

  /** The override's key in the metadata table. */
  function MetaKey(k: Kind): string {
    match k
    case Output => "output"
    case FrameRange => "frame_range"
    case Resolution => "resolution"
    case Samples => "samples"
    case Camera => "camera"
    case Engine => "engine"
    case Device => "device"
    case Layer => "view_layer"
    case FrameStep => "frame_step"
    case Format => "format"
    case Transparent => "transparent"
    case Compositor => "compositor"
    case Denoising => "denoising"
    case TimeLimit => "time_limit"
    case PersistentData => "persistent_data"
  }

  /** `meta['apply'] if meta else 'universal'`. */
  function ApplyType(table: map<string, string>, k: Kind): string {
    if MetaKey(k) in table then table[MetaKey(k)] else "universal"
  }

  /** The override's flag on a job. */
  function Flag(j: Job, k: Kind): bool {
    match k
    case Output => j.overrideOutput
    case FrameRange => j.overrideFrameRange
    case Resolution => j.overrideResolution
    case Samples => j.overrideSamples
    case Camera => j.overrideCamera
    case Engine => j.overrideEngine
    case Device => j.overrideDevice
    case Layer => j.overrideViewLayer
    case FrameStep => j.overrideFrameStep
    case Format => j.overrideFormat
    case Transparent => j.overrideTransparent
    case Compositor => j.overrideCompositor
    case Denoising => j.overrideDenoising
    case TimeLimit => j.overrideTimeLimit
    case PersistentData => j.overridePersistentData
  }

  /**
   * One job given the source's override: the flag is set to the source's,
   * and when it is on the value is copied too. A frame range copies both
   * ends and raises an end below the start to the start.
   */
  function Overridden(j: Job, src: Job, k: Kind): Job {
    match k
    case Output =>
      j.(overrideOutput := src.overrideOutput,
         outputPath := if src.overrideOutput then src.outputPath else j.outputPath)
    case FrameRange => FramesSet(j, src.overrideFrameRange, src.frameStart, src.frameEnd)
    case Resolution =>
      j.(overrideResolution := src.overrideResolution,
         resolutionScale := if src.overrideResolution then src.resolutionScale else j.resolutionScale)
    case Samples =>
      j.(overrideSamples := src.overrideSamples,
         samples := if src.overrideSamples then src.samples else j.samples)
    case Camera =>
      j.(overrideCamera := src.overrideCamera,
         camera := if src.overrideCamera then src.camera else j.camera)
    case Engine =>
      j.(overrideEngine := src.overrideEngine,
         renderEngine := if src.overrideEngine then src.renderEngine else j.renderEngine)
    case Device =>
      j.(overrideDevice := src.overrideDevice,
         device := if src.overrideDevice then src.device else j.device)
    case Layer =>
      j.(overrideViewLayer := src.overrideViewLayer,
         viewLayer := if src.overrideViewLayer then src.viewLayer else j.viewLayer)
    case FrameStep =>
      j.(overrideFrameStep := src.overrideFrameStep,
         frameStep := if src.overrideFrameStep then src.frameStep else j.frameStep)
    case Format =>
      j.(overrideFormat := src.overrideFormat,
         renderFormat := if src.overrideFormat then src.renderFormat else j.renderFormat)
    case Transparent =>
      j.(overrideTransparent := src.overrideTransparent,
         filmTransparent := if src.overrideTransparent then src.filmTransparent else j.filmTransparent)
    case Compositor =>
      j.(overrideCompositor := src.overrideCompositor,
         useCompositor := if src.overrideCompositor then src.useCompositor else j.useCompositor)
    case Denoising =>
      j.(overrideDenoising := src.overrideDenoising,
         useDenoising := if src.overrideDenoising then src.useDenoising else j.useDenoising)
    case TimeLimit =>
      j.(overrideTimeLimit := src.overrideTimeLimit,
         timeLimit := if src.overrideTimeLimit then src.timeLimit else j.timeLimit)
    case PersistentData =>
      j.(overridePersistentData := src.overridePersistentData,
         usePersistentData := if src.overridePersistentData then src.usePersistentData else j.usePersistentData)
  }

  /** The frame-range flag set; when on, both ends copied and an end below the start raised to it. */
  function FramesSet(j: Job, on: bool, frameStart: int, frameEnd: int): Job {
    j.(overrideFrameRange := on,
       frameStart := if on then frameStart else j.frameStart,
       frameEnd := if !on then j.frameEnd else if frameEnd < frameStart then frameStart else frameEnd)
  }

  /** The job's scene, if its scene reference names a scene that exists. */
  function JobScene(j: Job, scenes: seq<Scene>): Option<Scene> {
    if j.scene.None? then None
    else match FindScene(scenes, j.scene.value)
      case None => None
      case Some(i) => Some(scenes[i])
  }

  /** What happens to one job: it takes the override, it is skipped and counted, or it is left alone uncounted. */
  datatype Outcome = Take | Skip | Block

  /**
   * The smart check. With a smart camera override switched on, a source
   * without a camera blocks every job and a job whose scene lacks the
   * camera object is skipped; with a smart view-layer override switched on,
   * a job whose scene has no layer of that name is skipped. A job without
   * a scene always takes the override. The frame range is never smart.
   */
  function Decide(j: Job, src: Job, k: Kind, applyType: string, scenes: seq<Scene>): Outcome {
    if k == FrameRange then Take
    else if applyType == "smart_camera" && Flag(src, k) then
      if src.camera.None? then Block
      else match JobScene(j, scenes)
        case Some(sc) => if src.camera.value in sc.objects then Take else Skip
        case None => Take
    else if applyType == "smart_view_layer" && Flag(src, k) then
      match JobScene(j, scenes)
      case Some(sc) => if src.viewLayer in LayerNames(sc.viewLayers) then Take else Skip
      case None => Take
    else Take
  }

  function KindJob(j: Job, src: Job, k: Kind, applyType: string, scenes: seq<Scene>): Job {
    if Decide(j, src, k, applyType, scenes) == Take then Overridden(j, src, k) else j
  }

  /** Whether the job adds to the applied count: a frame range only when switched on, others whenever taken. */
  predicate CountsApplied(j: Job, src: Job, k: Kind, applyType: string, scenes: seq<Scene>) {
    if k == FrameRange then src.overrideFrameRange else Decide(j, src, k, applyType, scenes) == Take
  }

  /** The queue after one override is applied from `src`. */
  function KindJobs(jobs: seq<Job>, src: Job, k: Kind, applyType: string, scenes: seq<Scene>): (r: seq<Job>)
    ensures |r| == |jobs|
    ensures forall i :: 0 <= i < |jobs| ==> r[i] == KindJob(jobs[i], src, k, applyType, scenes)
  {
    seq(|jobs|, i requires 0 <= i < |jobs| => KindJob(jobs[i], src, k, applyType, scenes))
  }

  function AppliedCount(jobs: seq<Job>, src: Job, k: Kind, applyType: string, scenes: seq<Scene>): (n: nat)
    ensures n <= |jobs|
    decreases |jobs|
  {
    if jobs == [] then 0
    else AppliedCount(jobs[..|jobs| - 1], src, k, applyType, scenes)
         + if CountsApplied(jobs[|jobs| - 1], src, k, applyType, scenes) then 1 else 0
  }

  function SkippedCount(jobs: seq<Job>, src: Job, k: Kind, applyType: string, scenes: seq<Scene>): (n: nat)
    ensures n <= |jobs|
    decreases |jobs|
  {
    if jobs == [] then 0
    else SkippedCount(jobs[..|jobs| - 1], src, k, applyType, scenes)
         + if Decide(jobs[|jobs| - 1], src, k, applyType, scenes) == Skip then 1 else 0
  }

  // ------------------------------------------------------ all overrides

  datatype Run = Run(jobs: seq<Job>, applied: nat, skipped: nat)

  /** One ticked override applied; the source is re-read from the queue as it now is. */
  function KindRun(r: Run, idx: nat, k: Kind, table: map<string, string>, scenes: seq<Scene>): (r': Run)
    requires idx < |r.jobs|
    ensures |r'.jobs| == |r.jobs|
  {
    var src := r.jobs[idx];
    var t := ApplyType(table, k);
    Run(KindJobs(r.jobs, src, k, t, scenes),
        r.applied + AppliedCount(r.jobs, src, k, t, scenes),
        r.skipped + SkippedCount(r.jobs, src, k, t, scenes))
  }

  /** The ticked overrides among `kinds`, applied in order. */
  function RunKinds(jobs: seq<Job>, idx: nat, kinds: seq<Kind>, selected: set<Kind>,
                    table: map<string, string>, scenes: seq<Scene>): (r: Run)
    requires idx < |jobs|
    ensures |r.jobs| == |jobs|
    decreases |kinds|
  {
    if kinds == [] then Run(jobs, 0, 0)
    else
      var r := RunKinds(jobs, idx, kinds[..|kinds| - 1], selected, table, scenes);
      var k := kinds[|kinds| - 1];
      if k in selected then KindRun(r, idx, k, table, scenes) else r
  }

  datatype ApplyResult = ApplyCancelled | ApplyRaised | ApplyDone(applied: nat, skipped: nat)

  datatype Applied = Applied(result: ApplyResult, jobs: seq<Job>)

  /**
   * The operator: an empty queue cancels; an active index out of range
   * raises; a missing metadata table raises at the first ticked override;
   * otherwise every ticked override is applied and the counts reported.
   * Nothing changes when it cancels or raises.
   */
  function ApplyToAll(jobs: seq<Job>, active: int, selected: set<Kind>, meta: Option<map<string, string>>,
                      scenes: seq<Scene>): Applied
  {
    if |jobs| == 0 then Applied(ApplyCancelled, jobs)
    else match PyIndex(active, |jobs|)
      case None => Applied(ApplyRaised, jobs)
      case Some(idx) =>
        if meta.None? then
          if selected == {} then Applied(ApplyDone(0, 0), jobs) else Applied(ApplyRaised, jobs)
        else
          var r := RunKinds(jobs, idx, KINDS, selected, meta.value, scenes);
          Applied(ApplyDone(r.applied, r.skipped), r.jobs)
  }

  // ------------------------------------------------------------ methods

  /** One job's frame range set from the captured flag and ends. */
  method SetFrames(j: Job, enabled: bool, frameStart: int, frameEnd: int) returns (r: Job)
    ensures r == FramesSet(j, enabled, frameStart, frameEnd)
  {
    if enabled {
      var end := frameEnd;
      if end < frameStart {
        end := frameStart;
      }
      r := j.(overrideFrameRange := true, frameStart := frameStart, frameEnd := end);
    } else {
      r := j.(overrideFrameRange := false);
    }
  }

  /** The frame-range branch: both ends captured before the loop. */
  method ApplyFrameRange(s: Settings, idx: nat) returns (applied: nat)
    requires idx < |s.jobs|
    modifies s`jobs
    ensures s.jobs == KindJobs(old(s.jobs), old(s.jobs)[idx], FrameRange, "", [])
    ensures applied == AppliedCount(old(s.jobs), old(s.jobs)[idx], FrameRange, "", [])
  {
    var src := s.jobs[idx];
    var enabled := src.overrideFrameRange;
    var frameStart, frameEnd := src.frameStart, src.frameEnd;
    ghost var jobs := s.jobs;
    applied := 0;
    for i := 0 to |s.jobs|
      invariant Progress(jobs, s.jobs, i, src, FrameRange, "", [], applied, 0)
    {
      var job := SetFrames(s.jobs[i], enabled, frameStart, frameEnd);
      var a := if enabled then 1 else 0;
      ProgressStep(jobs, s.jobs, i, src, FrameRange, "", [], applied, 0, job, a, 0);
      s.jobs := s.jobs[i := job];
      applied := applied + a;
    }
    ProgressDone(jobs, s.jobs, src, FrameRange, "", [], applied, 0);
  }

  /** The smart check for one job, reading the camera and view layer from `source`. */
  method Screen(job: Job, source: Job, k: Kind, applyType: string, enabled: bool, scenes: seq<Scene>)
    returns (take: bool, skip: bool)
    requires k != FrameRange && enabled == Flag(source, k)
    ensures take <==> Decide(job, source, k, applyType, scenes) == Take
    ensures skip <==> Decide(job, source, k, applyType, scenes) == Skip
  {
    take, skip := true, false;
    if applyType == "smart_camera" && enabled {
      if source.camera.None? {
        take := false;
      } else {
        var sc := JobScene(job, scenes);
        if sc.Some? && source.camera.value !in sc.value.objects {
          take, skip := false, true;
        }
      }
    } else if applyType == "smart_view_layer" && enabled {
      var sc := JobScene(job, scenes);
      if sc.Some? && source.viewLayer !in LayerNames(sc.value.viewLayers) {
        take, skip := false, true;
      }
    }
  }

  /** One job of the loop: screened, then overridden when it takes the override. */
  method ValueJob(job: Job, source: Job, k: Kind, applyType: string, enabled: bool, scenes: seq<Scene>)
    returns (r: Job, applied: nat, skipped: nat)
    requires k != FrameRange && enabled == Flag(source, k)
    ensures r == KindJob(job, source, k, applyType, scenes)
    ensures applied == if CountsApplied(job, source, k, applyType, scenes) then 1 else 0
    ensures skipped == if Decide(job, source, k, applyType, scenes) == Skip then 1 else 0
  {
    var take, skip := Screen(job, source, k, applyType, enabled, scenes);
    r, applied, skipped := job, 0, 0;
    if take {
      r, applied := Overridden(job, source, k), 1;
    }
    if skip {
      skipped := 1;
    }
  }

  /**
   * The branch for every other override: the flag and the value are
   * captured before the loop. The smart check reads the camera and view
   * layer from the source job as the loop leaves it; the captured source
   * is used instead, which is the same job (`SelfKindJob`).
   */
  method ApplyValue(s: Settings, idx: nat, k: Kind, applyType: string, scenes: seq<Scene>)
    returns (applied: nat, skipped: nat)
    requires idx < |s.jobs| && k != FrameRange
    modifies s`jobs
    ensures s.jobs == KindJobs(old(s.jobs), old(s.jobs)[idx], k, applyType, scenes)
    ensures applied == AppliedCount(old(s.jobs), old(s.jobs)[idx], k, applyType, scenes)
    ensures skipped == SkippedCount(old(s.jobs), old(s.jobs)[idx], k, applyType, scenes)
  {
    var src := s.jobs[idx];
    var enabled := Flag(src, k);
    ghost var jobs := s.jobs;
    applied, skipped := 0, 0;
    for i := 0 to |s.jobs|
      invariant Progress(jobs, s.jobs, i, src, k, applyType, scenes, applied, skipped)
    {
      var job, a, sk := ValueJob(s.jobs[i], src, k, applyType, enabled, scenes);
      ProgressStep(jobs, s.jobs, i, src, k, applyType, scenes, applied, skipped, job, a, sk);
      s.jobs := s.jobs[i := job];
      applied, skipped := applied + a, skipped + sk;
    }
    ProgressDone(jobs, s.jobs, src, k, applyType, scenes, applied, skipped);
  }

  /** A ticked override, by its branch in the operator. */
  method ApplyKind(s: Settings, idx: nat, k: Kind, applyType: string, scenes: seq<Scene>)
    returns (applied: nat, skipped: nat)
    requires idx < |s.jobs|
    modifies s`jobs
    ensures s.jobs == KindJobs(old(s.jobs), old(s.jobs)[idx], k, applyType, scenes)
    ensures applied == AppliedCount(old(s.jobs), old(s.jobs)[idx], k, applyType, scenes)
    ensures skipped == SkippedCount(old(s.jobs), old(s.jobs)[idx], k, applyType, scenes)
  {
    if k == FrameRange {
      applied := ApplyFrameRange(s, idx);
      skipped := 0;
      FrameRangeIgnoresSmartness(old(s.jobs), old(s.jobs)[idx], applyType, scenes);
    } else {
      applied, skipped := ApplyValue(s, idx, k, applyType, scenes);
    }
  }

  /** One entry of the mapping: applied when ticked, after its metadata lookup. */
  method KindStep(s: Settings, ghost jobs: seq<Job>, idx: nat, kinds: seq<Kind>, selected: set<Kind>,
                  table: map<string, string>, scenes: seq<Scene>, applied: nat, skipped: nat)
    returns (applied': nat, skipped': nat)
    requires kinds != [] && idx < |jobs|
    requires Run(s.jobs, applied, skipped) == RunKinds(jobs, idx, kinds[..|kinds| - 1], selected, table, scenes)
    modifies s`jobs
    ensures Run(s.jobs, applied', skipped') == RunKinds(jobs, idx, kinds, selected, table, scenes)
  {
    var k := kinds[|kinds| - 1];
    applied', skipped' := applied, skipped;
    if k in selected {
      var t := ApplyType(table, k);
      var a, sk := ApplyKind(s, idx, k, t, scenes);
      applied', skipped' := applied + a, skipped + sk;
    }
  }

  /**
   * The mapping walked without a metadata table: the lookup for the first
   * ticked override raises, so the walk raises exactly when one is ticked.
   */
  method LookUpTicked(selected: set<Kind>) returns (raised: bool)
    ensures raised <==> selected != {}
  {
    for n := 0 to |KINDS|
      invariant NoneTicked(KINDS[..n], selected)
    {
      if KINDS[n] in selected {
        return true;
      }
    }
    assert KINDS[..|KINDS|] == KINDS;
    NoneTickedEmpty(selected);
    return false;
  }

  /** `apply_override_to_all.execute`. */
  method ApplyOverrideToAll(s: Settings, selected: set<Kind>, meta: Option<map<string, string>>,
                            scenes: seq<Scene>) returns (r: ApplyResult)
    modifies s`jobs
    ensures Applied(r, s.jobs) == ApplyToAll(old(s.jobs), s.activeJobIndex, selected, meta, scenes)
  {
    if |s.jobs| == 0 {
      return ApplyCancelled;
    }
    var at := PyIndex(s.activeJobIndex, |s.jobs|);
    if at.None? {
      return ApplyRaised;     // settings.jobs[settings.active_job_index]
    }
    if meta.None? {
      var raised := LookUpTicked(selected);
      return if raised then ApplyRaised else ApplyDone(0, 0);
    }
    var idx := at.value;
    ghost var jobs := s.jobs;
    var applied, skipped := 0, 0;
    for n := 0 to |KINDS|
      invariant Run(s.jobs, applied, skipped) == RunKinds(jobs, idx, KINDS[..n], selected, meta.value, scenes)
    {
      assert KINDS[..n + 1][..n] == KINDS[..n];
      applied, skipped := KindStep(s, jobs, idx, KINDS[..n + 1], selected, meta.value, scenes, applied, skipped);
    }
    assert KINDS[..|KINDS|] == KINDS;
    return ApplyDone(applied, skipped);
  }

  // ------------------------------------------------------------- lemmas

  /**
   * The loops' invariant: the first `i` jobs of `done` are overridden and
   * counted, the rest are untouched.
   */
  ghost predicate Progress(jobs: seq<Job>, done: seq<Job>, i: nat, src: Job, k: Kind, applyType: string,
                           scenes: seq<Scene>, applied: nat, skipped: nat) {
    Overlaid(jobs, done, i, src, k, applyType, scenes) && Tallied(jobs, i, src, k, applyType, scenes, applied, skipped)
  }

  ghost predicate Overlaid(jobs: seq<Job>, done: seq<Job>, i: nat, src: Job, k: Kind, applyType: string,
                           scenes: seq<Scene>) {
    i <= |jobs| && |done| == |jobs|
    && (forall m :: 0 <= m < i ==> done[m] == KindJob(jobs[m], src, k, applyType, scenes))
    && (forall m :: i <= m < |jobs| ==> done[m] == jobs[m])
  }

  ghost predicate Tallied(jobs: seq<Job>, i: nat, src: Job, k: Kind, applyType: string,
                          scenes: seq<Scene>, applied: nat, skipped: nat) {
    i <= |jobs|
    && applied == AppliedCount(jobs[..i], src, k, applyType, scenes)
    && skipped == SkippedCount(jobs[..i], src, k, applyType, scenes)
  }

  lemma OverlaidStep(jobs: seq<Job>, done: seq<Job>, i: nat, src: Job, k: Kind, applyType: string,
                     scenes: seq<Scene>)
    requires Overlaid(jobs, done, i, src, k, applyType, scenes) && i < |jobs|
    ensures Overlaid(jobs, done[i := KindJob(jobs[i], src, k, applyType, scenes)], i + 1, src, k, applyType, scenes)
  {
  }

  lemma TalliedStep(jobs: seq<Job>, i: nat, src: Job, k: Kind, applyType: string,
                    scenes: seq<Scene>, applied: nat, skipped: nat)
    requires Tallied(jobs, i, src, k, applyType, scenes, applied, skipped) && i < |jobs|
    ensures Tallied(jobs, i + 1, src, k, applyType, scenes,
                    applied + (if CountsApplied(jobs[i], src, k, applyType, scenes) then 1 else 0),
                    skipped + (if Decide(jobs[i], src, k, applyType, scenes) == Skip then 1 else 0))
  {
    assert jobs[..i + 1][..i] == jobs[..i];
  }

  lemma ProgressStep(jobs: seq<Job>, done: seq<Job>, i: nat, src: Job, k: Kind, applyType: string,
                     scenes: seq<Scene>, applied: nat, skipped: nat, job: Job, a: nat, sk: nat)
    requires Progress(jobs, done, i, src, k, applyType, scenes, applied, skipped) && i < |jobs|
    requires job == KindJob(done[i], src, k, applyType, scenes)
    requires a == (if CountsApplied(done[i], src, k, applyType, scenes) then 1 else 0)
    requires sk == (if Decide(done[i], src, k, applyType, scenes) == Skip then 1 else 0)
    ensures Progress(jobs, done[i := job], i + 1, src, k, applyType, scenes, applied + a, skipped + sk)
  {
    OverlaidStep(jobs, done, i, src, k, applyType, scenes);
    TalliedStep(jobs, i, src, k, applyType, scenes, applied, skipped);
  }

  lemma ProgressDone(jobs: seq<Job>, done: seq<Job>, src: Job, k: Kind, applyType: string,
                     scenes: seq<Scene>, applied: nat, skipped: nat)
    requires Progress(jobs, done, |jobs|, src, k, applyType, scenes, applied, skipped)
    ensures done == KindJobs(jobs, src, k, applyType, scenes)
    ensures applied == AppliedCount(jobs, src, k, applyType, scenes)
    ensures skipped == SkippedCount(jobs, src, k, applyType, scenes)
  {
    assert jobs[..|jobs|] == jobs;
  }

  /** Overriding a job from itself changes nothing, except the clamp of a frame range. */
  lemma SelfKindJob(j: Job, k: Kind, applyType: string, scenes: seq<Scene>)
    requires k != FrameRange
    ensures KindJob(j, j, k, applyType, scenes) == j
  {
  }

  /** The frame range does not consult the metadata: its outcome is the same for every apply type. */
  lemma {:induction false} FrameRangeIgnoresSmartness(jobs: seq<Job>, src: Job, applyType: string, scenes: seq<Scene>)
    ensures KindJobs(jobs, src, FrameRange, applyType, scenes) == KindJobs(jobs, src, FrameRange, "", [])
    ensures AppliedCount(jobs, src, FrameRange, applyType, scenes) == AppliedCount(jobs, src, FrameRange, "", [])
    ensures SkippedCount(jobs, src, FrameRange, applyType, scenes) == 0
    decreases |jobs|
  {
    if jobs != [] {
      FrameRangeIgnoresSmartness(jobs[..|jobs| - 1], src, applyType, scenes);
    }
  }

  /**
   * The frame range reaches every job: each takes the source's flag; with
   * it on, each gets the source's start and an end no lower than it, and
   * every job is counted; with it off, no job's frames move and none is
   * counted.
   */
  lemma {:induction false} FrameRangeEverywhere(jobs: seq<Job>, src: Job, applyType: string, scenes: seq<Scene>)
    ensures var r := KindJobs(jobs, src, FrameRange, applyType, scenes);
      forall i :: 0 <= i < |jobs| ==>
        r[i].overrideFrameRange == src.overrideFrameRange
        && (src.overrideFrameRange ==>
              r[i].frameStart == src.frameStart && r[i].frameEnd >= r[i].frameStart
              && (src.frameEnd >= src.frameStart ==> r[i].frameEnd == src.frameEnd))
        && (!src.overrideFrameRange ==>
              r[i].frameStart == jobs[i].frameStart && r[i].frameEnd == jobs[i].frameEnd)
    ensures AppliedCount(jobs, src, FrameRange, applyType, scenes) == if src.overrideFrameRange then |jobs| else 0
    decreases |jobs|
  {
    if jobs != [] {
      FrameRangeEverywhere(jobs[..|jobs| - 1], src, applyType, scenes);
    }
  }

  /** A job whose frame range is switched on runs forwards. */
  ghost predicate FramesOrdered(jobs: seq<Job>) {
    forall i :: 0 <= i < |jobs| ==> jobs[i].overrideFrameRange ==> jobs[i].frameStart <= jobs[i].frameEnd
  }

  /** No override breaks the frame order, and applying the frame range creates it. */
  lemma OverrideKeepsFramesOrdered(jobs: seq<Job>, src: Job, k: Kind, applyType: string, scenes: seq<Scene>)
    requires FramesOrdered(jobs) || k == FrameRange
    ensures FramesOrdered(KindJobs(jobs, src, k, applyType, scenes))
  {
    var r := KindJobs(jobs, src, k, applyType, scenes);
    forall i | 0 <= i < |jobs| && r[i].overrideFrameRange
      ensures r[i].frameStart <= r[i].frameEnd
    {
      assert r[i] == KindJob(jobs[i], src, k, applyType, scenes);
    }
  }

  /** A whole run of the operator keeps the frame order. */
  lemma {:induction false} RunKeepsFramesOrdered(jobs: seq<Job>, idx: nat, kinds: seq<Kind>, selected: set<Kind>,
                                                 table: map<string, string>, scenes: seq<Scene>)
    requires idx < |jobs| && FramesOrdered(jobs)
    ensures FramesOrdered(RunKinds(jobs, idx, kinds, selected, table, scenes).jobs)
    decreases |kinds|
  {
    if kinds != [] {
      var r := RunKinds(jobs, idx, kinds[..|kinds| - 1], selected, table, scenes);
      RunKeepsFramesOrdered(jobs, idx, kinds[..|kinds| - 1], selected, table, scenes);
      var k := kinds[|kinds| - 1];
      if k in selected {
        OverrideKeepsFramesOrdered(r.jobs, r.jobs[idx], k, ApplyType(table, k), scenes);
      }
    }
  }

  /** An override leaves a job's scene and its render status and progress alone. */
  lemma OverrideKeepsRunState(j: Job, src: Job, k: Kind, applyType: string, scenes: seq<Scene>)
    ensures var r := KindJob(j, src, k, applyType, scenes);
      r.scene == j.scene && r.renderStatus == j.renderStatus && r.completedFrames == j.completedFrames
      && r.totalFrames == j.totalFrames && r.startTime == j.startTime && r.endTime == j.endTime
  {
    match k
    case Output =>
    case FrameRange =>
    case Resolution =>
    case Samples =>
    case Camera =>
    case Engine =>
    case Device =>
    case Layer =>
    case FrameStep =>
    case Format =>
    case Transparent =>
    case Compositor =>
    case Denoising =>
    case TimeLimit =>
    case PersistentData =>
  }

  /**
   * A smart camera override switched on while the source has no camera
   * changes no job and counts none, applied or skipped.
   */
  lemma {:induction false} NoSourceCameraNoChange(jobs: seq<Job>, src: Job, k: Kind, scenes: seq<Scene>)
    requires k != FrameRange && Flag(src, k) && src.camera.None?
    ensures KindJobs(jobs, src, k, "smart_camera", scenes) == jobs
    ensures AppliedCount(jobs, src, k, "smart_camera", scenes) == 0
    ensures SkippedCount(jobs, src, k, "smart_camera", scenes) == 0
    decreases |jobs|
  {
    if jobs != [] {
      NoSourceCameraNoChange(jobs[..|jobs| - 1], src, k, scenes);
    }
  }

  /**
   * Otherwise every job is counted exactly once: either it took the
   * override or it was skipped. A universal override, or any override
   * switched off, is counted for every job and skips none, although a
   * switched-off override copies no value.
   */
  lemma {:induction false} EveryJobCounted(jobs: seq<Job>, src: Job, k: Kind, applyType: string, scenes: seq<Scene>)
    requires k != FrameRange && !(applyType == "smart_camera" && Flag(src, k) && src.camera.None?)
    ensures AppliedCount(jobs, src, k, applyType, scenes) + SkippedCount(jobs, src, k, applyType, scenes) == |jobs|
    ensures (applyType != "smart_camera" && applyType != "smart_view_layer") || !Flag(src, k) ==>
      AppliedCount(jobs, src, k, applyType, scenes) == |jobs| && SkippedCount(jobs, src, k, applyType, scenes) == 0
    decreases |jobs|
  {
    if jobs != [] {
      EveryJobCounted(jobs[..|jobs| - 1], src, k, applyType, scenes);
    }
  }

  /** The job's scene exists and has no object of that name. */
  predicate LacksObject(j: Job, name: string, scenes: seq<Scene>) {
    JobScene(j, scenes).Some? && name !in JobScene(j, scenes).value.objects
  }

  /** The job's scene exists and has no view layer of that name. */
  predicate LacksLayer(j: Job, name: string, scenes: seq<Scene>) {
    JobScene(j, scenes).Some? && name !in LayerNames(JobScene(j, scenes).value.viewLayers)
  }

  function CountLacksObject(jobs: seq<Job>, name: string, scenes: seq<Scene>): nat
    decreases |jobs|
  {
    if jobs == [] then 0
    else CountLacksObject(jobs[..|jobs| - 1], name, scenes) + if LacksObject(jobs[|jobs| - 1], name, scenes) then 1 else 0
  }

  function CountLacksLayer(jobs: seq<Job>, name: string, scenes: seq<Scene>): nat
    decreases |jobs|
  {
    if jobs == [] then 0
    else CountLacksLayer(jobs[..|jobs| - 1], name, scenes) + if LacksLayer(jobs[|jobs| - 1], name, scenes) then 1 else 0
  }

  lemma SmartCameraJob(j: Job, src: Job, k: Kind, scenes: seq<Scene>)
    requires k != FrameRange && Flag(src, k) && src.camera.Some?
    ensures Decide(j, src, k, "smart_camera", scenes) == Skip <==> LacksObject(j, src.camera.value, scenes)
    ensures KindJob(j, src, k, "smart_camera", scenes)
         == if LacksObject(j, src.camera.value, scenes) then j else Overridden(j, src, k)
  {
  }

  lemma SmartLayerJob(j: Job, src: Job, k: Kind, scenes: seq<Scene>)
    requires k != FrameRange && Flag(src, k)
    ensures Decide(j, src, k, "smart_view_layer", scenes) == Skip <==> LacksLayer(j, src.viewLayer, scenes)
    ensures KindJob(j, src, k, "smart_view_layer", scenes)
         == if LacksLayer(j, src.viewLayer, scenes) then j else Overridden(j, src, k)
  {
  }

  /**
   * A smart camera override switched on, with a source camera: the jobs
   * whose scene lacks that camera object are left as they were, every
   * other job takes the override ...
   */
  lemma SmartCameraJobs(jobs: seq<Job>, src: Job, k: Kind, scenes: seq<Scene>)
    requires k != FrameRange && Flag(src, k) && src.camera.Some?
    ensures var r := KindJobs(jobs, src, k, "smart_camera", scenes);
      forall i :: 0 <= i < |jobs| ==>
        r[i] == if LacksObject(jobs[i], src.camera.value, scenes) then jobs[i] else Overridden(jobs[i], src, k)
  {
    forall i | 0 <= i < |jobs| {
      SmartCameraJob(jobs[i], src, k, scenes);
    }
  }

  /** ... and the jobs left as they were are the ones counted as skipped. */
  lemma {:induction false} SmartCameraSkipCount(jobs: seq<Job>, src: Job, k: Kind, scenes: seq<Scene>)
    requires k != FrameRange && Flag(src, k) && src.camera.Some?
    ensures SkippedCount(jobs, src, k, "smart_camera", scenes) == CountLacksObject(jobs, src.camera.value, scenes)
    decreases |jobs|
  {
    if jobs != [] {
      SmartCameraSkipCount(jobs[..|jobs| - 1], src, k, scenes);
      SmartCameraJob(jobs[|jobs| - 1], src, k, scenes);
    }
  }

  /** The same for a smart view-layer override switched on, by the source's layer name ... */
  lemma SmartLayerJobs(jobs: seq<Job>, src: Job, k: Kind, scenes: seq<Scene>)
    requires k != FrameRange && Flag(src, k)
    ensures var r := KindJobs(jobs, src, k, "smart_view_layer", scenes);
      forall i :: 0 <= i < |jobs| ==>
        r[i] == if LacksLayer(jobs[i], src.viewLayer, scenes) then jobs[i] else Overridden(jobs[i], src, k)
  {
    forall i | 0 <= i < |jobs| {
      SmartLayerJob(jobs[i], src, k, scenes);
    }
  }

  /** ... with the same count of skipped jobs. */
  lemma {:induction false} SmartLayerSkipCount(jobs: seq<Job>, src: Job, k: Kind, scenes: seq<Scene>)
    requires k != FrameRange && Flag(src, k)
    ensures SkippedCount(jobs, src, k, "smart_view_layer", scenes) == CountLacksLayer(jobs, src.viewLayer, scenes)
    decreases |jobs|
  {
    if jobs != [] {
      SmartLayerSkipCount(jobs[..|jobs| - 1], src, k, scenes);
      SmartLayerJob(jobs[|jobs| - 1], src, k, scenes);
    }
  }

  /**
   * Without the metadata table, ticking any override raises before any job
   * changes; the queue is then left as it was.
   */
  lemma MissingTableRaises(jobs: seq<Job>, active: int, selected: set<Kind>, scenes: seq<Scene>)
    requires |jobs| > 0 && -|jobs| <= active < |jobs| && selected != {}
    ensures ApplyToAll(jobs, active, selected, None, scenes) == Applied(ApplyRaised, jobs)
  {
  }
}
