/**
 * The older add-on's queue operators (`operators.py`): add, remove and
 * move a job, add all scenes, and copy one override to every job. Blender
 * runs an operator only when its `poll` holds, so `poll` is the
 * precondition; a collection call Blender refuses (an index out of range)
 * raises, and the model then returns `false` and changes nothing.
 */
module LegacyOperators {
  import opened Wrappers
  import opened Blender
  import opened LegacyProperties
  import Operators

  /** `poll` of remove, move and apply-to-all: the queue is not empty and the active index not negative. */
  predicate LegacyCanEdit(s: LegacySettings)
    reads s
  {
    |s.jobs| > 0 && s.activeJobIndex >= 0
  }

  // ------------------------------------------------------------- add

  function LegacyJobFor(scene: string): (j: LegacyJob)
    ensures j.scene == Some(scene) && LegacyNoOverrides(j) && ValidLegacyJob(j)
  {
    NewLegacyJob().(scene := Some(scene))
  }

  /** `add_job`: one job for the current scene, appended and made active. */
  method LegacyAddJob(s: LegacySettings, scene: string)
    modifies s`jobs, s`activeJobIndex
    ensures s.jobs == old(s.jobs) + [LegacyJobFor(scene)]
    ensures s.activeJobIndex == |s.jobs| - 1
  {
    s.jobs := s.jobs + [LegacyJobFor(scene)];
    s.activeJobIndex := |s.jobs| - 1;
  }

  // ---------------------------------------------------------- remove

  /** `remove_job`: deletes the active job; an index past the new end becomes `max(0, len - 1)`. */
  method LegacyRemoveJob(s: LegacySettings) returns (ok: bool)
    requires LegacyCanEdit(s)
    modifies s`jobs, s`activeJobIndex
    ensures ok <==> old(s.activeJobIndex) < |old(s.jobs)|
    ensures ok ==> s.jobs == Operators.RemoveAt(old(s.jobs), old(s.activeJobIndex))
                   && s.activeJobIndex == Operators.ActiveAfterRemove(old(s.activeJobIndex), |s.jobs|)
    ensures !ok ==> s.jobs == old(s.jobs) && s.activeJobIndex == old(s.activeJobIndex)
  {
    if s.activeJobIndex >= |s.jobs| {
      return false;
    }
    s.jobs := Operators.RemoveAt(s.jobs, s.activeJobIndex);
    if s.activeJobIndex >= |s.jobs| {
      s.activeJobIndex := if |s.jobs| - 1 > 0 then |s.jobs| - 1 else 0;
    }
    return true;
  }

  // ------------------------------------------------------------ move

  /** `move_job`: the active job trades places with its neighbour inside the queue, and the index follows it. */
  method LegacyMoveJob(s: LegacySettings, dir: Operators.Direction) returns (ok: bool)
    requires LegacyCanEdit(s)
    modifies s`jobs, s`activeJobIndex
    ensures var t := Operators.MoveTarget(old(s.activeJobIndex), |old(s.jobs)|, dir);
      ok <==> t.None? || old(s.activeJobIndex) < |old(s.jobs)|
    ensures var t := Operators.MoveTarget(old(s.activeJobIndex), |old(s.jobs)|, dir);
      if t.Some? && old(s.activeJobIndex) < |old(s.jobs)| then
        s.jobs == Operators.Swap(old(s.jobs), old(s.activeJobIndex), t.value) && s.activeJobIndex == t.value
      else s.jobs == old(s.jobs) && s.activeJobIndex == old(s.activeJobIndex)
  {
    var idx := s.activeJobIndex;
    if dir == Operators.Up && idx > 0 {
      if idx >= |s.jobs| {
        return false;
      }
      s.jobs := Operators.Swap(s.jobs, idx, idx - 1);
      s.activeJobIndex := s.activeJobIndex - 1;
    } else if dir == Operators.Down && idx < |s.jobs| - 1 {
      s.jobs := Operators.Swap(s.jobs, idx, idx + 1);
      s.activeJobIndex := s.activeJobIndex + 1;
    }
    return true;
  }

  // ---------------------------------------------------- add all scenes

  function LegacyQueuedScenes(jobs: seq<LegacyJob>): set<string> {
    set j | j in jobs && j.scene.Some? :: j.scene.value
  }

  /** In order, the scenes not in `queued`; unlike the packaged add-on, a scene without a camera is added too. */
  function UnqueuedScenes(queued: set<string>, scenes: seq<Scene>): seq<string>
    decreases |scenes|
  {
    if scenes == [] then []
    else
      var rest := UnqueuedScenes(queued, scenes[..|scenes| - 1]);
      var sc := scenes[|scenes| - 1];
      if sc.name !in queued then rest + [sc.name] else rest
  }

  function LegacyJobsFor(names: seq<string>): (r: seq<LegacyJob>)
    ensures |r| == |names|
    ensures forall i :: 0 <= i < |names| ==> r[i] == LegacyJobFor(names[i])
  {
    seq(|names|, i requires 0 <= i < |names| => LegacyJobFor(names[i]))
  }

  /** `populate_all`: one job per scene of the file not queued before the call, in scene order. */
  method LegacyPopulateAll(s: LegacySettings, scenes: seq<Scene>)
    modifies s`jobs
    ensures s.jobs == old(s.jobs) + LegacyJobsFor(UnqueuedScenes(LegacyQueuedScenes(old(s.jobs)), scenes))
  {
    var existing := LegacyQueuedScenes(s.jobs);
    ghost var jobs := s.jobs;
    for i := 0 to |scenes|
      invariant s.jobs == jobs + LegacyJobsFor(UnqueuedScenes(existing, scenes[..i]))
    {
      assert scenes[..i + 1][..i] == scenes[..i];
      if scenes[i].name !in existing {
        s.jobs := s.jobs + [LegacyJobFor(scenes[i].name)];
      }
    }
    assert scenes[..|scenes|] == scenes;
  }

  /** A name is added exactly when a scene carries it and no queued job points at it. */
  lemma {:induction false} UnqueuedScenesMeaning(queued: set<string>, scenes: seq<Scene>, n: string)
    ensures n in UnqueuedScenes(queued, scenes)
        <==> n !in queued && exists i :: 0 <= i < |scenes| && scenes[i].name == n
    decreases |scenes|
  {
    if scenes != [] {
      var init := scenes[..|scenes| - 1];
      UnqueuedScenesMeaning(queued, init, n);
      if exists i :: 0 <= i < |scenes| && scenes[i].name == n {
        var i :| 0 <= i < |scenes| && scenes[i].name == n;
        if i < |scenes| - 1 {
          assert init[i] == scenes[i];
        }
      }
    }
  }

  /** After adding all scenes, every scene of the file has a job. */
  lemma LegacyPopulateCoversAll(jobs: seq<LegacyJob>, scenes: seq<Scene>, i: nat)
    requires i < |scenes|
    ensures scenes[i].name in LegacyQueuedScenes(jobs + LegacyJobsFor(UnqueuedScenes(LegacyQueuedScenes(jobs), scenes)))
  {
    var added := UnqueuedScenes(LegacyQueuedScenes(jobs), scenes);
    var all := jobs + LegacyJobsFor(added);
    var n := scenes[i].name;
    UnqueuedScenesMeaning(LegacyQueuedScenes(jobs), scenes, n);
    if n !in LegacyQueuedScenes(jobs) {
      var k :| 0 <= k < |added| && added[k] == n;
      assert all[|jobs| + k] == LegacyJobFor(n);
      assert all[|jobs| + k] in all;
    } else {
      var j :| j in jobs && j.scene.Some? && j.scene.value == n;
      var k :| 0 <= k < |jobs| && jobs[k] == j;
      assert all[k] == j;
    }
  }

  // ----------------------------------------------- apply to all jobs

  /** The five override flags `data_path_bool` can name. */
  datatype FlagPath = OutputFlag | FrameRangeFlag | ResolutionFlag | FormatFlag | SamplesFlag

  /** The values `data_path_val` can name; `frame_range` names both ends at once. */
  datatype ValuePath = FrameRange | OutputPath | ResolutionScale | RenderFormat | Samples | FrameStart | FrameEnd

  /** The attribute lookup `getattr(job, data_path_bool)`: a name that is no flag raises. */
  function ParseFlag(name: string): Option<FlagPath> {
    if name == "override_output" then Some(OutputFlag)
    else if name == "override_frame_range" then Some(FrameRangeFlag)
    else if name == "override_resolution" then Some(ResolutionFlag)
    else if name == "override_format" then Some(FormatFlag)
    else if name == "override_samples" then Some(SamplesFlag)
    else None
  }

  function ParseValue(name: string): Option<ValuePath> {
    if name == "frame_range" then Some(FrameRange)
    else if name == "output_path" then Some(OutputPath)
    else if name == "resolution_scale" then Some(ResolutionScale)
    else if name == "render_format" then Some(RenderFormat)
    else if name == "samples" then Some(Samples)
    else if name == "frame_start" then Some(FrameStart)
    else if name == "frame_end" then Some(FrameEnd)
    else None
  }

  function FlagOf(j: LegacyJob, f: FlagPath): bool {
    match f
    case OutputFlag => j.overrideOutput
    case FrameRangeFlag => j.overrideFrameRange
    case ResolutionFlag => j.overrideResolution
    case FormatFlag => j.overrideFormat
    case SamplesFlag => j.overrideSamples
  }

  function WithFlag(j: LegacyJob, f: FlagPath, on: bool): (r: LegacyJob)
    ensures FlagOf(r, f) == on && r.scene == j.scene
    ensures forall v :: ValueOf(r, v) == ValueOf(j, v)
  {
    match f
    case OutputFlag => j.(overrideOutput := on)
    case FrameRangeFlag => j.(overrideFrameRange := on)
    case ResolutionFlag => j.(overrideResolution := on)
    case FormatFlag => j.(overrideFormat := on)
    case SamplesFlag => j.(overrideSamples := on)
  }

  /** A value read through `data_path_val`. */
  datatype Value = Frames(start: int, end: int) | Text(s: string) | Number(n: int)

  function ValueOf(j: LegacyJob, v: ValuePath): Value {
    match v
    case FrameRange => Frames(j.frameStart, j.frameEnd)
    case OutputPath => Text(j.outputPath)
    case ResolutionScale => Number(j.resolutionScale)
    case RenderFormat => Text(j.renderFormat)
    case Samples => Number(j.samples)
    case FrameStart => Number(j.frameStart)
    case FrameEnd => Number(j.frameEnd)
  }

  /** `j` with the value `v` taken from `src`, unclamped. */
  function CopyValue(j: LegacyJob, src: LegacyJob, v: ValuePath): (r: LegacyJob)
    ensures ValueOf(r, v) == ValueOf(src, v) && r.scene == j.scene
    ensures forall f :: FlagOf(r, f) == FlagOf(j, f)
  {
    match v
    case FrameRange => j.(frameStart := src.frameStart, frameEnd := src.frameEnd)
    case OutputPath => j.(outputPath := src.outputPath)
    case ResolutionScale => j.(resolutionScale := src.resolutionScale)
    case RenderFormat => j.(renderFormat := src.renderFormat)
    case Samples => j.(samples := src.samples)
    case FrameStart => j.(frameStart := src.frameStart)
    case FrameEnd => j.(frameEnd := src.frameEnd)
  }

  /** One job after apply-to-all: the source's flag, and, when it is on, the source's value. */
  function Copied(j: LegacyJob, src: LegacyJob, f: FlagPath, v: ValuePath): LegacyJob {
    var on := FlagOf(src, f);
    var r := WithFlag(j, f, on);
    if on then CopyValue(r, src, v) else r
  }

  datatype LegacyApplyResult = LegacyCancelled | LegacyRaised | LegacyDone(count: nat)

  datatype LegacyApplied = LegacyApplied(result: LegacyApplyResult, jobs: seq<LegacyJob>)

  /**
   * `apply_override_to_all`: an empty queue is cancelled; an active index
   * past the end or a path naming no flag or value raises before anything
   * changes; otherwise every job, the source included, takes the copy and
   * the report counts them all.
   */
  function LegacyApplyToAll(jobs: seq<LegacyJob>, active: nat, flag: string, val: string): LegacyApplied {
    if jobs == [] then LegacyApplied(LegacyCancelled, jobs)
    else if active >= |jobs| || ParseFlag(flag).None? || ParseValue(val).None? then
      LegacyApplied(LegacyRaised, jobs)
    else
      LegacyApplied(LegacyDone(|jobs|), CopiedAll(jobs, jobs[active], ParseFlag(flag).value, ParseValue(val).value))
  }

  function CopiedAll(jobs: seq<LegacyJob>, src: LegacyJob, f: FlagPath, v: ValuePath): (r: seq<LegacyJob>)
    ensures |r| == |jobs|
  {
    seq(|jobs|, i requires 0 <= i < |jobs| => Copied(jobs[i], src, f, v))
  }

  method LegacyApplyOverrideToAll(s: LegacySettings, flag: string, val: string) returns (r: LegacyApplyResult)
    requires LegacyCanEdit(s)
    modifies s`jobs
    ensures LegacyApplied(r, s.jobs) == LegacyApplyToAll(old(s.jobs), old(s.activeJobIndex), flag, val)
  {
    if s.jobs == [] {
      return LegacyCancelled;
    }
    if s.activeJobIndex >= |s.jobs| {
      return LegacyRaised;
    }
    var src := s.jobs[s.activeJobIndex];
    var f := ParseFlag(flag);
    var v := ParseValue(val);
    if f.None? || v.None? {
      return LegacyRaised;
    }
    ghost var jobs := s.jobs;
    for i := 0 to |s.jobs|
      invariant |s.jobs| == |jobs|
      invariant forall m :: 0 <= m < i ==> s.jobs[m] == Copied(jobs[m], src, f.value, v.value)
      invariant forall m :: i <= m < |jobs| ==> s.jobs[m] == jobs[m]
    {
      s.jobs := s.jobs[i := Copied(s.jobs[i], src, f.value, v.value)];
    }
    return LegacyDone(|s.jobs|);
  }

  /**
   * What one job holds afterwards: the source's flag; when it is on, the
   * source's value exactly (a frame range is copied as it stands, even
   * reversed); when it is off, everything else as before. The scene never
   * changes.
   */
  lemma CopiedMeaning(j: LegacyJob, src: LegacyJob, f: FlagPath, v: ValuePath)
    ensures var r := Copied(j, src, f, v);
      FlagOf(r, f) == FlagOf(src, f) && r.scene == j.scene
      && (FlagOf(src, f) ==> ValueOf(r, v) == ValueOf(src, v))
      && (!FlagOf(src, f) ==> r == WithFlag(j, f, false))
  {
    var w := WithFlag(j, f, FlagOf(src, f));
    if FlagOf(src, f) {
      assert FlagOf(CopyValue(w, src, v), f) == FlagOf(w, f);
    }
  }

  /** A job that already is the source is left as it is. */
  lemma CopiedFixesSource(src: LegacyJob, f: FlagPath, v: ValuePath)
    ensures Copied(src, src, f, v) == src
  {
    SameFlagNoChange(src, f);
    SameValueNoChange(src, src, v);
  }

  lemma CopiedTwice(j: LegacyJob, src: LegacyJob, f: FlagPath, v: ValuePath)
    ensures Copied(Copied(j, src, f, v), src, f, v) == Copied(j, src, f, v)
  {
    var once := Copied(j, src, f, v);
    CopiedMeaning(j, src, f, v);
    SameFlagNoChange(once, f);
    if FlagOf(src, f) {
      SameValueNoChange(once, src, v);
    }
  }

  lemma SameFlagNoChange(j: LegacyJob, f: FlagPath)
    ensures WithFlag(j, f, FlagOf(j, f)) == j
  {
  }

  lemma SameValueNoChange(j: LegacyJob, src: LegacyJob, v: ValuePath)
    requires ValueOf(j, v) == ValueOf(src, v)
    ensures CopyValue(j, src, v) == j
  {
  }

  /** Applying the same override to all jobs again changes nothing more. */
  lemma LegacyApplyTwice(jobs: seq<LegacyJob>, active: nat, flag: string, val: string)
    requires LegacyApplyToAll(jobs, active, flag, val).result.LegacyDone?
    ensures var once := LegacyApplyToAll(jobs, active, flag, val).jobs;
      LegacyApplyToAll(once, active, flag, val) == LegacyApplied(LegacyDone(|jobs|), once)
  {
    var src := jobs[active];
    var f := ParseFlag(flag).value;
    var v := ParseValue(val).value;
    var once := CopiedAll(jobs, src, f, v);
    CopiedFixesSource(src, f, v);
    assert once[active] == src;
    var twice := CopiedAll(once, src, f, v);
    forall i | 0 <= i < |jobs|
      ensures twice[i] == once[i]
    {
      CopiedTwice(jobs[i], src, f, v);
    }
  }

  /** Copying from a valid source keeps every job within its bounds and enum items. */
  lemma CopiedKeepsValid(j: LegacyJob, src: LegacyJob, f: FlagPath, v: ValuePath)
    requires ValidLegacyJob(j) && ValidLegacyJob(src)
    ensures ValidLegacyJob(Copied(j, src, f, v))
  {
  }
}
