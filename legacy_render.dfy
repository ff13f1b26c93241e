/**
 * The batch render operator of the older add-on (`render.py`): an
 * in-process sequencer driven by a timer. Each job's scene gets the job's
 * overrides after a snapshot of the settings they touch, Blender renders it,
 * a completion handler clears the rendering flag, and the next tick puts the
 * snapshot back and moves on. A cancel handler sets the stop flag, which the
 * next tick turns into a restore and the end of the batch.
 *
 * The render itself is a call into Blender: the model records which scene
 * was sent to it, and the completion and cancel handlers are methods the
 * environment calls.
 */
module LegacyRender {
  import opened Wrappers
  import opened Strings
  import opened Blender
  import opened LegacyProperties

  /**
   * `_original_settings` when not empty. The sample counts are present only
   * when the job's sample override changed them.
   */
  datatype Snapshot = Snapshot(
    filepath: string,
    frameStart: int,
    frameEnd: int,
    resolutionX: int,
    resolutionY: int,
    resolutionPercentage: int,
    fileFormat: string,
    cyclesSamples: Option<int>,
    eeveeSamples: Option<int>
  )

  predicate IsEevee(engine: string) {
    engine == "BLENDER_EEVEE" || engine == "BLENDER_EEVEE_NEXT"
  }

  /** The output path: the job's or the global one, with a folder per scene for SEPARATE. */
  function RenderPath(job: LegacyJob, gop: string, structure: string, sceneName: string): string {
    var base := if job.overrideOutput then job.outputPath else gop;
    if structure == "SEPARATE" then PathJoin(PathJoin(base, sceneName), "") else base
  }

  /** A scene after `apply_overrides`, the snapshot taken, and whether it raised. */
  datatype Overridden = Overridden(scene: Scene, snapshot: Snapshot, raised: bool)

  /**
   * `apply_overrides`. The snapshot is taken first. When the scene uses
   * Eevee and this build has no `taa_render_samples`, reading it raises
   * after the other settings were changed and before anything about the
   * samples is saved.
   */
  function ApplyOverrides(sc: Scene, job: LegacyJob, gop: string, structure: string): (r: Overridden)
    ensures r.snapshot.cyclesSamples.Some? <==> job.overrideSamples && sc.engine == "CYCLES"
    ensures r.snapshot.eeveeSamples.Some?
        <==> job.overrideSamples && IsEevee(sc.engine) && sc.eevee.taaRenderSamples.Some?
    ensures r.raised <==> job.overrideSamples && IsEevee(sc.engine) && sc.eevee.taaRenderSamples.None?
  {
    var snap := Snapshot(sc.filepath, sc.frameStart, sc.frameEnd, sc.resolutionX, sc.resolutionY,
                         sc.resolutionPercentage, sc.fileFormat, None, None);
    var s1 := sc.(
      filepath := RenderPath(job, gop, structure, sc.name),
      frameStart := if job.overrideFrameRange then job.frameStart else sc.frameStart,
      frameEnd := if job.overrideFrameRange then job.frameEnd else sc.frameEnd,
      resolutionPercentage := if job.overrideResolution then job.resolutionScale else sc.resolutionPercentage,
      fileFormat := if job.overrideFormat then job.renderFormat else sc.fileFormat);
    if !job.overrideSamples then Overridden(s1, snap, false)
    else if sc.engine == "CYCLES" then
      Overridden(s1.(cyclesSamples := job.samples), snap.(cyclesSamples := Some(sc.cyclesSamples)), false)
    else if IsEevee(sc.engine) then
      match sc.eevee.taaRenderSamples
      case None => Overridden(s1, snap, true)
      case Some(t) =>
        Overridden(s1.(eevee := sc.eevee.(taaRenderSamples := Some(job.samples))), snap.(eeveeSamples := Some(t)), false)
    else Overridden(s1, snap, false)
  }

  /** `restore_settings` on one scene: the snapshot back, the sample counts only where saved. */
  function Restored(sc: Scene, snap: Snapshot): Scene {
    sc.(
      filepath := snap.filepath,
      frameStart := snap.frameStart,
      frameEnd := snap.frameEnd,
      resolutionPercentage := snap.resolutionPercentage,
      fileFormat := snap.fileFormat,
      cyclesSamples := snap.cyclesSamples.GetOr(sc.cyclesSamples),
      eevee := if snap.eeveeSamples.Some? then sc.eevee.(taaRenderSamples := snap.eeveeSamples) else sc.eevee)
  }

  /**
   * What the overrides do to the scene: the output path always, each
   * setting only when its override is on, the sample count only for the
   * engine in use; the name, camera, objects, layers, engine and pixel
   * size never change.
   */
  lemma ApplyOverridesMeaning(sc: Scene, job: LegacyJob, gop: string, structure: string)
    ensures var r := ApplyOverrides(sc, job, gop, structure).scene;
      && r.filepath == RenderPath(job, gop, structure, sc.name)
      && (job.overrideFrameRange ==> r.frameStart == job.frameStart && r.frameEnd == job.frameEnd)
      && (!job.overrideFrameRange ==> r.frameStart == sc.frameStart && r.frameEnd == sc.frameEnd)
      && r.resolutionPercentage == (if job.overrideResolution then job.resolutionScale else sc.resolutionPercentage)
      && r.fileFormat == (if job.overrideFormat then job.renderFormat else sc.fileFormat)
      && r.cyclesSamples == (if job.overrideSamples && sc.engine == "CYCLES" then job.samples else sc.cyclesSamples)
      && r.eevee == (if job.overrideSamples && IsEevee(sc.engine) && sc.eevee.taaRenderSamples.Some?
                     then sc.eevee.(taaRenderSamples := Some(job.samples)) else sc.eevee)
      && r.name == sc.name && r.camera == sc.camera && r.objects == sc.objects
      && r.viewLayers == sc.viewLayers && r.engine == sc.engine
      && r.resolutionX == sc.resolutionX && r.resolutionY == sc.resolutionY
  {
  }

  /** With SEPARATE the path is a folder named after the scene, ending in a separator. */
  lemma SeparatePathEndsInFolder(job: LegacyJob, gop: string, sceneName: string)
    ensures EndsWithSlash(RenderPath(job, gop, "SEPARATE", sceneName))
        || RenderPath(job, gop, "SEPARATE", sceneName) == ""
  {
  }

  /** Restoring the snapshot after the overrides gives back the scene exactly. */
  lemma RestoreUndoesApply(sc: Scene, job: LegacyJob, gop: string, structure: string)
    requires !sc.eevee.taaRenderSamples.None? || !IsEevee(sc.engine) || !job.overrideSamples
    ensures var o := ApplyOverrides(sc, job, gop, structure);
      !o.raised && Restored(o.scene, o.snapshot) == sc
  {
  }

  // --------------------------------------------------- the sequencer

  /** The operator's fields: `_job_index`, `_rendering`, `_stop`, `_original_settings`, `_current_job_scene`, and whether its timer and handlers are registered. */
  datatype Sequencer = Sequencer(
    jobIndex: nat,
    rendering: bool,
    stop: bool,
    original: Option<Snapshot>,
    current: Option<string>,
    listening: bool
  )

  /** The operator, the scenes of the file, and the scenes sent to the renderer so far. */
  datatype World = World(op: Sequencer, scenes: seq<Scene>, renders: seq<string>)

  /**
   * `restore_settings`: nothing without a tracked scene, when that scene is
   * gone, or without a snapshot; otherwise the tracked scene gets the
   * snapshot back, the other scenes are untouched and the snapshot is
   * emptied.
   */
  function Restore(w: World): (r: World)
    ensures r.op.jobIndex == w.op.jobIndex && r.op.rendering == w.op.rendering && r.op.stop == w.op.stop
    ensures r.op.current == w.op.current && r.op.listening == w.op.listening && r.renders == w.renders
    ensures |r.scenes| == |w.scenes|
    ensures w.op.current.None? || FindScene(w.scenes, w.op.current.value).None? || w.op.original.None? ==> r == w
    ensures w.op.current.Some? && FindScene(w.scenes, w.op.current.value).Some? && w.op.original.Some? ==>
      var k := FindScene(w.scenes, w.op.current.value).value;
      && r.scenes[k] == Restored(w.scenes[k], w.op.original.value)
      && (forall i :: 0 <= i < |w.scenes| && i != k ==> r.scenes[i] == w.scenes[i])
      && r.op.original.None?
  {
    match w.op.current
    case None => w
    case Some(n) =>
      match FindScene(w.scenes, n)
      case None => w
      case Some(k) =>
        match w.op.original
        case None => w
        case Some(snap) =>
          w.(scenes := SetScene(w.scenes, k, Restored(w.scenes[k], snap)), op := w.op.(original := None))
  }

  /** `finish`: the timer and both handlers are removed. */
  function Finish(w: World): World {
    w.(op := w.op.(listening := false))
  }

  datatype Started = Started(w: World, raised: bool)

  /**
   * `start_next_job`: a job without a scene is passed over; otherwise the
   * scene is tracked, overridden and sent to the renderer, unless applying
   * the overrides raised.
   */
  function StartNext(w: World, jobs: seq<LegacyJob>, gop: string, structure: string): Started
    requires w.op.jobIndex < |jobs|
  {
    var job := jobs[w.op.jobIndex];
    match JobSceneIndex(job, w.scenes)
    case None => Started(w.(op := w.op.(jobIndex := w.op.jobIndex + 1)), false)
    case Some(k) =>
      var o := ApplyOverrides(w.scenes[k], job, gop, structure);
      var w1 := World(w.op.(rendering := true, current := Some(w.scenes[k].name), original := Some(o.snapshot)),
                      SetScene(w.scenes, k, o.scene), w.renders);
      if o.raised then Started(w1, true) else Started(w1.(renders := w.renders + [w.scenes[k].name]), false)
  }

  datatype TickResult = PassThrough | TickCancelled | TickFinished | TickRaised

  datatype Ticked = Ticked(w: World, result: TickResult)

  /** A finished job: its scene restored, no longer tracked, and the index one further. */
  function Advance(w: World): World {
    var r := Restore(w);
    r.(op := r.op.(current := None, jobIndex := r.op.jobIndex + 1))
  }

  /** The rest of a tick once no job is rendering: the next job if any is left, else the end. */
  function Next(w: World, jobs: seq<LegacyJob>, gop: string, structure: string): Ticked {
    if w.op.jobIndex < |jobs| then
      var st := StartNext(w, jobs, gop, structure);
      Ticked(st.w, if st.raised then TickRaised else PassThrough)
    else Ticked(Finish(w), TickFinished)
  }

  /** `modal` for one event; only timer events do anything. */
  function Tick(w: World, timer: bool, jobs: seq<LegacyJob>, gop: string, structure: string): Ticked {
    if !timer then Ticked(w, PassThrough)
    else if w.op.stop then Ticked(Finish(Restore(w)), TickCancelled)
    else if w.op.rendering then Ticked(w, PassThrough)
    else if w.op.current.Some? then Next(Advance(w), jobs, gop, structure)
    else Next(w, jobs, gop, structure)
  }

  datatype ExecResult = ExecCancelled | RunningModal

  /** `execute`: an empty queue is refused; otherwise the fields are reset and the timer and handlers registered. */
  function Execute(s: Sequencer, jobs: seq<LegacyJob>): (Sequencer, ExecResult) {
    if jobs == [] then (s, ExecCancelled)
    else (Sequencer(0, false, false, None, None, true), RunningModal)
  }

  function RenderComplete(s: Sequencer): Sequencer {
    s.(rendering := false)
  }

  function RenderCancel(s: Sequencer): Sequencer {
    s.(rendering := false, stop := true)
  }

  // ------------------------------------------------- its properties

  /** While a render runs and no stop is pending, a tick changes nothing. */
  lemma TickWhileRendering(w: World, jobs: seq<LegacyJob>, gop: string, structure: string)
    requires w.op.rendering && !w.op.stop
    ensures Tick(w, true, jobs, gop, structure) == Ticked(w, PassThrough)
  {
  }

  /**
   * The first tick after a render completed restores the tracked scene,
   * stops tracking it and raises the index by exactly one before looking
   * for the next job.
   */
  lemma FinishedJobAdvances(w: World, jobs: seq<LegacyJob>, gop: string, structure: string)
    requires !w.op.rendering && !w.op.stop && w.op.current.Some?
    ensures var a := Advance(w);
      && Tick(w, true, jobs, gop, structure) == Next(a, jobs, gop, structure)
      && a.op.jobIndex == w.op.jobIndex + 1 && a.op.current.None?
      && a.scenes == Restore(w).scenes && a.renders == w.renders
  {
  }

  /** When no job is left, the tick ends the batch as FINISHED and unregisters. */
  lemma NoJobLeftFinishes(w: World, jobs: seq<LegacyJob>, gop: string, structure: string)
    requires w.op.jobIndex >= |jobs|
    ensures Next(w, jobs, gop, structure) == Ticked(Finish(w), TickFinished)
    ensures !Finish(w).op.listening
  {
  }

  /** A job without a scene is passed over: the index moves on and nothing renders. */
  lemma ScenelessJobSkipped(w: World, jobs: seq<LegacyJob>, gop: string, structure: string)
    requires w.op.jobIndex < |jobs| && JobSceneIndex(jobs[w.op.jobIndex], w.scenes).None?
    ensures StartNext(w, jobs, gop, structure)
         == Started(w.(op := w.op.(jobIndex := w.op.jobIndex + 1)), false)
  {
  }

  /**
   * A cancelled render makes the next tick restore the tracked scene and
   * end the batch as CANCELLED.
   */
  lemma CancelEndsBatch(w: World, jobs: seq<LegacyJob>, gop: string, structure: string)
    ensures var c := w.(op := RenderCancel(w.op));
      var t := Tick(c, true, jobs, gop, structure);
      t.result == TickCancelled && !t.w.op.listening && t.w.scenes == Restore(c).scenes
      && t.w.renders == w.renders
  {
  }

  /**
   * Every tick on a running batch either ends it, or moves the index on,
   * or leaves a render running: the sequencer never stalls.
   */
  lemma TickProgresses(w: World, jobs: seq<LegacyJob>, gop: string, structure: string)
    requires !w.op.rendering && !w.op.stop
    ensures var t := Tick(w, true, jobs, gop, structure);
      t.result != PassThrough || t.w.op.jobIndex > w.op.jobIndex || t.w.op.rendering
  {
  }

  /**
   * A job's render leaves its scene as it found it: starting the job from
   * an idle sequencer, completing the render and restoring gives back every
   * scene of the file, and exactly that scene was rendered.
   */
  lemma JobLeavesScenesAsFound(w: World, jobs: seq<LegacyJob>, gop: string, structure: string)
    requires w.op.jobIndex < |jobs| && w.op.current.None? && !w.op.rendering
    requires var job := jobs[w.op.jobIndex];
      JobSceneIndex(job, w.scenes).Some?
      && var sc := w.scenes[JobSceneIndex(job, w.scenes).value];
      (!sc.eevee.taaRenderSamples.None? || !IsEevee(sc.engine) || !job.overrideSamples)
    ensures var st := StartNext(w, jobs, gop, structure);
      var done := Restore(st.w.(op := RenderComplete(st.w.op)));
      && !st.raised && st.w.op.rendering
      && st.w.renders == w.renders + [jobs[w.op.jobIndex].scene.value]
      && done.scenes == w.scenes && done.op.original.None?
  {
    var job := jobs[w.op.jobIndex];
    var k := JobSceneIndex(job, w.scenes).value;
    var sc := w.scenes[k];
    var o := ApplyOverrides(sc, job, gop, structure);
    RestoreUndoesApply(sc, job, gop, structure);
    ApplyOverridesMeaning(sc, job, gop, structure);
    var set1 := SetScene(w.scenes, k, o.scene);
    FindSceneAfterSet(w.scenes, k, o.scene, sc.name);
    assert FindScene(w.scenes, sc.name) == Some(k);
    assert SetScene(set1, k, Restored(o.scene, o.snapshot)) == w.scenes;
  }

  // -------------------------------------------------------- the class

  /** The scenes of the open file and the render calls made on them. */
  class BlendData {
    var scenes: seq<Scene>
    var renders: seq<string>

    constructor(scenes: seq<Scene>)
      ensures this.scenes == scenes && renders == []
    {
      this.scenes := scenes;
      renders := [];
    }
  }

  class LegacyBatchRender {
    var jobIndex: nat
    var rendering: bool
    var stop: bool
    var original: Option<Snapshot>
    var current: Option<string>
    var listening: bool

    function Fields(): Sequencer
      reads this
    {
      Sequencer(jobIndex, rendering, stop, original, current, listening)
    }

    function State(data: BlendData): World
      reads this, data
    {
      World(Fields(), data.scenes, data.renders)
    }

    /** The class defaults. */
    constructor()
      ensures Fields() == Sequencer(0, false, false, None, None, false)
    {
      jobIndex := 0;
      rendering := false;
      stop := false;
      original := None;
      current := None;
      listening := false;
    }

    method RestoreSettings(data: BlendData)
      modifies this`original, data`scenes
      ensures State(data) == Restore(old(State(data)))
    {
      if current.None? {
        return;
      }
      var k := FindScene(data.scenes, current.value);
      if k.None? || original.None? {
        return;
      }
      data.scenes := SetScene(data.scenes, k.value, Restored(data.scenes[k.value], original.value));
      original := None;
    }

    method Finish()
      modifies this`listening
      ensures listening == false && jobIndex == old(jobIndex) && original == old(original)
    {
      listening := false;
    }

    /** The part of `modal` that closes a finished job. */
    method CloseJob(data: BlendData)
      modifies this`original, this`current, this`jobIndex, data`scenes
      ensures State(data) == Advance(old(State(data)))
    {
      RestoreSettings(data);
      current := None;
      jobIndex := jobIndex + 1;
    }

    method StartNextJob(data: BlendData, s: LegacySettings) returns (raised: bool)
      requires jobIndex < |s.jobs|
      modifies this`jobIndex, this`rendering, this`current, this`original, data
      ensures Started(State(data), raised)
           == StartNext(old(State(data)), s.jobs, s.globalOutputPath, s.outputStructure)
    {
      var job := s.jobs[jobIndex];
      var k := JobSceneIndex(job, data.scenes);
      if k.None? {
        jobIndex := jobIndex + 1;
        return false;
      }
      var sc := data.scenes[k.value];
      rendering := true;
      current := Some(sc.name);
      var o := ApplyOverrides(sc, job, s.globalOutputPath, s.outputStructure);
      original := Some(o.snapshot);
      data.scenes := SetScene(data.scenes, k.value, o.scene);
      if o.raised {
        return true;
      }
      data.renders := data.renders + [sc.name];
      return false;
    }

    method Modal(data: BlendData, s: LegacySettings, timer: bool) returns (r: TickResult)
      modifies this, data
      ensures Ticked(State(data), r) == Tick(old(State(data)), timer, s.jobs, s.globalOutputPath, s.outputStructure)
    {
      if !timer {
        return PassThrough;
      }
      if stop {
        RestoreSettings(data);
        Finish();
        return TickCancelled;
      }
      if rendering {
        return PassThrough;
      }
      if current.Some? {
        CloseJob(data);
      }
      if jobIndex < |s.jobs| {
        var raised := StartNextJob(data, s);
        return if raised then TickRaised else PassThrough;
      }
      Finish();
      return TickFinished;
    }

    method ExecuteBatch(s: LegacySettings) returns (r: ExecResult)
      modifies this
      ensures (Fields(), r) == Execute(old(Fields()), s.jobs)
    {
      if s.jobs == [] {
        return ExecCancelled;
      }
      jobIndex := 0;
      rendering := false;
      stop := false;
      original := None;
      current := None;
      listening := true;
      return RunningModal;
    }

    method OnRenderComplete()
      modifies this`rendering
      ensures Fields() == RenderComplete(old(Fields()))
    {
      rendering := false;
    }

    method OnRenderCancel()
      modifies this`rendering, this`stop
      ensures Fields() == RenderCancel(old(Fields()))
    {
      rendering := false;
      stop := true;
    }
  }
}
