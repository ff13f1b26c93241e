/**
 * `StateManager` of the packaged add-on: the queue is written to a JSON
 * record (the worker's manifest, or the `.rendercue_data` text block saved
 * with the .blend file) and read back, key by key, with a default for every
 * missing key. Loading replaces the queue; it does not append to it.
 */
module StateCodec {
  import opened Wrappers
  import opened Manifest
  import opened Properties
  import opened Blender

  const TEXT_BLOCK_NAME: string := ".rendercue_data"

  // ------------------------------------------------------------ saving

  /** The scene name stored for a job: `None` when the job has no scene. */
  function SceneNameField(scene: Option<string>): (f: NameField)
    ensures scene.None? <==> f == NullName
    ensures scene.Some? ==> f == Name(scene.value)
  {
    match scene
    case None => NullName
    case Some(n) => Name(n)
  }

  /** The sixteen keys written for one job. */
  function EncodeJob(j: Job): JobRecord {
    JobRecord(
      SceneNameField(j.scene),
      Some(j.overrideFrameRange), Some(j.frameStart), Some(j.frameEnd),
      Some(j.overrideOutput), Some(j.outputPath),
      Some(j.overrideResolution), Some(j.resolutionScale),
      Some(j.overrideSamples), Some(j.samples),
      Some(j.overrideFormat), Some(j.renderFormat),
      Some(j.overrideEngine), Some(j.renderEngine),
      Some(j.overrideViewLayer), Some(j.viewLayer))
  }

  /** One record per queued job, in queue order. */
  function EncodeJobs(jobs: seq<Job>): (r: seq<JobEntry>)
    ensures |r| == |jobs|
    ensures forall i :: 0 <= i < |jobs| ==> r[i] == JobObject(EncodeJob(jobs[i]))
  {
    seq(|jobs|, i requires 0 <= i < |jobs| => JobObject(EncodeJob(jobs[i])))
  }

  /** The top-level record; the text block copy carries no timestamp. */
  function StateRecord(timestamp: Option<int>, gop: string, useCustom: bool, jobs: seq<Job>): Record {
    Record(timestamp, Some(gop), Some(useCustom), None, Some(EncodeJobs(jobs)))
  }

  /** Builds the record list job by job, as `save_state` and `save_queue_to_text` do. */
  method EncodeQueue(s: Settings) returns (entries: seq<JobEntry>)
    ensures entries == EncodeJobs(s.jobs)
  {
    entries := [];
    for i := 0 to |s.jobs|
      invariant |entries| == i
      invariant forall k :: 0 <= k < i ==> entries[k] == JobObject(EncodeJob(s.jobs[k]))
    {
      entries := entries + [JobObject(EncodeJob(s.jobs[i]))];
    }
  }

  /** `save_state`: writes the whole record to `path`, replacing the file. */
  method SaveState(s: Settings, disk: Disk, path: string, now: int)
    modifies disk
    ensures disk.files == old(disk.files)[path :=
      Parsed(DocObject(StateRecord(Some(now), s.globalOutputPath, s.useCustomOutputPath, s.jobs)))]
  {
    var entries := EncodeQueue(s);
    var data := Record(Some(now), Some(s.globalOutputPath), Some(s.useCustomOutputPath), None, Some(entries));
    disk.files := disk.files[path := Parsed(DocObject(data))];
  }

  /** The `.rendercue_data` text blocks (and any others) of the open .blend file. */
  class TextBlocks {
    var blocks: map<string, Content>

    constructor(blocks: map<string, Content>)
      ensures this.blocks == blocks
    {
      this.blocks := blocks;
    }
  }

  /** `save_queue_to_text`: creates the block if needed and replaces its content. */
  method SaveQueueToText(s: Settings, texts: TextBlocks)
    modifies texts
    ensures texts.blocks == old(texts.blocks)[TEXT_BLOCK_NAME :=
      Parsed(DocObject(StateRecord(None, s.globalOutputPath, s.useCustomOutputPath, s.jobs)))]
  {
    var entries := EncodeQueue(s);
    var data := Record(None, Some(s.globalOutputPath), Some(s.useCustomOutputPath), None, Some(entries));
    if TEXT_BLOCK_NAME !in texts.blocks {
      texts.blocks := texts.blocks[TEXT_BLOCK_NAME := Parsed(DocObject(Record(None, None, None, None, None)))];
    }
    texts.blocks := texts.blocks[TEXT_BLOCK_NAME := Parsed(DocObject(data))];
  }

  // ----------------------------------------------------------- loading

  /**
   * `if job_data.get("scene_name"): job.scene = bpy.data.scenes.get(name)`:
   * a non-empty name that names a scene points the job at it; anything else
   * leaves the new job without a scene.
   */
  function SceneRef(f: NameField, scenes: seq<Scene>): (r: Option<string>)
    ensures r.Some? <==> f.Name? && f.name != "" && HasScene(scenes, f.name)
    ensures r.Some? ==> r.value == f.name
  {
    match f
    case Name(n) => if n != "" && HasScene(scenes, n) then Some(n) else None
    case _ => None
  }

  /** Fields outside the sixteen recorded ones keep the defaults of a new job. */
  predicate UnrecordedDefault(j: Job) {
    var d := NewJob();
    j.overrideCamera == d.overrideCamera && j.camera == d.camera
    && j.overrideDevice == d.overrideDevice && j.device == d.device
    && j.overrideFrameStep == d.overrideFrameStep && j.frameStep == d.frameStep
    && j.overrideTransparent == d.overrideTransparent && j.filmTransparent == d.filmTransparent
    && j.overrideCompositor == d.overrideCompositor && j.useCompositor == d.useCompositor
    && j.overrideDenoising == d.overrideDenoising && j.useDenoising == d.useDenoising
    && j.overrideTimeLimit == d.overrideTimeLimit && j.timeLimit == d.timeLimit
    && j.overridePersistentData == d.overridePersistentData && j.usePersistentData == d.usePersistentData
    && j.renderStatus == d.renderStatus && j.completedFrames == d.completedFrames
    && j.totalFrames == d.totalFrames && j.startTime == d.startTime && j.endTime == d.endTime
  }

  /** A loaded job, and whether every assignment succeeded. */
  datatype JobLoad = JobLoad(job: Job, ok: bool)

  /**
   * One `jobs.add()` followed by the field assignments. Integer fields with
   * bounds are clamped; an enum value that is not one of the items raises
   * `TypeError`, which ends the load with the job half filled in.
   */
  function LoadJob(e: JobEntry, scenes: seq<Scene>): JobLoad
  {
    match e
    case JobNotObject => JobLoad(NewJob(), false)
    case JobObject(rec) =>
      var j := NewJob().(
        scene := SceneRef(rec.sceneName, scenes),
        overrideFrameRange := rec.overrideFrameRange.GetOr(false),
        frameStart := rec.frameStart.GetOr(1),
        frameEnd := rec.frameEnd.GetOr(250),
        overrideOutput := rec.overrideOutput.GetOr(false),
        outputPath := rec.outputPath.GetOr("//"),
        overrideResolution := rec.overrideResolution.GetOr(false),
        resolutionScale := ClampScale(rec.resolutionScale.GetOr(100)),
        overrideSamples := rec.overrideSamples.GetOr(false),
        samples := ClampSamples(rec.samples.GetOr(128)),
        overrideFormat := rec.overrideFormat.GetOr(false));
      var rf := rec.renderFormat.GetOr("PNG");
      if !IsFormatId(rf) then JobLoad(j, false)
      else
        var j2 := j.(renderFormat := rf, overrideEngine := rec.overrideEngine.GetOr(false));
        var re := rec.renderEngine.GetOr("CYCLES");
        if !IsEngineId(re) then JobLoad(j2, false)
        else JobLoad(j2.(renderEngine := re,
                         overrideViewLayer := rec.overrideViewLayer.GetOr(false),
                         viewLayer := rec.viewLayer.GetOr("")), true)
  }

  /**
   * Each field takes the record's value when the key is present and the
   * property default otherwise; only an enum value outside its items fails,
   * and then the fields after it keep their defaults. The result always
   * satisfies the property bounds.
   */
  lemma LoadJobFields(e: JobEntry, scenes: seq<Scene>)
    ensures ValidJob(LoadJob(e, scenes).job) && UnrecordedDefault(LoadJob(e, scenes).job)
    ensures e.JobNotObject? ==> LoadJob(e, scenes) == JobLoad(NewJob(), false)
    ensures e.JobObject? ==>
      var rec := e.rec;
      var rf := rec.renderFormat.GetOr("PNG");
      var re := rec.renderEngine.GetOr("CYCLES");
      var r := LoadJob(e, scenes);
      && (r.ok <==> IsFormatId(rf) && IsEngineId(re))
      && r.job.scene == SceneRef(rec.sceneName, scenes)
      && r.job.overrideFrameRange == rec.overrideFrameRange.GetOr(false)
      && r.job.frameStart == rec.frameStart.GetOr(1)
      && r.job.frameEnd == rec.frameEnd.GetOr(250)
      && r.job.overrideOutput == rec.overrideOutput.GetOr(false)
      && r.job.outputPath == rec.outputPath.GetOr("//")
      && r.job.overrideResolution == rec.overrideResolution.GetOr(false)
      && r.job.resolutionScale == ClampScale(rec.resolutionScale.GetOr(100))
      && r.job.overrideSamples == rec.overrideSamples.GetOr(false)
      && r.job.samples == ClampSamples(rec.samples.GetOr(128))
      && r.job.overrideFormat == rec.overrideFormat.GetOr(false)
      && r.job.renderFormat == (if IsFormatId(rf) then rf else "PNG")
      && r.job.overrideEngine == (if IsFormatId(rf) then rec.overrideEngine.GetOr(false) else false)
      && r.job.renderEngine == (if r.ok then re else "CYCLES")
      && r.job.overrideViewLayer == (if r.ok then rec.overrideViewLayer.GetOr(false) else false)
      && r.job.viewLayer == (if r.ok then rec.viewLayer.GetOr("") else "")
  {
  }

  /** The queue after loading `entries`, and whether no assignment failed. */
  datatype JobsLoad = JobsLoad(jobs: seq<Job>, ok: bool)

  /** What each entry loads to on its own. */
  function EntryLoads(entries: seq<JobEntry>, scenes: seq<Scene>): (r: seq<JobLoad>)
    ensures |r| == |entries|
    ensures forall i :: 0 <= i < |entries| ==> r[i] == LoadJob(entries[i], scenes)
  {
    seq(|entries|, i requires 0 <= i < |entries| => LoadJob(entries[i], scenes))
  }

  /**
   * Loads are taken one after another; the first failing one is kept, half
   * filled in, and nothing after it.
   */
  function Collect(loads: seq<JobLoad>): (r: JobsLoad)
    ensures |r.jobs| <= |loads|
    ensures r.ok ==> |r.jobs| == |loads|
    ensures !r.ok ==> |r.jobs| > 0
    decreases |loads|
  {
    if loads == [] then JobsLoad([], true)
    else
      var prev := Collect(loads[..|loads| - 1]);
      if !prev.ok then prev
      else JobsLoad(prev.jobs + [loads[|loads| - 1].job], loads[|loads| - 1].ok)
  }

  /** Jobs are added one after another, and the first entry that fails ends the load. */
  function LoadJobs(entries: seq<JobEntry>, scenes: seq<Scene>): (r: JobsLoad)
    ensures |r.jobs| <= |entries|
    ensures r.ok ==> |r.jobs| == |entries|
    ensures !r.ok ==> |r.jobs| > 0
  {
    Collect(EntryLoads(entries, scenes))
  }

  lemma {:induction false} CollectPrefix(loads: seq<JobLoad>)
    ensures var r := Collect(loads);
      forall i :: 0 <= i < |r.jobs| ==> r.jobs[i] == loads[i].job
    decreases |loads|
  {
    if loads != [] {
      var n := |loads|;
      var front := loads[..n - 1];
      var prev := Collect(front);
      var r := Collect(loads);
      CollectPrefix(front);
      forall i | 0 <= i < |r.jobs|
        ensures r.jobs[i] == loads[i].job
      {
        if i < |prev.jobs| {
          assert r.jobs[i] == prev.jobs[i] && front[i] == loads[i];
        }
      }
    }
  }

  lemma {:induction false} CollectOk(loads: seq<JobLoad>)
    ensures Collect(loads).ok <==> forall i :: 0 <= i < |loads| ==> loads[i].ok
    decreases |loads|
  {
    if loads != [] {
      var n := |loads|;
      var front := loads[..n - 1];
      CollectOk(front);
      assert forall i :: 0 <= i < n - 1 ==> front[i] == loads[i];
    }
  }

  lemma {:induction false} CollectFailure(loads: seq<JobLoad>)
    requires !Collect(loads).ok
    ensures var r := Collect(loads);
      && !loads[|r.jobs| - 1].ok
      && forall i :: 0 <= i < |r.jobs| - 1 ==> loads[i].ok
    decreases |loads|
  {
    var n := |loads|;
    var front := loads[..n - 1];
    assert forall i :: 0 <= i < n - 1 ==> front[i] == loads[i];
    var prev := Collect(front);
    if !prev.ok {
      CollectFailure(front);
    } else {
      CollectOk(front);
    }
  }

  lemma {:induction false} CollectStops(loads: seq<JobLoad>, k: nat)
    requires k <= |loads| && !Collect(loads[..k]).ok
    ensures Collect(loads) == Collect(loads[..k])
    decreases |loads| - k
  {
    if k < |loads| {
      var front := loads[..|loads| - 1];
      assert front[..k] == loads[..k];
      CollectStops(front, k);
    } else {
      assert loads[..k] == loads;
    }
  }

  /** The loaded queue holds the per-entry loads of a prefix of the entries. */
  lemma LoadJobsPrefix(entries: seq<JobEntry>, scenes: seq<Scene>)
    ensures var r := LoadJobs(entries, scenes);
      forall i :: 0 <= i < |r.jobs| ==> r.jobs[i] == LoadJob(entries[i], scenes).job
  {
    CollectPrefix(EntryLoads(entries, scenes));
  }

  /** Loading succeeds exactly when every entry loads without error. */
  lemma LoadJobsOk(entries: seq<JobEntry>, scenes: seq<Scene>)
    ensures LoadJobs(entries, scenes).ok <==> forall i :: 0 <= i < |entries| ==> LoadJob(entries[i], scenes).ok
  {
    CollectOk(EntryLoads(entries, scenes));
  }

  /** A failed load stops right after the first entry that fails. */
  lemma LoadJobsFailure(entries: seq<JobEntry>, scenes: seq<Scene>)
    requires !LoadJobs(entries, scenes).ok
    ensures var r := LoadJobs(entries, scenes);
      && !LoadJob(entries[|r.jobs| - 1], scenes).ok
      && forall i :: 0 <= i < |r.jobs| - 1 ==> LoadJob(entries[i], scenes).ok
  {
    var l := EntryLoads(entries, scenes);
    CollectFailure(l);
    var n := |Collect(l).jobs|;
    assert l[n - 1] == LoadJob(entries[n - 1], scenes);
    forall i | 0 <= i < n - 1
      ensures LoadJob(entries[i], scenes).ok
    {
      assert l[i] == LoadJob(entries[i], scenes);
    }
  }

  lemma LoadJobsStep(entries: seq<JobEntry>, i: nat, scenes: seq<Scene>)
    requires i < |entries| && LoadJobs(entries[..i], scenes).ok
    ensures LoadJobs(entries[..i + 1], scenes)
         == JobsLoad(LoadJobs(entries[..i], scenes).jobs + [LoadJob(entries[i], scenes).job],
                     LoadJob(entries[i], scenes).ok)
  {
    var l := EntryLoads(entries[..i + 1], scenes);
    assert l[..i] == EntryLoads(entries[..i], scenes);
  }

  /** Once an entry has failed, later entries change nothing. */
  lemma LoadJobsStops(entries: seq<JobEntry>, k: nat, scenes: seq<Scene>)
    requires k <= |entries| && !LoadJobs(entries[..k], scenes).ok
    ensures LoadJobs(entries, scenes) == LoadJobs(entries[..k], scenes)
  {
    var l := EntryLoads(entries, scenes);
    assert l[..k] == EntryLoads(entries[..k], scenes);
    CollectStops(l, k);
  }

  /** Queue and settings after loading one document. */
  datatype Loaded = Loaded(jobs: seq<Job>, globalOutputPath: string, useCustomOutputPath: bool, ok: bool)

  /**
   * The queue is cleared first. A top-level value that is not an object
   * fails right after the clear; otherwise `global_output_path` keeps the
   * current value when absent and `use_custom_output_path` becomes False.
   */
  function LoadDocument(d: Document, gop: string, useCustom: bool, scenes: seq<Scene>): (r: Loaded)
    ensures d.DocNotObject? ==> r == Loaded([], gop, useCustom, false)
    ensures d.DocObject? ==>
      && r.globalOutputPath == d.rec.globalOutputPath.GetOr(gop)
      && r.useCustomOutputPath == d.rec.useCustomOutputPath.GetOr(false)
      && r.jobs == LoadJobs(d.rec.jobs.GetOr([]), scenes).jobs
      && r.ok == LoadJobs(d.rec.jobs.GetOr([]), scenes).ok
  {
    match d
    case DocNotObject => Loaded([], gop, useCustom, false)
    case DocObject(rec) =>
      var l := LoadJobs(rec.jobs.GetOr([]), scenes);
      Loaded(l.jobs, rec.globalOutputPath.GetOr(gop), rec.useCustomOutputPath.GetOr(false), l.ok)
  }

  /** Clears the queue and adds the jobs of `entries` one by one. */
  method ReplaceQueue(s: Settings, entries: seq<JobEntry>, scenes: seq<Scene>) returns (ok: bool)
    modifies s`jobs
    ensures s.jobs == LoadJobs(entries, scenes).jobs && ok == LoadJobs(entries, scenes).ok
  {
    s.jobs := [];
    var i := 0;
    while i < |entries|
      invariant 0 <= i <= |entries|
      invariant LoadJobs(entries[..i], scenes) == JobsLoad(s.jobs, true)
    {
      var l := LoadJob(entries[i], scenes);
      LoadJobsStep(entries, i, scenes);
      s.jobs := s.jobs + [l.job];
      if !l.ok {
        LoadJobsStops(entries, i + 1, scenes);
        return false;
      }
      i := i + 1;
    }
    assert entries[..i] == entries;
    return true;
  }

  /** Applies a parsed document to the settings (the body of the `try`). */
  method ApplyDocument(s: Settings, d: Document, scenes: seq<Scene>) returns (ok: bool)
    modifies s`jobs, s`globalOutputPath, s`useCustomOutputPath
    ensures var r := LoadDocument(d, old(s.globalOutputPath), old(s.useCustomOutputPath), scenes);
      s.jobs == r.jobs && s.globalOutputPath == r.globalOutputPath
      && s.useCustomOutputPath == r.useCustomOutputPath && ok == r.ok
  {
    s.jobs := [];
    match d
    case DocNotObject =>
      return false;
    case DocObject(rec) =>
      s.globalOutputPath := rec.globalOutputPath.GetOr(s.globalOutputPath);
      s.useCustomOutputPath := rec.useCustomOutputPath.GetOr(false);
      ok := ReplaceQueue(s, rec.jobs.GetOr([]), scenes);
  }

  /**
   * `load_state`: False with nothing changed when the file is missing or
   * does not parse; otherwise the document replaces the queue.
   */
  method LoadState(s: Settings, disk: Disk, path: string, scenes: seq<Scene>) returns (ok: bool)
    modifies s`jobs, s`globalOutputPath, s`useCustomOutputPath
    ensures path !in disk.files ==> !ok && unchanged(s)
    ensures path in disk.files && disk.files[path].Unparseable? ==> !ok && unchanged(s)
    ensures path in disk.files && disk.files[path].Parsed? ==>
      var r := LoadDocument(disk.files[path].doc, old(s.globalOutputPath), old(s.useCustomOutputPath), scenes);
      s.jobs == r.jobs && s.globalOutputPath == r.globalOutputPath
      && s.useCustomOutputPath == r.useCustomOutputPath && ok == r.ok
  {
    if path !in disk.files {
      return false;
    }
    match disk.files[path]
    case Unparseable =>
      return false;
    case Parsed(d) =>
      ok := ApplyDocument(s, d, scenes);
  }

  /** `load_queue_from_text`: nothing happens without the block or when it does not parse. */
  method LoadQueueFromText(s: Settings, texts: TextBlocks, scenes: seq<Scene>)
    modifies s`jobs, s`globalOutputPath, s`useCustomOutputPath
    ensures TEXT_BLOCK_NAME !in texts.blocks ==> unchanged(s)
    ensures TEXT_BLOCK_NAME in texts.blocks && texts.blocks[TEXT_BLOCK_NAME].Unparseable? ==> unchanged(s)
    ensures TEXT_BLOCK_NAME in texts.blocks && texts.blocks[TEXT_BLOCK_NAME].Parsed? ==>
      var r := LoadDocument(texts.blocks[TEXT_BLOCK_NAME].doc, old(s.globalOutputPath),
                            old(s.useCustomOutputPath), scenes);
      s.jobs == r.jobs && s.globalOutputPath == r.globalOutputPath
      && s.useCustomOutputPath == r.useCustomOutputPath
  {
    if TEXT_BLOCK_NAME !in texts.blocks {
      return;
    }
    match texts.blocks[TEXT_BLOCK_NAME]
    case Unparseable =>
    case Parsed(d) =>
      var _ := ApplyDocument(s, d, scenes);
  }

  // -------------------------------------------------------- round trip

  /** The job's scene can be found again by its name. */
  predicate SceneResolvable(j: Job, scenes: seq<Scene>) {
    j.scene.Some? ==> j.scene.value != "" && HasScene(scenes, j.scene.value)
  }

  /** The sixteen fields `save_state` records agree. */
  predicate SameRecordedFields(a: Job, b: Job) {
    a.scene == b.scene
    && a.overrideFrameRange == b.overrideFrameRange && a.frameStart == b.frameStart && a.frameEnd == b.frameEnd
    && a.overrideOutput == b.overrideOutput && a.outputPath == b.outputPath
    && a.overrideResolution == b.overrideResolution && a.resolutionScale == b.resolutionScale
    && a.overrideSamples == b.overrideSamples && a.samples == b.samples
    && a.overrideFormat == b.overrideFormat && a.renderFormat == b.renderFormat
    && a.overrideEngine == b.overrideEngine && a.renderEngine == b.renderEngine
    && a.overrideViewLayer == b.overrideViewLayer && a.viewLayer == b.viewLayer
  }

  lemma LoadEncodedJob(j: Job, scenes: seq<Scene>)
    requires ValidJob(j) && SceneResolvable(j, scenes)
    ensures LoadJob(JobObject(EncodeJob(j)), scenes).ok
    ensures SameRecordedFields(LoadJob(JobObject(EncodeJob(j)), scenes).job, j)
  {
  }

  lemma LoadEncodedJobs(jobs: seq<Job>, scenes: seq<Scene>)
    requires forall i :: 0 <= i < |jobs| ==> ValidJob(jobs[i]) && SceneResolvable(jobs[i], scenes)
    ensures LoadJobs(EncodeJobs(jobs), scenes).ok
    ensures |LoadJobs(EncodeJobs(jobs), scenes).jobs| == |jobs|
    ensures forall i :: 0 <= i < |jobs| ==> SameRecordedFields(LoadJobs(EncodeJobs(jobs), scenes).jobs[i], jobs[i])
  {
    var entries := EncodeJobs(jobs);
    forall i | 0 <= i < |jobs|
      ensures LoadJob(entries[i], scenes).ok
      ensures SameRecordedFields(LoadJob(entries[i], scenes).job, jobs[i])
    {
      LoadEncodedJob(jobs[i], scenes);
    }
    LoadJobsOk(entries, scenes);
    LoadJobsPrefix(entries, scenes);
  }

  /**
   * Loading what `save_state` wrote restores the output settings and, for
   * every job in queue order, the sixteen recorded fields.
   */
  lemma SaveThenLoad(now: int, gop: string, useCustom: bool, jobs: seq<Job>,
                     curGop: string, curUseCustom: bool, scenes: seq<Scene>)
    requires forall i :: 0 <= i < |jobs| ==> ValidJob(jobs[i]) && SceneResolvable(jobs[i], scenes)
    ensures var r := LoadDocument(DocObject(StateRecord(Some(now), gop, useCustom, jobs)), curGop, curUseCustom, scenes);
      && r.ok && r.globalOutputPath == gop && r.useCustomOutputPath == useCustom
      && |r.jobs| == |jobs|
      && forall i :: 0 <= i < |jobs| ==> SameRecordedFields(r.jobs[i], jobs[i])
  {
    LoadEncodedJobs(jobs, scenes);
  }

  /** A job record with every key missing loads as a fresh default job. */
  lemma MissingKeysGiveDefaults(scenes: seq<Scene>)
    ensures LoadJob(JobObject(JobRecord(NoKey, None, None, None, None, None, None, None,
                                        None, None, None, None, None, None, None, None)), scenes)
            == JobLoad(NewJob(), true)
  {
  }
}
