/**
 * `StateManager` of the older add-on (`core.py`): the queue is written to a
 * JSON record holding the output structure and, per job, the scene name and
 * the five override pairs; loading clears the queue and adds the recorded
 * jobs back with a default for every missing key.
 */
module LegacyCodec {
  import opened Wrappers
  import opened Manifest
  import opened Properties
  import opened LegacyProperties
  import opened Blender
  import StateCodec

  // ------------------------------------------------------------ saving

  /** The eleven keys written for one job; the engine and view-layer keys are absent. */
  function LegacyEncodeJob(j: LegacyJob): JobRecord {
    JobRecord(
      StateCodec.SceneNameField(j.scene),
      Some(j.overrideFrameRange), Some(j.frameStart), Some(j.frameEnd),
      Some(j.overrideOutput), Some(j.outputPath),
      Some(j.overrideResolution), Some(j.resolutionScale),
      Some(j.overrideSamples), Some(j.samples),
      Some(j.overrideFormat), Some(j.renderFormat),
      None, None, None, None)
  }

  function LegacyEncodeJobs(jobs: seq<LegacyJob>): (r: seq<JobEntry>)
    ensures |r| == |jobs|
    ensures forall i :: 0 <= i < |jobs| ==> r[i] == JobObject(LegacyEncodeJob(jobs[i]))
  {
    seq(|jobs|, i requires 0 <= i < |jobs| => JobObject(LegacyEncodeJob(jobs[i])))
  }

  /** The top-level record: timestamp, global output path, output structure and the jobs. */
  function LegacyStateRecord(now: int, gop: string, structure: string, jobs: seq<LegacyJob>): Record {
    Record(Some(now), Some(gop), None, Some(structure), Some(LegacyEncodeJobs(jobs)))
  }

  method LegacyEncodeQueue(s: LegacySettings) returns (entries: seq<JobEntry>)
    ensures entries == LegacyEncodeJobs(s.jobs)
  {
    entries := [];
    for i := 0 to |s.jobs|
      invariant |entries| == i
      invariant forall k :: 0 <= k < i ==> entries[k] == JobObject(LegacyEncodeJob(s.jobs[k]))
    {
      entries := entries + [JobObject(LegacyEncodeJob(s.jobs[i]))];
    }
  }

  /** `save_state`: writes the record to `path`, replacing the file. */
  method LegacySaveState(s: LegacySettings, disk: Disk, path: string, now: int)
    modifies disk
    ensures disk.files == old(disk.files)[path :=
      Parsed(DocObject(LegacyStateRecord(now, s.globalOutputPath, s.outputStructure, s.jobs)))]
  {
    var entries := LegacyEncodeQueue(s);
    var data := Record(Some(now), Some(s.globalOutputPath), None, Some(s.outputStructure), Some(entries));
    disk.files := disk.files[path := Parsed(DocObject(data))];
  }

  // ----------------------------------------------------------- loading

  datatype LegacyJobLoad = LegacyJobLoad(job: LegacyJob, ok: bool)

  /**
   * One `jobs.add()` and the assignments in source order; the bounded
   * integers clamp, and a format outside the four items raises `TypeError`
   * on the last assignment, leaving the job with its default format.
   */
  function LegacyLoadJob(e: JobEntry, scenes: seq<Scene>): LegacyJobLoad {
    match e
    case JobNotObject => LegacyJobLoad(NewLegacyJob(), false)
    case JobObject(rec) =>
      var j := NewLegacyJob().(
        scene := StateCodec.SceneRef(rec.sceneName, scenes),
        overrideFrameRange := rec.overrideFrameRange.GetOr(false),
        frameStart := rec.frameStart.GetOr(1),
        frameEnd := rec.frameEnd.GetOr(250),
        overrideOutput := rec.overrideOutput.GetOr(false),
        outputPath := rec.outputPath.GetOr("//"),
        overrideResolution := rec.overrideResolution.GetOr(false),
        resolutionScale := ClampLegacyScale(rec.resolutionScale.GetOr(100)),
        overrideSamples := rec.overrideSamples.GetOr(false),
        samples := ClampSamples(rec.samples.GetOr(128)),
        overrideFormat := rec.overrideFormat.GetOr(false));
      var rf := rec.renderFormat.GetOr("PNG");
      if IsLegacyFormatId(rf) then LegacyJobLoad(j.(renderFormat := rf), true)
      else LegacyJobLoad(j, false)
  }

  /**
   * Each field takes the record's value when the key is present and the
   * default of `load_state` otherwise; only an unknown format fails. The
   * engine and view-layer keys are ignored, and the job stays valid.
   */
  lemma LegacyLoadJobFields(e: JobEntry, scenes: seq<Scene>)
    ensures ValidLegacyJob(LegacyLoadJob(e, scenes).job)
    ensures e.JobNotObject? ==> LegacyLoadJob(e, scenes) == LegacyJobLoad(NewLegacyJob(), false)
    ensures e.JobObject? ==>
      var rec := e.rec;
      var rf := rec.renderFormat.GetOr("PNG");
      var r := LegacyLoadJob(e, scenes);
      && (r.ok <==> IsLegacyFormatId(rf))
      && r.job.scene == StateCodec.SceneRef(rec.sceneName, scenes)
      && r.job.overrideFrameRange == rec.overrideFrameRange.GetOr(false)
      && r.job.frameStart == rec.frameStart.GetOr(1)
      && r.job.frameEnd == rec.frameEnd.GetOr(250)
      && r.job.overrideOutput == rec.overrideOutput.GetOr(false)
      && r.job.outputPath == rec.outputPath.GetOr("//")
      && r.job.overrideResolution == rec.overrideResolution.GetOr(false)
      && r.job.resolutionScale == ClampLegacyScale(rec.resolutionScale.GetOr(100))
      && r.job.overrideSamples == rec.overrideSamples.GetOr(false)
      && r.job.samples == ClampSamples(rec.samples.GetOr(128))
      && r.job.overrideFormat == rec.overrideFormat.GetOr(false)
      && r.job.renderFormat == (if r.ok then rf else "PNG")
  {
  }

  datatype LegacyJobsLoad = LegacyJobsLoad(jobs: seq<LegacyJob>, ok: bool)

  /** Jobs are added one after another; the first failing entry is kept and ends the load. */
  function LegacyLoadJobs(entries: seq<JobEntry>, scenes: seq<Scene>): (r: LegacyJobsLoad)
    ensures |r.jobs| <= |entries|
    ensures r.ok ==> |r.jobs| == |entries|
    ensures !r.ok ==> |r.jobs| > 0
    decreases |entries|
  {
    if entries == [] then LegacyJobsLoad([], true)
    else
      var prev := LegacyLoadJobs(entries[..|entries| - 1], scenes);
      if !prev.ok then prev
      else
        var l := LegacyLoadJob(entries[|entries| - 1], scenes);
        LegacyJobsLoad(prev.jobs + [l.job], l.ok)
  }

  lemma {:induction false} LegacyLoadJobsPrefix(entries: seq<JobEntry>, scenes: seq<Scene>)
    ensures var r := LegacyLoadJobs(entries, scenes);
      forall i :: 0 <= i < |r.jobs| ==> r.jobs[i] == LegacyLoadJob(entries[i], scenes).job
    decreases |entries|
  {
    if entries != [] {
      var n := |entries|;
      var front := entries[..n - 1];
      LegacyLoadJobsPrefix(front, scenes);
      assert forall i :: 0 <= i < n - 1 ==> front[i] == entries[i];
    }
  }

  lemma {:induction false} LegacyLoadJobsOk(entries: seq<JobEntry>, scenes: seq<Scene>)
    ensures LegacyLoadJobs(entries, scenes).ok
        <==> forall i :: 0 <= i < |entries| ==> LegacyLoadJob(entries[i], scenes).ok
    decreases |entries|
  {
    if entries != [] {
      var n := |entries|;
      var front := entries[..n - 1];
      LegacyLoadJobsOk(front, scenes);
      assert forall i :: 0 <= i < n - 1 ==> front[i] == entries[i];
    }
  }

  lemma LegacyLoadJobsStep(entries: seq<JobEntry>, i: nat, scenes: seq<Scene>)
    requires i < |entries| && LegacyLoadJobs(entries[..i], scenes).ok
    ensures LegacyLoadJobs(entries[..i + 1], scenes)
         == LegacyJobsLoad(LegacyLoadJobs(entries[..i], scenes).jobs + [LegacyLoadJob(entries[i], scenes).job],
                           LegacyLoadJob(entries[i], scenes).ok)
  {
    assert entries[..i + 1][..i] == entries[..i];
  }

  lemma {:induction false} LegacyLoadJobsStops(entries: seq<JobEntry>, k: nat, scenes: seq<Scene>)
    requires k <= |entries| && !LegacyLoadJobs(entries[..k], scenes).ok
    ensures LegacyLoadJobs(entries, scenes) == LegacyLoadJobs(entries[..k], scenes)
    decreases |entries| - k
  {
    if k < |entries| {
      var front := entries[..|entries| - 1];
      assert front[..k] == entries[..k];
      LegacyLoadJobsStops(front, k, scenes);
      assert !LegacyLoadJobs(front, scenes).ok;
    } else {
      assert entries[..k] == entries;
    }
  }

  datatype LegacyLoaded = LegacyLoaded(jobs: seq<LegacyJob>, globalOutputPath: string, outputStructure: string, ok: bool)

  /**
   * The queue is cleared first. A top-level value that is no object fails
   * right after the clear. Otherwise the global output path and the output
   * structure keep their current values when absent; a structure that is
   * not one of the two items raises, after the path was set and before any
   * job is added.
   */
  function LegacyLoadDocument(d: Document, gop: string, structure: string, scenes: seq<Scene>): (r: LegacyLoaded)
    ensures d.DocNotObject? ==> r == LegacyLoaded([], gop, structure, false)
    ensures d.DocObject? ==>
      var os := d.rec.outputStructure.GetOr(structure);
      && r.globalOutputPath == d.rec.globalOutputPath.GetOr(gop)
      && (IsOutputStructure(os) ==>
            r.outputStructure == os
            && r.jobs == LegacyLoadJobs(d.rec.jobs.GetOr([]), scenes).jobs
            && r.ok == LegacyLoadJobs(d.rec.jobs.GetOr([]), scenes).ok)
      && (!IsOutputStructure(os) ==> r.outputStructure == structure && r.jobs == [] && !r.ok)
  {
    match d
    case DocNotObject => LegacyLoaded([], gop, structure, false)
    case DocObject(rec) =>
      var newGop := rec.globalOutputPath.GetOr(gop);
      var os := rec.outputStructure.GetOr(structure);
      if !IsOutputStructure(os) then LegacyLoaded([], newGop, structure, false)
      else
        var l := LegacyLoadJobs(rec.jobs.GetOr([]), scenes);
        LegacyLoaded(l.jobs, newGop, os, l.ok)
  }

  method LegacyReplaceQueue(s: LegacySettings, entries: seq<JobEntry>, scenes: seq<Scene>) returns (ok: bool)
    modifies s`jobs
    ensures s.jobs == LegacyLoadJobs(entries, scenes).jobs && ok == LegacyLoadJobs(entries, scenes).ok
  {
    s.jobs := [];
    var i := 0;
    while i < |entries|
      invariant 0 <= i <= |entries|
      invariant LegacyLoadJobs(entries[..i], scenes) == LegacyJobsLoad(s.jobs, true)
    {
      var l := LegacyLoadJob(entries[i], scenes);
      LegacyLoadJobsStep(entries, i, scenes);
      s.jobs := s.jobs + [l.job];
      if !l.ok {
        LegacyLoadJobsStops(entries, i + 1, scenes);
        return false;
      }
      i := i + 1;
    }
    assert entries[..i] == entries;
    return true;
  }

  /** `load_state`: False and nothing changed without the file or when it does not parse. */
  method LegacyLoadState(s: LegacySettings, disk: Disk, path: string, scenes: seq<Scene>) returns (ok: bool)
    modifies s`jobs, s`globalOutputPath, s`outputStructure
    ensures path !in disk.files ==> !ok && unchanged(s)
    ensures path in disk.files && disk.files[path].Unparseable? ==> !ok && unchanged(s)
    ensures path in disk.files && disk.files[path].Parsed? ==>
      var r := LegacyLoadDocument(disk.files[path].doc, old(s.globalOutputPath), old(s.outputStructure), scenes);
      s.jobs == r.jobs && s.globalOutputPath == r.globalOutputPath
      && s.outputStructure == r.outputStructure && ok == r.ok
  {
    if path !in disk.files {
      return false;
    }
    match disk.files[path]
    case Unparseable =>
      return false;
    case Parsed(d) =>
      s.jobs := [];
      match d
      case DocNotObject =>
        return false;
      case DocObject(rec) =>
        s.globalOutputPath := rec.globalOutputPath.GetOr(s.globalOutputPath);
        var os := rec.outputStructure.GetOr(s.outputStructure);
        if !IsOutputStructure(os) {
          return false;
        }
        s.outputStructure := os;
        ok := LegacyReplaceQueue(s, rec.jobs.GetOr([]), scenes);
  }

  // -------------------------------------------------------- round trip

  /** The scene of a job can be found again by its name. */
  predicate LegacySceneResolvable(j: LegacyJob, scenes: seq<Scene>) {
    j.scene.Some? ==> j.scene.value != "" && HasScene(scenes, j.scene.value)
  }

  lemma LegacyLoadEncodedJob(j: LegacyJob, scenes: seq<Scene>)
    requires ValidLegacyJob(j) && LegacySceneResolvable(j, scenes)
    ensures LegacyLoadJob(JobObject(LegacyEncodeJob(j)), scenes) == LegacyJobLoad(j, true)
  {
  }

  /**
   * Loading what `save_state` wrote restores the output settings and every
   * job, in queue order, exactly.
   */
  lemma LegacySaveThenLoad(now: int, gop: string, structure: string, jobs: seq<LegacyJob>,
                           curGop: string, curStructure: string, scenes: seq<Scene>)
    requires IsOutputStructure(structure)
    requires forall i :: 0 <= i < |jobs| ==> ValidLegacyJob(jobs[i]) && LegacySceneResolvable(jobs[i], scenes)
    ensures LegacyLoadDocument(DocObject(LegacyStateRecord(now, gop, structure, jobs)), curGop, curStructure, scenes)
         == LegacyLoaded(jobs, gop, structure, true)
  {
    var entries := LegacyEncodeJobs(jobs);
    forall i | 0 <= i < |jobs|
      ensures LegacyLoadJob(entries[i], scenes) == LegacyJobLoad(jobs[i], true)
    {
      LegacyLoadEncodedJob(jobs[i], scenes);
    }
    LegacyLoadJobsOk(entries, scenes);
    LegacyLoadJobsPrefix(entries, scenes);
    assert LegacyLoadJobs(entries, scenes).jobs == jobs;
  }

  /**
   * A job record with every key missing loads with the defaults of
   * `load_state`, which differ from a new job's in the output path and the
   * resolution scale.
   */
  lemma LegacyMissingKeysGiveDefaults(scenes: seq<Scene>)
    ensures LegacyLoadJob(JobObject(JobRecord(NoKey, None, None, None, None, None, None, None,
                                              None, None, None, None, None, None, None, None)), scenes)
            == LegacyJobLoad(NewLegacyJob().(outputPath := "//", resolutionScale := 100), true)
  {
  }
}
