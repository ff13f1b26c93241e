/**
 * The packaged add-on's render operator (`rendercue/render.py`,
 * `RENDERCUE_OT_batch_render`). `execute` writes the queue manifest and
 * starts the background worker; a one-second timer then calls `modal`,
 * which reads the worker's status file, mirrors it into the settings and,
 * once a stop was requested or the worker has exited, runs `finish`.
 *
 * What the operator cannot decide itself is passed in: the kind of event,
 * what opening and parsing the status file yields, whether the worker has
 * exited, whether the preview image could be loaded, the whole seconds
 * since the start, the open .blend file's path and Blender's temp directory.
 */
module Supervisor {
  import opened Wrappers
  import opened Strings
  import opened Properties
  import opened Manifest
  import opened StateCodec
  import opened Constants

  const STARTING_MESSAGE: string := "Starting Background Render..."
  const UNTITLED: string := "Untitled.blend"
  const ERROR_TITLE: string := "RenderCue Error"

  // --------------------------------------------------- the status file

  /** The `error` key as JSON can hold it. */
  datatype ErrorField = ErrorAbsent | ErrorNull | ErrorBool(flag: bool) | ErrorString(text: string)

  /** Python truthiness of `status.get("error")`. */
  predicate ErrorTruthy(e: ErrorField) {
    e == ErrorBool(true) || (e.ErrorString? && e.text != "")
  }

  /** `str(status["error"])`: the text a desktop notification shows for the error. */
  function ErrorText(e: ErrorField): string {
    match e
    case ErrorString(text) => text
    case ErrorBool(flag) => if flag then "True" else "False"
    case _ => "None"
  }

  /** An entry of `job_progress`: a dict with optional `done` and `total`, or anything else. */
  datatype ProgressEntry = ProgressDict(done: Option<int>, total: Option<int>) | ProgressOther

  /** An entry of `job_timings`: a dict with optional `start` and `end`, or anything else. */
  datatype TimingEntry = TimingDict(start: Option<int>, end: Option<int>) | TimingOther

  /**
   * A parsed status file, key by key (`None` when the key is absent). The
   * three per-job arrays read as empty when absent.
   */
  datatype StatusDict = StatusDict(
    message: Option<string>,
    etr: Option<string>,
    jobIndex: Option<int>,
    totalJobs: Option<int>,
    finishedFrames: Option<int>,
    totalFrames: Option<int>,
    lastFrame: Option<string>,
    error: ErrorField,
    jobStatuses: seq<string>,
    jobProgress: seq<ProgressEntry>,
    jobTimings: seq<TimingEntry>
  )

  /** What one tick gets from the status file: nothing yet, an `OSError` or JSON error, or its content. */
  datatype StatusRead = NoStatusFile | Unreadable | StatusFile(status: StatusDict)

  // ------------------------------------------------------------- state

  datatype Summary = Summary(totalJobs: int, successfulJobs: int, failedJobs: int, totalFrames: int,
                             renderTime: string, blendFile: string)

  /** The settings fields the operator writes. */
  datatype Board = Board(
    jobs: seq<Job>,
    stopRequested: bool,
    isRendering: bool,
    isPaused: bool,
    progressMessage: string,
    etr: string,
    currentJobIndex: int,
    totalJobsCount: int,
    finishedFramesCount: int,
    totalFramesToRender: int,
    hasPreviewImage: bool,
    summary: Summary,
    lastRenderStatus: string,
    lastRenderMessage: string
  )

  function BoardOf(s: Settings): Board
    reads s
  {
    Board(s.jobs, s.stopRequested, s.isRendering, s.isPaused, s.progressMessage, s.etr,
          s.currentJobIndex, s.totalJobsCount, s.finishedFramesCount, s.totalFramesToRender,
          s.hasPreviewImage,
          Summary(s.summaryTotalJobs, s.summarySuccessfulJobs, s.summaryFailedJobs, s.summaryTotalFrames,
                  s.summaryRenderTime, s.summaryBlendFile),
          s.lastRenderStatus, s.lastRenderMessage)
  }

  /**
   * The operator's own fields. `previews` lists the images loaded into the
   * preview, oldest first; `killed` records the `kill()` of the worker;
   * `timerActive` the event timer.
   */
  datatype Monitor = Monitor(
    stop: bool,
    lastFinishedFrames: int,
    hasProcess: bool,
    killed: bool,
    timerActive: bool,
    manifestFile: Option<string>,
    statusFile: Option<string>,
    startTime: Option<int>,
    previews: seq<string>
  )

  datatype Sup = Sup(m: Monitor, b: Board)

  // ------------------------------------------- reading one status file

  /** The pause flag after a status message: "Paused" wins over "Resuming" and "Rendering". */
  function PauseAfter(paused: bool, msg: string): bool {
    if Contains(msg, "Paused") then true
    else if Contains(msg, "Resuming") || Contains(msg, "Rendering") then false
    else paused
  }

  /** Job `i` after the per-job arrays; each array only reaches the jobs it is long enough for. */
  function MirrorJob(j: Job, i: nat, d: StatusDict): Job {
    var p := if i < |d.jobProgress| then d.jobProgress[i] else ProgressOther;
    var t := if i < |d.jobTimings| then d.jobTimings[i] else TimingOther;
    j.(renderStatus := if i < |d.jobStatuses| then d.jobStatuses[i] else j.renderStatus,
       completedFrames := if p.ProgressDict? then p.done.GetOr(0) else j.completedFrames,
       totalFrames := if p.ProgressDict? then p.total.GetOr(0) else j.totalFrames,
       startTime := if t.TimingDict? && t.start.Some? && t.start.value > 0 then t.start.value else j.startTime,
       endTime := if t.TimingDict? && t.end.Some? && t.end.value > 0 then t.end.value else j.endTime)
  }

  function Mirrored(jobs: seq<Job>, d: StatusDict): (r: seq<Job>)
    ensures |r| == |jobs|
  {
    seq(|jobs|, i requires 0 <= i < |jobs| => MirrorJob(jobs[i], i, d))
  }

  /** The preview is refreshed for a non-empty frame path and a finished count above the last one seen. */
  predicate Refreshes(last: int, d: StatusDict) {
    d.lastFrame.Some? && d.lastFrame.value != "" && d.finishedFrames.GetOr(0) > last
  }

  /** `update_preview`: when the image loads, it is shown. */
  function Previewed(s: Sup, path: string, loaded: bool): Sup {
    if loaded then Sup(s.m.(previews := s.m.previews + [path]), s.b.(hasPreviewImage := true)) else s
  }

  /** The message, the pause flag and the counters, as the status file gives them. */
  function Copied(b: Board, d: StatusDict): Board {
    CountsCopied(TextCopied(b, d), d)
  }

  /** The message, the pause flag it implies, and the estimate. */
  function TextCopied(b: Board, d: StatusDict): Board {
    b.(progressMessage := d.message.GetOr(DEFAULT_PROGRESS_MESSAGE),
       isPaused := PauseAfter(b.isPaused, d.message.GetOr("")),
       etr := d.etr.GetOr(b.etr))
  }

  /** The frame counts, the 0-based job index and the job count. */
  function CountsCopied(b: Board, d: StatusDict): Board {
    PlaceCopied(FramesCopied(b, d), d)
  }

  function FramesCopied(b: Board, d: StatusDict): Board {
    b.(finishedFramesCount := d.finishedFrames.GetOr(b.finishedFramesCount),
       totalFramesToRender := d.totalFrames.GetOr(b.totalFramesToRender))
  }

  function PlaceCopied(b: Board, d: StatusDict): Board {
    b.(currentJobIndex := if d.jobIndex.Some? then d.jobIndex.value - 1 else b.currentJobIndex,
       totalJobsCount := d.totalJobs.GetOr(b.totalJobsCount))
  }

  /** An error in the status file stops the batch. */
  function ErrorNoted(s: Sup, d: StatusDict): Sup {
    s.(m := s.m.(stop := s.m.stop || ErrorTruthy(d.error)))
  }

  function JobsMirrored(s: Sup, d: StatusDict): Sup {
    s.(b := s.b.(jobs := Mirrored(s.b.jobs, d)))
  }

  /**
   * The desktop notifications, as (title, message), that a status file
   * sends: one for a truthy error when the preferences switch them on.
   */
  function ErrorNotices(d: StatusDict, showNotifications: bool): seq<(string, string)> {
    if showNotifications && ErrorTruthy(d.error) then [(ERROR_TITLE, ErrorText(d.error))] else []
  }

  /** The status file taken in: an error stops the batch, and the board mirrors the file. */
  function Absorbed(s: Sup, d: StatusDict): Sup {
    JobsMirrored(ErrorNoted(s.(b := Copied(s.b, d)), d), d)
  }

  /** The preview step: a newer frame is remembered and, when its image loads, shown. */
  function Refreshed(s: Sup, d: StatusDict, previewLoaded: bool): Sup {
    if Refreshes(s.m.lastFinishedFrames, d) then
      Previewed(s.(m := s.m.(lastFinishedFrames := d.finishedFrames.GetOr(0))), d.lastFrame.value, previewLoaded)
    else s
  }

  /** The body of the `try` that reads a status file. */
  function ApplyStatus(s: Sup, d: StatusDict, previewLoaded: bool): Sup {
    Refreshed(Absorbed(s, d), d, previewLoaded)
  }

  // ----------------------------------------------------------- finish

  function StatusCount(jobs: seq<Job>, status: string): nat
    decreases |jobs|
  {
    if jobs == [] then 0
    else StatusCount(jobs[..|jobs| - 1], status) + (if jobs[|jobs| - 1].renderStatus == status then 1 else 0)
  }

  function CompletedFrames(jobs: seq<Job>): int
    decreases |jobs|
  {
    if jobs == [] then 0 else CompletedFrames(jobs[..|jobs| - 1]) + jobs[|jobs| - 1].completedFrames
  }

  /** A job has one status, so the three counts together never exceed the number of jobs. */
  lemma {:induction false} StatusCountsBounded(jobs: seq<Job>)
    ensures StatusCount(jobs, "COMPLETED") + StatusCount(jobs, "FAILED") + StatusCount(jobs, "CANCELLED") <= |jobs|
    decreases |jobs|
  {
    if jobs != [] {
      StatusCountsBounded(jobs[..|jobs| - 1]);
    }
  }

  /** `"{h}h {m}m {s}s"`, leaving out the hours, then the minutes, while they are zero. */
  function DurationText(d: nat): string {
    var h := d / 3600;
    var m := d % 3600 / 60;
    var sec := d % 60;
    (if h > 0 then NatToString(h) + "h " else "")
      + (if m > 0 || h > 0 then NatToString(m) + "m " else "")
      + NatToString(sec) + "s"
  }

  /** A part of a duration text: digits followed by the unit letter. */
  function UnitValue(p: string, u: char): Option<nat> {
    if |p| >= 2 && p[|p| - 1] == u && AllDigits(p[..|p| - 1]) then Some(ParseNat(p[..|p| - 1])) else None
  }

  /** Reads a duration text back into seconds. */
  function ParseDuration(t: string): Option<nat> {
    ParseUnits(SplitOn(t, ' '))
  }

  /** Reads the space-separated parts of a duration text: seconds last, minutes and hours before. */
  function ParseUnits(parts: seq<string>): Option<nat> {
    var n := |parts|;
    if n == 0 then None
    else
    var sec := UnitValue(parts[n - 1], 's');
    var min := if n >= 2 then UnitValue(parts[n - 2], 'm') else Some(0);
    var hrs := if n == 3 then UnitValue(parts[0], 'h') else Some(0);
    if n <= 3 && sec.Some? && min.Some? && hrs.Some? then Some(hrs.value * 3600 + min.value * 60 + sec.value)
    else None
  }

  /** `os.path.basename(bpy.data.filepath) or "Untitled.blend"`. */
  function BlendName(path: string): (r: string)
    ensures r != ""
  {
    if Basename(path) == "" then UNTITLED else Basename(path)
  }

  /** The summary of a run over `jobs`. */
  function RunSummary(jobs: seq<Job>, elapsed: nat, blendPath: string): Summary {
    Summary(|jobs|, StatusCount(jobs, "COMPLETED"), StatusCount(jobs, "FAILED"),
            CompletedFrames(jobs), DurationText(elapsed), BlendName(blendPath))
  }

  /** `finish`: the timer goes, rendering ends, the summary is stored, and SUCCESS unless stopped. */
  function Finished(s: Sup, elapsed: nat, blendPath: string): Sup {
    var c := Succeeded(Closed(s));
    if |s.b.jobs| > 0 then c.(b := c.b.(summary := RunSummary(s.b.jobs, elapsed, blendPath))) else c
  }

  /** The timer stopped and rendering over. */
  function Closed(s: Sup): Sup {
    Sup(s.m.(timerActive := false), s.b.(isRendering := false))
  }

  /** SUCCESS recorded unless the run was stopped. */
  function Succeeded(s: Sup): Sup {
    if s.m.stop then s
    else s.(b := s.b.(lastRenderStatus := "SUCCESS", lastRenderMessage := "Finished successfully"))
  }

  /** The four sums of `finish`, one pass over the jobs. */
  datatype JobCounts = JobCounts(successful: nat, failed: nat, cancelled: nat, frames: int)

  method CountJobs(jobs: seq<Job>) returns (c: JobCounts)
    ensures c == JobCounts(StatusCount(jobs, "COMPLETED"), StatusCount(jobs, "FAILED"),
                           StatusCount(jobs, "CANCELLED"), CompletedFrames(jobs))
  {
    var successful, failed, cancelled, frames := 0, 0, 0, 0;
    for i := 0 to |jobs|
      invariant successful == StatusCount(jobs[..i], "COMPLETED")
      invariant failed == StatusCount(jobs[..i], "FAILED")
      invariant cancelled == StatusCount(jobs[..i], "CANCELLED")
      invariant frames == CompletedFrames(jobs[..i])
    {
      assert jobs[..i + 1][..i] == jobs[..i];
      var j := jobs[i];
      if j.renderStatus == "COMPLETED" {
        successful := successful + 1;
      }
      if j.renderStatus == "FAILED" {
        failed := failed + 1;
      }
      if j.renderStatus == "CANCELLED" {
        cancelled := cancelled + 1;
      }
      frames := frames + j.completedFrames;
    }
    assert jobs[..|jobs|] == jobs;
    return JobCounts(successful, failed, cancelled, frames);
  }

  // ------------------------------------------------------------ a tick

  datatype TickResult = PassThrough | TickCancelled | TickFinished | TickRaised

  /**
   * One call of `modal`. `read` is what the status file gives on this tick,
   * `exited` whether `poll()` found the worker gone, `showNotifications`
   * the preference of that name.
   */
  datatype TickInput = TickInput(isTimer: bool, read: StatusRead, exited: bool, previewLoaded: bool,
                                 elapsed: nat, blendPath: string, showNotifications: bool)

  datatype Ticked = Ticked(sup: Sup, result: TickResult)

  /** The notifications a tick with a worker process sends: those of the status file it reads. */
  function PollNotices(t: TickInput): seq<(string, string)> {
    if t.read.StatusFile? then ErrorNotices(t.read.status, t.showNotifications) else []
  }

  /** The notifications of one `modal` call: only a timer tick that polls a worker reads the status. */
  function TickNotices(s: Sup, t: TickInput): seq<(string, string)> {
    if t.isTimer && !Requested(s).m.stop && s.m.hasProcess then PollNotices(t) else []
  }

  /** A requested stop becomes the operator's own flag. */
  function Requested(s: Sup): Sup {
    if s.b.stopRequested then Sup(s.m.(stop := true), s.b.(stopRequested := false)) else s
  }

  /**
   * `modal`. Without a worker process the status is not read and `poll()`
   * on `None` raises.
   */
  function Tick(s: Sup, t: TickInput): Ticked {
    if !t.isTimer then Ticked(s, PassThrough)
    else
      var s1 := Requested(s);
      if s1.m.stop then Ticked(Cancelled(s1, t), TickCancelled)
      else if !s1.m.hasProcess then Ticked(s1, TickRaised)
      else Polled(s1, t)
  }

  /** A stopped batch: the worker, if any, is killed and the run finished. */
  function Cancelled(s: Sup, t: TickInput): Sup {
    Finished(s.(m := s.m.(killed := s.m.killed || s.m.hasProcess)), t.elapsed, t.blendPath)
  }

  /** A tick with a worker: the status file, if readable, is taken in; an exited worker finishes the run. */
  function Polled(s: Sup, t: TickInput): Ticked {
    var s2 := if t.read.StatusFile? then ApplyStatus(s, t.read.status, t.previewLoaded) else s;
    if t.exited then Ticked(Finished(s2, t.elapsed, t.blendPath), TickFinished)
    else Ticked(s2, PassThrough)
  }

  // ---------------------------------------------------------- execute

  datatype ExecResult = ExecCancelled | RunningModal

  function ResetJob(j: Job): Job {
    j.(completedFrames := 0, totalFrames := 0)
  }

  function ResetProgress(jobs: seq<Job>): (r: seq<Job>)
    ensures |r| == |jobs|
  {
    seq(|jobs|, i requires 0 <= i < |jobs| => ResetJob(jobs[i]))
  }

  datatype Launch = Launch(sup: Sup, result: ExecResult)

  /**
   * `execute`: an empty queue or an unsaved file cancels; otherwise the
   * progress is reset and the worker started.
   */
  function Launched(s: Sup, blendPath: string, tempDir: string, now: int): Launch {
    if |s.b.jobs| == 0 then Launch(s, ExecCancelled)
    else
      var s1 := s.(m := s.m.(lastFinishedFrames := -1));
      if blendPath == "" then Launch(s1, ExecCancelled)
      else Launch(Started(s1, tempDir, now), RunningModal)
  }

  /** A started run: progress reset, the worker running and the timer on. */
  function Started(s: Sup, tempDir: string, now: int): Sup {
    Announced(Armed(BoardReset(s), tempDir, now))
  }

  /** The progress of every job and of the batch cleared, the preview and the pause flag off. */
  function BoardReset(s: Sup): Sup {
    Cleared(JobsReset(s))
  }

  function JobsReset(s: Sup): Sup {
    s.(b := s.b.(jobs := ResetProgress(s.b.jobs)))
  }

  function Cleared(s: Sup): Sup {
    s.(b := s.b.(finishedFramesCount := 0, hasPreviewImage := false, isPaused := false))
  }

  /** The operator's fields once the worker is started: paths in `tempDir`, start time `now`, timer on. */
  function Armed(s: Sup, tempDir: string, now: int): Sup {
    s.(m := s.m.(previews := [], manifestFile := Some(PathJoin(tempDir, MANIFEST_FILENAME)),
                 statusFile := Some(PathJoin(tempDir, STATUS_FILENAME)), hasProcess := true,
                 startTime := Some(now), timerActive := true))
  }

  /** The board shows a run in progress over all the jobs. */
  function Announced(s: Sup): Sup {
    s.(b := s.b.(isRendering := true, totalJobsCount := |s.b.jobs|, progressMessage := STARTING_MESSAGE))
  }

  /** The files after a started `execute`: no pause signal, and the manifest of `jobs`. */
  function FilesAfterExecute(files: map<string, Content>, jobs: seq<Job>, globalOutput: string,
                             useCustom: bool, tempDir: string, now: int): map<string, Content>
  {
    (files - {PathJoin(tempDir, PAUSE_SIGNAL_FILENAME)})[PathJoin(tempDir, MANIFEST_FILENAME) :=
      Parsed(DocObject(StateRecord(Some(now), globalOutput, useCustom, jobs)))]
  }

  /** Removes a stale pause signal and saves the manifest of the queue as it now is. */
  method WriteManifest(s: Settings, disk: Disk, tempDir: string, now: int)
    modifies disk
    ensures disk.files == FilesAfterExecute(old(disk.files), s.jobs, s.globalOutputPath,
                                            s.useCustomOutputPath, tempDir, now)
  {
    var pauseFile := PathJoin(tempDir, PAUSE_SIGNAL_FILENAME);
    if pauseFile in disk.files {
      disk.files := disk.files - {pauseFile};
    }
    SaveState(s, disk, PathJoin(tempDir, MANIFEST_FILENAME), now);
  }

  // ------------------------------------------------------- the class

  class BatchRender {
    var stop: bool
    var lastFinishedFrames: int
    var hasProcess: bool
    var killed: bool
    var timerActive: bool
    var manifestFile: Option<string>
    var statusFile: Option<string>
    var startTime: Option<int>
    var previews: seq<string>
    /** The error notifications sent on ticks, (title, message) in order; not part of `State`. */
    var notifications: seq<(string, string)>

    function State(s: Settings): Sup
      reads this, s
    {
      Sup(Monitor(stop, lastFinishedFrames, hasProcess, killed, timerActive, manifestFile, statusFile,
                  startTime, previews),
          BoardOf(s))
    }

    /** A new operator instance, with the class defaults. */
    constructor()
      ensures !stop && lastFinishedFrames == -1 && !hasProcess && !killed && !timerActive
      ensures manifestFile.None? && statusFile.None? && startTime.None? && previews == []
      ensures notifications == []
    {
      stop := false;
      lastFinishedFrames := -1;
      hasProcess := false;
      killed := false;
      timerActive := false;
      manifestFile := None;
      statusFile := None;
      startTime := None;
      previews := [];
      notifications := [];
    }

    /** The loop over `settings.jobs` that copies the per-job arrays. */
    method MirrorJobs(s: Settings, d: StatusDict)
      modifies s`jobs
      ensures State(s) == JobsMirrored(old(State(s)), d)
    {
      ghost var jobs := s.jobs;
      var i := 0;
      while i < |s.jobs|
        invariant |s.jobs| == |jobs| && 0 <= i <= |jobs|
        invariant forall k :: 0 <= k < i ==> s.jobs[k] == MirrorJob(jobs[k], k, d)
        invariant forall k :: i <= k < |jobs| ==> s.jobs[k] == jobs[k]
      {
        s.jobs := s.jobs[i := MirrorJob(s.jobs[i], i, d)];
        i := i + 1;
      }
    }

    method UpdatePreview(s: Settings, path: string, loaded: bool)
      modifies this`previews, s`hasPreviewImage
      ensures State(s) == Previewed(old(State(s)), path, loaded)
    {
      if loaded {
        previews := previews + [path];
        s.hasPreviewImage := true;
      }
    }

    /** The message, the pause flag and the estimate from a status file. */
    method CopyText(s: Settings, d: StatusDict)
      modifies s`progressMessage, s`isPaused, s`etr
      ensures State(s) == old(State(s)).(b := TextCopied(old(State(s)).b, d))
    {
      s.progressMessage := d.message.GetOr(DEFAULT_PROGRESS_MESSAGE);
      s.isPaused := PauseAfter(s.isPaused, d.message.GetOr(""));
      s.etr := d.etr.GetOr(s.etr);
    }

    /** The frame counters from a status file. */
    method CopyFrames(s: Settings, d: StatusDict)
      modifies s`finishedFramesCount, s`totalFramesToRender
      ensures State(s) == old(State(s)).(b := FramesCopied(old(State(s)).b, d))
    {
      s.finishedFramesCount := d.finishedFrames.GetOr(s.finishedFramesCount);
      s.totalFramesToRender := d.totalFrames.GetOr(s.totalFramesToRender);
    }

    /** The job index and the job count from a status file. */
    method CopyPlace(s: Settings, d: StatusDict)
      modifies s`currentJobIndex, s`totalJobsCount
      ensures State(s) == old(State(s)).(b := PlaceCopied(old(State(s)).b, d))
    {
      if d.jobIndex.Some? {
        s.currentJobIndex := d.jobIndex.value - 1;     // the worker counts from 1
      }
      s.totalJobsCount := d.totalJobs.GetOr(s.totalJobsCount);
    }

    /** A truthy error stops the batch and, when notifications are on, is shown on the desktop. */
    method NoteError(s: Settings, d: StatusDict, showNotifications: bool)
      modifies this`stop, this`notifications
      ensures State(s) == ErrorNoted(old(State(s)), d)
      ensures notifications == old(notifications) + ErrorNotices(d, showNotifications)
    {
      if ErrorTruthy(d.error) {
        if showNotifications {
          notifications := notifications + [(ERROR_TITLE, ErrorText(d.error))];
        }
        stop := true;
      }
    }

    /** The error flag, the board and the per-job arrays from a status file. */
    method AbsorbStatus(s: Settings, d: StatusDict, showNotifications: bool)
      modifies this`stop, this`notifications
      modifies s`progressMessage, s`isPaused, s`finishedFramesCount, s`totalFramesToRender, s`etr
      modifies s`currentJobIndex, s`totalJobsCount, s`jobs
      ensures State(s) == Absorbed(old(State(s)), d)
      ensures notifications == old(notifications) + ErrorNotices(d, showNotifications)
    {
      CopyText(s, d);
      CopyFrames(s, d);
      CopyPlace(s, d);
      NoteError(s, d, showNotifications);
      MirrorJobs(s, d);
    }

    /** The preview part of reading a status file. */
    method RefreshPreview(s: Settings, d: StatusDict, previewLoaded: bool)
      modifies this`lastFinishedFrames, this`previews, s`hasPreviewImage
      ensures State(s) == Refreshed(old(State(s)), d, previewLoaded)
    {
      var current := d.finishedFrames.GetOr(0);
      if d.lastFrame.Some? && d.lastFrame.value != "" && current > lastFinishedFrames {
        lastFinishedFrames := current;
        UpdatePreview(s, d.lastFrame.value, previewLoaded);
      }
    }

    /** Everything one readable status file changes. */
    method ApplyStatusFile(s: Settings, d: StatusDict, previewLoaded: bool, showNotifications: bool)
      modifies this`stop, this`lastFinishedFrames, this`previews, this`notifications
      modifies s`progressMessage, s`isPaused, s`finishedFramesCount, s`totalFramesToRender, s`etr
      modifies s`currentJobIndex, s`totalJobsCount, s`jobs, s`hasPreviewImage
      ensures State(s) == ApplyStatus(old(State(s)), d, previewLoaded)
      ensures notifications == old(notifications) + ErrorNotices(d, showNotifications)
    {
      AbsorbStatus(s, d, showNotifications);
      RefreshPreview(s, d, previewLoaded);
    }

    /** The summary of the run, the counts taken in one pass over the jobs. */
    static method Summarize(jobs: seq<Job>, elapsed: nat, blendPath: string) returns (sum: Summary)
      ensures sum == RunSummary(jobs, elapsed, blendPath)
    {
      var c := CountJobs(jobs);     // `cancelled` is counted but not stored
      sum := Summary(|jobs|, c.successful, c.failed, c.frames, DurationText(elapsed), BlendName(blendPath));
    }

    /** The summary fields `finish` stores. */
    method StoreSummary(s: Settings, sum: Summary)
      modifies s`summaryTotalJobs, s`summarySuccessfulJobs, s`summaryFailedJobs, s`summaryTotalFrames
      modifies s`summaryRenderTime, s`summaryBlendFile
      ensures State(s) == old(State(s)).(b := old(State(s)).b.(summary := sum))
    {
      s.summaryTotalJobs := sum.totalJobs;
      s.summarySuccessfulJobs := sum.successfulJobs;
      s.summaryFailedJobs := sum.failedJobs;
      s.summaryTotalFrames := sum.totalFrames;
      s.summaryRenderTime := sum.renderTime;
      s.summaryBlendFile := sum.blendFile;
    }

    /** The timer and the rendering flag go. */
    method CloseRun(s: Settings)
      modifies this`timerActive, s`isRendering
      ensures State(s) == Closed(old(State(s)))
    {
      timerActive := false;
      s.isRendering := false;
    }

    /** SUCCESS is recorded unless the run was stopped. */
    method RecordSuccess(s: Settings)
      modifies s`lastRenderStatus, s`lastRenderMessage
      ensures State(s) == Succeeded(old(State(s)))
    {
      if !stop {
        s.lastRenderStatus := "SUCCESS";
        s.lastRenderMessage := "Finished successfully";
      }
    }

    /** `finish`. */
    method FinishRun(s: Settings, elapsed: nat, blendPath: string)
      modifies this`timerActive, s`isRendering, s`summaryTotalJobs, s`summarySuccessfulJobs
      modifies s`summaryFailedJobs, s`summaryTotalFrames, s`summaryRenderTime, s`summaryBlendFile
      modifies s`lastRenderStatus, s`lastRenderMessage
      ensures State(s) == Finished(old(State(s)), elapsed, blendPath)
    {
      CloseRun(s);
      RecordSuccess(s);
      if |s.jobs| > 0 {
        var sum := Summarize(s.jobs, elapsed, blendPath);
        StoreSummary(s, sum);
      }
    }

    /** A requested stop is taken over and the request cleared. */
    method TakeRequest(s: Settings)
      modifies this`stop, s`stopRequested
      ensures State(s) == Requested(old(State(s)))
    {
      if s.stopRequested {
        stop := true;
        s.stopRequested := false;
      }
    }

    /** The stop branch of `modal`. */
    method Cancel(s: Settings, t: TickInput)
      modifies this`killed, this`timerActive, s`isRendering, s`summaryTotalJobs, s`summarySuccessfulJobs
      modifies s`summaryFailedJobs, s`summaryTotalFrames, s`summaryRenderTime, s`summaryBlendFile
      modifies s`lastRenderStatus, s`lastRenderMessage
      ensures State(s) == Cancelled(old(State(s)), t)
    {
      if hasProcess {
        killed := true;
      }
      FinishRun(s, t.elapsed, t.blendPath);
    }

    /** The branch of `modal` with a worker process. */
    method Poll(s: Settings, t: TickInput) returns (r: TickResult)
      modifies this`stop, this`lastFinishedFrames, this`previews, this`timerActive, this`notifications
      modifies s`jobs, s`isRendering, s`isPaused, s`progressMessage, s`etr
      modifies s`currentJobIndex, s`totalJobsCount, s`finishedFramesCount, s`totalFramesToRender
      modifies s`hasPreviewImage, s`summaryTotalJobs, s`summarySuccessfulJobs, s`summaryFailedJobs
      modifies s`summaryTotalFrames, s`summaryRenderTime, s`summaryBlendFile
      modifies s`lastRenderStatus, s`lastRenderMessage
      ensures Ticked(State(s), r) == Polled(old(State(s)), t)
      ensures notifications == old(notifications) + PollNotices(t)
    {
      if t.read.StatusFile? {
        ApplyStatusFile(s, t.read.status, t.previewLoaded, t.showNotifications);
      }
      if t.exited {
        FinishRun(s, t.elapsed, t.blendPath);
        return TickFinished;
      }
      return PassThrough;
    }

    /** `modal`, for one event. */
    method Modal(s: Settings, t: TickInput) returns (r: TickResult)
      modifies this, s`jobs, s`stopRequested, s`isRendering, s`isPaused, s`progressMessage, s`etr
      modifies s`currentJobIndex, s`totalJobsCount, s`finishedFramesCount, s`totalFramesToRender
      modifies s`hasPreviewImage, s`summaryTotalJobs, s`summarySuccessfulJobs, s`summaryFailedJobs
      modifies s`summaryTotalFrames, s`summaryRenderTime, s`summaryBlendFile
      modifies s`lastRenderStatus, s`lastRenderMessage
      ensures Ticked(State(s), r) == Tick(old(State(s)), t)
      ensures notifications == old(notifications) + TickNotices(old(State(s)), t)
    {
      if !t.isTimer {
        return PassThrough;
      }
      TakeRequest(s);
      if stop {
        Cancel(s, t);
        return TickCancelled;
      }
      if !hasProcess {
        return TickRaised;
      }
      r := Poll(s, t);
    }

    /** The loop that clears the per-job progress before a run. */
    method ResetJobs(s: Settings)
      modifies s`jobs
      ensures State(s) == JobsReset(old(State(s)))
    {
      ghost var jobs := s.jobs;
      for i := 0 to |s.jobs|
        invariant |s.jobs| == |jobs|
        invariant forall k :: 0 <= k < i ==> s.jobs[k] == ResetJob(jobs[k])
        invariant forall k :: i <= k < |jobs| ==> s.jobs[k] == jobs[k]
      {
        s.jobs := s.jobs[i := ResetJob(s.jobs[i])];
      }
    }

    /** The progress of every job and of the batch cleared before a run. */
    method ResetBoard(s: Settings)
      modifies s`jobs, s`finishedFramesCount, s`hasPreviewImage, s`isPaused
      ensures State(s) == BoardReset(old(State(s)))
    {
      ResetJobs(s);
      ClearCounters(s);
    }

    /** The batch's frame count, the preview and the pause flag cleared. */
    method ClearCounters(s: Settings)
      modifies s`finishedFramesCount, s`hasPreviewImage, s`isPaused
      ensures State(s) == Cleared(old(State(s)))
    {
      s.finishedFramesCount := 0;
      s.hasPreviewImage := false;
      s.isPaused := false;
    }

    /** The operator's fields set for a started worker. */
    method Arm(s: Settings, tempDir: string, now: int)
      modifies this`previews, this`manifestFile, this`statusFile, this`hasProcess, this`startTime
      modifies this`timerActive
      ensures State(s) == Armed(old(State(s)), tempDir, now)
    {
      previews := [];
      manifestFile := Some(PathJoin(tempDir, MANIFEST_FILENAME));
      statusFile := Some(PathJoin(tempDir, STATUS_FILENAME));
      hasProcess := true;
      startTime := Some(now);
      timerActive := true;
    }

    /** The board switched to a running batch. */
    method Announce(s: Settings)
      modifies s`isRendering, s`totalJobsCount, s`progressMessage
      ensures State(s) == Announced(old(State(s)))
    {
      s.isRendering := true;
      s.totalJobsCount := |s.jobs|;
      s.progressMessage := STARTING_MESSAGE;
    }

    /** The part of `execute` after the checks: reset, write the manifest, start the worker. */
    method StartRun(s: Settings, disk: Disk, tempDir: string, now: int)
      modifies this`previews, this`manifestFile, this`statusFile, this`hasProcess, this`startTime
      modifies this`timerActive, disk, s`jobs, s`finishedFramesCount, s`hasPreviewImage, s`isPaused
      modifies s`isRendering, s`totalJobsCount, s`progressMessage
      ensures State(s) == Started(old(State(s)), tempDir, now)
      ensures disk.files == FilesAfterExecute(old(disk.files), ResetProgress(old(s.jobs)), s.globalOutputPath,
                                              s.useCustomOutputPath, tempDir, now)
    {
      ResetBoard(s);
      WriteManifest(s, disk, tempDir, now);
      Arm(s, tempDir, now);
      Announce(s);
    }

    /** `execute`, with the manifest and the pause signal in `disk`. */
    method Execute(s: Settings, disk: Disk, blendPath: string, tempDir: string, now: int)
      returns (r: ExecResult)
      modifies this, disk, s`jobs, s`finishedFramesCount, s`hasPreviewImage, s`isPaused
      modifies s`isRendering, s`totalJobsCount, s`progressMessage
      ensures Launch(State(s), r) == Launched(old(State(s)), blendPath, tempDir, now)
      ensures disk.files == if r == RunningModal
        then FilesAfterExecute(old(disk.files), ResetProgress(old(s.jobs)), s.globalOutputPath, s.useCustomOutputPath, tempDir, now)
        else old(disk.files)
    {
      if |s.jobs| == 0 {
        return ExecCancelled;
      }
      lastFinishedFrames := -1;
      if blendPath == "" {
        return ExecCancelled;
      }
      StartRun(s, disk, tempDir, now);
      return RunningModal;
    }
  }
}
