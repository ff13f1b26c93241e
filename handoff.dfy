/**
 * The status file as the interface between the background worker and the
 * render operator: what the operator makes of the snapshots `log_status`
 * writes. The operator reads the keys the worker writes; the per-job arrays
 * it also looks for are never written by this worker.
 */
module Handoff {
  import opened Wrappers
  import opened Strings
  import opened Properties
  import WorkerStatus
  import opened Supervisor
  import opened SupervisorFacts

  /** The `error` value as JSON keeps it: `None` is null, `True` a boolean, a text a string. */
  function ErrorWritten(e: WorkerStatus.StatusError): ErrorField {
    match e
    case NoError => ErrorNull
    case ErrorFlag => ErrorBool(true)
    case ErrorText(t) => ErrorString(t)
  }

  /** The dictionary the operator parses from one worker snapshot. */
  function Written(st: WorkerStatus.Status): StatusDict {
    StatusDict(Some(st.message), Some(st.etr), Some(st.jobIndex), Some(st.totalJobs),
               Some(st.finishedFrames), Some(st.totalFrames), Some(st.lastFrame),
               ErrorWritten(st.error), [], [], [])
  }

  /** The worker's `None` error never stops the batch; `True` always does; a text does unless empty. */
  lemma ErrorStopsExactly(e: WorkerStatus.StatusError)
    ensures ErrorTruthy(ErrorWritten(e)) <==> e == WorkerStatus.ErrorFlag || (e.ErrorText? && e.text != "")
  {
  }

  /**
   * One worker snapshot read by the operator: the counters and the message
   * are copied, the worker's 1-based index comes back as the 0-based job
   * index it counted from, and no job is touched.
   */
  lemma SnapshotMirrored(s: Sup, st: WorkerStatus.Status, previewLoaded: bool)
    requires st.jobIndex >= 1
    ensures var r := ApplyStatus(s, Written(st), previewLoaded);
      r.b.jobs == s.b.jobs && r.b.currentJobIndex == st.jobIndex - 1 && r.b.currentJobIndex >= 0
      && r.b.finishedFramesCount == st.finishedFrames && r.b.totalFramesToRender == st.totalFrames
      && r.b.totalJobsCount == st.totalJobs && r.b.etr == st.etr && r.b.progressMessage == st.message
  {
    var d := Written(st);
    ApplyStatusMeaning(s, d, previewLoaded);
    forall i | 0 <= i < |s.b.jobs|
      ensures Mirrored(s.b.jobs, d)[i] == s.b.jobs[i]
    {
      MirrorBeyondArrays(s.b.jobs[i], i, d);
    }
  }

  /** The worker's pause handshake: "Paused" sets the flag and "Resuming..." clears it. */
  lemma PauseHandshake(paused: bool)
    ensures PauseAfter(paused, "Paused")
    ensures !PauseAfter(paused, "Resuming...")
  {
    PausedAnywhere(paused, "", "");
    assert "" + "Paused" + "" == "Paused";
    assert StartsWith("Resuming...", "Resuming") by {
      assert "Resuming..."[..8] == "Resuming";
    }
    assert !Contains("Resuming...", "Paused") by {
      PauseUntouchedP("Resuming...");
    }
  }

  lemma PauseUntouchedP(msg: string)
    requires 'P' !in msg
    ensures !Contains(msg, "Paused")
  {
    if Contains(msg, "Paused") {
      ContainsFirstChar(msg, "Paused");
    }
  }

  /**
   * A scene named with "Paused" in it raises the pause flag while the
   * worker renders it: the test looks for the word anywhere in the message.
   */
  lemma SceneNamedPausedShowsPaused(paused: bool, before: string, after: string)
    ensures PauseAfter(paused, "Rendering 1/1: " + before + "Paused" + after + " (Frame 1)")
  {
    var msg := "Rendering 1/1: " + before + "Paused" + after + " (Frame 1)";
    assert msg == ("Rendering 1/1: " + before) + "Paused" + (after + " (Frame 1)");
    PausedAnywhere(paused, "Rendering 1/1: " + before, after + " (Frame 1)");
  }

  /**
   * The worker skips a job whose scene is missing and goes on, but the
   * `True` error it writes makes the operator stop: the next timer tick
   * kills the worker and cancels the whole batch without recording success.
   */
  lemma MissingSceneCancelsBatch(s: Sup, st: WorkerStatus.Status, t1: TickInput, t2: TickInput)
    requires st.error == WorkerStatus.ErrorFlag
    requires !s.m.stop && !s.b.stopRequested && s.m.hasProcess
    requires t1.isTimer && t1.read == StatusFile(Written(st)) && !t1.exited
    requires t2.isTimer
    ensures Tick(s, t1).result == PassThrough && Tick(s, t1).sup.m.stop
    ensures var u := Tick(Tick(s, t1).sup, t2);
      u.result == TickCancelled && u.sup.m.killed && u.sup.b.lastRenderStatus == s.b.lastRenderStatus
  {
    ApplyStatusMeaning(s, Written(st), t1.previewLoaded);
  }

  /**
   * A render error whose text is empty does not stop the operator, although
   * the worker has abandoned the batch; the run then ends when the worker
   * exits and is recorded as a success.
   */
  lemma EmptyRenderErrorReadsAsSuccess(s: Sup, st: WorkerStatus.Status, t: TickInput)
    requires st.error == WorkerStatus.ErrorText("")
    requires !s.m.stop && !s.b.stopRequested && s.m.hasProcess
    requires t.isTimer && t.read == StatusFile(Written(st)) && t.exited
    ensures Tick(s, t).result == TickFinished
    ensures Tick(s, t).sup.b.lastRenderStatus == "SUCCESS"
  {
    var s2 := ApplyStatus(s, Written(st), t.previewLoaded);
    ApplyStatusMeaning(s, Written(st), t.previewLoaded);
    assert Tick(s, t) == Ticked(Finished(s2, t.elapsed, t.blendPath), TickFinished);
    FinishSummary(s2, t.elapsed, t.blendPath);
  }

  /**
   * A worker that exits without writing a status file (its manifest failed
   * to load) is recorded as a success on the tick that sees it gone.
   */
  lemma SilentExitReadsAsSuccess(s: Sup, t: TickInput)
    requires !s.m.stop && !s.b.stopRequested && s.m.hasProcess
    requires t.isTimer && t.read == NoStatusFile && t.exited
    ensures Tick(s, t).result == TickFinished
    ensures Tick(s, t).sup.b.lastRenderStatus == "SUCCESS"
    ensures Tick(s, t).sup.b.jobs == s.b.jobs
  {
    assert Tick(s, t) == Ticked(Finished(s, t.elapsed, t.blendPath), TickFinished);
    FinishSummary(s, t.elapsed, t.blendPath);
  }
}
