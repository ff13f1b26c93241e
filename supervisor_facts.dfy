/**
 * What the render operator's tick, status reading, finish and execute
 * promise, stated over the functions of `Supervisor`.
 */
module SupervisorFacts {
  import opened Wrappers
  import opened Strings
  import opened Properties
  import opened Supervisor
  import opened Constants

  // ------------------------------------------------------------- ticks

  /** Events other than the timer change nothing and pass through. */
  lemma OtherEventsPassThrough(s: Sup, t: TickInput)
    requires !t.isTimer
    ensures Tick(s, t) == Ticked(s, PassThrough)
  {
  }

  /**
   * Which result a timer tick returns: cancelled exactly when a stop is
   * set or requested, raised exactly when there is no worker otherwise,
   * finished exactly when the worker has exited otherwise.
   */
  lemma TickOutcomes(s: Sup, t: TickInput)
    requires t.isTimer
    ensures Tick(s, t).result == TickCancelled <==> s.m.stop || s.b.stopRequested
    ensures Tick(s, t).result == TickRaised <==> !s.m.stop && !s.b.stopRequested && !s.m.hasProcess
    ensures Tick(s, t).result == TickFinished
        <==> !s.m.stop && !s.b.stopRequested && s.m.hasProcess && t.exited
    ensures Tick(s, t).result == PassThrough
        <==> !s.m.stop && !s.b.stopRequested && s.m.hasProcess && !t.exited
    ensures !Tick(s, t).sup.b.stopRequested
  {
  }

  /** A run ends, by cancel or by the worker's exit, with rendering off and the timer gone. */
  lemma EndedRunsAreClosed(s: Sup, t: TickInput)
    requires Tick(s, t).result in {TickCancelled, TickFinished}
    ensures !Tick(s, t).sup.b.isRendering && !Tick(s, t).sup.m.timerActive
  {
  }

  /**
   * A stop request on a timer tick kills the worker if there is one and
   * finishes the run without recording success.
   */
  lemma StopRequestCancels(s: Sup, t: TickInput)
    requires t.isTimer && s.b.stopRequested
    ensures Tick(s, t).result == TickCancelled
    ensures Tick(s, t).sup.m.stop && !Tick(s, t).sup.b.stopRequested
    ensures Tick(s, t).sup.m.killed == (s.m.killed || s.m.hasProcess)
    ensures Tick(s, t).sup.b.lastRenderStatus == s.b.lastRenderStatus
    ensures Tick(s, t).sup.b.lastRenderMessage == s.b.lastRenderMessage
    ensures Tick(s, t).sup.b.jobs == s.b.jobs
  {
  }

  /** A tick that finds no readable status file leaves a running batch as it was. */
  lemma UnreadableSkipped(s: Sup, t: TickInput)
    requires t.isTimer && !t.read.StatusFile? && !t.exited
    requires !s.m.stop && !s.b.stopRequested && s.m.hasProcess
    ensures Tick(s, t) == Ticked(s, PassThrough)
  {
  }

  // ------------------------------------------------------ the pause flag

  /** A message with neither a 'P' nor an 'R' leaves the pause flag alone. */
  lemma PauseUntouched(paused: bool, msg: string)
    requires 'P' !in msg && 'R' !in msg
    ensures PauseAfter(paused, msg) == paused
  {
    if Contains(msg, "Paused") {
      ContainsFirstChar(msg, "Paused");
    }
    if Contains(msg, "Resuming") {
      ContainsFirstChar(msg, "Resuming");
    }
    if Contains(msg, "Rendering") {
      ContainsFirstChar(msg, "Rendering");
    }
  }

  /** Whatever precedes it, a message containing "Paused" sets the flag. */
  lemma PausedAnywhere(paused: bool, prefix: string, rest: string)
    ensures PauseAfter(paused, prefix + "Paused" + rest)
  {
    assert StartsWith("Paused" + rest, "Paused") by {
      assert ("Paused" + rest)[..6] == "Paused";
    }
    assert prefix + "Paused" + rest == prefix + ("Paused" + rest);
    ContainsInTail(prefix, "Paused" + rest, "Paused");
  }

  /** The pause flag after a message depends only on the message once any of the three words occurs. */
  lemma PauseAfterDecided(p: bool, q: bool, msg: string)
    requires Contains(msg, "Paused") || Contains(msg, "Resuming") || Contains(msg, "Rendering")
    ensures PauseAfter(p, msg) == PauseAfter(q, msg)
  {
  }

  /** Reading the same message twice sets the flag as reading it once does. */
  lemma PauseAfterIdempotent(paused: bool, msg: string)
    ensures PauseAfter(PauseAfter(paused, msg), msg) == PauseAfter(paused, msg)
  {
  }

  // ------------------------------------------------ one status file read

  /** A job beyond all three per-job arrays is left as it is. */
  lemma MirrorBeyondArrays(j: Job, i: nat, d: StatusDict)
    requires i >= |d.jobStatuses| && i >= |d.jobProgress| && i >= |d.jobTimings|
    ensures MirrorJob(j, i, d) == j
  {
  }

  /**
   * Mirroring job `i` touches only its status, its frame counts and its
   * times; a start or end time is only ever replaced by a positive one.
   */
  lemma MirrorTouchesProgressOnly(j: Job, i: nat, d: StatusDict)
    ensures MirrorJob(j, i, d).(renderStatus := j.renderStatus, completedFrames := j.completedFrames,
                                totalFrames := j.totalFrames, startTime := j.startTime,
                                endTime := j.endTime) == j
    ensures MirrorJob(j, i, d).renderStatus
        == if i < |d.jobStatuses| then d.jobStatuses[i] else j.renderStatus
    ensures MirrorJob(j, i, d).startTime != j.startTime ==> MirrorJob(j, i, d).startTime > 0
    ensures MirrorJob(j, i, d).endTime != j.endTime ==> MirrorJob(j, i, d).endTime > 0
    ensures i < |d.jobProgress| && d.jobProgress[i].ProgressDict? ==>
      MirrorJob(j, i, d).completedFrames == d.jobProgress[i].done.GetOr(0)
      && MirrorJob(j, i, d).totalFrames == d.jobProgress[i].total.GetOr(0)
    ensures !(i < |d.jobProgress| && d.jobProgress[i].ProgressDict?) ==>
      MirrorJob(j, i, d).completedFrames == j.completedFrames && MirrorJob(j, i, d).totalFrames == j.totalFrames
  {
  }

  lemma MirrorJobIdempotent(j: Job, i: nat, d: StatusDict)
    ensures MirrorJob(MirrorJob(j, i, d), i, d) == MirrorJob(j, i, d)
  {
  }

  lemma MirroredIdempotent(jobs: seq<Job>, d: StatusDict)
    ensures Mirrored(Mirrored(jobs, d), d) == Mirrored(jobs, d)
  {
    var once := Mirrored(jobs, d);
    forall i | 0 <= i < |jobs|
      ensures Mirrored(once, d)[i] == once[i]
    {
      MirrorJobIdempotent(jobs[i], i, d);
    }
  }

  /**
   * What a readable status file does to the state: the job index comes
   * back 0-based, the counters follow the keys present, a truthy error
   * stops the batch, a stop is never undone, and the worker, the kill,
   * the timer, the run flags and the outcome are untouched.
   */
  lemma ApplyStatusMeaning(s: Sup, d: StatusDict, previewLoaded: bool)
    ensures ApplyStatus(s, d, previewLoaded).b.currentJobIndex
        == if d.jobIndex.Some? then d.jobIndex.value - 1 else s.b.currentJobIndex
    ensures ApplyStatus(s, d, previewLoaded).b.finishedFramesCount == d.finishedFrames.GetOr(s.b.finishedFramesCount)
    ensures ApplyStatus(s, d, previewLoaded).b.progressMessage == d.message.GetOr(DEFAULT_PROGRESS_MESSAGE)
    ensures ApplyStatus(s, d, previewLoaded).m.stop <==> s.m.stop || ErrorTruthy(d.error)
    ensures ApplyStatus(s, d, previewLoaded).b.jobs == Mirrored(s.b.jobs, d)
    ensures ApplyStatus(s, d, previewLoaded).m.(stop := s.m.stop, lastFinishedFrames := s.m.lastFinishedFrames,
                                                previews := s.m.previews) == s.m
    ensures ApplyStatus(s, d, previewLoaded).b.(jobs := s.b.jobs, progressMessage := s.b.progressMessage,
        isPaused := s.b.isPaused, finishedFramesCount := s.b.finishedFramesCount,
        totalFramesToRender := s.b.totalFramesToRender, etr := s.b.etr, currentJobIndex := s.b.currentJobIndex,
        totalJobsCount := s.b.totalJobsCount, hasPreviewImage := s.b.hasPreviewImage) == s.b
  {
  }

  /**
   * A status file sends at most one notification: "RenderCue Error" with
   * the error as `str` prints it, exactly when notifications are on and
   * the error is truthy, and then the batch is stopped as well.
   */
  lemma ErrorNoticeMeaning(s: Sup, d: StatusDict, previewLoaded: bool, showNotifications: bool)
    ensures |ErrorNotices(d, showNotifications)| <= 1
    ensures ErrorNotices(d, showNotifications) != [] <==> showNotifications && ErrorTruthy(d.error)
    ensures ErrorNotices(d, showNotifications) != [] ==>
      && ErrorNotices(d, showNotifications)[0].0 == "RenderCue Error"
      && ErrorNotices(d, showNotifications)[0].1 == (if d.error.ErrorString? then d.error.text else "True")
      && ApplyStatus(s, d, previewLoaded).m.stop
  {
  }

  /**
   * The preview only changes for a newer finished count and a non-empty
   * frame path, and then by the one frame, if its image loaded.
   */
  lemma PreviewOnlyNewer(s: Sup, d: StatusDict, previewLoaded: bool)
    ensures ApplyStatus(s, d, previewLoaded).m.previews
        == if Refreshes(s.m.lastFinishedFrames, d) && previewLoaded then s.m.previews + [d.lastFrame.value]
           else s.m.previews
    ensures ApplyStatus(s, d, previewLoaded).m.lastFinishedFrames
        == if Refreshes(s.m.lastFinishedFrames, d) then d.finishedFrames.GetOr(0) else s.m.lastFinishedFrames
    ensures ApplyStatus(s, d, previewLoaded).b.hasPreviewImage
        == (s.b.hasPreviewImage || (Refreshes(s.m.lastFinishedFrames, d) && previewLoaded))
  {
  }

  /** Reading an unchanged status file again changes nothing: no second preview, no other effect. */
  lemma ReReadChangesNothing(s: Sup, d: StatusDict, first: bool, second: bool)
    ensures ApplyStatus(ApplyStatus(s, d, first), d, second) == ApplyStatus(s, d, first)
  {
    var a := Absorbed(s, d);
    var s1 := ApplyStatus(s, d, first);
    assert s1.m.lastFinishedFrames == (if Refreshes(s.m.lastFinishedFrames, d) then d.finishedFrames.GetOr(0)
                                       else s.m.lastFinishedFrames);
    assert !Refreshes(s1.m.lastFinishedFrames, d);
    MirroredIdempotent(s.b.jobs, d);
    PauseAfterIdempotent(s.b.isPaused, d.message.GetOr(""));
    var a2 := Absorbed(s1, d);
    assert a2.b == s1.b;
    assert a2.m == s1.m;
  }

  // ------------------------------------------------------------ finish

  /** Digits followed by a unit letter read back as the number the digits spell. */
  lemma UnitDigits(ds: string, u: char)
    requires ds != [] && AllDigits(ds) && !IsDigit(u)
    ensures UnitValue(ds + [u], u) == Some(ParseNat(ds))
  {
    var p := ds + [u];
    assert p[..|p| - 1] == ds;
  }

  lemma NoSpaceInUnit(n: nat, u: char)
    requires u != ' '
    ensures ' ' !in NatToString(n) + [u]
  {
    NonDigitAbsent(NatToString(n), ' ');
  }

  lemma DurationArith(d: nat)
    ensures (d / 3600) * 3600 + (d % 3600 / 60) * 60 + d % 60 == d
    ensures d / 3600 == 0 ==> (d % 3600 / 60) * 60 + d % 60 == d
    ensures d / 3600 == 0 && d % 3600 / 60 == 0 ==> d % 60 == d
  {
    var r := d % 3600;
    assert d == (d / 3600) * 3600 + r;
    assert r == (r / 60) * 60 + r % 60;
    assert r % 60 == d % 60 by {
      assert d == ((d / 3600) * 60 + r / 60) * 60 + r % 60;
    }
  }

  /** Splitting three space-free parts joined by single spaces gives them back. */
  lemma SplitThreeUnits(a: string, b: string, c: string)
    requires ' ' !in a && ' ' !in b && ' ' !in c
    ensures SplitOn(a + [' '] + (b + [' '] + c), ' ') == [a, b, c]
  {
    SplitOnFirst(a, ' ', b + [' '] + c);
    SplitTwoUnits(b, c);
  }

  lemma SplitTwoUnits(b: string, c: string)
    requires ' ' !in b && ' ' !in c
    ensures SplitOn(b + [' '] + c, ' ') == [b, c]
  {
    SplitOnFirst(b, ' ', c);
  }

  /** The parts of a duration text, split at the spaces. */
  lemma DurationParts(d: nat)
    ensures var h, m, sec := d / 3600, d % 3600 / 60, d % 60;
      SplitOn(DurationText(d), ' ')
        == if h > 0 then [NatToString(h) + "h", NatToString(m) + "m", NatToString(sec) + "s"]
           else if m > 0 then [NatToString(m) + "m", NatToString(sec) + "s"]
           else [NatToString(sec) + "s"]
  {
    var h, m, sec := d / 3600, d % 3600 / 60, d % 60;
    var hs, ms, ss := NatToString(h) + "h", NatToString(m) + "m", NatToString(sec) + "s";
    NoSpaceInUnit(h, 'h');
    NoSpaceInUnit(m, 'm');
    NoSpaceInUnit(sec, 's');
    if h > 0 {
      assert DurationText(d) == hs + [' '] + (ms + [' '] + ss);
      SplitThreeUnits(hs, ms, ss);
    } else if m > 0 {
      assert DurationText(d) == ms + [' '] + ss;
      SplitTwoUnits(ms, ss);
    } else {
      assert DurationText(d) == ss;
    }
  }

  /** The render time stored in the summary reads back as the whole seconds it was made from. */
  lemma DurationRoundTrip(d: nat)
    ensures ParseDuration(DurationText(d)) == Some(d)
  {
    if d / 3600 > 0 {
      HoursRoundTrip(d);
    } else if d % 3600 / 60 > 0 {
      MinutesRoundTrip(d);
    } else {
      SecondsRoundTrip(d);
    }
  }

  lemma HoursRoundTrip(d: nat)
    requires d / 3600 > 0
    ensures ParseDuration(DurationText(d)) == Some(d)
  {
    var h, m, sec := d / 3600, d % 3600 / 60, d % 60;
    var hs, ms, ss := NatToString(h), NatToString(m), NatToString(sec);
    DurationParts(d);
    assert SplitOn(DurationText(d), ' ') == [hs + "h", ms + "m", ss + "s"];
    ParseThreeUnits(hs, ms, ss);
    ParseNatToString(h);
    ParseNatToString(m);
    ParseNatToString(sec);
    DurationArith(d);
  }

  lemma MinutesRoundTrip(d: nat)
    requires d / 3600 == 0 && d % 3600 / 60 > 0
    ensures ParseDuration(DurationText(d)) == Some(d)
  {
    var m, sec := d % 3600 / 60, d % 60;
    var ms, ss := NatToString(m), NatToString(sec);
    DurationParts(d);
    assert SplitOn(DurationText(d), ' ') == [ms + "m", ss + "s"];
    ParseTwoUnits(ms, ss);
    ParseNatToString(m);
    ParseNatToString(sec);
    DurationArith(d);
  }

  lemma SecondsRoundTrip(d: nat)
    requires d / 3600 == 0 && d % 3600 / 60 == 0
    ensures ParseDuration(DurationText(d)) == Some(d)
  {
    var sec := d % 60;
    var ss := NatToString(sec);
    DurationParts(d);
    assert SplitOn(DurationText(d), ' ') == [ss + "s"];
    ParseOneUnit(ss);
    ParseNatToString(sec);
    DurationArith(d);
  }

  /** Hours, minutes and seconds, each as digits with its unit, read back as their total in seconds. */
  lemma ParseThreeUnits(hs: string, ms: string, ss: string)
    requires hs != [] && AllDigits(hs) && ms != [] && AllDigits(ms) && ss != [] && AllDigits(ss)
    ensures ParseUnits([hs + "h", ms + "m", ss + "s"]) == Some(ParseNat(hs) * 3600 + ParseNat(ms) * 60 + ParseNat(ss))
  {
    var parts := [hs + "h", ms + "m", ss + "s"];
    UnitDigits(hs, 'h');
    UnitDigits(ms, 'm');
    UnitDigits(ss, 's');
    assert |parts| == 3 && parts[|parts| - 1] == parts[2] && parts[|parts| - 2] == parts[1];
  }

  lemma ParseTwoUnits(ms: string, ss: string)
    requires ms != [] && AllDigits(ms) && ss != [] && AllDigits(ss)
    ensures ParseUnits([ms + "m", ss + "s"]) == Some(ParseNat(ms) * 60 + ParseNat(ss))
  {
    var parts := [ms + "m", ss + "s"];
    UnitDigits(ms, 'm');
    UnitDigits(ss, 's');
    assert |parts| == 2 && parts[|parts| - 1] == parts[1] && parts[|parts| - 2] == parts[0];
  }

  lemma ParseOneUnit(ss: string)
    requires ss != [] && AllDigits(ss)
    ensures ParseUnits([ss + "s"]) == Some(ParseNat(ss))
  {
    UnitDigits(ss, 's');
  }

  /**
   * `finish`: rendering and the timer end; with jobs, the summary counts
   * them, at most as many succeeded or failed as there are, and its time
   * reads back as `elapsed`; SUCCESS is recorded exactly when the batch
   * was not stopped, the old outcome otherwise.
   */
  lemma FinishSummary(s: Sup, elapsed: nat, blendPath: string)
    ensures !Finished(s, elapsed, blendPath).b.isRendering && !Finished(s, elapsed, blendPath).m.timerActive
    ensures |s.b.jobs| > 0 ==>
      var sum := Finished(s, elapsed, blendPath).b.summary;
      sum.totalJobs == |s.b.jobs| && sum.successfulJobs + sum.failedJobs <= sum.totalJobs
      && sum.successfulJobs == StatusCount(s.b.jobs, "COMPLETED")
      && sum.failedJobs == StatusCount(s.b.jobs, "FAILED")
      && sum.totalFrames == CompletedFrames(s.b.jobs)
      && ParseDuration(sum.renderTime) == Some(elapsed) && sum.blendFile != ""
    ensures |s.b.jobs| == 0 ==> Finished(s, elapsed, blendPath).b.summary == s.b.summary
    ensures !s.m.stop ==> Finished(s, elapsed, blendPath).b.lastRenderStatus == "SUCCESS"
                          && Finished(s, elapsed, blendPath).b.lastRenderMessage == "Finished successfully"
    ensures s.m.stop ==> Finished(s, elapsed, blendPath).b.lastRenderStatus == s.b.lastRenderStatus
                         && Finished(s, elapsed, blendPath).b.lastRenderMessage == s.b.lastRenderMessage
    ensures Finished(s, elapsed, blendPath).b.jobs == s.b.jobs
  {
    StatusCountsBounded(s.b.jobs);
    DurationRoundTrip(elapsed);
  }

  /** Frames of completed jobs add up job by job. */
  lemma {:induction false} CompletedFramesAppend(a: seq<Job>, b: seq<Job>)
    ensures CompletedFrames(a + b) == CompletedFrames(a) + CompletedFrames(b)
    decreases |b|
  {
    if b == [] {
      assert a + b == a;
    } else {
      var b' := b[..|b| - 1];
      assert (a + b)[..|a + b| - 1] == a + b';
      CompletedFramesAppend(a, b');
    }
  }

  /** Counting a status job by job. */
  lemma {:induction false} StatusCountAppend(a: seq<Job>, b: seq<Job>, status: string)
    ensures StatusCount(a + b, status) == StatusCount(a, status) + StatusCount(b, status)
    decreases |b|
  {
    if b == [] {
      assert a + b == a;
    } else {
      var b' := b[..|b| - 1];
      assert (a + b)[..|a + b| - 1] == a + b';
      StatusCountAppend(a, b', status);
    }
  }

  // ----------------------------------------------------------- execute

  /**
   * `execute` on a saved file with jobs starts the worker: every job's
   * frame counts are zero, the batch counters reset, rendering on, the
   * paths in the temp directory; without jobs or without a saved file it
   * cancels and leaves the board as it was.
   */
  lemma ExecuteResets(s: Sup, blendPath: string, tempDir: string, now: int)
    ensures Launched(s, blendPath, tempDir, now).result == RunningModal <==> |s.b.jobs| > 0 && blendPath != ""
    ensures Launched(s, blendPath, tempDir, now).result == ExecCancelled ==>
      Launched(s, blendPath, tempDir, now).sup.b == s.b
    ensures var l := Launched(s, blendPath, tempDir, now);
      l.result == RunningModal ==>
        |l.sup.b.jobs| == |s.b.jobs| == l.sup.b.totalJobsCount
        && (forall i :: 0 <= i < |l.sup.b.jobs| ==>
              l.sup.b.jobs[i].completedFrames == 0 && l.sup.b.jobs[i].totalFrames == 0
              && l.sup.b.jobs[i].(completedFrames := s.b.jobs[i].completedFrames,
                                  totalFrames := s.b.jobs[i].totalFrames) == s.b.jobs[i])
        && l.sup.b.finishedFramesCount == 0 && l.sup.b.isRendering && !l.sup.b.isPaused
        && !l.sup.b.hasPreviewImage && l.sup.m.previews == [] && l.sup.m.hasProcess
        && l.sup.m.lastFinishedFrames == -1
        && l.sup.m.statusFile == Some(PathJoin(tempDir, STATUS_FILENAME))
  {
  }

  /** The first status file after a start always shows the preview, if it carries a frame path. */
  lemma FirstFrameShown(s: Sup, blendPath: string, tempDir: string, now: int, d: StatusDict)
    requires Launched(s, blendPath, tempDir, now).result == RunningModal
    requires d.lastFrame.Some? && d.lastFrame.value != "" && d.finishedFrames.GetOr(0) >= 0
    ensures Refreshes(Launched(s, blendPath, tempDir, now).sup.m.lastFinishedFrames, d)
  {
  }
}
