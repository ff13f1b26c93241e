# RenderCue render queue, modelled in Dafny

RenderCue is a Blender add-on that keeps a queue of render jobs. Each job names a scene and carries optional overrides: frame range, output path, resolution, samples, format, camera, view layer, and so on. The add-on renders the jobs one after another.

It exists in two generations:

- The older, top-level add-on (`operators.py`, `render.py`, `core.py`, `vse.py`, `vse_sync.py`, `properties.py`) renders inside Blender. It snapshots each scene's settings, applies the job's overrides, renders, and restores the settings.
- The packaged add-on (`rendercue/`) writes the queue to a JSON manifest and starts a background Blender process (`worker.py`). It then follows the worker's status file from a timer.

This project models the logic of both, one Dafny module per source file:

| module | models |
|---|---|
| `Properties`, `LegacyProperties` | jobs and settings: defaults, enum items and bounds |
| `Blender` | scenes, view layers, Eevee settings and strips as values |
| `Constants` | shared file names and defaults |
| `Operators`, `ApplyOverride`, `LegacyOperators` | add, remove and move a job; add all scenes; apply one override to every job; stop, pause and resume |
| `Manifest`, `StateCodec`, `LegacyCodec` | the saved state, the worker manifest and the text block, as records: saving, and loading with per-key defaults |
| `Worker`, `WorkerStatus` | the background worker: frame count, job loop, output naming, pause handling, status snapshots and the estimated time remaining |
| `Supervisor`, `SupervisorFacts`, `Handoff` | the packaged render operator's timer state machine: status mirroring, stop and exit handling, the summary, and how it reads what the worker writes |
| `LegacyRender` | the older in-process sequencer with snapshot and restore of scene settings |
| `Vse`, `VseSync` | laying the queue out as scene strips in the video sequence editor, and rebuilding the queue from those strips |
| `UiHelpers` | scene statistics, quick queue validation, the override summary and the mixed-engine warning |
| `VersionCompat` | version comparison, engine names and lists, Eevee samples, icon renames and the image-format fallback chain |
| `Notifications` | the webhook payload and dispatch, the Blender log line, and the text of the Windows toast |
| `Strings`, `Wrappers` | the Python string behaviour used (decimal formatting, `replace`, `title`, `join`, ordering, POSIX `os.path`), and optional values |

Code that changes state in place is modelled in place:

- the settings, the worker, both render operators and the VSE timeline are classes;
- their methods have `modifies` clauses;
- each method is proved equal to a specification function of the old state;
- the properties of the source are lemmas about those functions.

Pure helpers are functions with named results whose contracts state what the result means.

Anything Blender or the operating system decides is a parameter. This covers:

- whether a file exists or parses;
- what a render produces;
- whole seconds elapsed;
- whether a process has exited;
- whether the worker process has a window (`bpy.context.window`), which a process started with `-b` lacks;
- which attributes a scene exposes;
- which formats an assignment accepts;
- the platform.

## Model

| member | source | states |
|---|---|---|
| Worker.JobFrames | worker.py:55-68 | a job entry that is not an object raises; a job whose scene is absent adds 0; otherwise, with the range override on, the share is the recorded end minus start plus one, raising exactly when a recorded end is missing; with it off, each missing end falls back to the scene's |
| Worker.CountFramesOk | worker.py:55-68 | the frame count completes exactly when no job's share raises |
| Worker.CountFramesStops | worker.py:55-68 | once the count is interrupted by an exception, later jobs change nothing |
| Worker.CountIgnoresOverrideFlag | worker.py:63-67 | with the range override off, the recorded frame keys are still counted, so the pre-count differs from the scene's own range length |
| Worker.Rendered | worker.py:70-127 | the per-frame handlers keep the number of scenes |
| Worker.RenderedSnoc | worker.py:70-138 | one more frame runs the pause check and then the post-frame handler on the state the earlier frames left |
| Worker.RenderedCountsFrames | worker.py:70-71 | each rendered frame adds exactly one to the finished count; job index, job total and frame total stay |
| Worker.FileStem | worker.py:189 | the file stem has the scene name's length and contains no space |
| Worker.WithFrameRange | worker.py:168-170 | raises exactly when the override key is missing, or the override is on and a frame key is missing; on, the scene takes the recorded start and end; off, the scene is unchanged |
| Worker.WithEngine | worker.py:201-202 | raises exactly when the override is on and the engine key is missing; on, the scene takes the recorded engine; off or absent, the scene is unchanged |
| Worker.UseOnly | worker.py:207-208 | every view layer is kept, in order, and used exactly when its name is the given one |
| Worker.WithViewLayer | worker.py:204-208 | raises exactly when the override is on and the layer key is missing; with the override on and a non-empty layer name that the scene has, only that layer is used; otherwise the scene is unchanged |
| Worker.WithResolution | worker.py:210-211 | raises exactly when the override key is missing, or the override is on and the scale key is missing; on, the scene takes the recorded percentage; off, the scene is unchanged |
| Worker.WithFormat | worker.py:213-214 | raises exactly when the override key is missing, or the override is on and the format key is missing; on, the scene takes the recorded format; off, the scene is unchanged |
| Worker.WithSamples | worker.py:216-226 | raises exactly when the override key is missing, or the override applies to the engine and the samples key is missing; Cycles takes the samples as `cycles.samples`, Eevee through the version-dependent Eevee setting, any other engine or an override that is off leaves the scene unchanged |
| Worker.ConfigureOutput | worker.py:172-198 | a configured scene keeps its name and its file path is the output file for the chosen base path, structure and format |
| Worker.ConfigureStages | worker.py:167-226 | a configuration that succeeds had every key it needed, and before the samples it changes exactly the output path, frames, engine, view layers, resolution and format, each as its override says |
| Worker.ConfigureMeaning | worker.py:167-226 | a configured scene keeps its name, camera, objects and pixel size, and has the recorded frames, engine, used view layers, resolution percentage and format where each override is on, and the scene's own otherwise |
| Worker.ConfigureSamples | worker.py:216-226 | a configured scene's samples go to Cycles or to the Eevee setting as the chosen engine says, and stay as they were otherwise |
| Worker.ConfigureWithoutOverrides | worker.py:167-226 | with every override off only the scene's output path changes, to the global directory and the scene's own format |
| Worker.LoopStops | worker.py:156-237 | once the job loop has stopped, later jobs change nothing |
| Worker.BodyNext | worker.py:156-237 | while the job loop goes on, its next pass is the job step of the next job |
| Worker.WalkStep | worker.py:156-237 | a pass that starts where the loop stands leaves it one job further, and a stop there is the stop of the whole loop |
| Worker.OrderlyAppend | worker.py:36-51 | appending a non-pause, unfinished status that is not behind keeps the status log orderly |
| Worker.OrderlyAppendPause | worker.py:132-138 | appending the "Paused"/"Resuming..." pair keeps the status log orderly |
| Worker.LoggedOrderly | worker.py:36-51 | one status write keeps the log orderly and records job number `current_job_index + 1` |
| Worker.PausedOrderly | worker.py:129-138 | the pause check keeps the log orderly and changes no counter, scene or total |
| Worker.PostedOrderly | worker.py:70-127 | one post-frame handler keeps the log orderly, its status carrying the job number and the new frame count |
| Worker.PostedCounters | worker.py:70-127 | one post-frame handler adds exactly one finished frame and keeps the job index, the totals and the number of scenes |
| Worker.RenderingMessageNotPaused | worker.py:126 | a progress message is never the word "Paused" |
| Worker.RenderedOrderly | worker.py:70-138 | rendering a job's frames keeps the log orderly and never lowers the finished count |
| Worker.RenderJobOrderly | worker.py:228-237 | rendering a job keeps the log orderly, keeps the job index, and can stop the run only by a render failure |
| Worker.JobStepOrderly | worker.py:156-237 | one job step keeps the log orderly and its statuses carry job number `i + 1` |
| Worker.NotFoundStepOrderly | worker.py:160-162 | the "not found" status keeps the log orderly and lets the loop go on |
| Worker.RenderStepOrderly | worker.py:228-237 | rendering a configured job keeps the log orderly; a render failure ends the run with its message as the last status |
| Worker.LoopOrderly | worker.py:156-237 | a loop whose steps keep the order ends orderly; a render failure ends with an error status carrying its message |
| Worker.BodyKeepsOrder | worker.py:156-237 | the body of the job loop keeps the status log orderly |
| Worker.FinishedLog | worker.py:239 | after the final status, "finished" holds only in the last entry, every "Paused" is followed by "Resuming..." and job index and frame count never go down |
| Worker.FinishStatuses | worker.py:146-239 | after an orderly job loop, "finished" appears only as the last status of a completed run, which reads "All Jobs Completed", and a render failure's message is the last status |
| Worker.BatchLoop | worker.py:146-237 | the job loop of a fresh worker ends orderly and stops only on a crash or a render failure, whose message is the last status |
| Worker.RunStatuses | worker.py:140-239 | nothing is written exactly when there is no manifest; "finished" appears only as the last status of a completed run, after "All Jobs Completed"; a render failure ends with its error; each "Paused" is followed by "Resuming..."; job index and frame count never go down |
| Worker.HeadlessLoop | worker.py:156-165 | in a process without a window the job loop renders nothing and changes no scene, and it goes on exactly as long as every job names a scene that does not exist; it stops only as a crash |
| Worker.HeadlessRun | worker.py:140-165 | a worker started without a window, as with `-b`, renders no frame and changes no scene; it completes exactly when the manifest parses and no job's scene exists, and otherwise ends without a manifest or crashed |
| Worker.MissingSceneSkipped | worker.py:160-162 | a job whose scene is missing writes exactly one error status "Scene N not found" and the loop goes on |
| Worker.IndexOf | worker.py:248-252 | `list.index`: the first position holding the value, or none when absent |
| Worker.IndexOfAfter | worker.py:248-252 | searching `a + b` for a value absent from `a` finds its position in `b` shifted by `|a|` |
| Worker.ParseArgsOfLaunch | worker.py:242-258 | arguments `... -- --manifest M --status S` give back the paths M and S |
| Worker.LaunchFlags | worker.py:250-252 | after the separator, `--manifest M --status S` gives back M and S |
| Worker.BackgroundWorker.constructor | worker.py:12-23 | a new worker has empty manifest and jobs and all counters 0 |
| Worker.BackgroundWorker.LoadManifest | worker.py:25-34 | succeeds exactly when the file parses; then the jobs are the manifest's and `total_jobs` their number; on failure jobs are unchanged |
| Worker.BackgroundWorker.LogStatus | worker.py:36-53 | appends exactly the snapshot of the current counters |
| Worker.BackgroundWorker.CalculateTotalFrames | worker.py:55-68 | the total and the completion flag are those of the frame count, whose shares `JobFrames` states and whose stop on the first raising share `CountFramesOk` and `CountFramesStops` state |
| Worker.BackgroundWorker.OnRenderPre | worker.py:129-138 | the new state is the pause specification's: "Paused" then "Resuming..." when the file exists, nothing otherwise |
| Worker.BackgroundWorker.OnRenderPost | worker.py:70-127 | the new state is the post-frame specification's |
| Worker.BackgroundWorker.RenderScene | worker.py:232 | the new state is that of the handlers run for each frame in order |
| Worker.BackgroundWorker.RunJob | worker.py:157-237 | the new state and the stop outcome are those of one job step: a missing scene logs and goes on, no window or a raising override crashes, otherwise the configured scene is rendered |
| Worker.BackgroundWorker.RenderConfigured | worker.py:228-237 | the new state and stop outcome are those of rendering the configured scene |
| Worker.BackgroundWorker.WalkJobs | worker.py:156-237 | the new state and stop outcome are those of the job loop over all jobs, which `BatchLoop` and `HeadlessLoop` characterise |
| Worker.BackgroundWorker.NextJob | worker.py:157-237 | one pass leaves the loop one job further, and a pass that stops the run leaves the state of the whole loop |
| Worker.BackgroundWorker.Run | worker.py:140-240 | the new state and outcome are those of the whole batch, whose statuses `RunStatuses` states and whose run without a window `HeadlessRun` states |
| WorkerStatus.SplitTwo | worker.py:83-88 | two digit fields joined by `:` split back into exactly those fields |
| WorkerStatus.SplitThree | worker.py:83-88 | three digit fields joined by `:` split back into exactly those fields |
| WorkerStatus.ClockArith | worker.py:83-84 | the hours, minutes and seconds of `divmod` recompose the seconds, also when the hours are 0 |
| WorkerStatus.ParseLongClock | worker.py:85-86 | a `hh:mm:ss` text reads back as that many seconds |
| WorkerStatus.ParseShortClock | worker.py:87-88 | a `mm:ss` text reads back as that many seconds |
| WorkerStatus.ParseClockText | worker.py:83-88 | the time text of any number of seconds reads back as that number |
| WorkerStatus.ClockTextNotNoEtr | worker.py:75-88 | a formatted time is never the placeholder `--:--` |
| WorkerStatus.PositiveProduct | worker.py:80-82 | the remaining time is positive exactly when elapsed time and remaining frames are |
| WorkerStatus.EtrMeaning | worker.py:74-88 | ETR is a time exactly when finished > 0, total > finished and elapsed > 0, and then it reads back as `elapsed * remaining / finished` truncated |
| Manifest.Disk.constructor | worker.py:27-28 | the disk holds exactly the given files |
| Handoff.ErrorStopsExactly | rendercue/render.py:98-104 | the supervisor stops on a status error exactly when the worker wrote `error=True` or a non-empty error text |
| Handoff.SnapshotMirrored | rendercue/render.py:106-123 | a worker status is mirrored into the settings: job index 1-based to 0-based, frame counts, totals, ETR and message; the jobs stay |
| Handoff.PauseHandshake | rendercue/render.py:90-95 | the worker's "Paused" status sets `is_paused`, its "Resuming..." status clears it |
| Handoff.PauseUntouchedP | rendercue/render.py:92 | a message without the letter P never reads as paused |
| Handoff.SceneNamedPausedShowsPaused | rendercue/render.py:90-95 | a progress message for a scene whose name contains "Paused" sets `is_paused` although the render goes on |
| Handoff.MissingSceneCancelsBatch | rendercue/render.py:98-104 | the worker's `error=True` for a missing scene makes the supervisor stop, and the next tick kills the worker and cancels the whole batch without recording success |
| Handoff.EmptyRenderErrorReadsAsSuccess | rendercue/render.py:98-104 | a render error with empty text does not stop the supervisor, and the run is recorded as SUCCESS when the worker exits |
| Handoff.SilentExitReadsAsSuccess | rendercue/render.py:160-163 | a worker that exits without a status file is recorded as SUCCESS, with the jobs unchanged |
| Supervisor.Mirrored | rendercue/render.py:130-146 | mirroring statuses keeps the number of jobs |
| Supervisor.StatusCountsBounded | rendercue/render.py:278-280 | completed, failed and cancelled jobs together are at most the number of jobs |
| Supervisor.BlendName | rendercue/render.py:302 | the blend-file name shown is never empty ("Untitled.blend" when unsaved) |
| Supervisor.CountJobs | rendercue/render.py:276-281 | the counting loops give the number of COMPLETED, FAILED and CANCELLED jobs and the sum of completed frames |
| Supervisor.ResetProgress | rendercue/render.py:187-189 | resetting progress keeps the number of jobs |
| Supervisor.WriteManifest | rendercue/render.py:206-224 | the disk afterwards holds the manifest written for the current queue and paths, in the temporary directory |
| Supervisor.BatchRender.constructor | rendercue/render.py:55-65 | a new operator has no stop, no process, no files and last-seen frame count -1 |
| Supervisor.BatchRender.MirrorJobs | rendercue/render.py:126-146 | the jobs become those of the per-job mirror of the status |
| Supervisor.BatchRender.UpdatePreview | rendercue/render.py:338-366 | the preview state becomes that of loading the new image |
| Supervisor.BatchRender.CopyText | rendercue/render.py:88-95 | progress message, pause flag and ETR become those read from the status |
| Supervisor.BatchRender.CopyFrames | rendercue/render.py:109-113 | finished and total frame counts become those present in the status |
| Supervisor.BatchRender.CopyPlace | rendercue/render.py:118-123 | current job index (1-based to 0-based) and job total become those present in the status |
| Supervisor.BatchRender.NoteError | rendercue/render.py:98-104 | the stop flag is set exactly when the status carries a truthy error; when notifications are on in the preferences, a "RenderCue Error" notification with the error text is sent as well |
| Supervisor.BatchRender.AbsorbStatus | rendercue/render.py:88-146 | the new state is that of absorbing every field of the status, and the error notification of that status is sent |
| Supervisor.BatchRender.RefreshPreview | rendercue/render.py:150-155 | the preview refreshes as the "only newer frames" specification says |
| Supervisor.BatchRender.ApplyStatusFile | rendercue/render.py:84-158 | the new state is that of applying one read status file, and the notifications sent are that file's error notification |
| Supervisor.BatchRender.Summarize | rendercue/render.py:276-302 | the summary is that of the run-summary specification |
| Supervisor.BatchRender.StoreSummary | rendercue/render.py:296-302 | the settings' summary fields become the given summary and nothing else changes |
| Supervisor.BatchRender.CloseRun | rendercue/render.py:267-274 | the timer is removed and `is_rendering` cleared |
| Supervisor.BatchRender.RecordSuccess | rendercue/render.py:334-336 | the last status becomes SUCCESS with "Finished successfully" |
| Supervisor.BatchRender.FinishRun | rendercue/render.py:261-336 | the new state is that of the `finish` specification |
| Supervisor.BatchRender.TakeRequest | rendercue/render.py:71-73 | a stop request sets the stop flag and clears the request |
| Supervisor.BatchRender.Cancel | rendercue/render.py:75-79 | the worker is killed when running and `finish` runs |
| Supervisor.BatchRender.Poll | rendercue/render.py:82-165 | the new state and tick result are those of polling the worker; an error notification is sent only from a status file that was read |
| Supervisor.BatchRender.Modal | rendercue/render.py:67-165 | the new state and tick result are those of the tick specification; error notifications are sent only on a timer tick that polls a worker without a stop pending |
| Supervisor.BatchRender.ResetJobs | rendercue/render.py:187-189 | every job's completed and total frames become 0 |
| Supervisor.BatchRender.ResetBoard | rendercue/render.py:185-221 | per-job and global frame counts, the preview flag and the pause flag are reset |
| Supervisor.BatchRender.ClearCounters | rendercue/render.py:191-221 | the finished count, the preview flag and the pause flag are cleared |
| Supervisor.BatchRender.Arm | rendercue/render.py:206-258 | manifest and status paths in the temporary directory, a spawned process, the start time and an active timer |
| Supervisor.BatchRender.Announce | rendercue/render.py:250-252 | `is_rendering`, the job total and the starting message are set |
| Supervisor.BatchRender.StartRun | rendercue/render.py:185-259 | the new state is that of starting the run; the disk holds the manifest of the reset queue |
| Supervisor.BatchRender.Execute | rendercue/render.py:167-259 | the new state and result are those of the `execute` specification; the manifest is written only when the run starts |
| SupervisorFacts.OtherEventsPassThrough | rendercue/render.py:69-165 | a non-timer event changes nothing and passes through |
| SupervisorFacts.TickOutcomes | rendercue/render.py:67-165 | a tick cancels exactly on a stop flag or request, raises without a process, finishes exactly when the process exited and passes through otherwise; the request is always cleared |
| SupervisorFacts.EndedRunsAreClosed | rendercue/render.py:261-274 | a cancelled or finished tick leaves `is_rendering` off and no timer |
| SupervisorFacts.StopRequestCancels | rendercue/render.py:71-79 | a stop request cancels: stop set, request cleared, process killed, last status and jobs untouched |
| SupervisorFacts.UnreadableSkipped | rendercue/render.py:156-158 | an unreadable or missing status file while the worker runs changes nothing |
| SupervisorFacts.PauseUntouched | rendercue/render.py:90-95 | a message free of "P" and "R" leaves `is_paused` as it was |
| SupervisorFacts.PausedAnywhere | rendercue/render.py:92-93 | any message containing "Paused" sets `is_paused` |
| SupervisorFacts.PauseAfterDecided | rendercue/render.py:90-95 | a message containing "Paused", "Resuming" or "Rendering" decides `is_paused` whatever it was |
| SupervisorFacts.PauseAfterIdempotent | rendercue/render.py:90-95 | reading the same message twice leaves `is_paused` as reading it once |
| SupervisorFacts.MirrorBeyondArrays | rendercue/render.py:130-146 | a job past the end of all three status arrays is unchanged |
| SupervisorFacts.MirrorTouchesProgressOnly | rendercue/render.py:130-146 | the mirror changes only status, progress and timings; start/end times change only to positive values; progress comes from a dictionary entry with defaults 0 |
| SupervisorFacts.MirrorJobIdempotent | rendercue/render.py:130-146 | mirroring a job twice equals mirroring it once |
| SupervisorFacts.MirroredIdempotent | rendercue/render.py:130-146 | mirroring the whole queue twice equals mirroring it once |
| SupervisorFacts.ErrorNoticeMeaning | rendercue/render.py:98-104 | a status file sends at most one notification, titled "RenderCue Error" and carrying the error text (or `True`), exactly when notifications are on and the error is truthy, and the batch then stops |
| SupervisorFacts.ApplyStatusMeaning | rendercue/render.py:88-146 | the job index becomes `job_index - 1`, frames and message come from the status (message default), stop is set by a truthy error, the jobs are mirrored, and nothing else changes |
| SupervisorFacts.PreviewOnlyNewer | rendercue/render.py:150-155 | the preview refreshes, and the last-seen count moves, only for a non-empty frame path with a strictly larger finished count |
| SupervisorFacts.ReReadChangesNothing | rendercue/render.py:84-158 | applying the same status file twice equals applying it once |
| SupervisorFacts.UnitDigits | rendercue/render.py:289-294 | digits followed by their unit letter read back as the number the digits spell |
| SupervisorFacts.ParseThreeUnits | rendercue/render.py:289-294 | `Hh Mm Ss` reads back as `H*3600 + M*60 + S` |
| SupervisorFacts.ParseTwoUnits | rendercue/render.py:292-294 | `Mm Ss` reads back as `M*60 + S` |
| SupervisorFacts.ParseOneUnit | rendercue/render.py:294 | `Ss` reads back as `S` |
| SupervisorFacts.NoSpaceInUnit | rendercue/render.py:289-294 | a number with its unit contains no space |
| SupervisorFacts.DurationArith | rendercue/render.py:285-287 | hours, minutes and seconds recompose the duration |
| SupervisorFacts.SplitThreeUnits | rendercue/render.py:289-294 | three space-free parts joined by spaces split back into those parts |
| SupervisorFacts.SplitTwoUnits | rendercue/render.py:289-294 | two space-free parts joined by a space split back into those parts |
| SupervisorFacts.DurationParts | rendercue/render.py:284-294 | the time text is `Hh Mm Ss` when hours > 0, `Mm Ss` when minutes > 0, and `Ss` otherwise |
| SupervisorFacts.DurationRoundTrip | rendercue/render.py:284-294 | the time text reads back as the whole number of seconds |
| SupervisorFacts.HoursRoundTrip | rendercue/render.py:284-294 | a duration of an hour or more reads back from its text |
| SupervisorFacts.MinutesRoundTrip | rendercue/render.py:284-294 | a duration under an hour with whole minutes reads back from its text |
| SupervisorFacts.SecondsRoundTrip | rendercue/render.py:284-294 | a duration under a minute reads back from its text |
| SupervisorFacts.FinishSummary | rendercue/render.py:261-336 | `finish` closes the run; with jobs it stores the job total, the COMPLETED and FAILED counts, the completed frames, a time text reading back as the elapsed seconds and a non-empty file name; SUCCESS only when not stopped; jobs unchanged |
| SupervisorFacts.CompletedFramesAppend | rendercue/render.py:281 | the completed-frame sum is additive over concatenation |
| SupervisorFacts.StatusCountAppend | rendercue/render.py:278-280 | the status counts are additive over concatenation |
| SupervisorFacts.ExecuteResets | rendercue/render.py:167-259 | the run starts exactly when the queue is non-empty and the file saved; a cancelled start leaves the settings unchanged; a started run zeroes every job's frame counts and nothing else of the job, clears the counters, pause and preview flags, and arms the process and the status path |
| SupervisorFacts.FirstFrameShown | rendercue/render.py:175-176 | after `execute` the first status with a frame path refreshes the preview |
| StateCodec.SceneNameField | rendercue/core.py:52 | `scene_name` is null exactly for a job without a scene, and the scene's name otherwise |
| StateCodec.EncodeJobs | rendercue/core.py:50-76 | one job record per queued job, in queue order |
| StateCodec.EncodeQueue | rendercue/core.py:50-76 | the appending loop yields exactly the encoded queue |
| StateCodec.SaveState | rendercue/core.py:40-79 | the file at the path becomes the state document: timestamp, output path, custom-path flag and the queue; no other file changes |
| StateCodec.TextBlocks.constructor | rendercue/core.py:161-164 | the text blocks are exactly the given ones |
| StateCodec.SaveQueueToText | rendercue/core.py:131-167 | the block `.rendercue_data` is replaced by the state document without a timestamp; no other block changes |
| StateCodec.SceneRef | rendercue/core.py:100-101 | a job gets a scene exactly when `scene_name` is a non-empty name of an existing scene, and then that scene |
| StateCodec.LoadJobFields | rendercue/core.py:97-123 | a loaded job is valid; each field takes its recorded value or its default (False, 1, 250, "//", 100, 128, PNG, CYCLES, ""), with Blender's clamping; an unknown format or engine id raises after the fields before it were set |
| StateCodec.EntryLoads | rendercue/core.py:97-123 | one load per record, each the load of the record at its position |
| StateCodec.Collect | rendercue/core.py:97-128 | collecting per-record loads stops at the first that raised, which is kept; a complete collection has one job per load |
| StateCodec.CollectPrefix | rendercue/core.py:97-123 | every collected job is the job of the load at the same position |
| StateCodec.CollectOk | rendercue/core.py:97-128 | the collection completes exactly when no load raised |
| StateCodec.CollectFailure | rendercue/core.py:97-128 | a failed collection's last job is the one that raised, and all before it loaded |
| StateCodec.CollectStops | rendercue/core.py:97-128 | after a load that raised, later loads change nothing |
| StateCodec.LoadJobs | rendercue/core.py:97-123 | loading stops at the first job that raises, which is kept; a complete load has one job per record |
| StateCodec.LoadJobsPrefix | rendercue/core.py:97-123 | every loaded job is the load of the record at the same position |
| StateCodec.LoadJobsOk | rendercue/core.py:97-128 | the load completes exactly when no record raises |
| StateCodec.LoadJobsFailure | rendercue/core.py:97-128 | a failed load's last job is the one that raised, and all before it loaded |
| StateCodec.LoadJobsStep | rendercue/core.py:97-123 | one more record appends its loaded job |
| StateCodec.LoadJobsStops | rendercue/core.py:97-128 | after a raising record, later records change nothing |
| StateCodec.LoadDocument | rendercue/core.py:87-128 | a document that is not an object loads no job and fails; otherwise a missing output path keeps the current one, a missing custom flag becomes False, and the jobs are those loaded |
| StateCodec.ReplaceQueue | rendercue/core.py:92-123 | the queue is cleared and refilled with exactly the loaded jobs, no rollback on failure |
| StateCodec.ApplyDocument | rendercue/core.py:91-125 | jobs, output path and custom flag become those of loading the document |
| StateCodec.LoadState | rendercue/core.py:82-128 | a missing or unparsable file returns False and changes nothing; otherwise the settings become the document's load |
| StateCodec.LoadQueueFromText | rendercue/core.py:170-206 | a missing or unparsable block changes nothing; otherwise the settings become the block's load |
| StateCodec.LoadEncodedJob | rendercue/core.py:50-123 | loading a saved valid job succeeds and restores its 16 recorded fields |
| StateCodec.LoadEncodedJobs | rendercue/core.py:50-123 | loading a saved queue succeeds and restores every job's recorded fields, in order |
| StateCodec.SaveThenLoad | rendercue/core.py:40-125 | loading a saved state restores the output path, the custom flag and every job's recorded fields, in order |
| StateCodec.MissingKeysGiveDefaults | rendercue/core.py:97-123 | an empty job record loads as a new job with the defaults |
| LegacyCodec.LegacyEncodeJobs | core.py:50-70 | one record per queued job, in order, with scene name and five override flag/value pairs |
| LegacyCodec.LegacyEncodeQueue | core.py:50-70 | the appending loop yields exactly the encoded queue |
| LegacyCodec.LegacySaveState | core.py:40-73 | the file holds timestamp, output path, output structure and the queue; no other file changes |
| LegacyCodec.LegacyLoadJobFields | core.py:91-111 | a loaded job is valid; each field takes its recorded value or its default (False, 1, 250, "//", 100, 128, PNG) with clamping; an unknown format raises |
| LegacyCodec.LegacyLoadJobs | core.py:91-116 | loading stops at the first raising record; a complete load has one job per record |
| LegacyCodec.LegacyLoadJobsPrefix | core.py:91-111 | every loaded job is the load of the record at the same position |
| LegacyCodec.LegacyLoadJobsOk | core.py:91-116 | the load completes exactly when no record raises |
| LegacyCodec.LegacyLoadJobsStep | core.py:91-111 | one more record appends its loaded job |
| LegacyCodec.LegacyLoadJobsStops | core.py:91-116 | after a raising record, later records change nothing |
| LegacyCodec.LegacyLoadDocument | core.py:81-116 | missing output path and structure keep the current values; an unknown structure raises before any job is added |
| LegacyCodec.LegacyReplaceQueue | core.py:86-111 | the queue is cleared and refilled with exactly the loaded jobs |
| LegacyCodec.LegacyLoadState | core.py:76-116 | a missing or unparsable file returns False and changes nothing; otherwise the settings become the document's load |
| LegacyCodec.LegacyLoadEncodedJob | core.py:50-111 | loading a saved valid job gives back exactly that job |
| LegacyCodec.LegacySaveThenLoad | core.py:40-113 | loading a saved state gives back exactly the queue, output path and structure |
| LegacyCodec.LegacyMissingKeysGiveDefaults | core.py:91-111 | an empty job record loads as a new job, except output path "//" and scale 100 instead of the declared defaults |
| Properties.InListIsIn | rendercue/properties.py:17-26 | membership in an enum's item list is plain membership |
| Properties.NewJob | rendercue/properties.py:3-132 | a new job has no scene, every override off, frames 1..250, output "//", scale 100, samples 128, CYCLES, PNG, no view layer, and is valid |
| Properties.Clamp | rendercue/properties.py:80-101 | Blender's clamping of an int property: the value kept when in bounds, the nearest bound otherwise |
| Properties.ClampScale | rendercue/properties.py:80-87 | a stored resolution scale lies in [1, 200] and an in-range value is kept |
| Properties.ClampSamples | rendercue/properties.py:95-101 | a stored sample count is at least 1 and a value of at least 1 is kept |
| Properties.Settings.constructor | rendercue/properties.py:134-265 | new settings: empty queue, SEPARATE, "//render_cue_output/", "//presets/", not rendering, ETR "--:--", last status NONE, all counters 0 |
| LegacyProperties.NewLegacyJob | properties.py:3-34 | a new job has no scene, every override off, output "//render/", frames 1..250, scale 50, PNG, samples 128 |
| LegacyProperties.ClampLegacyScale | properties.py:19 | a stored scale lies in [1, 1000] and an in-range value is kept |
| LegacyProperties.LegacySettings.constructor | properties.py:36-54 | new settings: empty queue, active index 0, SEPARATE, "//render_cue_output/" |
| Blender.FindScene | rendercue/core.py:100-101 | `bpy.data.scenes.get(name)`: the first scene with the name, or none exactly when no scene has it |
| Blender.PointedScene | render.py:71-75 | a scene pointer resolves to a scene of the file with the pointed name, and to none exactly when it is empty or names no scene |
| Blender.LayerNames | worker.py:206 | the names of the view layers, in order |
| Blender.SetScene | worker.py:164-226 | writing one scene changes that scene and no other |
| Blender.FindSceneAfterSet | worker.py:164-226 | writing a scene that keeps its name does not change which scene a name finds |
| Operators.JobFor | rendercue/operators.py:30-31 | a job added for a scene holds that scene, every override off, and is valid |
| Operators.AddJob | rendercue/operators.py:26-35 | exactly one job for the scene is appended and it becomes active |
| Operators.RemoveAt | rendercue/operators.py:53 | removing position i keeps the jobs before it and shifts the jobs after it down by one |
| Operators.ActiveAfterRemove | rendercue/operators.py:55-56 | an out-of-range active index becomes `max(0, len - 1)`; an index in range is kept |
| Operators.RemoveJob | rendercue/operators.py:44-58 | the job at the active index is removed and the index clamped; an index past the end changes nothing |
| Operators.Swap | rendercue/operators.py:80-83 | moving a job by one swaps it with its neighbour and keeps every other job |
| Operators.SwapKeepsJobs | rendercue/operators.py:74-86 | a swap keeps the multiset of jobs |
| Operators.MoveJob | rendercue/operators.py:69-86 | UP with index > 0 and DOWN with index < len - 1 swap with the neighbour and move the active index with the job; otherwise nothing changes |
| Operators.MoveKeepsJobs | rendercue/operators.py:74-86 | a move keeps the multiset of jobs and puts the moved job at its target |
| Operators.JobsFor | rendercue/operators.py:102-107 | one new job per scene name, in order |
| Operators.PopulateAll | rendercue/operators.py:95-114 | appends one job per scene that has a camera and was not queued before, in document order, and reports their number |
| Operators.NewScenesMeaning | rendercue/operators.py:99-104 | a scene is added exactly when it is not queued and has a camera |
| Operators.QueuedScenesAppend | rendercue/operators.py:99 | the queued scenes after appending are the old ones plus the new names |
| Operators.PopulateTwiceAddsNothing | rendercue/operators.py:95-114 | running "add all scenes" twice adds nothing the second time |
| Operators.AllPending | rendercue/operators.py:654-655 | every job set to PENDING keeps the number of jobs |
| Operators.StopRender | rendercue/operators.py:646-675 | stop is requested, every job becomes PENDING, the current index 0 and the preview flag off |
| Operators.StopKeepsFrames | rendercue/operators.py:653-657 | stopping keeps every job's completed frames and leaves no job COMPLETED |
| Operators.PauseRender | rendercue/operators.py:683-693 | `is_paused` is set and the pause file is created when it can be written |
| Operators.ResumeRender | rendercue/operators.py:701-711 | `is_paused` is cleared and the pause file is removed when it can be |
| ApplyOverride.NoneTickedEmpty | rendercue/operators.py:259-260 | when no listed override is ticked, nothing is selected |
| ApplyOverride.AllKindsListed | rendercue/operators.py:238-254 | every override kind appears in the operator's mapping |
| ApplyOverride.KindJobs | rendercue/operators.py:274-304 | applying one override treats every job on its own, in place |
| ApplyOverride.SetFrames | rendercue/operators.py:275-280 | one job's frame range is set as the frame-range specification says |
| ApplyOverride.ApplyFrameRange | rendercue/operators.py:270-281 | the loop gives every job the source flag and, when enabled, the source range with the end clamped, and counts each job |
| ApplyOverride.Screen | rendercue/operators.py:286-298 | the smart check takes or skips a job exactly as the decision specification says |
| ApplyOverride.ValueJob | rendercue/operators.py:286-304 | one job is updated and counted as applied or skipped as the specification says |
| ApplyOverride.ApplyValue | rendercue/operators.py:282-304 | the loop gives the jobs and both counts of the value-override specification |
| ApplyOverride.ApplyKind | rendercue/operators.py:262-304 | the jobs and counts are those of applying the one override |
| ApplyOverride.KindStep | rendercue/operators.py:259-304 | one more mapping entry extends the run specification |
| ApplyOverride.LookUpTicked | rendercue/operators.py:266 | the lookup of the metadata table, which the shown `ui_helpers` lacks, raises exactly when some override is ticked |
| ApplyOverride.ApplyOverrideToAll | rendercue/operators.py:228-311 | the jobs and the result are those of the apply-to-all specification (cancelled on an empty queue, raised without a table) |
| ApplyOverride.OverlaidStep | rendercue/operators.py:274-304 | the loop's partial update invariant advances by one job |
| ApplyOverride.TalliedStep | rendercue/operators.py:281-304 | the loop's count invariant advances by one job |
| ApplyOverride.ProgressStep | rendercue/operators.py:274-304 | the combined loop invariant advances by one job |
| ApplyOverride.ProgressDone | rendercue/operators.py:274-304 | at the end of the loop the jobs and counts are those of the specification |
| ApplyOverride.SelfKindJob | rendercue/operators.py:283-304 | applying a job's own override to itself changes nothing |
| ApplyOverride.FrameRangeIgnoresSmartness | rendercue/operators.py:270-281 | the frame range ignores the smart apply types and never counts a skip |
| ApplyOverride.FrameRangeEverywhere | rendercue/operators.py:270-281 | every job gets the source's range flag; when enabled, the source start and an end not below it (the source end when that is ordered), and every job counts; when disabled, the ranges stay |
| ApplyOverride.OverrideKeepsFramesOrdered | rendercue/operators.py:270-304 | no override breaks `frame_end >= frame_start`, and the frame range establishes it |
| ApplyOverride.RunKeepsFramesOrdered | rendercue/operators.py:259-304 | applying all ticked overrides keeps every job's range ordered |
| ApplyOverride.OverrideKeepsRunState | rendercue/operators.py:274-304 | an override never changes a job's scene, status, progress or timings |
| ApplyOverride.NoSourceCameraNoChange | rendercue/operators.py:288-290 | a smart camera override from a source without a camera changes no job and counts nothing |
| ApplyOverride.EveryJobCounted | rendercue/operators.py:285-304 | otherwise every job is counted once, as applied or skipped; without smartness every job is applied |
| ApplyOverride.SmartCameraJob | rendercue/operators.py:288-293 | a job is skipped exactly when its scene lacks the source's camera object; otherwise it gets the override |
| ApplyOverride.SmartLayerJob | rendercue/operators.py:295-298 | a job is skipped exactly when its scene lacks the source's view layer; otherwise it gets the override |
| ApplyOverride.SmartCameraJobs | rendercue/operators.py:285-304 | over the queue, a job is unchanged when its scene lacks the camera and overridden otherwise |
| ApplyOverride.SmartCameraSkipCount | rendercue/operators.py:291-293 | the skipped count is the number of jobs whose scene lacks the camera |
| ApplyOverride.SmartLayerJobs | rendercue/operators.py:285-304 | over the queue, a job is unchanged when its scene lacks the view layer and overridden otherwise |
| ApplyOverride.SmartLayerSkipCount | rendercue/operators.py:295-298 | the skipped count is the number of jobs whose scene lacks the view layer |
| ApplyOverride.MissingTableRaises | rendercue/operators.py:259-267 | without the metadata table, any ticked override raises and leaves the queue as it was |
| LegacyOperators.LegacyJobFor | operators.py:9-18 | a new legacy job names its scene, has every override off and a valid format, scale and sample count |
| LegacyOperators.LegacyAddJob | operators.py:9-18 | one job for the scene is appended and becomes the active one |
| LegacyOperators.LegacyRemoveJob | operators.py:31-40 | an in-range active job is removed and the active index is moved back into range; otherwise nothing changes |
| LegacyOperators.LegacyMoveJob | operators.py:55-67 | the active job swaps with its neighbour when there is one in the chosen direction, and the active index follows it; otherwise nothing changes |
| LegacyOperators.LegacyJobsFor | operators.py:79-85 | one fresh job per scene name, in order |
| LegacyOperators.LegacyPopulateAll | operators.py:75-86 | the jobs of every scene not yet queued are appended in scene order, and the existing jobs stay |
| LegacyOperators.UnqueuedScenesMeaning | operators.py:79-85 | a name is added exactly when it is a scene's name and not yet queued |
| LegacyOperators.LegacyPopulateCoversAll | operators.py:75-86 | after populating, every scene is queued |
| LegacyOperators.WithFlag | operators.py:120 | setting an override flag changes that flag only |
| LegacyOperators.CopyValue | operators.py:122-131 | copying one value changes that value only |
| LegacyOperators.CopiedAll | operators.py:119-131 | applying to all keeps the number of jobs |
| LegacyOperators.LegacyApplyOverrideToAll | operators.py:102-133 | the jobs and the result are those of the apply-to-all specification (cancelled on an empty queue, raised on an unknown property or a bad active index) |
| LegacyOperators.CopiedMeaning | operators.py:119-131 | each job gets the source's flag, and the source's value only when the flag is on |
| LegacyOperators.CopiedFixesSource | operators.py:119-131 | the source job is left as it was |
| LegacyOperators.CopiedTwice | operators.py:119-131 | copying twice gives the same as copying once |
| LegacyOperators.SameFlagNoChange | operators.py:120 | setting a flag to its present value changes nothing |
| LegacyOperators.SameValueNoChange | operators.py:122-131 | copying an equal value changes nothing |
| LegacyOperators.LegacyApplyTwice | operators.py:102-133 | a second application right after a successful one changes no job |
| LegacyOperators.CopiedKeepsValid | operators.py:119-131 | copying keeps a job's format, scale and sample count valid when source and job are valid |
| LegacyRender.ApplyOverrides | render.py:91-137 | samples are saved for Cycles when overridden, for Eevee when the scene has the attribute, and the call raises when an Eevee scene lacks it |
| LegacyRender.ApplyOverridesMeaning | render.py:91-137 | the scene after the overrides has the job's path, and its frame range, resolution, format and samples where overridden; all else is kept |
| LegacyRender.SeparatePathEndsInFolder | render.py:112-116 | under the separate-folders layout, a non-empty output path ends in a separator |
| LegacyRender.RestoreUndoesApply | render.py:91-160 | restoring the snapshot gives back the scene as it was before the overrides |
| LegacyRender.Restore | render.py:139-160 | with no tracked scene, a tracked scene that is gone or no snapshot, nothing changes; otherwise the tracked scene gets the snapshot back, the other scenes are untouched and the snapshot is emptied, while the job index, flags, tracked scene and renders are kept |
| LegacyRender.TickWhileRendering | render.py:24-25 | a timer tick during a render passes through and changes nothing |
| LegacyRender.FinishedJobAdvances | render.py:28-31 | after a render the settings are restored, the current scene is cleared and the index moves on |
| LegacyRender.NoJobLeftFinishes | render.py:35-39 | with no job left the batch finishes and the handlers are removed |
| LegacyRender.ScenelessJobSkipped | render.py:71-73 | a job without a scene is skipped by moving the index on |
| LegacyRender.CancelEndsBatch | render.py:19-169 | a cancelled render ends the batch on the next tick with the settings restored |
| LegacyRender.TickProgresses | render.py:17-41 | an idle tick either returns a verdict, moves the index on or starts a render |
| LegacyRender.JobLeavesScenesAsFound | render.py:66-165 | starting a job renders its scene once, and completing and restoring gives back every scene as it was |
| LegacyRender.BlendData.constructor | render.py:66-89 | the scenes are the given ones and nothing is rendered yet |
| LegacyRender.LegacyBatchRender.constructor | render.py:10-15 | the operator starts at job 0, not rendering, not stopped, with nothing saved |
| LegacyRender.LegacyBatchRender.RestoreSettings | render.py:139-160 | the new state is the restore specification of the old one |
| LegacyRender.LegacyBatchRender.Finish | render.py:171-180 | the handlers are removed and nothing else changes |
| LegacyRender.LegacyBatchRender.CloseJob | render.py:28-31 | the new state is the advance specification of the old one |
| LegacyRender.LegacyBatchRender.StartNextJob | render.py:66-89 | the new state and whether it raised are those of the start specification |
| LegacyRender.LegacyBatchRender.Modal | render.py:17-41 | the new state and the verdict are those of the tick specification |
| LegacyRender.LegacyBatchRender.ExecuteBatch | render.py:43-64 | an empty queue is cancelled; otherwise the state is reset and the batch runs |
| LegacyRender.LegacyBatchRender.OnRenderComplete | render.py:162-165 | a completed render clears the rendering flag |
| LegacyRender.LegacyBatchRender.OnRenderCancel | render.py:167-169 | a cancelled render clears the rendering flag and asks to stop |
| Vse.OutsideChannel | vse.py:22-24 | clearing keeps only strips outside the channel, all of them from the timeline |
| Vse.Place | vse.py:28-62 | a job without a scene changes nothing; a failed add only counts a warning; otherwise one strip for the job's scene goes in channel 1 at the cursor, with the job's length raised to at least 1 and its offset raised to at least 0 as Blender stores them, and the cursor moves on by the job's unclamped length |
| Vse.LayoutOf | vse.py:26-62 | the strips plus the warnings never outnumber the jobs |
| Vse.PlaceChained | vse.py:36-59 | placing one job keeps the strips chained, with no strip starting after the previous one ends; the strips stay contiguous when the job is at least one frame long |
| Vse.LayoutContiguous | vse.py:26-59 | the first strip starts at frame 1, every strip is one frame long or more, and each starts no later than the one before it ends; when every job is at least one frame long, each strip starts exactly there and the cursor stops at the end of the last |
| Vse.NoOverlap | vse.py:26-59 | when every job is at least one frame long, no two placed strips overlap |
| Vse.KeepsPlaced | vse.py:43-59 | placing a job never moves a strip already placed |
| Vse.PlaceInChannel | vse.py:44-49 | placing keeps every strip in channel 1 |
| Vse.LayoutInChannel | vse.py:20-49 | every strip of the layout is in channel 1 |
| Vse.PlaceFollows | vse.py:28-59 | placing one more job extends the strip-per-job correspondence |
| Vse.LayoutFollowsQueue | vse.py:28-59 | when every add succeeds, strip i belongs to the i-th job that has a scene |
| Vse.Timeline.constructor | vse.py:13-17 | a timeline has the given editor flag and strips |
| Vse.ClearChannel | vse.py:19-24 | the loop leaves exactly the strips outside the channel, in order |
| Vse.PlaceJob | vse.py:28-62 | one loop step appends the placed strip and updates the cursor and warnings as the specification says |
| Vse.SyncToVse | vse.py:9-65 | the editor exists afterwards; the strips are those outside channel 1 followed by the layout; the warnings are the layout's |
| VseSync.SceneStrips | vse_sync.py:27-29 | no more strips are collected than there are, and each is a scene strip of the channel |
| VseSync.SceneStripsMembers | vse_sync.py:27-29 | a strip is collected exactly when it is one of the strips and a scene strip of the channel |
| VseSync.CollectSceneStrips | vse_sync.py:21-29 | the loop collects the scene-strip specification's strips |
| VseSync.SceneStripsNone | vse_sync.py:27-33 | with no strip in the channel nothing is collected |
| VseSync.SceneStripsAfterOthers | vse_sync.py:27-29 | strips of other channels do not change what is collected |
| VseSync.SceneStripsOfMatching | vse_sync.py:27-29 | when every strip is a scene strip of the channel, all are collected in order |
| VseSync.InsertByStart | vse_sync.py:36 | inserting adds exactly one strip |
| VseSync.InsertPermutes | vse_sync.py:36 | inserting keeps every strip and adds the new one, as multisets |
| VseSync.InsertAbove | vse_sync.py:36 | inserting keeps a lower bound on start frames |
| VseSync.InsertKeepsSorted | vse_sync.py:36 | inserting into a sorted list keeps it sorted |
| VseSync.SortByStart | vse_sync.py:36 | sorting keeps the number of strips |
| VseSync.SortSortsAndPermutes | vse_sync.py:36 | the result is ordered by start frame and is a permutation of the input |
| VseSync.SortSorts | vse_sync.py:36 | the result is ordered by start frame |
| VseSync.SortPermutes | vse_sync.py:36 | the result is a permutation of the input |
| VseSync.StartingAtConcat | vse_sync.py:36 | strips with a given start split over concatenation |
| VseSync.StartingAtNone | vse_sync.py:36 | no strip starts at a frame below every start |
| VseSync.StartingAtSingle | vse_sync.py:36 | a single strip starts at a frame or not |
| VseSync.InsertFrontStartingAt | vse_sync.py:36 | inserting before a later-starting list adds the strip after the ones with its start |
| VseSync.InsertStartingAt | vse_sync.py:36 | insertion puts a strip after the strips with the same start |
| VseSync.SortIsStable | vse_sync.py:36 | strips sharing a start frame keep their order, as Python's sort promises |
| VseSync.SortOfSorted | vse_sync.py:36 | sorting an ordered list changes nothing |
| VseSync.AppendSorted | vse_sync.py:36 | a strip starting no earlier than all the rest goes at the end |
| VseSync.JobFromStrip | vse_sync.py:44-56 | the job names the strip's scene, overrides the frame range exactly when the durations differ, then starts at the scene start plus the offset and lasts the strip's duration |
| VseSync.JobsFromStrips | vse_sync.py:42-56 | at most one job per strip |
| VseSync.JobsFollowStrips | vse_sync.py:42-56 | when every strip shows a scene, job k is the job of strip k |
| VseSync.ChainMonotone | vse_sync.py:36 | start frames of chained strips with durations of zero or more never decrease |
| VseSync.LayoutFiltersToItself | vse.py:19-62 | collecting channel 1 after the queue is placed gives exactly the placed strips |
| VseSync.LayoutSorted | vse.py:26-59 | the placed strips are already in start order |
| VseSync.LayoutDurations | vse.py:26-59 | when every strip is added, every placed strip is at least one frame long |
| VseSync.RestoredFromStrip | vse_sync.py:42-56 | a job read back from its own strip has the job's scene and its clamped length, overrides the range exactly when that length differs from the scene's, and then starts at the scene start plus the clamped offset; when nothing was clamped, it has the job's own range |
| VseSync.SyncRoundTrip | vse_sync.py:9-59 | when every job has a scene, every add succeeds and every job is at least one frame long and starts inside its scene, placing the queue and reading channel 1 back gives one job per job, in order, with the same scene and length, overriding the range exactly when the length is not the scene's, and then with the job's own range |
| VseSync.SyncFromVse | vse_sync.py:9-59 | cancelled with the queue kept when there is no editor or no scene strip; otherwise the queue is the jobs of the collected strips in start order and the count is theirs |
| VseSync.RebuildQueue | vse_sync.py:39-56 | the cleared queue is rebuilt as the jobs of the sorted strips, in order |
| UiHelpers.CountWithCamera | rendercue/ui_helpers.py:19 | the scenes with a camera are at most all scenes |
| UiHelpers.CountAvailable | rendercue/ui_helpers.py:20-23 | the available scenes are among the scenes with a camera |
| UiHelpers.SceneStatistics | rendercue/ui_helpers.py:4-31 | total is the number of scenes, available ≤ with cameras ≤ total, and in-queue is the number of distinct queued scenes |
| UiHelpers.AvailableIsWhatPopulateAdds | rendercue/ui_helpers.py:20-23 | the available count is the number of scenes the populate operator would add |
| UiHelpers.StatisticsAvailable | rendercue/ui_helpers.py:16-23 | the statistics' available count is what populate adds for the current queue |
| UiHelpers.InQueueAtMostJobs | rendercue/ui_helpers.py:16-24 | distinct queued scenes never outnumber the jobs |
| UiHelpers.JobErrors | rendercue/ui_helpers.py:59-63 | a job has at most one error, and none exactly when it has a scene and a camera (its own or an override) |
| UiHelpers.JobWarnings | rendercue/ui_helpers.py:65-72 | a job has at most two warnings |
| UiHelpers.AllRunnableStep | rendercue/ui_helpers.py:56-63 | a queue is all runnable when its prefix is and its last job is |
| UiHelpers.ErrorsIffNotRunnable | rendercue/ui_helpers.py:56-63 | the error list is empty exactly when every job is runnable, and it has at most one error per job |
| UiHelpers.ValidIff | rendercue/ui_helpers.py:33-75 | the queue is valid exactly when there are no errors, that is, when it is non-empty and every job is runnable |
| UiHelpers.ValidateQueue | rendercue/ui_helpers.py:33-75 | the loop gives the validation of the specification, and an empty queue gives only the empty-queue error |
| UiHelpers.EveryLineChecked | rendercue/ui_helpers.py:92-121 | every override line is in the checked list |
| UiHelpers.ActiveLines | rendercue/ui_helpers.py:89-121 | at most one entry per line |
| UiHelpers.ActiveLinesMembers | rendercue/ui_helpers.py:89-121 | a line is listed exactly when it is in the list and active for the job |
| UiHelpers.NoneActive | rendercue/ui_helpers.py:89-121 | with no active line nothing is listed |
| UiHelpers.Entries | rendercue/ui_helpers.py:93-121 | each entry pairs the line's title with the job's value for it, in order |
| UiHelpers.OverrideSummary | rendercue/ui_helpers.py:77-124 | the count is the number of entries; no job gives none; otherwise the entries of the active lines in source order |
| UiHelpers.ListedIff | rendercue/ui_helpers.py:92-121 | an override line appears in the summary exactly when it is active for the job |
| UiHelpers.NoOverridesEmptySummary | rendercue/ui_helpers.py:77-124 | a job with no override enabled has an empty summary |
| UiHelpers.EnginesOf | rendercue/ui_helpers.py:135-142 | the engine list is sorted with no repeats |
| UiHelpers.SomeUsesStep | rendercue/ui_helpers.py:136-139 | a queue uses an engine when its prefix does or its last job does |
| UiHelpers.EnginesOfMembers | rendercue/ui_helpers.py:135-142 | an engine is listed exactly when some job with a scene uses it |
| UiHelpers.MixedIff | rendercue/ui_helpers.py:126-145 | there is a warning exactly when two jobs render with different engines |
| UiHelpers.MixedEngineWarning | rendercue/ui_helpers.py:126-145 | the loop gives the warning of the specification |
| VersionCompat.AtLeastIsTotalOrder | rendercue/version_compat.py:19-21 | the version comparison is reflexive, transitive, total and antisymmetric, as on tuples |
| VersionCompat.MajorDecides | rendercue/version_compat.py:19-21 | when the major numbers differ, they alone decide |
| VersionCompat.EngineDisplayName | rendercue/version_compat.py:27-37 | an unknown engine id keeps its length and loses every underscore |
| VersionCompat.EeveeNamesStartWithEevee | rendercue/version_compat.py:23-32 | both Eevee ids get a name starting with "Eevee" |
| VersionCompat.DisplayNameOfUnknownId | rendercue/version_compat.py:37 | for an unknown id, underscores become spaces and a lower-case letter that starts a word becomes upper case |
| VersionCompat.AvailableEngines | rendercue/version_compat.py:39-83 | the loop keeps the listed engines that exist, in order |
| VersionCompat.AvailableEnginesShape | rendercue/version_compat.py:44-83 | Cycles, Eevee and Workbench come first; Eevee Next is fourth exactly when the version is below 4.2.0 and its engine class exists |
| VersionCompat.SetEeveeSamples | rendercue/version_compat.py:103-123 | success exactly when one of the two attributes exists; on failure nothing changes |
| VersionCompat.SetThenGet | rendercue/version_compat.py:85-123 | after a successful set, the read gives the value; after a failure it gives 64; no attribute appears or disappears and only one changes |
| VersionCompat.GetIcon | rendercue/version_compat.py:131-164 | a replaced icon gives its replacement; any other name is kept, and the fallback is never used |
| VersionCompat.GetIconIdempotent | rendercue/version_compat.py:131-164 | looking up a looked-up icon changes nothing |
| VersionCompat.FirstFallback | rendercue/version_compat.py:213-223 | the chosen fallback is a listed format other than the requested one that the scene accepts, and every fallback listed before it is the requested one or refused; with none chosen, the scene accepts no such format |
| VersionCompat.SetImageFormatOf | rendercue/version_compat.py:186-229 | success exactly when the settings exist and accept the requested format; then that format is set; otherwise there is an error text; a refused format leaves the first acceptable fallback in list order, or the current format when there is none |
| VersionCompat.FallbackPreference | rendercue/version_compat.py:212-223 | after a refused format, PNG is chosen when accepted, then JPEG, then OPEN_EXR, and the current format stays when all three are passed over |
| VersionCompat.FallbackUsed | rendercue/version_compat.py:207-227 | a changed format after a failure is a fallback other than the request, and a usable fallback is always found when one exists |
| VersionCompat.SetImageFormat | rendercue/version_compat.py:186-229 | the loop over the fallbacks gives the result and format of the specification |
| Notifications.FieldIndex | rendercue/notifications.py:40-51 | the index is that of the first field with the key, or the length when there is none |
| Notifications.Lookup | rendercue/notifications.py:40-51 | a found value belongs to a field with the key; none is found only when no field has it |
| Notifications.SlackText | rendercue/notifications.py:51 | the Slack text is the title between asterisks, a newline, then the message, and both can be read back |
| Notifications.PayloadShape | rendercue/notifications.py:39-51 | a Slack URL gets only a text field; any other URL gets the bot name and one embed with the title, message and colour |
| Notifications.SendWebhook | rendercue/notifications.py:16-79 | nothing happens for an empty URL; disabled online access only logs; otherwise the payload is sent to the URL, and a failed launch is logged |
| Notifications.ToastEscapeDoubles | rendercue/notifications.py:128-129 | the sanitiser doubles every quote and apostrophe, and removing the doubling gives back the text |
| Notifications.ToastEscapeLetsSubexpressionRun | rendercue/notifications.py:128-136 | text starting with `$(` and without quotes passes the sanitiser unchanged and PowerShell reads it as a subexpression |
| Notifications.ToastEscapeDoublesApostrophe | rendercue/notifications.py:128-136 | text with an apostrophe and no special character is shown with the apostrophe doubled |
| Notifications.EscapeExpandableReadsBack | rendercue/notifications.py:128-136 | text escaped with backticks reads back in a double-quoted PowerShell string as exactly the text |
| Notifications.ShowNotification | rendercue/notifications.py:81-136 | the log line is the title, a colon and the message; a toast is raised exactly on Windows, and its texts are the title and the message with every quote and apostrophe doubled, which undoubling gives back |
| Notifications.ShowNotificationEscaped | rendercue/notifications.py:81-136 | with the corrected escaping, the same log line and platform test, and toast texts that PowerShell reads as exactly the title and the message |
| Strings.PathJoin | render.py:113 | joining with an absolute second part gives that part; a relative part is appended directly to an empty first part or one ending in `/`, and after one `/` otherwise |
| Strings.TitleCase | rendercue/version_compat.py:37 | each letter is upper case exactly at a word start and lower case elsewhere; the length is kept |
| Strings.ReplaceChar | rendercue/version_compat.py:37 | every occurrence of the character is replaced and nothing else changes |
| Strings.SortDistinct | rendercue/ui_helpers.py:142 | the result is sorted with no repeats and holds the same strings as the input |

## Left out

- Panel drawing and dialogs (`ui.py`, `rendercue/ui.py`, the `draw` and `invoke` methods) are layout only. `rendercue/ui.py` calls `get_override_summary(context, job)` with two arguments and reads `stats['invalid_jobs']`. Neither matches `rendercue/ui_helpers.py`, which is modelled as written.
- Preferences and registration (`preferences.py`, `rendercue/preferences.py`, `__init__.py`, the `register` functions) are declarations only.
- `rendercue/worker.py` only re-exports the worker. Its command-line parse is the one in `worker.py`, which is modelled.
- `updater.py` and `build_package.py` do HTTP, filesystem walks and zip writing. They are not part of this model.
- The logging singletons (`RenderCueLogger`) are left out. Log texts appear only where a model returns them (`Notifications.LogLine`).
- Process and timer plumbing becomes parameters or recorded calls rather than effects:
  - `subprocess.Popen` and `kill`, `atexit`, Blender timers and modal handler registration;
  - `bpy.ops.render.render`, `save_render`, `os.makedirs`, `bpy.path.abspath`, `sleep`.
- The webhook's child Python script, its HTTP request and the JSON text of the payload are left out. `Notifications.SendWebhook` yields the URL and the payload as a JSON value.
- The PowerShell reading model (`Notifications.ReadExpandable`) does not cover several things:
  - how `subprocess` quotes the script for `powershell.exe`;
  - the Unicode quote characters PowerShell also accepts;
  - the `` `u{…} `` escape;
  - what a running subexpression does.
  It decides only whether the text stays literal.
- Floating-point time is not modelled. Elapsed time is a whole number of seconds, and every division truncates, as the source's `int(...)` calls do.
- The preview collection's icon-key handling (`rendercue/render.py`) uses Blender's previews API. The model records only whether the preview image loaded.
- `rendercue.core.BackgroundWorker`, which `rendercue/render.py` imports, is not defined in `rendercue/core.py`. The worker is modelled from `worker.py` only.
- `vse.py`, `vse_sync.py` and `core.py` (lines 42 and 85) read `context.scene.rendercue`, while `properties.py:60` registers the settings on the window manager. The settings are passed in directly.
- LegacyCodec.LegacySaveState: saves the settings passed in. In Blender, `context.scene.rendercue` (`core.py:42`) raises `AttributeError` before any file is written.
- LegacyCodec.LegacyLoadState: loads into the settings passed in. In Blender, the same access (`core.py:85`) sits inside the `try`, so an existing file makes the load return False without changing the queue.
- Vse.Place: models only the lower bounds Blender puts on a strip: a length of at least 1 and an offset of at least 0. It leaves out the upper bound `MAXFRAME`. It also leaves out that setting `animation_offset_start` can shorten the strip's content, so a strip whose offset reaches past its scene's end keeps its clamped length here.
- Worker.WithFrameRange: stores the recorded frames as given. Blender's `frame_start` and `frame_end` setters clamp to 0 through `MAXFRAME` and couple the two, so a start past the end also moves the end, and an end before the start moves the start.
- LegacyRender.ApplyOverridesMeaning: the same setters (`render.py:119-120` and the restore at `render.py:150-151`) are modelled as plain assignments, so a reversed or out-of-range job range reads back as given.
- Worker.WithResolution: stores the recorded percentage as given. Blender clamps `resolution_percentage` to 1 through 32767.
- Worker.WithEngine: stores the recorded engine name as given. Blender raises `TypeError` for a name that is not one of the enum's items, and that error would end the worker.
- Worker.WithFormat: stores the recorded format name as given, with the same `TypeError` left out.
- Supervisor.BatchRender.Modal: records only the "RenderCue Error" notifications of a read status file. On stop and exit ticks it runs `finish`, which also sends the "RenderCue Complete" notification when `show_notifications` is on (`rendercue/render.py:320-331`); that notification is left out, as the FinishRun line below says.
- Supervisor.BatchRender.Poll: likewise records only the error notifications; the "RenderCue Complete" notification that `finish` sends on an exit tick is left out.
- Supervisor.BatchRender.FinishRun: leaves out three things `finish` does at `rendercue/render.py:304-331`:
  - it stores `completion_statusbar_timestamp`, a clock read;
  - it opens `show_summary_popup`, which is UI;
  - if `show_notifications` is switched on in the preferences, it sends `show_notification("RenderCue Complete", …)`. That message carries the file name, `finished_frames_count` and a time text from a second clock read, and it goes out even after an empty queue. `Notifications.ShowNotification` models the call itself.
- `settings.vse_channel` (`vse_sync.py`) is declared by no property. The channel is a parameter of `VseSync.SyncFromVse`.
- Meta strips, the difference between `sequences_all` and `sequences`, and Blender's renaming of clashing strip names are left out. The timeline is one flat list of strips.
- `int(strip.animation_offset_start)` (`vse_sync.py`) is taken on an offset that is already whole. Fractional offsets are not modelled.
- `ui_helpers.OVERRIDE_METADATA` (`rendercue/operators.py`) is not defined in `rendercue/ui_helpers.py`. `ApplyOverride.ApplyOverrideToAll` takes the table as a parameter. With no table, the lookup raises as soon as any override is ticked (`ApplyOverride.MissingTableRaises`). Which entries the real table has is not part of this model.
- Fields that the code reads but that the property declarations do not list get defaults the model chose: False, 0, "" or None, except a frame step of 1 and a render status of "PENDING" (`Properties.NewJob`). Examples are the job's camera, device and frame step, per-job progress, and the summary fields. In Blender, reading or writing such an undeclared name raises `AttributeError`, so these defaults stand in for a crash, for example at `settings.use_custom_output_path` (`rendercue/core.py:46` and `95`), `job.completed_frames = 0` (`rendercue/render.py:188`) and the sum at `rendercue/render.py:281`.
- LegacyOperators.LegacyApplyOverrideToAll: parses only the five flag and value pairs `ui.py` passes (`ui.py:110-133`), plus `frame_start` and `frame_end` as value names. Any other name is modelled as raising, where `getattr` and `setattr` would accept any attribute of the job.
- Strings.TitleCase: covers ASCII letters only, where Python's `str.title()` follows Unicode letter classes.
- Strings.PathJoin: models POSIX `os.path.join`. Windows drive letters and backslashes are not modelled.
- VersionCompat.SetEeveeSamples: works on the Eevee settings as a value and returns the new settings. It does not model assignment to a shared scene object.
- VersionCompat.SetImageFormat: the current format (`get_image_format`) is a parameter, and so is the error text of the refused assignment. The warning log lines are not modelled.
- VersionCompat.AvailableEngines: whether the `EEVEE_NEXT_RenderEngine` class exists is a parameter, not a lookup in `bpy.types`.
- `log_version_info` and `get_safe_icon` are left out. The first only logs; the second is an alias of `get_icon`.

## Findings

| source | as written | input that shows it | evidently intended | confidence | as-written member | corrected member |
|---|---|---|---|---|---|---|
| rendercue/notifications.py:128-136 | the toast text is sanitised by doubling `"` and `'`, then placed in a double-quoted PowerShell string | a title `$(calc)` passes unchanged and is run as a subexpression; a message `it's` is shown as `it''s` | the title and message appear literally, so `` ` ``, `$` and `"` are escaped with a backtick and `'` is left alone | not executed | Notifications.ShowNotification, Notifications.ToastEscapeLetsSubexpressionRun, Notifications.ToastEscapeDoublesApostrophe | Notifications.ShowNotificationEscaped |
