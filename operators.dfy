/**
 * The packaged add-on's queue operators (`rendercue/operators.py`): add,
 * remove and move a job, add all scenes, stop, pause and resume. Applying
 * an override to all jobs is in `ApplyOverride`.
 *
 * An operator whose `poll` fails cannot be run, so `poll` becomes the
 * precondition. A collection call Blender refuses (an index out of range)
 * raises; the model returns `false` and changes nothing.
 */
module Operators {
  import opened Wrappers
  import opened Blender
  import opened Properties
  import opened Manifest
  import opened Constants
  import opened Strings
  import Supervisor

  /** `poll` of remove and move: the queue is not empty and the active index not negative. */
  predicate CanEdit(s: Settings)
    reads s
  {
    |s.jobs| > 0 && s.activeJobIndex >= 0
  }

  // ------------------------------------------------------------- add

  /** The job `jobs.add()` creates, pointed at `scene`. */
  function JobFor(scene: string): (j: Job)
    ensures j.scene == Some(scene) && NoOverrides(j) && ValidJob(j)
  {
    NewJob().(scene := Some(scene))
  }

  /** `add_job`: one job for the current scene, appended and made active. */
  method AddJob(s: Settings, scene: string)
    modifies s`jobs, s`activeJobIndex
    ensures s.jobs == old(s.jobs) + [JobFor(scene)]
    ensures s.activeJobIndex == |s.jobs| - 1
  {
    s.jobs := s.jobs + [JobFor(scene)];
    s.activeJobIndex := |s.jobs| - 1;
  }

  // ---------------------------------------------------------- remove

  function RemoveAt<T>(jobs: seq<T>, i: nat): (r: seq<T>)
    requires i < |jobs|
    ensures |r| == |jobs| - 1
    ensures forall k :: 0 <= k < i ==> r[k] == jobs[k]
    ensures forall k :: i <= k < |r| ==> r[k] == jobs[k + 1]
  {
    jobs[..i] + jobs[i + 1..]
  }

  /** The active index after a removal left `n` jobs: an index past the end moves to the last job, or 0. */
  function ActiveAfterRemove(active: int, n: nat): (r: int)
    requires active >= 0
    ensures n > 0 ==> 0 <= r < n
    ensures n == 0 ==> r == 0
    ensures active < n ==> r == active
  {
    if active >= n then if n - 1 > 0 then n - 1 else 0 else active
  }

  /** `remove_job`: deletes the active job and clamps the active index. */
  method RemoveJob(s: Settings) returns (ok: bool)
    requires CanEdit(s)
    modifies s`jobs, s`activeJobIndex
    ensures ok <==> old(s.activeJobIndex) < |old(s.jobs)|
    ensures ok ==> s.jobs == RemoveAt(old(s.jobs), old(s.activeJobIndex))
                   && s.activeJobIndex == ActiveAfterRemove(old(s.activeJobIndex), |s.jobs|)
    ensures !ok ==> s.jobs == old(s.jobs) && s.activeJobIndex == old(s.activeJobIndex)
  {
    if s.activeJobIndex >= |s.jobs| {
      return false;
    }
    s.jobs := RemoveAt(s.jobs, s.activeJobIndex);
    if s.activeJobIndex >= |s.jobs| {
      s.activeJobIndex := if |s.jobs| - 1 > 0 then |s.jobs| - 1 else 0;
    }
    return true;
  }

  // ------------------------------------------------------------ move

  datatype Direction = Up | Down

  /** Where the active job moves to, if it moves at all. */
  function MoveTarget(idx: int, n: nat, dir: Direction): Option<int> {
    if dir == Up && idx > 0 then Some(idx - 1)
    else if dir == Down && idx < n - 1 then Some(idx + 1)
    else None
  }

  function Swap<T>(jobs: seq<T>, i: nat, j: nat): (r: seq<T>)
    requires i < |jobs| && j < |jobs|
    ensures |r| == |jobs| && r[i] == jobs[j] && r[j] == jobs[i]
    ensures forall k :: 0 <= k < |jobs| && k != i && k != j ==> r[k] == jobs[k]
  {
    jobs[i := jobs[j]][j := jobs[i]]
  }

  /** Swapping two jobs keeps the same jobs, each as often as before. */
  lemma SwapKeepsJobs<T>(jobs: seq<T>, i: nat, j: nat)
    requires i < |jobs| && j < |jobs|
    ensures multiset(Swap(jobs, i, j)) == multiset(jobs)
  {
    var a := jobs[i := jobs[j]];
    assert multiset(a) == multiset(jobs) - multiset{jobs[i]} + multiset{jobs[j]};
    assert multiset(a[j := jobs[i]]) == multiset(a) - multiset{a[j]} + multiset{jobs[i]};
  }

  /**
   * `move_job`: the active job changes places with its neighbour in the
   * given direction, and the active index follows it; at either end
   * nothing changes.
   */
  method MoveJob(s: Settings, dir: Direction) returns (ok: bool)
    requires CanEdit(s)
    modifies s`jobs, s`activeJobIndex
    ensures var t := MoveTarget(old(s.activeJobIndex), |old(s.jobs)|, dir);
      ok <==> t.None? || old(s.activeJobIndex) < |old(s.jobs)|
    ensures var t := MoveTarget(old(s.activeJobIndex), |old(s.jobs)|, dir);
      if t.Some? && old(s.activeJobIndex) < |old(s.jobs)| then
        s.jobs == Swap(old(s.jobs), old(s.activeJobIndex), t.value) && s.activeJobIndex == t.value
      else s.jobs == old(s.jobs) && s.activeJobIndex == old(s.activeJobIndex)
  {
    var idx := s.activeJobIndex;
    if dir == Up && idx > 0 {
      if idx >= |s.jobs| {
        return false;
      }
      s.jobs := Swap(s.jobs, idx, idx - 1);
      s.activeJobIndex := s.activeJobIndex - 1;
    } else if dir == Down && idx < |s.jobs| - 1 {
      s.jobs := Swap(s.jobs, idx, idx + 1);
      s.activeJobIndex := s.activeJobIndex + 1;
    }
    return true;
  }

  /** A move keeps the queue's jobs and the active job: the one selected before is selected after. */
  lemma MoveKeepsJobs<T>(jobs: seq<T>, idx: nat, dir: Direction)
    requires idx < |jobs| && MoveTarget(idx, |jobs|, dir).Some?
    ensures var t := MoveTarget(idx, |jobs|, dir).value;
      0 <= t < |jobs| && multiset(Swap(jobs, idx, t)) == multiset(jobs) && Swap(jobs, idx, t)[t] == jobs[idx]
  {
    SwapKeepsJobs(jobs, idx, MoveTarget(idx, |jobs|, dir).value);
  }

  // ---------------------------------------------------- add all scenes

  /** `{job.scene for job in settings.jobs if job.scene}`, by name. */
  function QueuedScenes(jobs: seq<Job>): set<string> {
    set j | j in jobs && j.scene.Some? :: j.scene.value
  }

  /** In order, the scenes with a camera that are not in `queued`. */
  function NewScenes(queued: set<string>, scenes: seq<Scene>): seq<string>
    decreases |scenes|
  {
    if scenes == [] then []
    else
      var rest := NewScenes(queued, scenes[..|scenes| - 1]);
      var sc := scenes[|scenes| - 1];
      if sc.name !in queued && sc.camera.Some? then rest + [sc.name] else rest
  }

  function JobsFor(names: seq<string>): (r: seq<Job>)
    ensures |r| == |names|
    ensures forall i :: 0 <= i < |names| ==> r[i] == JobFor(names[i])
  {
    seq(|names|, i requires 0 <= i < |names| => JobFor(names[i]))
  }

  /** `populate_all`: jobs for every scene with a camera not queued before, in scene order; their number. */
  method PopulateAll(s: Settings, scenes: seq<Scene>) returns (count: nat)
    modifies s`jobs
    ensures s.jobs == old(s.jobs) + JobsFor(NewScenes(QueuedScenes(old(s.jobs)), scenes))
    ensures count == |NewScenes(QueuedScenes(old(s.jobs)), scenes)|
  {
    var existing := QueuedScenes(s.jobs);
    ghost var jobs := s.jobs;
    count := 0;
    for i := 0 to |scenes|
      invariant s.jobs == jobs + JobsFor(NewScenes(existing, scenes[..i]))
      invariant count == |NewScenes(existing, scenes[..i])|
    {
      assert scenes[..i + 1][..i] == scenes[..i];
      var scene := scenes[i];
      if scene.name !in existing && scene.camera.Some? {
        s.jobs := s.jobs + [JobFor(scene.name)];
        count := count + 1;
      }
    }
    assert scenes[..|scenes|] == scenes;
  }

  /**
   * A name is added exactly when some scene of that name has a camera and
   * no queued job points at it.
   */
  lemma {:induction false} NewScenesMeaning(queued: set<string>, scenes: seq<Scene>, n: string)
    ensures n in NewScenes(queued, scenes)
        <==> n !in queued && exists i :: 0 <= i < |scenes| && scenes[i].name == n && scenes[i].camera.Some?
    decreases |scenes|
  {
    if scenes != [] {
      var init := scenes[..|scenes| - 1];
      NewScenesMeaning(queued, init, n);
      if n in NewScenes(queued, scenes) && n !in NewScenes(queued, init) {
        assert scenes[|scenes| - 1].name == n;
      }
      if exists i :: 0 <= i < |scenes| && scenes[i].name == n && scenes[i].camera.Some? {
        var i :| 0 <= i < |scenes| && scenes[i].name == n && scenes[i].camera.Some?;
        if i < |scenes| - 1 {
          assert init[i] == scenes[i];
        }
      }
    }
  }

  lemma QueuedScenesAppend(jobs: seq<Job>, names: seq<string>)
    ensures QueuedScenes(jobs + JobsFor(names)) == QueuedScenes(jobs) + set n | n in names
  {
    var all := jobs + JobsFor(names);
    forall n | n in names
      ensures n in QueuedScenes(all)
    {
      var i :| 0 <= i < |names| && names[i] == n;
      assert all[|jobs| + i] == JobFor(n);
    }
    forall n | n in QueuedScenes(all)
      ensures n in QueuedScenes(jobs) || n in names
    {
      var j :| j in all && j.scene.Some? && j.scene.value == n;
      if j !in jobs {
        var i :| 0 <= i < |all| && all[i] == j;
        assert all[i] == JobFor(names[i - |jobs|]);
      }
    }
  }

  /** Adding all scenes a second time adds nothing. */
  lemma PopulateTwiceAddsNothing(jobs: seq<Job>, scenes: seq<Scene>)
    ensures var once := jobs + JobsFor(NewScenes(QueuedScenes(jobs), scenes));
      NewScenes(QueuedScenes(once), scenes) == []
  {
    var added := NewScenes(QueuedScenes(jobs), scenes);
    var once := jobs + JobsFor(added);
    QueuedScenesAppend(jobs, added);
    if NewScenes(QueuedScenes(once), scenes) != [] {
      var n := NewScenes(QueuedScenes(once), scenes)[0];
      NewScenesMeaning(QueuedScenes(once), scenes, n);
      NewScenesMeaning(QueuedScenes(jobs), scenes, n);
      assert false;
    }
  }

  // ------------------------------------------------------------ stop

  function Pending(j: Job): Job {
    j.(renderStatus := "PENDING")
  }

  function AllPending(jobs: seq<Job>): (r: seq<Job>)
    ensures |r| == |jobs|
  {
    seq(|jobs|, i requires 0 <= i < |jobs| => Pending(jobs[i]))
  }

  /**
   * `stop_render`: the stop is requested, every job shows PENDING, the current
   * job index goes back to 0 and the preview is cleared.
   */
  method StopRender(s: Settings)
    modifies s`stopRequested, s`jobs, s`currentJobIndex, s`hasPreviewImage
    ensures s.stopRequested && s.currentJobIndex == 0 && !s.hasPreviewImage
    ensures s.jobs == AllPending(old(s.jobs))
  {
    s.stopRequested := true;
    ghost var jobs := s.jobs;
    for i := 0 to |s.jobs|
      invariant s.stopRequested && |s.jobs| == |jobs|
      invariant forall k :: 0 <= k < i ==> s.jobs[k] == Pending(jobs[k])
      invariant forall k :: i <= k < |jobs| ==> s.jobs[k] == jobs[k]
    {
      s.jobs := s.jobs[i := Pending(s.jobs[i])];
    }
    s.currentJobIndex := 0;
    s.hasPreviewImage := false;
  }

  /**
   * After a stop no job counts as completed, but the frames they completed
   * still add up as before, so the next summary still has them.
   */
  lemma {:induction false} StopKeepsFrames(jobs: seq<Job>)
    ensures Supervisor.CompletedFrames(AllPending(jobs)) == Supervisor.CompletedFrames(jobs)
    ensures Supervisor.StatusCount(AllPending(jobs), "COMPLETED") == 0
    decreases |jobs|
  {
    if jobs != [] {
      var init := jobs[..|jobs| - 1];
      assert AllPending(jobs)[..|jobs| - 1] == AllPending(init);
      StopKeepsFrames(init);
    }
  }

  // ------------------------------------------------- pause and resume

  /**
   * `pause_render`: the flag is set and the signal file written (its text
   * is no JSON document); a failed write is ignored.
   */
  method PauseRender(s: Settings, disk: Disk, tempDir: string, writable: bool)
    modifies s`isPaused, disk
    ensures s.isPaused
    ensures disk.files == if writable then old(disk.files)[PathJoin(tempDir, PAUSE_SIGNAL_FILENAME) := Unparseable]
                          else old(disk.files)
  {
    s.isPaused := true;
    if writable {
      disk.files := disk.files[PathJoin(tempDir, PAUSE_SIGNAL_FILENAME) := Unparseable];
    }
  }

  /** `resume_render`: the flag is cleared and the signal file removed if it exists and can be removed. */
  method ResumeRender(s: Settings, disk: Disk, tempDir: string, removable: bool)
    modifies s`isPaused, disk
    ensures !s.isPaused
    ensures disk.files == if removable then old(disk.files) - {PathJoin(tempDir, PAUSE_SIGNAL_FILENAME)}
                          else old(disk.files)
  {
    s.isPaused := false;
    var pauseFile := PathJoin(tempDir, PAUSE_SIGNAL_FILENAME);
    if pauseFile in disk.files && removable {
      disk.files := disk.files - {pauseFile};
    }
  }
}
