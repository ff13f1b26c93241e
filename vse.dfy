/**
 * "Sync to VSE" (`vse.py`) of the older add-on: channel 1 of the video
 * sequence editor is emptied and refilled with one scene strip per queued
 * job, back to back from frame 1 in queue order. A strip Blender fails to
 * add is reported and takes no room on the timeline.
 */
module Vse {
  import opened Wrappers
  import opened Blender
  import opened LegacyProperties

  const SCENE_STRIP: string := "SCENE"

  /** The channel the operator clears and fills. */
  const TARGET_CHANNEL: int := 1

  /**
   * A strip of the sequence editor: its type, the scene a scene strip
   * shows, its channel, first frame, length (`frame_final_duration`) and
   * `animation_offset_start`.
   */
  datatype Strip = Strip(
    name: string,
    kind: string,
    scene: Option<string>,
    channel: int,
    frameStart: int,
    duration: int,
    offsetStart: int
  )

  /** The frames a job renders: its own range when overridden, else the scene's. */
  function JobStart(job: LegacyJob, sc: Scene): int {
    if job.overrideFrameRange then job.frameStart else sc.frameStart
  }

  function JobEnd(job: LegacyJob, sc: Scene): int {
    if job.overrideFrameRange then job.frameEnd else sc.frameEnd
  }

  function JobDuration(job: LegacyJob, sc: Scene): int {
    JobEnd(job, sc) - JobStart(job, sc) + 1
  }

  /** The strips outside `channel`, in order: the ones the clearing loop leaves. */
  function OutsideChannel(strips: seq<Strip>, channel: int): (r: seq<Strip>)
    ensures |r| <= |strips|
    ensures forall k :: 0 <= k < |r| ==> r[k].channel != channel && r[k] in strips
    decreases |strips|
  {
    if strips == [] then []
    else
      var rest := OutsideChannel(strips[..|strips| - 1], channel);
      var s := strips[|strips| - 1];
      if s.channel != channel then rest + [s] else rest
  }

  /** The strips placed so far, the placement cursor and the number of warnings. */
  datatype Layout = Layout(strips: seq<Strip>, cursor: int, warnings: nat)

  /** Blender keeps a strip at least one frame long: `frame_final_duration` is raised to 1. */
  function StripLength(d: int): (r: int)
    ensures r >= 1 && r >= d
    ensures d >= 1 ==> r == d
  {
    if d < 1 then 1 else d
  }

  /** Blender keeps `animation_offset_start` at zero or more. */
  function StripOffset(o: int): (r: int)
    ensures r >= 0 && r >= o
    ensures o >= 0 ==> r == o
  {
    if o < 0 then 0 else o
  }

  /** The offset the operator asks for: the job's first frame past the scene's, under an override. */
  function JobOffset(job: LegacyJob, sc: Scene): int {
    if job.overrideFrameRange then job.frameStart - sc.frameStart else 0
  }

  /**
   * The strip shows the job's scene, with the job's length and start
   * offset as Blender stores them.
   */
  predicate StripFor(st: Strip, job: LegacyJob, scenes: seq<Scene>)
    requires JobSceneIndex(job, scenes).Some?
  {
    var sc := scenes[JobSceneIndex(job, scenes).value];
    st.scene == job.scene && st.duration == StripLength(JobDuration(job, sc))
    && st.offsetStart == StripOffset(JobOffset(job, sc))
  }

  /**
   * One job: skipped without a scene; otherwise a strip at the cursor,
   * of the job's length and, with an override, offset into the scene by
   * the difference of the start frames, both as Blender clamps them; the
   * cursor then moves by the job's own length, unclamped. A failed add
   * (`addFails(i)`) only adds a warning.
   */
  function Place(l: Layout, job: LegacyJob, i: nat, scenes: seq<Scene>, addFails: nat -> bool): (r: Layout)
    ensures JobSceneIndex(job, scenes).None? ==> r == l
    ensures JobSceneIndex(job, scenes).Some? && addFails(i) ==> r == l.(warnings := l.warnings + 1)
    ensures JobSceneIndex(job, scenes).Some? && !addFails(i) ==>
      && |r.strips| == |l.strips| + 1 && r.strips[..|l.strips|] == l.strips && r.warnings == l.warnings
      && StripFor(r.strips[|l.strips|], job, scenes)
      && r.strips[|l.strips|].channel == TARGET_CHANNEL && r.strips[|l.strips|].kind == SCENE_STRIP
      && r.strips[|l.strips|].frameStart == l.cursor
      && r.cursor == l.cursor + JobDuration(job, scenes[JobSceneIndex(job, scenes).value])
  {
    match JobSceneIndex(job, scenes)
    case None => l
    case Some(k) =>
      var sc := scenes[k];
      var d := JobDuration(job, sc);
      if addFails(i) then l.(warnings := l.warnings + 1)
      else
        Layout(l.strips + [Strip(sc.name, SCENE_STRIP, Some(sc.name), TARGET_CHANNEL, l.cursor,
                                 StripLength(d), StripOffset(JobOffset(job, sc)))],
               l.cursor + d, l.warnings)
  }

  /** The placement of the whole queue, from frame 1. */
  function LayoutOf(jobs: seq<LegacyJob>, scenes: seq<Scene>, addFails: nat -> bool): (l: Layout)
    ensures |l.strips| + l.warnings <= |jobs|
    decreases |jobs|
  {
    if jobs == [] then Layout([], 1, 0)
    else Place(LayoutOf(jobs[..|jobs| - 1], scenes, addFails), jobs[|jobs| - 1], |jobs| - 1, scenes, addFails)
  }

  /** Every job that has a scene is at least one frame long. */
  predicate LongJobs(jobs: seq<LegacyJob>, scenes: seq<Scene>) {
    forall i :: 0 <= i < |jobs| && JobSceneIndex(jobs[i], scenes).Some? ==>
      JobDuration(jobs[i], scenes[JobSceneIndex(jobs[i], scenes).value]) >= 1
  }

  /**
   * The first strip starts at frame 1, every strip is one frame long or
   * more, each starts no later than the one before it ends, and so does
   * the cursor.
   */
  predicate Chained(l: Layout) {
    && (l.strips == [] ==> l.cursor == 1)
    && (l.strips != [] ==>
          l.strips[0].frameStart == 1
          && l.cursor <= l.strips[|l.strips| - 1].frameStart + l.strips[|l.strips| - 1].duration)
    && (forall k :: 0 <= k < |l.strips| ==> l.strips[k].duration >= 1)
    && forall k :: 0 <= k < |l.strips| - 1 ==> l.strips[k + 1].frameStart <= l.strips[k].frameStart + l.strips[k].duration
  }

  /** Each strip starts exactly where the one before it ends, and the cursor stops at the end of the last. */
  predicate Contiguous(l: Layout) {
    && (l.strips != [] ==> l.cursor == l.strips[|l.strips| - 1].frameStart + l.strips[|l.strips| - 1].duration)
    && forall k :: 0 <= k < |l.strips| - 1 ==> l.strips[k + 1].frameStart == l.strips[k].frameStart + l.strips[k].duration
  }

  /** Placing one job keeps the layout chained, and contiguous when the job is at least one frame long. */
  lemma PlaceChained(l: Layout, job: LegacyJob, i: nat, scenes: seq<Scene>, addFails: nat -> bool)
    requires Chained(l)
    ensures Chained(Place(l, job, i, scenes, addFails))
    ensures Contiguous(l) && (JobSceneIndex(job, scenes).Some? ==> JobDuration(job, scenes[JobSceneIndex(job, scenes).value]) >= 1)
      ==> Contiguous(Place(l, job, i, scenes, addFails))
  {
    var r := Place(l, job, i, scenes, addFails);
    if JobSceneIndex(job, scenes).Some? && !addFails(i) {
      var n := |l.strips|;
      var st := r.strips[n];
      assert r.strips == l.strips + [st];
      assert st.duration >= 1 && st.frameStart == l.cursor;
      assert forall k :: 0 <= k < n ==> r.strips[k] == l.strips[k];
    }
  }

  /**
   * The first strip starts at frame 1 and each strip starts no later
   * than the one before it ends; when every job is at least one frame
   * long, each starts exactly there and the cursor stops at the end of
   * the last. A shorter job's strip is clamped to one frame while the
   * cursor moves by the job's own length, so the next strip overlaps it.
   */
  lemma {:induction false} LayoutContiguous(jobs: seq<LegacyJob>, scenes: seq<Scene>, addFails: nat -> bool)
    ensures Chained(LayoutOf(jobs, scenes, addFails))
    ensures LongJobs(jobs, scenes) ==> Contiguous(LayoutOf(jobs, scenes, addFails))
    decreases |jobs|
  {
    if jobs != [] {
      var front := jobs[..|jobs| - 1];
      var last := jobs[|jobs| - 1];
      LayoutContiguous(front, scenes, addFails);
      if LongJobs(jobs, scenes) {
        assert forall i :: 0 <= i < |front| ==> front[i] == jobs[i];
        assert LongJobs(front, scenes);
        assert JobSceneIndex(last, scenes).Some? ==> JobDuration(last, scenes[JobSceneIndex(last, scenes).value]) >= 1;
      }
      PlaceChained(LayoutOf(front, scenes, addFails), last, |jobs| - 1, scenes, addFails);
    }
  }

  /** When every job is at least one frame long, every strip ends before any later one starts. */
  lemma NoOverlap(jobs: seq<LegacyJob>, scenes: seq<Scene>, addFails: nat -> bool, a: nat, b: nat)
    requires LongJobs(jobs, scenes) && a < b < |LayoutOf(jobs, scenes, addFails).strips|
    ensures var l := LayoutOf(jobs, scenes, addFails);
      l.strips[a].frameStart + l.strips[a].duration <= l.strips[b].frameStart
    decreases b - a
  {
    LayoutContiguous(jobs, scenes, addFails);
    var l := LayoutOf(jobs, scenes, addFails);
    assert l.strips[a + 1].frameStart == l.strips[a].frameStart + l.strips[a].duration;
    if a + 1 < b {
      assert l.strips[a + 1].duration >= 1;
      NoOverlap(jobs, scenes, addFails, a + 1, b);
    }
  }

  /** Placing a job keeps the strips placed before it. */
  lemma KeepsPlaced(l: Layout, job: LegacyJob, i: nat, scenes: seq<Scene>, addFails: nat -> bool)
    ensures var r := Place(l, job, i, scenes, addFails);
      |r.strips| >= |l.strips| && forall k :: 0 <= k < |l.strips| ==> r.strips[k] == l.strips[k]
  {
    var r := Place(l, job, i, scenes, addFails);
    if |r.strips| != |l.strips| {
      forall k | 0 <= k < |l.strips|
        ensures r.strips[k] == l.strips[k]
      {
        assert r.strips[..|l.strips|][k] == r.strips[k];
      }
    }
  }

  /** Every strip of the layout is a scene strip of channel 1. */
  predicate InChannel(l: Layout) {
    forall k :: 0 <= k < |l.strips| ==> l.strips[k].channel == TARGET_CHANNEL && l.strips[k].kind == SCENE_STRIP
  }

  lemma PlaceInChannel(l: Layout, job: LegacyJob, i: nat, scenes: seq<Scene>, addFails: nat -> bool)
    requires InChannel(l)
    ensures InChannel(Place(l, job, i, scenes, addFails))
  {
    var r := Place(l, job, i, scenes, addFails);
    KeepsPlaced(l, job, i, scenes, addFails);
    forall k | 0 <= k < |r.strips|
      ensures r.strips[k].channel == TARGET_CHANNEL && r.strips[k].kind == SCENE_STRIP
    {
      if k < |l.strips| {
        assert r.strips[k] == l.strips[k];
      }
    }
  }

  /** Every placed strip is a scene strip of channel 1. */
  lemma {:induction false} LayoutInChannel(jobs: seq<LegacyJob>, scenes: seq<Scene>, addFails: nat -> bool)
    ensures InChannel(LayoutOf(jobs, scenes, addFails))
    decreases |jobs|
  {
    if jobs != [] {
      LayoutInChannel(jobs[..|jobs| - 1], scenes, addFails);
      PlaceInChannel(LayoutOf(jobs[..|jobs| - 1], scenes, addFails), jobs[|jobs| - 1], |jobs| - 1, scenes, addFails);
    }
  }

  /** Every job has a scene and no add fails. */
  predicate AllPlaceable(jobs: seq<LegacyJob>, scenes: seq<Scene>, addFails: nat -> bool) {
    forall i :: 0 <= i < |jobs| ==> JobSceneIndex(jobs[i], scenes).Some? && !addFails(i)
  }

  /** The layout holds one strip per job, for that job, and no warning. */
  predicate Follows(l: Layout, jobs: seq<LegacyJob>, scenes: seq<Scene>, addFails: nat -> bool)
    requires AllPlaceable(jobs, scenes, addFails)
  {
    |l.strips| == |jobs| && l.warnings == 0
    && forall i :: 0 <= i < |jobs| ==> StripFor(l.strips[i], jobs[i], scenes)
  }

  lemma PlaceFollows(l: Layout, jobs: seq<LegacyJob>, job: LegacyJob, scenes: seq<Scene>, addFails: nat -> bool)
    requires AllPlaceable(jobs + [job], scenes, addFails)
    requires AllPlaceable(jobs, scenes, addFails) && Follows(l, jobs, scenes, addFails)
    ensures Follows(Place(l, job, |jobs|, scenes, addFails), jobs + [job], scenes, addFails)
  {
    var all := jobs + [job];
    assert JobSceneIndex(all[|jobs|], scenes).Some? && !addFails(|jobs|);
    var r := Place(l, job, |jobs|, scenes, addFails);
    KeepsPlaced(l, job, |jobs|, scenes, addFails);
    forall i | 0 <= i < |all|
      ensures StripFor(r.strips[i], all[i], scenes)
    {
      if i < |jobs| {
        assert all[i] == jobs[i] && r.strips[i] == l.strips[i];
      }
    }
  }

  /** When every job can be placed, there is exactly one strip per job, in queue order. */
  lemma {:induction false} LayoutFollowsQueue(jobs: seq<LegacyJob>, scenes: seq<Scene>, addFails: nat -> bool)
    requires AllPlaceable(jobs, scenes, addFails)
    ensures Follows(LayoutOf(jobs, scenes, addFails), jobs, scenes, addFails)
    decreases |jobs|
  {
    if jobs != [] {
      var front := jobs[..|jobs| - 1];
      assert front + [jobs[|jobs| - 1]] == jobs;
      assert forall i :: 0 <= i < |front| ==> front[i] == jobs[i];
      LayoutFollowsQueue(front, scenes, addFails);
      PlaceFollows(LayoutOf(front, scenes, addFails), front, jobs[|jobs| - 1], scenes, addFails);
    }
  }

  /** The sequence editor of the current scene. */
  class Timeline {
    var hasEditor: bool
    var strips: seq<Strip>

    constructor(hasEditor: bool, strips: seq<Strip>)
      ensures this.hasEditor == hasEditor && this.strips == strips
    {
      this.hasEditor := hasEditor;
      this.strips := strips;
    }
  }

  /** The clearing loop: every strip of `channel` is removed, the others keep their order. */
  method ClearChannel(t: Timeline, channel: int)
    modifies t`strips
    ensures t.strips == OutsideChannel(old(t.strips), channel)
  {
    var all := t.strips;
    var kept := [];
    for i := 0 to |all|
      invariant kept == OutsideChannel(all[..i], channel)
    {
      assert all[..i + 1][..i] == all[..i];
      if all[i].channel != channel {
        kept := kept + [all[i]];
      }
    }
    assert all[..|all|] == all;
    t.strips := kept;
  }

  /** The body of the placement loop, for job `i`. */
  method PlaceJob(t: Timeline, ghost kept: seq<Strip>, ghost l: Layout, job: LegacyJob, i: nat, scenes: seq<Scene>,
                  addFails: nat -> bool, cursor: int, warnings: nat) returns (cursor': int, warnings': nat)
    requires t.strips == kept + l.strips && cursor == l.cursor && warnings == l.warnings
    modifies t`strips
    ensures var p := Place(l, job, i, scenes, addFails);
      t.strips == kept + p.strips && cursor' == p.cursor && warnings' == p.warnings
  {
    cursor', warnings' := cursor, warnings;
    var k := JobSceneIndex(job, scenes);
    if k.Some? {
      var sc := scenes[k.value];
      var duration := JobDuration(job, sc);
      if addFails(i) {
        warnings' := warnings + 1;
      } else {
        var offset := JobOffset(job, sc);
        // frame_final_duration and animation_offset_start, as Blender clamps them
        t.strips := t.strips + [Strip(sc.name, SCENE_STRIP, Some(sc.name), TARGET_CHANNEL, cursor,
                                      StripLength(duration), StripOffset(offset))];
        cursor' := cursor + duration;
      }
    }
  }

  /**
   * `RENDERCUE_OT_sync_vse.execute`: creates the editor if needed, clears
   * channel 1 and lays the queue out on it; returns the number of warnings.
   */
  method SyncToVse(t: Timeline, s: LegacySettings, scenes: seq<Scene>, addFails: nat -> bool) returns (warnings: nat)
    modifies t
    ensures t.hasEditor
    ensures t.strips == OutsideChannel(old(t.strips), TARGET_CHANNEL) + LayoutOf(s.jobs, scenes, addFails).strips
    ensures warnings == LayoutOf(s.jobs, scenes, addFails).warnings
  {
    if !t.hasEditor {
      t.hasEditor := true;
    }
    ClearChannel(t, TARGET_CHANNEL);
    ghost var kept := t.strips;
    var cursor := 1;
    warnings := 0;
    for i := 0 to |s.jobs|
      invariant t.hasEditor
      invariant var l := LayoutOf(s.jobs[..i], scenes, addFails);
        t.strips == kept + l.strips && cursor == l.cursor && warnings == l.warnings
    {
      assert s.jobs[..i + 1][..i] == s.jobs[..i];
      cursor, warnings := PlaceJob(t, kept, LayoutOf(s.jobs[..i], scenes, addFails), s.jobs[i], i, scenes, addFails,
                                   cursor, warnings);
    }
    assert s.jobs[..|s.jobs|] == s.jobs;
  }
}
