/**
 * "Sync from VSE" (`vse_sync.py`) of the older add-on: the scene strips of
 * one channel of the sequence editor, ordered by start frame, become the
 * new queue, one job per strip that shows a scene. A strip shorter or
 * longer than its scene becomes a frame-range override.
 */
module VseSync {
  import opened Wrappers
  import opened Blender
  import opened LegacyProperties
  import opened LegacyOperators
  import opened Vse

  // ---------------------------------------------------------- filter

  /** The strip is a scene strip of `channel`. */
  predicate Matches(st: Strip, channel: int) {
    st.channel == channel && st.kind == SCENE_STRIP
  }

  /** The filtering loop's result: the scene strips of `channel`, in editor order. */
  function SceneStrips(strips: seq<Strip>, channel: int): (r: seq<Strip>)
    ensures |r| <= |strips|
    ensures forall k :: 0 <= k < |r| ==> Matches(r[k], channel)
    decreases |strips|
  {
    if strips == [] then []
    else
      var rest := SceneStrips(strips[..|strips| - 1], channel);
      var st := strips[|strips| - 1];
      if Matches(st, channel) then rest + [st] else rest
  }

  /** A strip is collected exactly when it is on the timeline and is a scene strip of `channel`. */
  lemma {:induction false} SceneStripsMembers(strips: seq<Strip>, channel: int, st: Strip)
    ensures st in SceneStrips(strips, channel) <==> st in strips && Matches(st, channel)
    decreases |strips|
  {
    if strips != [] {
      var front := strips[..|strips| - 1];
      SceneStripsMembers(front, channel, st);
      assert strips == front + [strips[|strips| - 1]];
    }
  }

  lemma {:induction false} SceneStripsNone(strips: seq<Strip>, channel: int)
    requires forall k :: 0 <= k < |strips| ==> strips[k].channel != channel
    ensures SceneStrips(strips, channel) == []
    decreases |strips|
  {
    if strips != [] {
      SceneStripsNone(strips[..|strips| - 1], channel);
    }
  }

  /** Dropping the strips of other channels first changes nothing. */
  lemma {:induction false} SceneStripsAfterOthers(others: seq<Strip>, strips: seq<Strip>, channel: int)
    requires forall k :: 0 <= k < |others| ==> others[k].channel != channel
    ensures SceneStrips(others + strips, channel) == SceneStrips(strips, channel)
    decreases |strips|
  {
    if strips == [] {
      assert others + strips == others;
      SceneStripsNone(others, channel);
    } else {
      var front := strips[..|strips| - 1];
      var all := others + strips;
      assert all[..|all| - 1] == others + front;
      assert all[|all| - 1] == strips[|strips| - 1];
      SceneStripsAfterOthers(others, front, channel);
    }
  }

  /** A sequence of matching strips is its own filter. */
  lemma {:induction false} SceneStripsOfMatching(strips: seq<Strip>, channel: int)
    requires forall k :: 0 <= k < |strips| ==> Matches(strips[k], channel)
    ensures SceneStrips(strips, channel) == strips
    decreases |strips|
  {
    if strips != [] {
      SceneStripsOfMatching(strips[..|strips| - 1], channel);
      assert strips[..|strips| - 1] + [strips[|strips| - 1]] == strips;
    }
  }

  // ---------------------------------------------------------- sort

  predicate SortedByStart(s: seq<Strip>) {
    forall a, b :: 0 <= a < b < |s| ==> s[a].frameStart <= s[b].frameStart
  }

  /** Inserts `x` into a sorted sequence after every strip that starts no later. */
  function InsertByStart(s: seq<Strip>, x: Strip): (r: seq<Strip>)
    ensures |r| == |s| + 1
    decreases |s|
  {
    if s == [] then [x]
    else if x.frameStart < s[0].frameStart then [x] + s
    else [s[0]] + InsertByStart(s[1..], x)
  }

  lemma {:induction false} InsertPermutes(s: seq<Strip>, x: Strip)
    ensures multiset(InsertByStart(s, x)) == multiset(s) + multiset{x}
    decreases |s|
  {
    if s != [] && x.frameStart >= s[0].frameStart {
      InsertPermutes(s[1..], x);
      assert s == [s[0]] + s[1..];
    }
  }

  /** Insertion keeps a lower bound that `x` and every strip of `s` have. */
  lemma {:induction false} InsertAbove(s: seq<Strip>, x: Strip, m: int)
    requires forall k :: 0 <= k < |s| ==> s[k].frameStart >= m
    requires x.frameStart >= m
    ensures forall k :: 0 <= k < |InsertByStart(s, x)| ==> InsertByStart(s, x)[k].frameStart >= m
    decreases |s|
  {
    if s != [] && x.frameStart >= s[0].frameStart {
      InsertAbove(s[1..], x, m);
    }
  }

  lemma {:induction false} InsertKeepsSorted(s: seq<Strip>, x: Strip)
    requires SortedByStart(s)
    ensures SortedByStart(InsertByStart(s, x))
    decreases |s|
  {
    if s != [] && x.frameStart >= s[0].frameStart {
      InsertKeepsSorted(s[1..], x);
      InsertAbove(s[1..], x, s[0].frameStart);
      var t := InsertByStart(s[1..], x);
      var r := [s[0]] + t;
      forall a, b | 0 <= a < b < |r|
        ensures r[a].frameStart <= r[b].frameStart
      {
        if a > 0 {
          assert r[a] == t[a - 1] && r[b] == t[b - 1];
        }
      }
    }
  }

  /** `scene_strips.sort(key=frame_start)`: a stable sort, as an insertion sort. */
  function SortByStart(s: seq<Strip>): (r: seq<Strip>)
    ensures |r| == |s|
    decreases |s|
  {
    if s == [] then [] else InsertByStart(SortByStart(s[..|s| - 1]), s[|s| - 1])
  }

  /** The sort orders the strips by start frame and keeps every strip. */
  lemma SortSortsAndPermutes(s: seq<Strip>)
    ensures SortedByStart(SortByStart(s))
    ensures multiset(SortByStart(s)) == multiset(s)
  {
    SortSorts(s);
    SortPermutes(s);
  }

  lemma {:induction false} SortSorts(s: seq<Strip>)
    ensures SortedByStart(SortByStart(s))
    decreases |s|
  {
    if s != [] {
      SortSorts(s[..|s| - 1]);
      InsertKeepsSorted(SortByStart(s[..|s| - 1]), s[|s| - 1]);
    }
  }

  lemma {:induction false} SortPermutes(s: seq<Strip>)
    ensures multiset(SortByStart(s)) == multiset(s)
    decreases |s|
  {
    if s != [] {
      var front := s[..|s| - 1];
      SortPermutes(front);
      InsertPermutes(SortByStart(front), s[|s| - 1]);
      assert s == front + [s[|s| - 1]];
      assert SortByStart(s) == InsertByStart(SortByStart(front), s[|s| - 1]);
    }
  }

  /** The strips that start at frame `f`, in order. */
  function StartingAt(s: seq<Strip>, f: int): seq<Strip>
    decreases |s|
  {
    if s == [] then []
    else (if s[0].frameStart == f then [s[0]] else []) + StartingAt(s[1..], f)
  }

  lemma {:induction false} StartingAtConcat(a: seq<Strip>, b: seq<Strip>, f: int)
    ensures StartingAt(a + b, f) == StartingAt(a, f) + StartingAt(b, f)
    decreases |a|
  {
    if a == [] {
      assert a + b == b;
    } else {
      var h := if a[0].frameStart == f then [a[0]] else [];
      assert (a + b)[0] == a[0];
      assert (a + b)[1..] == a[1..] + b;
      StartingAtConcat(a[1..], b, f);
      assert StartingAt(a + b, f) == h + (StartingAt(a[1..], f) + StartingAt(b, f));
      assert StartingAt(a, f) == h + StartingAt(a[1..], f);
    }
  }

  lemma {:induction false} StartingAtNone(s: seq<Strip>, f: int)
    requires forall k :: 0 <= k < |s| ==> s[k].frameStart > f
    ensures StartingAt(s, f) == []
    decreases |s|
  {
    if s != [] {
      StartingAtNone(s[1..], f);
    }
  }

  lemma StartingAtSingle(x: Strip, f: int)
    ensures StartingAt([x], f) == if x.frameStart == f then [x] else []
  {
    assert [x][1..] == [];
  }

  /** A strip that starts before all of `s` goes in front, ahead of any strip of its frame. */
  lemma InsertFrontStartingAt(s: seq<Strip>, x: Strip, f: int)
    requires SortedByStart(s) && s != [] && x.frameStart < s[0].frameStart
    ensures StartingAt([x] + s, f) == StartingAt(s, f) + StartingAt([x], f)
  {
    StartingAtSingle(x, f);
    assert ([x] + s)[1..] == s;
    if x.frameStart == f {
      StartingAtNone(s, f);
    }
  }

  lemma {:induction false} InsertStartingAt(s: seq<Strip>, x: Strip, f: int)
    requires SortedByStart(s)
    ensures StartingAt(InsertByStart(s, x), f) == StartingAt(s, f) + StartingAt([x], f)
    decreases |s|
  {
    if s == [] {
      StartingAtSingle(x, f);
    } else if x.frameStart < s[0].frameStart {
      InsertFrontStartingAt(s, x, f);
    } else {
      var t := InsertByStart(s[1..], x);
      InsertStartingAt(s[1..], x, f);
      assert ([s[0]] + t)[1..] == t;
      var h := if s[0].frameStart == f then [s[0]] else [];
      var fx := StartingAt([x], f);
      calc {
        StartingAt([s[0]] + t, f);
        h + StartingAt(t, f);
        h + (StartingAt(s[1..], f) + fx);
        (h + StartingAt(s[1..], f)) + fx;
        StartingAt(s, f) + fx;
      }
    }
  }

  /** Stability: strips that start on the same frame keep their editor order. */
  lemma {:induction false} SortIsStable(s: seq<Strip>, f: int)
    ensures StartingAt(SortByStart(s), f) == StartingAt(s, f)
    decreases |s|
  {
    if s != [] {
      var front := s[..|s| - 1];
      SortSorts(front);
      SortIsStable(front, f);
      InsertStartingAt(SortByStart(front), s[|s| - 1], f);
      assert s == front + [s[|s| - 1]];
      StartingAtConcat(front, [s[|s| - 1]], f);
    }
  }

  /** An already sorted sequence is left as it is. */
  lemma {:induction false} SortOfSorted(s: seq<Strip>)
    requires SortedByStart(s)
    ensures SortByStart(s) == s
    decreases |s|
  {
    if s != [] {
      var front := s[..|s| - 1];
      SortOfSorted(front);
      AppendSorted(front, s[|s| - 1]);
      assert front + [s[|s| - 1]] == s;
    }
  }

  lemma {:induction false} AppendSorted(s: seq<Strip>, x: Strip)
    requires forall k :: 0 <= k < |s| ==> s[k].frameStart <= x.frameStart
    ensures InsertByStart(s, x) == s + [x]
    decreases |s|
  {
    if s != [] {
      AppendSorted(s[1..], x);
      assert [s[0]] + (s[1..] + [x]) == s + [x];
    }
  }

  // ---------------------------------------------------------- rebuild

  /** The scene a strip shows, by position in the file; `None` when it shows none. */
  function StripScene(st: Strip, scenes: seq<Scene>): Option<nat> {
    PointedScene(st.scene, scenes)
  }

  function SceneDuration(sc: Scene): int {
    sc.frameEnd - sc.frameStart + 1
  }

  /**
   * The job for one strip: a plain job of the strip's scene and, when the
   * strip's length differs from the scene's, a range override starting at
   * the scene's first frame plus the strip's offset with the strip's length.
   */
  function JobFromStrip(st: Strip, sc: Scene): (j: LegacyJob)
    ensures j.scene == Some(sc.name) && ValidLegacyJob(j)
    ensures j.overrideFrameRange <==> st.duration != SceneDuration(sc)
    ensures !j.overrideOutput && !j.overrideResolution && !j.overrideFormat && !j.overrideSamples
    ensures j.overrideFrameRange ==> j.frameStart == sc.frameStart + st.offsetStart
    ensures JobDuration(j, sc) == st.duration
  {
    var j := LegacyJobFor(sc.name);
    if st.duration != SceneDuration(sc) then
      var start := sc.frameStart + st.offsetStart;
      j.(overrideFrameRange := true, frameStart := start, frameEnd := start + st.duration - 1)
    else j
  }

  /** The rebuilding loop's result: one job per strip that shows a scene, in strip order. */
  function JobsFromStrips(strips: seq<Strip>, scenes: seq<Scene>): (r: seq<LegacyJob>)
    ensures |r| <= |strips|
    decreases |strips|
  {
    if strips == [] then []
    else
      var rest := JobsFromStrips(strips[..|strips| - 1], scenes);
      var st := strips[|strips| - 1];
      match StripScene(st, scenes)
      case None => rest
      case Some(_) => rest + [JobOf(st, scenes)]
  }

  /** The job rebuilt from a strip that shows a scene. */
  function JobOf(st: Strip, scenes: seq<Scene>): LegacyJob
    requires StripScene(st, scenes).Some?
  {
    JobFromStrip(st, scenes[StripScene(st, scenes).value])
  }

  /** Every strip shows a scene of the file. */
  predicate AllShowScenes(strips: seq<Strip>, scenes: seq<Scene>) {
    forall k :: 0 <= k < |strips| ==> StripScene(strips[k], scenes).Some?
  }

  /** When every strip shows a scene, job `k` comes from strip `k`. */
  lemma {:induction false} JobsFollowStrips(strips: seq<Strip>, scenes: seq<Scene>)
    requires AllShowScenes(strips, scenes)
    ensures |JobsFromStrips(strips, scenes)| == |strips|
    ensures forall k :: 0 <= k < |strips| ==> JobsFromStrips(strips, scenes)[k] == JobOf(strips[k], scenes)
    decreases |strips|
  {
    if strips != [] {
      var front := strips[..|strips| - 1];
      var last := strips[|strips| - 1];
      assert forall k :: 0 <= k < |front| ==> front[k] == strips[k];
      JobsFollowStrips(front, scenes);
      assert StripScene(last, scenes).Some?;
      assert JobsFromStrips(strips, scenes) == JobsFromStrips(front, scenes) + [JobOf(last, scenes)];
    }
  }

  // ---------------------------------------------------------- round trip

  /** Strips laid end to end, none of negative length, are in start order. */
  lemma {:induction false} ChainMonotone(st: seq<Strip>, a: nat, b: nat)
    requires a <= b < |st|
    requires forall k :: 0 <= k < |st| - 1 ==> st[k + 1].frameStart == st[k].frameStart + st[k].duration
    requires forall k :: 0 <= k < |st| ==> st[k].duration >= 0
    ensures st[a].frameStart <= st[b].frameStart
    decreases b - a
  {
    if a < b {
      ChainMonotone(st, a + 1, b);
    }
  }

  /**
   * What survives of a job after Sync to VSE and back: its scene and its
   * length; the range override exactly when the length differs from the
   * scene's, and then the job's own frames.
   */
  predicate Restored(back: LegacyJob, job: LegacyJob, scenes: seq<Scene>)
    requires JobSceneIndex(job, scenes).Some?
  {
    var sc := scenes[JobSceneIndex(job, scenes).value];
    back.scene == job.scene && JobDuration(back, sc) == JobDuration(job, sc)
    && (back.overrideFrameRange <==> JobDuration(job, sc) != SceneDuration(sc))
    && (back.overrideFrameRange ==> back.frameStart == job.frameStart && back.frameEnd == job.frameEnd)
  }

  /**
   * What Sync from VSE rebuilds from a job's strip in general: the strip
   * holds the job's length and offset as Blender clamps them, so the job
   * comes back with the clamped length, overridden exactly when that
   * differs from the scene's, and then starting at the scene's first
   * frame plus the clamped offset.
   */
  predicate ReadBack(back: LegacyJob, job: LegacyJob, scenes: seq<Scene>)
    requires JobSceneIndex(job, scenes).Some?
  {
    var sc := scenes[JobSceneIndex(job, scenes).value];
    var len := StripLength(JobDuration(job, sc));
    var start := sc.frameStart + StripOffset(JobOffset(job, sc));
    back.scene == job.scene && JobDuration(back, sc) == len
    && (back.overrideFrameRange <==> len != SceneDuration(sc))
    && (back.overrideFrameRange ==> back.frameStart == start && back.frameEnd == start + len - 1)
  }

  /** Blender stores the job's length and offset unclamped: at least one frame, starting inside the scene. */
  predicate Unclamped(job: LegacyJob, sc: Scene) {
    JobDuration(job, sc) >= 1 && JobOffset(job, sc) >= 0
  }

  /** Every job has a scene, its strip is added and Blender stores it unclamped. */
  predicate RoundTrippable(jobs: seq<LegacyJob>, scenes: seq<Scene>, addFails: nat -> bool) {
    AllPlaceable(jobs, scenes, addFails)
    && forall i :: 0 <= i < |jobs| ==> Unclamped(jobs[i], scenes[JobSceneIndex(jobs[i], scenes).value])
  }

  /** Filtering channel 1 after Sync to VSE finds exactly the placed strips. */
  lemma LayoutFiltersToItself(others: seq<Strip>, jobs: seq<LegacyJob>, scenes: seq<Scene>, addFails: nat -> bool)
    requires forall k :: 0 <= k < |others| ==> others[k].channel != TARGET_CHANNEL
    ensures var st := LayoutOf(jobs, scenes, addFails).strips;
      SceneStrips(others + st, TARGET_CHANNEL) == st
  {
    var st := LayoutOf(jobs, scenes, addFails).strips;
    LayoutInChannel(jobs, scenes, addFails);
    assert forall k :: 0 <= k < |st| ==> Matches(st[k], TARGET_CHANNEL);
    SceneStripsAfterOthers(others, st, TARGET_CHANNEL);
    SceneStripsOfMatching(st, TARGET_CHANNEL);
  }

  /** When every strip is added, each placed strip is one frame long or more. */
  lemma LayoutDurations(jobs: seq<LegacyJob>, scenes: seq<Scene>, addFails: nat -> bool)
    requires AllPlaceable(jobs, scenes, addFails)
    ensures var st := LayoutOf(jobs, scenes, addFails).strips;
      forall k :: 0 <= k < |st| ==> st[k].duration >= 1
  {
    var st := LayoutOf(jobs, scenes, addFails).strips;
    LayoutFollowsQueue(jobs, scenes, addFails);
    forall k | 0 <= k < |st|
      ensures st[k].duration >= 1
    {
      assert StripFor(st[k], jobs[k], scenes);
    }
  }

  /** The placed strips are already in start order, so sorting keeps them. */
  lemma LayoutSorted(jobs: seq<LegacyJob>, scenes: seq<Scene>, addFails: nat -> bool)
    requires RoundTrippable(jobs, scenes, addFails)
    ensures var st := LayoutOf(jobs, scenes, addFails).strips;
      SortByStart(st) == st
  {
    var st := LayoutOf(jobs, scenes, addFails).strips;
    LayoutDurations(jobs, scenes, addFails);
    assert LongJobs(jobs, scenes) by {
      forall i | 0 <= i < |jobs| && JobSceneIndex(jobs[i], scenes).Some?
        ensures JobDuration(jobs[i], scenes[JobSceneIndex(jobs[i], scenes).value]) >= 1
      {
        assert Unclamped(jobs[i], scenes[JobSceneIndex(jobs[i], scenes).value]);
      }
    }
    LayoutContiguous(jobs, scenes, addFails);
    forall a, b | 0 <= a < b < |st|
      ensures st[a].frameStart <= st[b].frameStart
    {
      ChainMonotone(st, a, b);
    }
    SortOfSorted(st);
  }

  /**
   * The job rebuilt from a job's strip is its `ReadBack`, and `Restored`
   * when Blender stored the strip unclamped.
   */
  lemma RestoredFromStrip(st: Strip, job: LegacyJob, scenes: seq<Scene>)
    requires JobSceneIndex(job, scenes).Some? && StripFor(st, job, scenes)
    ensures StripScene(st, scenes) == JobSceneIndex(job, scenes)
    ensures ReadBack(JobOf(st, scenes), job, scenes)
    ensures Unclamped(job, scenes[JobSceneIndex(job, scenes).value]) ==> Restored(JobOf(st, scenes), job, scenes)
  {
  }

  /**
   * Sync to VSE followed by Sync from VSE on channel 1 gives back one job
   * per job, in queue order, each `Restored`; only the range override
   * survives, and only when it changes the length.
   */
  lemma SyncRoundTrip(others: seq<Strip>, jobs: seq<LegacyJob>, scenes: seq<Scene>, addFails: nat -> bool)
    requires forall k :: 0 <= k < |others| ==> others[k].channel != TARGET_CHANNEL
    requires RoundTrippable(jobs, scenes, addFails)
    ensures var back := JobsFromStrips(SortByStart(SceneStrips(others + LayoutOf(jobs, scenes, addFails).strips,
                                                               TARGET_CHANNEL)), scenes);
      |back| == |jobs| && forall i :: 0 <= i < |jobs| ==> Restored(back[i], jobs[i], scenes)
  {
    var st := LayoutOf(jobs, scenes, addFails).strips;
    LayoutFiltersToItself(others, jobs, scenes, addFails);
    LayoutSorted(jobs, scenes, addFails);
    LayoutFollowsQueue(jobs, scenes, addFails);
    forall i | 0 <= i < |st|
      ensures StripScene(st[i], scenes).Some? && Restored(JobOf(st[i], scenes), jobs[i], scenes)
    {
      RestoredFromStrip(st[i], jobs[i], scenes);
      assert Unclamped(jobs[i], scenes[JobSceneIndex(jobs[i], scenes).value]);
    }
    JobsFollowStrips(st, scenes);
  }

  // ---------------------------------------------------------- operator

  datatype SyncResult = SyncCancelled | SyncDone(count: nat)

  /**
   * `RENDERCUE_OT_sync_from_vse.execute`, reading the strips of `channel`:
   * without an editor, or without a matching strip, the queue is left
   * alone; otherwise it is replaced by the jobs rebuilt from the sorted
   * strips and the count of matched strips is reported.
   */
  method SyncFromVse(t: Timeline, s: LegacySettings, scenes: seq<Scene>, channel: int) returns (r: SyncResult)
    modifies s`jobs
    ensures !t.hasEditor ==> r == SyncCancelled && s.jobs == old(s.jobs)
    ensures t.hasEditor && SceneStrips(t.strips, channel) == [] ==> r == SyncCancelled && s.jobs == old(s.jobs)
    ensures t.hasEditor && SceneStrips(t.strips, channel) != [] ==>
      && r == SyncDone(|SceneStrips(t.strips, channel)|)
      && s.jobs == JobsFromStrips(SortByStart(SceneStrips(t.strips, channel)), scenes)
  {
    if !t.hasEditor {
      return SyncCancelled;
    }
    var found := CollectSceneStrips(t.strips, channel);
    if found == [] {
      return SyncCancelled;
    }
    RebuildQueue(s, SortByStart(found), scenes);
    r := SyncDone(|found|);
  }

  /** The filtering loop over the editor's strips. */
  method CollectSceneStrips(all: seq<Strip>, channel: int) returns (found: seq<Strip>)
    ensures found == SceneStrips(all, channel)
  {
    found := [];
    for i := 0 to |all|
      invariant found == SceneStrips(all[..i], channel)
    {
      assert all[..i + 1][..i] == all[..i];
      if all[i].channel == channel && all[i].kind == SCENE_STRIP {
        found := found + [all[i]];
      }
    }
    assert all[..|all|] == all;
  }

  /** `settings.jobs.clear()` and the loop adding one job per strip that shows a scene. */
  method RebuildQueue(s: LegacySettings, sorted: seq<Strip>, scenes: seq<Scene>)
    modifies s`jobs
    ensures s.jobs == JobsFromStrips(sorted, scenes)
  {
    s.jobs := [];
    for i := 0 to |sorted|
      invariant s.jobs == JobsFromStrips(sorted[..i], scenes)
    {
      assert sorted[..i + 1][..i] == sorted[..i];
      var k := StripScene(sorted[i], scenes);
      if k.Some? {
        s.jobs := s.jobs + [JobOf(sorted[i], scenes)];
      }
    }
    assert sorted[..|sorted|] == sorted;
  }
}
