/** The segment scheduler: one segment per positive interval of the cut plan,
    clips taken round-robin, each fitted to its interval by trimming, looping
    or using it whole (VideoProcessor.run, music_video_maker.py lines
    142-170). Segments are descriptors of what the media library is asked to
    cut; the random start offsets are an input. */
module Scheduler {
  import opened ClipPool
  import opened Canvas
  import CutPlan

  /** How a clip fills an interval: the sub-range [start, end) of the clip,
      the clip repeated up to `length`, or the whole clip of `length`. */
  datatype Fit = Trim(start: real, end: real) | Loop(length: real) | Full(length: real)

  /** Playing time of a fitted segment. */
  function Length(f: Fit): real
  {
    match f
    case Trim(s, e) => e - s
    case Loop(d) => d
    case Full(d) => d
  }

  /** One scheduled segment: which clip of the pool, how it is fitted, where it
      sits on the canvas, whether it keeps its audio, and its frame rate. */
  datatype Segment = Segment(clip: nat, fit: Fit, frame: Frame, hasAudio: bool, fps: real)

  /** Lines 149-161 for a clip of `clipDuration` and an interval of `d`.
      `u` in [0, 1] is the random draw: `random.uniform(0, max_start)` is
      `max_start * u`. */
  function FitClip(clipDuration: real, d: real, u: real): (f: Fit)
    requires d > 0.0 && 0.0 <= u <= 1.0
    ensures clipDuration >= d ==>
              f.Trim? && 0.0 <= f.start <= clipDuration - d && f.end == f.start + d
    ensures d / 2.0 <= clipDuration < d ==> f == Loop(d)
    ensures clipDuration < d / 2.0 ==> f == Full(clipDuration)
    ensures Length(f) == if clipDuration < d / 2.0 then clipDuration else d
    ensures Length(f) <= d
  {
    if clipDuration < d then
      if clipDuration >= d / 2.0 then Loop(d) else Full(clipDuration)
    else
      var maxStart := clipDuration - d;
      if maxStart > 0.0 then
        var start := maxStart * u;
        assert start <= maxStart by {
          assert maxStart * u <= maxStart * 1.0;
        }
        Trim(start, start + d)
      else
        Trim(0.0, d)
  }

  /** Lines 166-168: a frame rate above 60 is re-sampled to 30; any other
      (including a missing one, 0 here) is kept. */
  function ClampFps(fps: real): (r: real)
    ensures r <= 60.0
    ensures fps <= 60.0 ==> r == fps
    ensures fps > 60.0 ==> r == 30.0
  {
    if fps > 60.0 then 30.0 else fps
  }

  /** The interval [plan[j], plan[j + 1]] is long enough to be scheduled. */
  predicate PositiveAt(plan: seq<real>, j: int)
    requires 0 <= j && j + 1 < |plan|
  {
    plan[j + 1] - plan[j] > 0.0
  }

  /** The indices j < i of the intervals that get a segment (lines 143-146),
      in increasing order. */
  function PositiveIntervals(plan: seq<real>, i: nat): (r: seq<nat>)
    requires i < |plan|
    ensures forall k :: 0 <= k < |r| ==> r[k] < i && PositiveAt(plan, r[k])
    ensures forall k, l :: 0 <= k < l < |r| ==> r[k] < r[l]
    ensures forall j :: 0 <= j < i && PositiveAt(plan, j) ==> j in r
    ensures |r| <= i
  {
    if i == 0 then []
    else
      var p := PositiveIntervals(plan, i - 1);
      if PositiveAt(plan, i - 1) then p + [i - 1] else p
  }

  predicate ValidPool(pool: seq<Clip>)
  {
    |pool| > 0 && forall k :: 0 <= k < |pool| ==> pool[k].width > 0 && pool[k].height > 0
  }

  /** One random draw in [0, 1] per interval of the plan. */
  predicate ValidDraws(draws: seq<real>, plan: seq<real>)
  {
    |draws| + 1 >= |plan| && forall i :: 0 <= i < |draws| ==> 0.0 <= draws[i] <= 1.0
  }

  predicate ValidCanvas(canvas: Size)
  {
    canvas.width > 0 && canvas.height > 0
  }

  /** The segment for interval j when it is the k-th one emitted: clip
      `k % |pool|` (line 147), fitted, resized (line 162), muted (lines
      163-164) and fps-clamped. */
  function Emit(plan: seq<real>, j: nat, k: nat, pool: seq<Clip>, draws: seq<real>,
                mute: bool, canvas: Size): (s: Segment)
    requires j + 1 < |plan| && PositiveAt(plan, j)
    requires ValidPool(pool) && ValidDraws(draws, plan) && ValidCanvas(canvas)
  {
    var c := pool[k % |pool|];
    Segment(k % |pool|, FitClip(c.duration, plan[j + 1] - plan[j], draws[j]),
            FitFrame(canvas, c.width, c.height), c.hasAudio && !mute, ClampFps(c.fps))
  }

  /** The segments emitted for the intervals before index i: the loop of
      lines 142-170 after i steps. */
  function ScheduleUpTo(plan: seq<real>, i: nat, pool: seq<Clip>, draws: seq<real>,
                        mute: bool, canvas: Size): (segs: seq<Segment>)
    requires i < |plan|
    requires ValidPool(pool) && ValidDraws(draws, plan) && ValidCanvas(canvas)
  {
    if i == 0 then []
    else
      var before := ScheduleUpTo(plan, i - 1, pool, draws, mute, canvas);
      if PositiveAt(plan, i - 1)
      then before + [Emit(plan, i - 1, |before|, pool, draws, mute, canvas)]
      else before
  }

  /** After i steps the k-th segment is the one emitted for the k-th positive
      interval before i, with clip counter k. */
  lemma {:induction false} ScheduleUpToEmits(plan: seq<real>, i: nat, pool: seq<Clip>,
                                             draws: seq<real>, mute: bool, canvas: Size)
    requires i < |plan|
    requires ValidPool(pool) && ValidDraws(draws, plan) && ValidCanvas(canvas)
    ensures var p := PositiveIntervals(plan, i);
      var segs := ScheduleUpTo(plan, i, pool, draws, mute, canvas);
      && |segs| == |p|
      && forall k :: 0 <= k < |segs| ==> segs[k] == Emit(plan, p[k], k, pool, draws, mute, canvas)
  {
    if i > 0 {
      ScheduleUpToEmits(plan, i - 1, pool, draws, mute, canvas);
    }
  }

  /** The whole schedule. */
  function Schedule(plan: seq<real>, pool: seq<Clip>, draws: seq<real>,
                    mute: bool, canvas: Size): (segs: seq<Segment>)
    requires |plan| > 0
    requires ValidPool(pool) && ValidDraws(draws, plan) && ValidCanvas(canvas)
  {
    ScheduleUpTo(plan, |plan| - 1, pool, draws, mute, canvas)
  }

  /** What the schedule promises: one segment per positive
      interval, in order; the k-th uses clip k mod n; each lasts its interval
      except a clip shorter than half of it, which is used whole and is
      strictly shorter; all share one canvas; none runs above 60 fps; none
      keeps audio when the clips are muted. */
  lemma ScheduleShape(plan: seq<real>, pool: seq<Clip>, draws: seq<real>,
                    mute: bool, canvas: Size)
    requires |plan| > 0
    requires ValidPool(pool) && ValidDraws(draws, plan) && ValidCanvas(canvas)
    ensures var p := PositiveIntervals(plan, |plan| - 1);
      var segs := Schedule(plan, pool, draws, mute, canvas);
      && |segs| == |p|
      && forall k :: 0 <= k < |segs| ==>
           var d := plan[p[k] + 1] - plan[p[k]];
           var c := pool[k % |pool|];
           && segs[k].clip == k % |pool|
           && (if c.duration < d / 2.0
               then segs[k].fit == Full(c.duration) && Length(segs[k].fit) < d
               else Length(segs[k].fit) == d)
           && segs[k].frame.canvas == canvas
           && segs[k].fps <= 60.0
           && (segs[k].hasAudio ==> !mute)
  {
    ScheduleUpToEmits(plan, |plan| - 1, pool, draws, mute, canvas);
  }

  /** The loop of lines 142-170: walk consecutive pairs of the plan, skip the
      non-positive ones, and append one segment per positive one, advancing
      the clip index only then. */
  method ScheduleSegments(plan: seq<real>, pool: seq<Clip>, draws: seq<real>,
                          mute: bool, canvas: Size) returns (segs: seq<Segment>)
    requires |plan| > 0
    requires ValidPool(pool) && ValidDraws(draws, plan) && ValidCanvas(canvas)
    ensures segs == Schedule(plan, pool, draws, mute, canvas)
  {
    segs := [];
    var clipIndex := 0;
    for i := 0 to |plan| - 1
      invariant clipIndex == |segs|
      invariant segs == ScheduleUpTo(plan, i, pool, draws, mute, canvas)
    {
      var d := plan[i + 1] - plan[i];
      if d <= 0.0 {
        continue;
      }
      var c := pool[clipIndex % |pool|];
      var segment := Segment(clipIndex % |pool|, FitClip(c.duration, d, draws[i]),
                             FitFrame(canvas, c.width, c.height), c.hasAudio, c.fps);
      if mute {
        segment := segment.(hasAudio := false);
      }
      if segment.fps > 60.0 {
        segment := segment.(fps := 30.0);
      }
      assert segment == Emit(plan, i, clipIndex, pool, draws, mute, canvas);
      segs := segs + [segment];
      clipIndex := clipIndex + 1;
    }
  }

  /** Cut times 0.0, 1.0, 2.5, 4.0 (or any plan with those interval lengths)
      with two 3-second clips: three segments, on clips 0, 1, 0, each as long
      as its interval. */
  lemma ScheduleExample(plan: seq<real>, draws: seq<real>, c: Clip, canvas: Size)
    requires |plan| == 4
    requires plan[1] - plan[0] == 1.0 && plan[2] - plan[1] == 1.5 && plan[3] - plan[2] == 1.5
    requires c.duration == 3.0 && c.width > 0 && c.height > 0
    requires ValidDraws(draws, plan) && ValidCanvas(canvas)
    ensures var segs := Schedule(plan, [c, c], draws, false, canvas);
      && |segs| == 3
      && segs[0].clip == 0 && segs[1].clip == 1 && segs[2].clip == 0
      && Length(segs[0].fit) == 1.0 && Length(segs[1].fit) == 1.5 && Length(segs[2].fit) == 1.5
  {
    var pool := [c, c];
    var e0 := Emit(plan, 0, 0, pool, draws, false, canvas);
    var e1 := Emit(plan, 1, 1, pool, draws, false, canvas);
    var e2 := Emit(plan, 2, 2, pool, draws, false, canvas);
    assert ScheduleUpTo(plan, 1, pool, draws, false, canvas) == [e0];
    assert ScheduleUpTo(plan, 2, pool, draws, false, canvas) == [e0, e1];
    assert ScheduleUpTo(plan, 3, pool, draws, false, canvas) == [e0, e1, e2];
    assert Length(e0.fit) == 1.0 && Length(e1.fit) == 1.5 && Length(e2.fit) == 1.5;
  }

  /** An instance of ScheduleSkipsNonPositive: cut times 0, 2, 2, 3 over two
      muted clips give two segments, on clips 0 and 1, since the zero step in
      the middle is skipped without moving the clip index. */
  lemma ScheduleSkipsRepeatedTime(plan: seq<real>, draws: seq<real>, c: Clip, d: Clip,
                                  canvas: Size)
    requires |plan| == 4
    requires plan[1] - plan[0] > 0.0 && plan[2] == plan[1] && plan[3] - plan[2] > 0.0
    requires c.width > 0 && c.height > 0 && d.width > 0 && d.height > 0
    requires ValidDraws(draws, plan) && ValidCanvas(canvas)
    ensures var segs := Schedule(plan, [c, d], draws, true, canvas);
      && |segs| == 2 && segs[0].clip == 0 && segs[1].clip == 1
  {
    var pool := [c, d];
    assert |ScheduleUpTo(plan, 1, pool, draws, true, canvas)| == 1;
    assert ScheduleUpTo(plan, 2, pool, draws, true, canvas) ==
           ScheduleUpTo(plan, 1, pool, draws, true, canvas);
  }

  /** A step that is not positive adds no segment to the schedule so far, so
      the clip counter, the number of segments, does not move for it. */
  lemma ScheduleSkipsNonPositive(plan: seq<real>, i: nat, pool: seq<Clip>, draws: seq<real>,
                                 mute: bool, canvas: Size)
    requires i + 1 < |plan| && !PositiveAt(plan, i)
    requires ValidPool(pool) && ValidDraws(draws, plan) && ValidCanvas(canvas)
    ensures ScheduleUpTo(plan, i + 1, pool, draws, mute, canvas) ==
            ScheduleUpTo(plan, i, pool, draws, mute, canvas)
  {
  }

  /** In a cut plan every step but the last joins two kept times, which are
      strictly increasing; only the step to the audio duration (line 141) can
      fail to be positive. */
  lemma CutPlanStepsPositive(sensitivity: int, beats: seq<real>, onsets: seq<real>,
                             duration: real, plan: seq<real>, j: int)
    requires sensitivity > 0 && CutPlan.IsCutPlan(sensitivity, beats, onsets, duration, plan)
    requires 0 <= j && j + 2 < |plan|
    ensures PositiveAt(plan, j)
  {
    var kept := plan[..|plan| - 1];
    assert kept[j] == plan[j] && kept[j + 1] == plan[j + 1];
  }

  /** A 0.4-second clip on a 1-second interval is used whole, not looped. */
  lemma FitShortClipExample(u: real)
    requires 0.0 <= u <= 1.0
    ensures FitClip(0.4, 1.0, u) == Full(0.4)
  {
  }
}
