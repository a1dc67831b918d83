/** The cut plan: beat and onset times merged into one ordered list, thinned by
    a sensitivity-dependent minimum spacing, and closed by the audio duration
    (VideoProcessor.run, music_video_maker.py lines 84, 118-141). Times are
    seconds, exact reals. */
module CutPlan {
  import opened Outcomes

  /** Strictly increasing: sorted with no duplicates. */
  predicate Increasing(s: seq<real>)
  {
    forall i, j :: 0 <= i < j < |s| ==> s[i] < s[j]
  }

  /** The onset-envelope scale derived from the beat-sensitivity setting. */
  function Scale(sensitivity: int): real
  {
    sensitivity as real / 100.0
  }

  /** Minimum spacing between kept cut times, `0.1 / scale` seconds. */
  function MinInterval(sensitivity: int): (m: real)
    requires sensitivity > 0
    ensures m > 0.0
    ensures m * sensitivity as real == 10.0
  {
    0.1 / Scale(sensitivity)
  }

  /** A lower sensitivity enforces a wider spacing. */
  lemma MinIntervalAntitone(s1: int, s2: int)
    requires 0 < s1 < s2
    ensures MinInterval(s1) > MinInterval(s2)
  {
  }

  /** Insert one time into an increasing list, dropping it if already there. */
  function Insert(s: seq<real>, x: real): (r: seq<real>)
    requires Increasing(s)
    ensures Increasing(r)
    ensures forall t :: t in r <==> t in s || t == x
    ensures |r| <= |s| + 1
  {
    if s == [] then [x]
    else if x < s[0] then [x] + s
    else if x == s[0] then s
    else
      var rest := Insert(s[1..], x);
      assert forall k :: 0 <= k < |rest| ==> s[0] < rest[k] by {
        forall k | 0 <= k < |rest| ensures s[0] < rest[k] {
          assert rest[k] in rest;
        }
      }
      [s[0]] + rest
  }

  /** Insert every time of `xs` into `acc`. */
  function InsertAll(acc: seq<real>, xs: seq<real>): (r: seq<real>)
    requires Increasing(acc)
    ensures Increasing(r)
    ensures forall t :: t in r <==> t in acc || t in xs
    ensures |r| <= |acc| + |xs|
    decreases |xs|
  {
    if xs == [] then acc
    else
      var r := InsertAll(Insert(acc, xs[0]), xs[1..]);
      assert forall t :: t in xs <==> t == xs[0] || t in xs[1..] by {
        assert xs == [xs[0]] + xs[1..];
      }
      r
  }

  /** `np.sort(np.unique(np.concatenate([beats, onsets])))`: the union of both
      lists, ascending, each time once. */
  function MergeTimes(beats: seq<real>, onsets: seq<real>): (r: seq<real>)
    ensures Increasing(r)
    ensures forall t :: t in r <==> t in beats || t in onsets
    ensures |r| <= |beats| + |onsets|
  {
    InsertAll(InsertAll([], beats), onsets)
  }

  /** An increasing list is determined by its elements, so the contract of
      MergeTimes pins its result down completely. */
  lemma {:induction false} IncreasingUnique(a: seq<real>, b: seq<real>)
    requires Increasing(a) && Increasing(b)
    requires forall t :: t in a <==> t in b
    ensures a == b
    decreases |a| + |b|
  {
    assert a != [] ==> a[0] in a && a[0] in b;
    assert b != [] ==> b[0] in b && b[0] in a;
    if a != [] && b != [] {
      assert a[0] == b[0] by {
        assert b[0] in b && a[0] in a;
      }
      forall t ensures t in a[1..] <==> t in b[1..] {
        if t in a[1..] {
          assert t in b;
          assert t != b[0];
        }
        if t in b[1..] {
          assert t in a;
          assert t != a[0];
        }
      }
      IncreasingUnique(a[1..], b[1..]);
      assert a == [a[0]] + a[1..] && b == [b[0]] + b[1..];
    }
  }

  /** What the greedy spacing filter promises about `kept`, drawn from an
      increasing `times`: it starts with the first time, keeps only times of
      the input, in order, any two at least `m` apart, and every dropped time lies
      less than `m` after a kept time. */
  predicate GreedyKept(times: seq<real>, m: real, kept: seq<real>)
    requires times != []
  {
    && kept != [] && kept[0] == times[0]
    && Increasing(kept)
    && (forall k :: 0 <= k < |kept| ==> kept[k] in times)
    && Spaced(kept, m)
    && (forall t :: t in times && t !in kept ==> Covered(kept, t, m))
  }

  /** Any two times of `s` are at least `m` apart. */
  predicate Spaced(s: seq<real>, m: real)
  {
    forall i, j :: 0 <= i < j < |s| ==> s[j] - s[i] >= m
  }

  lemma SpacedAppend(s: seq<real>, x: real, m: real)
    requires Increasing(s) && Spaced(s, m) && s != [] && x - s[|s| - 1] >= m
    ensures Spaced(s + [x], m)
  {
    var next := s + [x];
    forall a, b | 0 <= a < b < |next| ensures next[b] - next[a] >= m {
      if b == |s| {
        assert s[a] <= s[|s| - 1];
      } else {
        assert next[b] == s[b] && next[a] == s[a];
      }
    }
  }

  /** `t` lies strictly after some kept time, by less than `m`. */
  predicate Covered(kept: seq<real>, t: real, m: real)
  {
    exists k :: 0 <= k < |kept| && kept[k] < t < kept[k] + m
  }

  lemma CoveredAppend(kept: seq<real>, x: real, t: real, m: real)
    requires Covered(kept, t, m)
    ensures Covered(kept + [x], t, m)
  {
    var k :| 0 <= k < |kept| && kept[k] < t < kept[k] + m;
    assert (kept + [x])[k] == kept[k];
  }

  /** A dropped time lies less than the minimum spacing after the kept time
      that precedes it (the last one kept before it). */
  lemma DroppedNearPrevious(times: seq<real>, m: real, kept: seq<real>, t: real, p: real)
    requires times != [] && GreedyKept(times, m, kept)
    requires t in times && t !in kept
    requires p in kept && p < t
    requires forall q :: q in kept && p < q ==> t <= q
    ensures t - p < m
  {
    var k :| 0 <= k < |kept| && kept[k] < t < kept[k] + m;
    assert kept[k] in kept;
  }

  /** Two lists that both meet GreedyKept and agree below k: the second's
      k-th time is matched, or undercut, by a k-th time of the first. */
  lemma GreedyNext(times: seq<real>, m: real, a: seq<real>, b: seq<real>, k: nat)
    requires times != []
    requires GreedyKept(times, m, a) && GreedyKept(times, m, b)
    requires k < |b| && k <= |a|
    requires forall j :: 0 <= j < k ==> a[j] == b[j]
    ensures k < |a| && a[k] <= b[k]
  {
    if k > 0 {
      var x := b[k];
      assert x in times;
      assert b[k - 1] < x;
      if x in a {
        var i :| 0 <= i < |a| && a[i] == x;
        assert a[k - 1] < a[i];
        assert k <= i;
      } else {
        assert Covered(a, x, m);
        var j :| 0 <= j < |a| && a[j] < x < a[j] + m;
        assert x - b[k - 1] >= m;
        assert a[k - 1] < a[j];
        assert k <= j;
      }
    }
  }

  lemma {:induction false} GreedyAgree(times: seq<real>, m: real, a: seq<real>, b: seq<real>, k: nat)
    requires times != []
    requires GreedyKept(times, m, a) && GreedyKept(times, m, b)
    requires k <= |b|
    ensures k <= |a| && forall j :: 0 <= j < k ==> a[j] == b[j]
  {
    if k > 0 {
      GreedyAgree(times, m, a, b, k - 1);
      GreedyNext(times, m, a, b, k - 1);
      GreedyNext(times, m, b, a, k - 1);
    }
  }

  /** GreedyKept admits exactly one list: the filter's contract determines
      its output, so the cut plan is a function of the beat and onset times
      and the sensitivity. */
  lemma GreedyKeptUnique(times: seq<real>, m: real, a: seq<real>, b: seq<real>)
    requires times != []
    requires GreedyKept(times, m, a) && GreedyKept(times, m, b)
    ensures a == b
  {
    GreedyAgree(times, m, a, b, |b|);
    GreedyAgree(times, m, b, a, |a|);
  }

  /** The greedy minimum-spacing filter of lines 121-125: keep the first time,
      then each time at least `minInterval` after the last kept one. */
  method FilterClose(times: seq<real>, minInterval: real) returns (kept: seq<real>)
    requires times != [] && Increasing(times)
    requires minInterval > 0.0
    ensures GreedyKept(times, minInterval, kept)
    ensures |kept| <= |times|
  {
    kept := [times[0]];
    var i := 1;
    while i < |times|
      invariant 1 <= i <= |times|
      invariant FilterProgress(times, minInterval, kept, i)
    {
      var t := times[i];
      if t - kept[|kept| - 1] >= minInterval {
        KeepStep(times, minInterval, kept, i);
        kept := kept + [t];
      } else {
        DropStep(times, minInterval, kept, i);
      }
      i := i + 1;
    }
    FilterDone(times, minInterval, kept);
  }

  /** What the filter loop has established after looking at times[..i]. */
  predicate FilterProgress(times: seq<real>, m: real, kept: seq<real>, i: nat)
    requires 1 <= i <= |times|
  {
    && kept != [] && kept[0] == times[0] && |kept| <= i
    && Increasing(kept)
    && (forall k :: 0 <= k < |kept| ==> kept[k] in times)
    && kept[|kept| - 1] <= times[i - 1]
    && Spaced(kept, m)
    && (forall j :: 0 <= j < i ==> times[j] in kept || Covered(kept, times[j], m))
  }

  lemma KeepStep(times: seq<real>, m: real, kept: seq<real>, i: nat)
    requires 1 <= i < |times| && Increasing(times)
    requires FilterProgress(times, m, kept, i)
    requires times[i] - kept[|kept| - 1] >= m
    ensures FilterProgress(times, m, kept + [times[i]], i + 1)
  {
    var t := times[i];
    var next := kept + [t];
    assert kept[|kept| - 1] < t;
    IncreasingAppend(kept, t);
    SpacedAppend(kept, t, m);
    assert forall k :: 0 <= k < |next| ==> next[k] in times by {
      assert forall k :: 0 <= k < |kept| ==> next[k] == kept[k];
    }
    KeepCoverage(times, m, kept, i);
  }

  /** Appending the i-th time keeps every earlier time kept or covered. */
  lemma KeepCoverage(times: seq<real>, m: real, kept: seq<real>, i: nat)
    requires 1 <= i < |times|
    requires forall j :: 0 <= j < i ==> times[j] in kept || Covered(kept, times[j], m)
    ensures forall j :: 0 <= j <= i ==>
      times[j] in kept + [times[i]] || Covered(kept + [times[i]], times[j], m)
  {
    forall j | 0 <= j < i && times[j] !in kept
      ensures Covered(kept + [times[i]], times[j], m)
    {
      CoveredAppend(kept, times[i], times[j], m);
    }
  }

  lemma DropStep(times: seq<real>, m: real, kept: seq<real>, i: nat)
    requires 1 <= i < |times| && Increasing(times)
    requires FilterProgress(times, m, kept, i)
    requires times[i] - kept[|kept| - 1] < m
    ensures FilterProgress(times, m, kept, i + 1)
  {
    var last := kept[|kept| - 1];
    assert last < times[i] < last + m;
    assert Covered(kept, times[i], m);
  }

  lemma FilterDone(times: seq<real>, m: real, kept: seq<real>)
    requires times != []
    requires FilterProgress(times, m, kept, |times|)
    ensures GreedyKept(times, m, kept) && |kept| <= |times|
  {
    forall t | t in times && t !in kept ensures Covered(kept, t, m) {
      var j :| 0 <= j < |times| && times[j] == t;
    }
  }

  lemma IncreasingAppend(s: seq<real>, x: real)
    requires Increasing(s) && (s == [] || s[|s| - 1] < x)
    ensures Increasing(s + [x])
  {
    forall i, j | 0 <= i < j < |s| + 1 ensures (s + [x])[i] < (s + [x])[j] {
      if j == |s| {
        assert s[i] <= s[|s| - 1];
      }
    }
  }

  /** `plan` is the cut plan for these settings: the greedy thinning of the
      merged times, then the audio duration. */
  predicate IsCutPlan(sensitivity: int, beats: seq<real>, onsets: seq<real>, duration: real,
                      plan: seq<real>)
    requires sensitivity > 0
  {
    && 2 <= |plan| <= |beats| + |onsets| + 1
    && plan[|plan| - 1] == duration
    && MergeTimes(beats, onsets) != []
    && GreedyKept(MergeTimes(beats, onsets), MinInterval(sensitivity), plan[..|plan| - 1])
  }

  /** The cut plan of lines 118-141: merged, filtered, and closed by the audio
      duration, appended whether or not it repeats the last kept time. With no
      beat and no onset, `all_times[0]` fails and the run reports an error. */
  method BuildCutPlan(sensitivity: int, beats: seq<real>, onsets: seq<real>, duration: real)
    returns (r: Result<seq<real>>)
    requires sensitivity > 0
    ensures r.Err? <==> beats == [] && onsets == []
    ensures r.Err? ==> r.error == NoCutTimes
    ensures r.Ok? ==> IsCutPlan(sensitivity, beats, onsets, duration, r.value)
  {
    var all := MergeTimes(beats, onsets);
    assert beats != [] ==> beats[0] in all;
    assert onsets != [] ==> onsets[0] in all;
    assert all != [] ==> all[0] in all;
    if all == [] {
      return Err(NoCutTimes);
    }
    var kept := FilterClose(all, MinInterval(sensitivity));
    var plan := kept + [duration];
    assert plan[..|plan| - 1] == kept;
    r := Ok(plan);
  }

  /** The cut plan is a function of the settings and the analysis: at most one
      sequence is the cut plan for them. */
  lemma IsCutPlanUnique(sensitivity: int, beats: seq<real>, onsets: seq<real>, duration: real,
                        p: seq<real>, q: seq<real>)
    requires sensitivity > 0
    requires IsCutPlan(sensitivity, beats, onsets, duration, p)
    requires IsCutPlan(sensitivity, beats, onsets, duration, q)
    ensures p == q
  {
    var all := MergeTimes(beats, onsets);
    GreedyKeptUnique(all, MinInterval(sensitivity), p[..|p| - 1], q[..|q| - 1]);
    assert p == p[..|p| - 1] + [duration];
    assert q == q[..|q| - 1] + [duration];
  }
}
