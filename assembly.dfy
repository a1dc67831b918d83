/** Timeline assembly: the length of the concatenated segments, the choice of
    soundtrack, the duration reconciliation, the output file name, and the
    encode-progress arithmetic (music_video_maker.py lines 47-50, 171-190
    and 752-757). */
module Assembly {
  import opened Outcomes
  import opened Scheduler

  /** Playing time of the segments placed end to end (line 171): never
      negative when no segment is. */
  function TotalLength(segs: seq<Segment>): (r: real)
    ensures (forall k :: 0 <= k < |segs| ==> Length(segs[k].fit) >= 0.0) ==> r >= 0.0
  {
    if segs == [] then 0.0 else Length(segs[0].fit) + TotalLength(segs[1..])
  }

  lemma {:induction false} TotalLengthAppend(a: seq<Segment>, b: seq<Segment>)
    ensures TotalLength(a + b) == TotalLength(a) + TotalLength(b)
  {
    if a == [] {
      assert a + b == b;
    } else {
      assert (a + b)[1..] == a[1..] + b;
      TotalLengthAppend(a[1..], b);
    }
  }

  /** The summed length of the positive intervals before index i. */
  function PositiveSpan(plan: seq<real>, i: nat): real
    requires i < |plan|
  {
    if i == 0 then 0.0
    else if PositiveAt(plan, i - 1) then PositiveSpan(plan, i - 1) + (plan[i] - plan[i - 1])
    else PositiveSpan(plan, i - 1)
  }

  /** Every clip of the pool lasts at least half of every positive interval,
      so no segment is used whole in place of its interval. */
  predicate LongEnoughClips(plan: seq<real>, pool: seq<ClipPool.Clip>)
  {
    forall k, j :: 0 <= k < |pool| && 0 <= j && j + 1 < |plan| && PositiveAt(plan, j) ==>
      pool[k].duration >= (plan[j + 1] - plan[j]) / 2.0
  }

  /** No segment is a clip used whole in place of its interval. */
  predicate NoneWhole(segs: seq<Segment>)
  {
    forall k :: 0 <= k < |segs| ==> !segs[k].fit.Full?
  }

  /** After i steps of the scheduling loop the segments together last at most
      the positive intervals seen so far, and exactly as long when no segment
      is a clip used whole, in particular when no clip is shorter than half an
      interval. */
  lemma {:induction false} ScheduleUpToLength(plan: seq<real>, i: nat, pool: seq<ClipPool.Clip>,
                                              draws: seq<real>, mute: bool, canvas: Canvas.Size)
    requires i < |plan|
    requires ValidPool(pool) && ValidDraws(draws, plan) && ValidCanvas(canvas)
    ensures TotalLength(ScheduleUpTo(plan, i, pool, draws, mute, canvas)) <= PositiveSpan(plan, i)
    ensures NoneWhole(ScheduleUpTo(plan, i, pool, draws, mute, canvas)) ==>
              TotalLength(ScheduleUpTo(plan, i, pool, draws, mute, canvas)) == PositiveSpan(plan, i)
    ensures LongEnoughClips(plan, pool) ==>
              TotalLength(ScheduleUpTo(plan, i, pool, draws, mute, canvas)) == PositiveSpan(plan, i)
  {
    if i > 0 {
      ScheduleUpToLength(plan, i - 1, pool, draws, mute, canvas);
      var before := ScheduleUpTo(plan, i - 1, pool, draws, mute, canvas);
      if PositiveAt(plan, i - 1) {
        var e := Emit(plan, i - 1, |before|, pool, draws, mute, canvas);
        var after := before + [e];
        TotalLengthAppend(before, [e]);
        assert TotalLength([e]) == Length(e.fit) by {
          assert [e][1..] == [];
        }
        assert NoneWhole(after) ==> NoneWhole(before) && !e.fit.Full? by {
          assert after[|before|] == e;
          assert forall k :: 0 <= k < |before| ==> after[k] == before[k];
        }
        assert LongEnoughClips(plan, pool) ==> !e.fit.Full? by {
          var c := pool[|before| % |pool|];
          if LongEnoughClips(plan, pool) {
            assert c.duration >= (plan[i] - plan[i - 1]) / 2.0;
          }
        }
      }
    }
  }

  /** The concatenated video (line 171) is never longer than the positive
      intervals of its cut plan, and exactly as long when no segment is a clip
      used whole; that holds in particular when every clip lasts at least half
      of every interval. */
  lemma ScheduleLength(plan: seq<real>, pool: seq<ClipPool.Clip>, draws: seq<real>, mute: bool,
                       canvas: Canvas.Size)
    requires |plan| > 0
    requires ValidPool(pool) && ValidDraws(draws, plan) && ValidCanvas(canvas)
    ensures TotalLength(Schedule(plan, pool, draws, mute, canvas)) <= PositiveSpan(plan, |plan| - 1)
    ensures NoneWhole(Schedule(plan, pool, draws, mute, canvas)) ==>
              TotalLength(Schedule(plan, pool, draws, mute, canvas)) == PositiveSpan(plan, |plan| - 1)
    ensures LongEnoughClips(plan, pool) ==>
              TotalLength(Schedule(plan, pool, draws, mute, canvas)) == PositiveSpan(plan, |plan| - 1)
  {
    ScheduleUpToLength(plan, |plan| - 1, pool, draws, mute, canvas);
  }

  /** The concatenation carries clip audio when some segment kept its own. */
  predicate ClipAudioPresent(segs: seq<Segment>)
  {
    exists k :: 0 <= k < |segs| && segs[k].hasAudio
  }

  datatype Soundtrack = MusicOnly | ClipAudioAndMusic

  /** Lines 172-181: with muted clips, or with clips that bring no audio, the
      music alone; otherwise the clip audio mixed with the music. */
  function ChooseSoundtrack(mute: bool, clipAudio: bool): (t: Soundtrack)
    ensures t == ClipAudioAndMusic <==> !mute && clipAudio
  {
    if !mute then
      if clipAudio then ClipAudioAndMusic else MusicOnly
    else
      MusicOnly
  }

  /** Muted clips never reach the soundtrack: a muted schedule carries no clip
      audio and the soundtrack is the music alone. */
  lemma MutedScheduleIsMusicOnly(plan: seq<real>, pool: seq<ClipPool.Clip>, draws: seq<real>,
                                 canvas: Canvas.Size)
    requires |plan| > 0
    requires ValidPool(pool) && ValidDraws(draws, plan) && ValidCanvas(canvas)
    ensures !ClipAudioPresent(Schedule(plan, pool, draws, true, canvas))
    ensures ChooseSoundtrack(true, ClipAudioPresent(Schedule(plan, pool, draws, true, canvas))) == MusicOnly
  {
    ScheduleShape(plan, pool, draws, true, canvas);
  }

  function Min(a: real, b: real): real
  {
    if a <= b then a else b
  }

  /** Lines 182-185 as they act on the written video: music longer than the
      video changes nothing there (the trimmed music is bound to a local that
      is never attached again); a video longer than the music is cut to the
      music's length. Either way the result is the shorter of the two. */
  function FinalDuration(video: real, audio: real): (r: real)
    ensures r == Min(video, audio)
    ensures r <= video && r <= audio
  {
    if audio > video then video
    else if audio < video then audio
    else video
  }

  /** Position of the last `c` in `s`, or -1. */
  function LastIndex(s: string, c: char): (i: int)
    ensures -1 <= i < |s|
    ensures i >= 0 ==> s[i] == c
    ensures forall j :: i < j < |s| ==> s[j] != c
  {
    if s == [] then -1
    else if s[|s| - 1] == c then |s| - 1
    else LastIndex(s[..|s| - 1], c)
  }

  /** `os.path.basename`, with '/' as the separator. */
  function Basename(path: string): (b: string)
    ensures '/' !in b
    ensures |b| <= |path| && path[|path| - |b|..] == b
    ensures |b| < |path| ==> path[|path| - |b| - 1] == '/'
  {
    var i := LastIndex(path, '/');
    path[i + 1..]
  }

  /** `os.path.splitext(name)[0]` for a base name: cut at the last dot,
      unless only dots precede it (".bashrc" has no extension). */
  function Stem(name: string): (s: string)
    ensures |s| <= |name| && name[..|s|] == s
  {
    var d := LastIndex(name, '.');
    if d > 0 && exists j | 0 <= j < d :: name[j] != '.' then name[..d] else name
  }

  /** `os.path.splitext(name)[1]`. */
  function Extension(name: string): (e: string)
    ensures |e| <= |name| && name[|name| - |e|..] == e
    ensures e == "" || e[0] == '.'
  {
    var d := LastIndex(name, '.');
    if d > 0 && exists j | 0 <= j < d :: name[j] != '.' then name[d..] else ""
  }

  /** Stem and extension split the name; the extension is empty or one dot
      followed by no other; and the name is cut exactly when some dot has a
      character other than a dot before it. */
  lemma StemExtensionSplit(name: string)
    ensures Stem(name) + Extension(name) == name
    ensures Extension(name) == "" || (Extension(name)[0] == '.' && '.' !in Extension(name)[1..])
    ensures Extension(name) != "" ==> exists j :: 0 <= j < |Stem(name)| && Stem(name)[j] != '.'
    ensures (exists j, d :: 0 <= j < d < |name| && name[j] != '.' && name[d] == '.') ==>
              Extension(name) != ""
  {
    ExtensionWhenDotted(name);
    var d := LastIndex(name, '.');
    if d > 0 && exists j | 0 <= j < d :: name[j] != '.' {
      assert name[..d] + name[d..] == name;
      var e := name[d..];
      forall k | 0 <= k < |e[1..]| ensures e[1..][k] != '.' {
        assert e[1..][k] == name[d + 1 + k];
      }
    }
  }

  /** A dot with a character other than a dot somewhere before it makes the
      extension non-empty. */
  lemma ExtensionWhenDotted(name: string)
    ensures (exists j, d :: 0 <= j < d < |name| && name[j] != '.' && name[d] == '.') ==>
              Extension(name) != ""
  {
    if exists j, d :: 0 <= j < d < |name| && name[j] != '.' && name[d] == '.' {
      var j, d :| 0 <= j < d < |name| && name[j] != '.' && name[d] == '.';
      assert LastIndex(name, '.') >= d;
    }
  }

  /** A stem takes its characters from the name. */
  lemma StemFromName(name: string, c: char)
    requires c !in name
    ensures c !in Stem(name)
  {
    StemExtensionSplit(name);
  }

  /** Lines 186-188: `music_video_<stem>_<timestamp>.mp4`. */
  function OutputFileName(musicPath: string, timestamp: string): (n: string)
    ensures |n| >= 16
    ensures n[..12] == "music_video_"
    ensures n[|n| - 4..] == ".mp4"
    ensures n[12..|n| - 4] == Stem(Basename(musicPath)) + "_" + timestamp
  {
    var middle := Stem(Basename(musicPath)) + "_" + timestamp;
    var n := "music_video_" + middle + ".mp4";
    assert n[..12] == "music_video_";
    assert n[12..|n| - 4] == middle;
    assert n[|n| - 4..] == ".mp4";
    n
  }

  /** The output name has no directory separator when the timestamp has none,
      so the file lands directly in the output directory. */
  lemma OutputFileNameInDirectory(musicPath: string, timestamp: string)
    requires '/' !in timestamp
    ensures '/' !in OutputFileName(musicPath, timestamp)
  {
    var stem := Stem(Basename(musicPath));
    StemFromName(Basename(musicPath), '/');
    var prefix, suffix := "music_video_", ".mp4";
    assert '/' !in prefix && '/' !in suffix && '/' !in "_";
    var n := prefix + (stem + "_" + timestamp) + suffix;
    assert '/' !in n;
    assert OutputFileName(musicPath, timestamp) == n;
  }

  /** `int(x)` on a real: truncation toward zero. */
  function Truncate(x: real): (i: int)
    ensures x >= 0.0 ==> i as real <= x < i as real + 1.0
    ensures x < 0.0 ==> i as real - 1.0 < x <= i as real
  {
    if x >= 0.0 then x.Floor else -((-x).Floor)
  }

  /** Line 49: the encode percentage for `t` seconds written out of `total`;
      nothing is reported until the total is known and positive. The source
      never hands this callback to the encoder (lines 192-198), so the
      percentage is never actually reported; this is the arithmetic alone. */
  function EncodePercent(t: real, total: real): (p: Option<int>)
    ensures p.Some? <==> total > 0.0
    ensures p.Some? && 0.0 <= t <= total ==> 0 <= p.value <= 100
  {
    if total > 0.0 then
      var ratio := t / total * 100.0;
      assert 0.0 <= t <= total ==> 0.0 <= ratio <= 100.0 by {
        if 0.0 <= t <= total {
          assert t / total <= 1.0;
        }
      }
      Some(Truncate(ratio))
    else None
  }

  /** Line 756: the encode percentage mapped onto the 80-95 band of the
      progress bar. As the percentage is never emitted, the band is never
      shown; this is the arithmetic alone. */
  function EncodingBand(percent: int): (p: int)
    ensures 0 <= percent <= 100 ==> 80 <= p <= 95
    ensures percent == 0 ==> p == 80
    ensures percent == 100 ==> p == 95
  {
    80 + percent * 15 / 100
  }

  /** The band never runs backwards as the percentage grows. */
  lemma EncodingBandMonotone(a: int, b: int)
    requires a <= b
    ensures EncodingBand(a) <= EncodingBand(b)
  {
    assert a * 15 <= b * 15;
  }
}
