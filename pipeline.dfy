/** One render run end to end (VideoProcessor.run and _validate_inputs,
    music_video_maker.py lines 65-213): validation, clip selection, the cut
    plan, opening and shuffling the clips, scheduling, and assembly. What the
    run learns from the file system, the audio analysis, the video decoder,
    the clock and the random source arrives as inputs. */
module Pipeline {
  import opened Outcomes
  import opened CutPlan
  import opened ClipPool
  import opened Canvas
  import opened Scheduler
  import opened Assembly

  /** `_validate_inputs`: the music file first, then the clip directory, then
      the output directory; the first failing check is the one reported. */
  function Validate(musicIsFile: bool, inputIsDir: bool, outputIsDir: bool): (e: Option<Error>)
    ensures e.None? <==> musicIsFile && inputIsDir && outputIsDir
    ensures !musicIsFile ==> e == Some(InvalidMusicFile)
    ensures musicIsFile && !inputIsDir ==> e == Some(InvalidInputDirectory)
    ensures musicIsFile && inputIsDir && !outputIsDir ==> e == Some(InvalidOutputDirectory)
  {
    if !musicIsFile then Some(InvalidMusicFile)
    else if !inputIsDir then Some(InvalidInputDirectory)
    else if !outputIsDir then Some(InvalidOutputDirectory)
    else None
  }

  /** The settings of one run. */
  datatype Job = Job(musicPath: string, mute: bool, shuffle: bool,
                     aspect: string, resolution: string, sensitivity: int)

  /** What the analysis library derives from the music file: beat and onset
      times, the duration it measures, and the duration of the music as the
      video library opens it. */
  datatype Analysis = Analysis(beats: seq<real>, onsets: seq<real>,
                               duration: real, musicClipDuration: real)

  /** What the run observes of the outside world. `analysis` is None when the
      music cannot be decoded; a clip file missing from `decoded` cannot be
      opened. */
  datatype World = World(musicIsFile: bool, inputIsDir: bool, outputIsDir: bool,
                         listing: seq<string>, decoded: map<string, Clip>,
                         analysis: Option<Analysis>, timestamp: string)

  /** The random source: draws for the shuffle and for the start offsets. */
  datatype Chance = Chance(shuffleDraws: seq<nat>, offsets: seq<real>)

  /** What is handed to the encoder. */
  datatype Render = Render(plan: seq<real>, pool: seq<Clip>, segments: seq<Segment>,
                           soundtrack: Soundtrack, duration: real, fileName: string)

  /** The run gets past validation and the clip count (lines 68-74). */
  predicate Admitted(world: World)
  {
    && world.musicIsFile && world.inputIsDir && world.outputIsDir
    && |SelectVideos(world.listing)| >= 2
  }

  /** The music decodes and yields at least one beat or onset. */
  predicate HasCutTimes(world: World)
  {
    world.analysis.Some? && (world.analysis.value.beats != [] || world.analysis.value.onsets != [])
  }

  /** The cut plan for these settings has an interval of positive length, so
      the schedule is not empty. */
  ghost predicate PlanHasSegments(sensitivity: int, a: Analysis)
    requires sensitivity > 0
  {
    exists p :: IsCutPlan(sensitivity, a.beats, a.onsets, a.duration, p) &&
                PositiveIntervals(p, |p| - 1) != []
  }

  /** Since the cut plan is unique, whether it has segments is decided by any
      one plan that meets IsCutPlan. */
  lemma PlanHasSegmentsOf(sensitivity: int, a: Analysis, plan: seq<real>)
    requires sensitivity > 0
    requires IsCutPlan(sensitivity, a.beats, a.onsets, a.duration, plan)
    ensures PlanHasSegments(sensitivity, a) <==> PositiveIntervals(plan, |plan| - 1) != []
  {
    forall p | IsCutPlan(sensitivity, a.beats, a.onsets, a.duration, p) ensures p == plan {
      IsCutPlanUnique(sensitivity, a.beats, a.onsets, a.duration, p, plan);
    }
  }

  lemma ShuffledPoolValid(pool: seq<Clip>, clips: seq<Clip>)
    requires |clips| > 0 && multiset(pool) == multiset(clips)
    requires forall k :: 0 <= k < |clips| ==> clips[k].width > 0 && clips[k].height > 0
    ensures ValidPool(pool)
  {
    assert |pool| == |multiset(pool)| == |clips|;
    forall k | 0 <= k < |pool| ensures pool[k].width > 0 && pool[k].height > 0 {
      assert pool[k] in multiset(pool);
      assert pool[k] in clips;
    }
  }

  /** Lines 138-190 once the cut plan and the pool are ready: schedule,
      concatenate, pick the soundtrack, reconcile, and name the output. */
  method Assemble(plan: seq<real>, pool: seq<Clip>, offsets: seq<real>, mute: bool,
                  canvas: Size, musicDuration: real, musicPath: string, timestamp: string)
    returns (r: Result<Render>)
    requires |plan| > 0
    requires ValidPool(pool) && ValidDraws(offsets, plan) && ValidCanvas(canvas)
    ensures r.Err? <==> Schedule(plan, pool, offsets, mute, canvas) == []
    ensures r.Err? <==> PositiveIntervals(plan, |plan| - 1) == []
    ensures r.Err? ==> r.error == NoSegments
    ensures r.Ok? ==>
      var out := r.value;
      && out.plan == plan && out.pool == pool
      && out.segments == Schedule(plan, pool, offsets, mute, canvas)
      && out.soundtrack == ChooseSoundtrack(mute, ClipAudioPresent(out.segments))
      && out.duration == Min(TotalLength(out.segments), musicDuration)
      && out.fileName == OutputFileName(musicPath, timestamp)
  {
    var segments := ScheduleSegments(plan, pool, offsets, mute, canvas);
    ScheduleShape(plan, pool, offsets, mute, canvas);
    if segments == [] {
      return Err(NoSegments);
    }
    var soundtrack := ChooseSoundtrack(mute, ClipAudioPresent(segments));
    var duration := FinalDuration(TotalLength(segments), musicDuration);
    var name := OutputFileName(musicPath, timestamp);
    r := Ok(Render(plan, pool, segments, soundtrack, duration, name));
  }

  /** What a finished run hands to the encoder for the cut plan `out.plan`:
      the selected files all opened, the pool a rearrangement of their clips
      (listing order without shuffle), the schedule of that plan over that
      pool on the chosen canvas, never empty, its soundtrack, the shorter of
      video and music, and the output name. */
  predicate Rendered(job: Job, files: seq<string>, decoded: map<string, Clip>, chance: Chance,
                     musicDuration: real, timestamp: string, out: Render)
  {
    var canvas := CanvasSize(ParseAspect(job.aspect), ParseTier(job.resolution));
    && |out.plan| > 0
    && AllDecoded(files, decoded)
    && multiset(out.pool) == multiset(Opened(files, decoded))
    && (!job.shuffle ==> out.pool == Opened(files, decoded))
    && ValidPool(out.pool) && ValidDraws(chance.offsets, out.plan) && ValidCanvas(canvas)
    && out.segments == Schedule(out.plan, out.pool, chance.offsets, job.mute, canvas)
    && out.segments != []
    && out.soundtrack == ChooseSoundtrack(job.mute, ClipAudioPresent(out.segments))
    && out.duration == Min(TotalLength(out.segments), musicDuration)
    && out.fileName == OutputFileName(job.musicPath, timestamp)
  }

  /** Lines 132-201 once the cut plan is built: open the clips, shuffle them
      if asked, and assemble. */
  method RenderPlan(job: Job, files: seq<string>, decoded: map<string, Clip>, plan: seq<real>,
                    chance: Chance, musicDuration: real, timestamp: string)
    returns (r: Result<Render>)
    requires forall f :: f in decoded ==> decoded[f].width > 0 && decoded[f].height > 0
    requires |files| >= 2 && |chance.shuffleDraws| >= |files|
    requires |plan| > 0 && ValidDraws(chance.offsets, plan)
    ensures !AllDecoded(files, decoded) ==>
              exists k :: FirstUndecoded(files, decoded, k) && r == Err(ClipUndecodable(files[k]))
    ensures AllDecoded(files, decoded) ==>
              && (r.Ok? <==> PositiveIntervals(plan, |plan| - 1) != [])
              && (r.Err? ==> r.error == NoSegments)
    ensures r.Ok? ==> r.value.plan == plan &&
                      Rendered(job, files, decoded, chance, musicDuration, timestamp, r.value)
  {
    var loaded := OpenClips(files, decoded);
    if loaded.Err? {
      assert exists k :: FirstUndecoded(files, decoded, k) &&
                         loaded.error == ClipUndecodable(files[k]);
      return Err(loaded.error);
    }
    var clips := loaded.value;
    assert clips == Opened(files, decoded);
    var pool := new Clip[|clips|](k requires 0 <= k < |clips| => clips[k]);
    assert pool[..] == clips;
    if job.shuffle {
      Shuffle(pool, chance.shuffleDraws);
    }
    var order := pool[..];
    ShuffledPoolValid(order, clips);
    var canvas := CanvasSize(ParseAspect(job.aspect), ParseTier(job.resolution));
    CanvasShapes(ParseTier(job.resolution));
    r := Assemble(plan, order, chance.offsets, job.mute, canvas, musicDuration,
                  job.musicPath, timestamp);
  }

  /** Lines 118-201 once the run is admitted and the music analysed: the cut
      plan, then the clips and assembly; a run with the clips all decoded
      fails only when the cut plan has no interval of positive length. */
  method Compose(job: Job, files: seq<string>, decoded: map<string, Clip>, a: Analysis,
                 chance: Chance, timestamp: string) returns (r: Result<Render>)
    requires job.sensitivity > 0
    requires forall f :: f in decoded ==> decoded[f].width > 0 && decoded[f].height > 0
    requires |files| >= 2 && |chance.shuffleDraws| >= |files|
    requires forall i :: 0 <= i < |chance.offsets| ==> 0.0 <= chance.offsets[i] <= 1.0
    requires |chance.offsets| >= |a.beats| + |a.onsets|
    ensures a.beats == [] && a.onsets == [] ==> r == Err(NoCutTimes)
    ensures (a.beats != [] || a.onsets != []) && !AllDecoded(files, decoded) ==>
              exists k :: FirstUndecoded(files, decoded, k) && r == Err(ClipUndecodable(files[k]))
    ensures (a.beats != [] || a.onsets != []) && AllDecoded(files, decoded) ==>
              && (r.Ok? <==> PlanHasSegments(job.sensitivity, a))
              && (r.Err? ==> r.error == NoSegments)
    ensures r.Ok? ==>
      && IsCutPlan(job.sensitivity, a.beats, a.onsets, a.duration, r.value.plan)
      && Rendered(job, files, decoded, chance, a.musicClipDuration, timestamp, r.value)
  {
    var planned := BuildCutPlan(job.sensitivity, a.beats, a.onsets, a.duration);
    if planned.Err? {
      return Err(planned.error);
    }
    var plan := planned.value;
    assert |plan| <= |a.beats| + |a.onsets| + 1;
    PlanHasSegmentsOf(job.sensitivity, a, plan);
    r := RenderPlan(job, files, decoded, plan, chance, a.musicClipDuration, timestamp);
  }

  /** VideoProcessor.run. The errors come in the source's order: validation;
      then too few video files, decided before the music is decoded, so the
      result does not depend on the analysis; then music that cannot be
      decoded; no beat and no onset; the first clip that cannot be opened;
      and a cut plan with no positive interval. When none of these applies
      the run finishes, with the cut plan of CutPlan.BuildCutPlan and what
      Rendered describes. */
  method Run(job: Job, world: World, chance: Chance) returns (r: Result<Render>)
    requires job.sensitivity > 0
    requires forall f :: f in world.decoded ==> world.decoded[f].width > 0 && world.decoded[f].height > 0
    requires |chance.shuffleDraws| >= |world.listing|
    requires forall i :: 0 <= i < |chance.offsets| ==> 0.0 <= chance.offsets[i] <= 1.0
    requires world.analysis.Some? ==>
               |chance.offsets| >= |world.analysis.value.beats| + |world.analysis.value.onsets|
    ensures var v := Validate(world.musicIsFile, world.inputIsDir, world.outputIsDir);
      v.Some? ==> r == Err(v.value)
    ensures (world.musicIsFile && world.inputIsDir && world.outputIsDir &&
             |SelectVideos(world.listing)| < 2) ==> r == Err(TooFewClips)
    ensures Admitted(world) && world.analysis.None? ==> r == Err(AudioUndecodable)
    ensures Admitted(world) && world.analysis.Some? &&
            world.analysis.value.beats == [] && world.analysis.value.onsets == [] ==>
              r == Err(NoCutTimes)
    ensures Admitted(world) && HasCutTimes(world) &&
            !AllDecoded(SelectVideos(world.listing), world.decoded) ==>
              exists k :: FirstUndecoded(SelectVideos(world.listing), world.decoded, k) &&
                          r == Err(ClipUndecodable(SelectVideos(world.listing)[k]))
    ensures Admitted(world) && HasCutTimes(world) &&
            AllDecoded(SelectVideos(world.listing), world.decoded) ==>
              && (r.Ok? <==> PlanHasSegments(job.sensitivity, world.analysis.value))
              && (r.Err? ==> r.error == NoSegments)
    ensures r.Ok? ==>
      && Admitted(world) && HasCutTimes(world)
      && var a := world.analysis.value;
      && IsCutPlan(job.sensitivity, a.beats, a.onsets, a.duration, r.value.plan)
      && Rendered(job, SelectVideos(world.listing), world.decoded, chance, a.musicClipDuration,
                  world.timestamp, r.value)
  {
    var invalid := Validate(world.musicIsFile, world.inputIsDir, world.outputIsDir);
    if invalid.Some? {
      return Err(invalid.value);
    }
    var files := SelectVideos(world.listing);
    if |files| < 2 {
      return Err(TooFewClips);
    }
    if world.analysis.None? {
      return Err(AudioUndecodable);
    }
    r := Compose(job, files, world.decoded, world.analysis.value, chance, world.timestamp);
  }
}
