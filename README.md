# Music Video Maker: a Dafny model of the render core

This project models `VideoProcessor` of `music_video_maker.py`, the worker that
turns a music file and a folder of video clips into one music video. It then
proves properties of that model.

- **Clip selection.** The files of the clip folder are kept when their lower-cased name ends in
  `.mp4`, `.avi`, `.mov` or `.mkv`. Fewer than two is an error.
- **Cut plan.** The beat and onset times found in the music are merged, sorted and
  de-duplicated. They are then thinned greedily, so that kept times are at least
  `0.1 / (sensitivity / 100)` seconds apart. The audio duration is appended as the final boundary.
- **Clip pool.** The selected clips are opened in listing order and optionally shuffled in place.
- **Segment scheduler.** This is a loop over consecutive cut times:
  - intervals that are not positive are skipped;
  - clips are taken round-robin;
  - a clip is trimmed at a random offset, looped, or used whole;
  - the result is placed on the canvas, muted on request, and its frame rate clamped.
- **Canvas geometry.** The resolution tier and aspect ratio give the target
  canvas. Each clip is scaled to fit inside it, truncated to whole pixels and centred.
- **Assembly.**
  - The soundtrack is chosen: the music alone, or clip audio plus music.
  - The video is cut to the shorter of the video and the music.
  - The output is named `music_video_<stem>_<timestamp>.mp4`.
  - The arithmetic of the encode progress: a percentage of the written time, and its place on
    the 80–95 band of the progress bar. The source never hands its progress callback
    (line 47) to the encoder (lines 192-198), so at run time neither is ever shown.
- **Validation** checks the music file first, then the clip folder, then the output folder.

Modules, one file each:

- `Outcomes` (`outcomes.dfy`): the errors and the result types.
- `CutPlan` (`cut_plan.dfy`): the merge, the greedy filter (an imperative method with a loop), and the cut plan.
- `ClipPool` (`clip_pool.dfy`): the file filter, opening clips, and the in-place array shuffle.
- `Canvas` (`canvas.dfy`): the target sizes and the fit-inside frame.
- `Scheduler` (`scheduler.dfy`): the fit policy, and the scheduling loop proved against the function `Schedule`.
- `Assembly` (`assembly.dfy`): the soundtrack, the duration, the file name, and progress.
- `Pipeline` (`pipeline.dfy`): the whole run as a chain of methods over an explicit description of the outside world. `Run` is the entry point; it calls `Compose`, which calls `RenderPlan`, which calls `Assemble`.

Where the outside world enters:

- **File system.**
  - `isfile` and `isdir` are booleans.
  - The directory listing is a sequence of names.
- **Audio analysis.** The beat times, onset times and durations are inputs (`Analysis`).
  `None` stands for a music file that cannot be decoded.
- **Video decoder.** A map from file name to `Clip` (duration, size, frame rate, audio). A
  missing name is a file that cannot be opened.
- **Clock.** The timestamp is a string.
- **Random source.** A `Chance` value:
  - `random.uniform(0, max_start)` is `max_start * u`, for a draw `u` in [0, 1], one per interval.
  - `random.shuffle` is a Fisher–Yates pass whose i-th swap partner is `draws[i] % (i + 1)`.
    It is proved to produce a permutation.
- **Media library.** Its results are descriptors: `Segment`, `Fit`, `Frame` and `Soundtrack`.

The filtered cut times are strictly increasing, but line 141 appends the audio duration
unconditionally. So the last step of the plan can be zero or negative:

- `CutPlan.IsCutPlan` demands nothing of the last step.
- `Scheduler.ScheduleSkipsNonPositive` shows such a step produces no segment.
- `Scheduler.CutPlanStepsPositive` shows every earlier step is positive.

## Model

| member | source | states |
|---|---|---|
| ClipPool.Lower | music_video_maker.py:71 | lower-casing leaves no ASCII capital, turns each capital into the same letter in lower case, and keeps every other character |
| ClipPool.LowerIdempotent | music_video_maker.py:71 | lower-casing twice is lower-casing once |
| ClipPool.IsVideoFile | music_video_maker.py:71 | the suffix test on the lower-cased name. Its properties are stated by `VideoFileSuffix` and `IsVideoFileIgnoresCase` |
| ClipPool.VideoFileSuffix | music_video_maker.py:71 | an accepted name ends in a dot followed by three characters |
| ClipPool.IsVideoFileIgnoresCase | music_video_maker.py:71 | a name is accepted exactly when its lower-cased form is, so `CLIP.MOV` and `clip.mov` are treated alike |
| ClipPool.SelectVideos | music_video_maker.py:70-71 | the kept names are exactly the listed names whose lower-cased form ends in one of the four video suffixes; never more names than listed |
| ClipPool.SelectVideosAppend | music_video_maker.py:70-71 | selection of a concatenation is the concatenation of selections, so the listing order is kept |
| ClipPool.SelectVideosSingle | music_video_maker.py:70-71 | a single name is kept exactly when it is a video file name |
| ClipPool.SelectVideosExample | music_video_maker.py:70-71 | an upper-case `.MP4` name is kept and a `.txt` name is dropped |
| ClipPool.OpenClips | music_video_maker.py:132-135 | succeeds exactly when every selected file can be opened (`AllDecoded`), giving their clips in listing order (`Opened`); otherwise fails on the first file that cannot be opened (`FirstUndecoded`) |
| ClipPool.Shuffle | music_video_maker.py:136-137 | rearranges the clip array in place; afterwards it holds the same multiset of clips |
| CutPlan.MinInterval | music_video_maker.py:121 | the minimum spacing is positive, and spacing times sensitivity is 10 (0.1 divided by the scale of line 84, sensitivity over 100) |
| CutPlan.MinIntervalAntitone | music_video_maker.py:121 | a higher sensitivity never gives a larger minimum spacing |
| CutPlan.Insert | music_video_maker.py:118 | inserting into a strictly increasing list keeps it strictly increasing, adds exactly that value, and grows it by at most one |
| CutPlan.InsertAll | music_video_maker.py:118 | inserting a list keeps the result strictly increasing, with members the union of both lists and the length bounded by their sum |
| CutPlan.MergeTimes | music_video_maker.py:118 | the merged times are strictly increasing, have as members exactly the beat and onset times, and are no more than both lists together |
| CutPlan.IncreasingUnique | music_video_maker.py:118 | two strictly increasing lists with the same members are equal, so sorting and de-duplicating has one answer |
| CutPlan.FilterClose | music_video_maker.py:121-125 | the greedy loop keeps the first merged time. Kept times are strictly increasing, drawn from the merge, and pairwise at least the spacing apart. Every dropped time lies within the spacing after some kept time |
| CutPlan.DroppedNearPrevious | music_video_maker.py:123-125 | a dropped time lies less than the minimum spacing after the kept time just before it |
| CutPlan.GreedyKeptUnique | music_video_maker.py:121-125 | only one list meets the filter's contract, so that contract determines the filter's output completely |
| CutPlan.BuildCutPlan | music_video_maker.py:118-141 | with no beat and no onset the run fails (`all_times[0]`). Otherwise the plan is the filtered merge followed by the audio duration: one more element than the filtered list, the last element exactly the duration |
| CutPlan.IsCutPlanUnique | music_video_maker.py:118-141 | at most one sequence is the cut plan for given settings and analysis, so the plan is a function of them |
| Canvas.TierSize | music_video_maker.py:259-265 | the base size of each tier (1920x1080, 1280x720, 854x480) is landscape, wider than tall but less than twice as wide |
| Canvas.CanvasSize | music_video_maker.py:249-257 | the canvas has positive sides and takes the aspect's orientation: 16:9 is wider than tall, 1:1 is square and 9:16 is taller than wide. `CanvasShapes` and `CanvasTable` state how the nine canvases relate |
| Canvas.ParseAspect | music_video_maker.py:251-257 | "16:9" gives landscape and "1:1" gives square; every other setting falls through to 9:16 |
| Canvas.ParseTier | music_video_maker.py:260-265 | "1080p" and "720p" are recognised; every other setting falls through to 480p |
| Canvas.CanvasShapes | music_video_maker.py:249-265 | the 16:9 canvas is landscape with positive sides, 9:16 is the same canvas turned upright, and 1:1 is the square of its shorter side |
| Canvas.CanvasTable | music_video_maker.py:249-265 | the nine canvas sizes, e.g. 720p 9:16 is 720x1280 and 480p 1:1 is 480x480 |
| Canvas.FitScale | music_video_maker.py:219-223 | the scale is positive, the scaled clip fits inside the canvas, and it touches the canvas on at least one axis |
| Canvas.Place | music_video_maker.py:226-239 | the truncated size and the centring offsets keep the frame inside the canvas, with the two margins differing by at most one pixel |
| Canvas.FitFrame | music_video_maker.py:219-239 | the resized clip lies inside the canvas with non-negative offsets and fills it on one axis. It is centred to within a pixel, and its size is the scaled size truncated |
| Canvas.FitFrameExample | music_video_maker.py:219-239 | a 1920x1080 clip on the 720x1280 canvas becomes 720x405 at offset (0, 437) |
| Scheduler.FitClip | music_video_maker.py:149-161 | a long enough clip is trimmed to a window of the interval's length starting in [0, dur-d]. A clip of at least half the interval is looped to it. A shorter one is used whole and is strictly shorter than the interval |
| Scheduler.FitShortClipExample | music_video_maker.py:149-154 | a 0.4 s clip on a 1 s interval is used whole and not looped |
| Scheduler.ClampFps | music_video_maker.py:166-168 | the frame rate after the clamp is at most 60; rates up to 60 are kept and higher ones become 30 |
| Scheduler.PositiveIntervals | music_video_maker.py:142-146 | lists, in increasing order, exactly the intervals of positive length |
| Scheduler.Emit | music_video_maker.py:147-168 | the segment for one positive interval: clip `k mod n` for the k-th emitted segment, fitted by `FitClip`, framed by `FitFrame`, muted on request and fps-clamped by `ClampFps`. Its properties are stated by `ScheduleShape` |
| Scheduler.ScheduleUpTo | music_video_maker.py:142-170 | the segments after i steps of the loop, one appended per positive interval. `ScheduleUpToEmits` states which segment each one is |
| Scheduler.Schedule | music_video_maker.py:142-170 | the segments of the whole loop. `ScheduleShape` states their number, order and clips; `ScheduleLength` states their total length |
| Scheduler.ScheduleUpToEmits | music_video_maker.py:142-170 | after i steps of the loop the k-th segment is the one emitted for the k-th positive interval, with clip counter k |
| Scheduler.ScheduleShape | music_video_maker.py:142-170 | one segment per positive interval, in order. The k-th uses clip k mod n and lasts its interval, except a clip under half of it, which is used whole. All segments share the canvas, none exceeds 60 fps, and none keeps audio when muted |
| Scheduler.ScheduleSegments | music_video_maker.py:142-170 | the scheduling loop computes exactly the schedule described above |
| Scheduler.ScheduleExample | music_video_maker.py:142-170 | intervals of 1, 1.5 and 1.5 s over two 3 s clips give three segments on clips 0, 1, 0, each as long as its interval |
| Scheduler.ScheduleSkipsNonPositive | music_video_maker.py:143-146 | a step that is not positive, anywhere in the plan, adds no segment, so the clip counter that follows is unchanged |
| Scheduler.CutPlanStepsPositive | music_video_maker.py:118-143 | in a cut plan every step but the last is positive, so only the step to the audio duration appended at line 141 can be skipped |
| Scheduler.ScheduleSkipsRepeatedTime | music_video_maker.py:142-170 | an instance of the skip: cut times 0, 2, 2, 3 over two muted clips give two segments, on clips 0 then 1 |
| Assembly.TotalLength | music_video_maker.py:171 | the playing time of the segments placed end to end; never negative when no segment is. `TotalLengthAppend` and `ScheduleLength` state the rest |
| Assembly.TotalLengthAppend | music_video_maker.py:171 | the length of a concatenation is the sum of the lengths |
| Assembly.ScheduleUpToLength | music_video_maker.py:142-171 | after each step of the loop the segments together last at most the positive intervals seen so far, and exactly as long when no segment so far uses its clip whole, in particular when every clip lasts at least half of every interval |
| Assembly.ScheduleLength | music_video_maker.py:142-171 | the concatenated video is never longer than the positive intervals of its cut plan, and exactly as long when no segment uses its clip whole in place of its interval, in particular when every clip lasts at least half of every positive interval |
| Assembly.ChooseSoundtrack | music_video_maker.py:172-181 | clip audio is mixed with the music exactly when clips are not muted and some clip audio is present; otherwise the music plays alone |
| Assembly.MutedScheduleIsMusicOnly | music_video_maker.py:163-181 | a muted schedule carries no clip audio, and its soundtrack is the music alone |
| Assembly.FinalDuration | music_video_maker.py:182-190 | the final duration is the minimum of the video and music durations |
| Assembly.LastIndex | music_video_maker.py:186 | the position of the last occurrence of a character, or -1 when there is none |
| Assembly.Basename | music_video_maker.py:186 | the base name is the part of the path after the last separator and holds no separator |
| Assembly.Stem | music_video_maker.py:186 | `os.path.splitext(name)[0]`: a prefix of the name, cut at the last dot unless only dots precede it. `StemExtensionSplit` states how it pairs with the extension |
| Assembly.Extension | music_video_maker.py:186 | `os.path.splitext(name)[1]`: a suffix of the name that is empty or starts with a dot. `StemExtensionSplit` states when it is empty |
| Assembly.StemExtensionSplit | music_video_maker.py:186 | stem plus extension is the base name. The extension is empty or a dot followed by no dot. It is non-empty exactly when some dot in the name has a non-dot character before it: a non-empty extension leaves such a character in the stem, and such a dot gives a non-empty extension |
| Assembly.ExtensionWhenDotted | music_video_maker.py:186 | a dot with a non-dot character before it gives a non-empty extension, so `a.b.c` is split and `..c` is not |
| Assembly.StemFromName | music_video_maker.py:186 | the stem takes no character the name lacks |
| Assembly.OutputFileName | music_video_maker.py:186-188 | the name is `music_video_`, the stem of the music file, `_`, the timestamp, then `.mp4` |
| Assembly.OutputFileNameInDirectory | music_video_maker.py:186-189 | with a timestamp free of separators, the output name is one entry of the output directory |
| Assembly.Truncate | music_video_maker.py:49 | `int()` truncates toward zero |
| Assembly.EncodePercent | music_video_maker.py:47-50 | a percentage is produced exactly when the total duration is positive, and it lies in 0..100 while progress is within the total. This is the callback's arithmetic; the source never connects the callback |
| Assembly.EncodingBand | music_video_maker.py:752-757 | the encode percentage maps into 80..95, with 0 at 80 and 100 at 95. This is the arithmetic of a slot that is never reached at run time |
| Assembly.EncodingBandMonotone | music_video_maker.py:752-757 | the progress bar never moves back as the percentage grows |
| Pipeline.Validate | music_video_maker.py:203-213 | the run passes validation exactly when the music file and both folders exist; the first failing check, in that order, is reported |
| Pipeline.ShuffledPoolValid | music_video_maker.py:136-137 | a rearranged pool still has only clips of positive size |
| Pipeline.Assemble | music_video_maker.py:138-190 | an empty schedule is an error. Otherwise the result holds the schedule, its soundtrack, the shorter of video and music, and the output name |
| Pipeline.PlanHasSegmentsOf | music_video_maker.py:141-146 | whether the cut plan has a positive interval is decided by any one plan that meets the cut-plan contract |
| Pipeline.RenderPlan | music_video_maker.py:132-201 | the first clip that cannot be opened is the error. With all clips opened, the run succeeds exactly when the plan has a positive interval, and otherwise fails for lack of segments. On success it gives everything in `Rendered` |
| Pipeline.Compose | music_video_maker.py:118-201 | no beat and no onset is an error, then the first clip that cannot be opened. Otherwise the run succeeds exactly when the cut plan has a positive interval, with the cut plan and everything in `Rendered` |
| Pipeline.Run | music_video_maker.py:65-201 | each failure comes once the earlier checks pass, and it names the reason: validation, too few video files (before any analysis), music that cannot be decoded, no beat and no onset, the first clip that cannot be opened, no positive interval. It succeeds exactly when none applies. A finished run has the cut plan and a pool that is the opened clips in some order (listing order without shuffle). It also has their schedule, the soundtrack choice, the reconciled duration and the output name |
| Outcomes.Message | music_video_maker.py:203-213 | the run words its own failures (validation here, and too few files at line 73) with non-empty text; the others carry the library's exception text, which is not modelled |
| Outcomes.MessagesDistinct | music_video_maker.py:203-213 | the worded failures (with the one at line 73) have different texts |

## Left out

- The audio analysis (loading, onset strength, beat tracking, tempo, onset detection,
  frame-to-time conversion, duration) is foreign signal processing. The times and durations it
  yields are inputs.
- moviepy's clip operations are foreign media and codec calls. These are opening, looping,
  sub-clipping, resizing, compositing, concatenation, audio mixing and encoding. The model
  produces the descriptors that would be handed to them.
  - Writing the file can fail; that error path is not modelled.
  - Concatenating an empty list of segments is modelled as an error (`NoSegments`), which is how
    the caught exception ends the run.
  - A concatenation is modelled as carrying clip audio exactly when some segment kept its own.
- The Qt thread, signals and emit calls, the main window and the help window are user interface.
  The error texts the run words itself are kept in `Outcomes.Message`.
- Pipeline.Run: the music is decoded twice. The analysis loads it at line 78, and the
  media library opens it again at line 172. The model has one flag for both (`World.analysis`
  is `None`), which fails the run before the cut plan. A file that only the second decoder
  rejects would fail after the clips are opened and concatenated. The model does not capture
  that later failure or its order.
- `os.listdir`, `isfile`, `isdir`, `makedirs` and `datetime.now` are I/O. Their results are parameters.
- `random.shuffle` and `random.uniform` are nondeterministic. They are replaced by the draws in `Chance`.
- Floating-point rounding is not modelled. Times, scales and percentages use exact reals and
  integers, with `.Floor` for `int()` on non-negative values.
- `_apply_transition` is dead code. It reads attributes and effects that do not exist.
- ClipPool.IsVideoFile: lower-cases ASCII letters only. Python's `str.lower` also maps the few
  non-ASCII letters whose lower-case form is ASCII (the Kelvin sign becomes `k`, for
  example). A name whose suffix is matched only through such a letter is a video file to the
  source but not to the model.
- Assembly.Basename: only '/' is a separator. The Windows separator is not modelled.
- Pipeline.Run: the decoded clips must have positive width and height. The source divides by
  them and would fail on a zero size; that failure is not modelled.
- Pipeline.Run: a clip without a frame rate is encoded as fps 0, which the clamp keeps.
- Pipeline.Run: the sensitivity must be positive (the slider gives 1 to 50). There must be enough
  random draws: one per listed file for the shuffle, one per merged time for the offsets.
- CutPlan.FilterClose: requires a strictly increasing, non-empty input and a positive spacing.
  Its one caller passes the sorted, de-duplicated merge, and the empty case is handled by
  `CutPlan.BuildCutPlan`.
- The progress messages and their percentages (0, 10, 30, 50, 80) are not modelled, nor are the
  console messages.
