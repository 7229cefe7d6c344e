# LOOOOP in Dafny

LOOOOP is a desktop editor for "ping-pong" loop videos. A clip plays forward, then
backward, and that pair repeats `loopCount` times. This project models the four parts
of the program that carry its logic, and proves properties of each:

- **The frame engine** (`loop_engine.dfy`, module `LoopEngine`). A source of `N`
  frames is laid out as loops of `2N - 1` global frames. `SegmentInfoForFrame` maps a
  global frame to its source frame, its pass and its loop. The sampled speed array
  gives the current speed. The `Engine` class holds `currentFrame`, `totalFrames`,
  `isPlaying` and `lastFrameTime`, and its methods mirror `play`, `pause`, `stop`,
  `seek`, `setLoopCount` and one `animate` tick. The callbacks become a returned list
  of events.
- **The offline renderer** (`video_processor.dfy`, module `VideoProcessor`).
  - It covers piecewise-linear speed interpolation, `parseFPS`, the ten equal-time
    slices, the reverse pass, the `(forward ++ reverse) x loopCount` assembly and the
    concat-list text.
  - The `Processor` class stands for the temp folder and the encoder. It holds a set
    of files, an id counter that stands for `uuidv4`, a log of encoder jobs, and a
    fixed set of call ids whose encoder run fails.
- **The project store** (`project_manager.dfy`, module `ProjectManager`). The
  `Manager` class holds the current project, its path, a map from paths to file
  contents and a fixed set of paths the environment refuses to write. Its methods add media and timeline clips, update clips through the
  whitelist, remove clips by id, fold the total duration, validate loaded data, and
  save or load behind a U+FEFF byte-order mark.
- **The editor window** (`app.dfy`, module `App`).
  - The preview's forward/reverse/loop-counter machine is written as step functions
    on a `Player` snapshot. The `LoopApp` class's methods are proved to follow them.
  - The module also covers the timeline the user fills and its read-out, `formatTime`,
    and the SVG speed-curve editor in the `CurveEditor` class.

`common.dfy` (module `Common`) holds what the four share: `Option`, `Result`, speed
points, decimal digit text, `padStart`, `split` and `join`.

Where numbers matter they are exact. JavaScript's truncating `%` is written out
(`JsRem`, `JsRealRem`), and so is `Math.floor` on a division (`FloorDiv`). Falsy tests
(`x || d`) are spelled out, and destructuring defaults apply only to a missing field.
In the offline renderer, a speed is a `Num` that can also be NaN or infinite, since
interpolation and `parseFPS` can produce those.

### Behaviour of the code worth knowing

- The comment at `src/renderer/loopEngine.js:66` calls the last forward frame shared
  between the passes, and a loop is `2N - 1` frames long. But
  `getSegmentInfoForFrame` (`src/renderer/loopEngine.js:75-104`) starts the reverse
  pass again at source frame `N - 1`, so that frame shows twice in a row and source
  frame 0 does not end the loop. With ten frames, global frames 9 and 10 both show
  source frame 9, and frame 18 shows source frame 1
  (`LoopEngine.BoundaryFrameRepeats`). The model computes what the code computes.
- `generateLoopVideo` (`src/modules/videoProcessor.js:135-174`) calls
  `cleanupSegments` only on its success path. When a call fails, the slices and
  reversals made before it stay in the temp folder. The concat list file is removed
  on both paths (`src/modules/videoProcessor.js:320-331`).
- The curve editor refuses to remove a circle when only two are left
  (`src/renderer/app.js:250`), so a curve has at least two points.
  `updateTimelineClip` clamps a non-zero loop count into `[1, 99]` and stores 0 as
  it is (`src/modules/projectManager.js:243-257`).

## Model

| member | source | states |
|---|---|---|
| LoopEngine.TotalFrames | src/renderer/loopEngine.js:58-72 | no contract of its own: the run length `updateTotalFrames` computes; `TotalFramesFormula` states its value |
| LoopEngine.SegmentInfoForFrame | src/renderer/loopEngine.js:75-104 | no contract of its own: the code's mapping from a global frame to source frame, pass and loop; `FrameZero`, `FrameInRange`, `Direction`, `BoundaryFrameRepeats` and `NextLoopSameFrame` state its properties |
| LoopEngine.TotalFramesFormula | src/renderer/loopEngine.js:58-72 | with `N >= 1` frames the run is `(2N - 1) * L` frames; with no frames it is 0; a loop is never zero frames long |
| LoopEngine.FrameZero | src/renderer/loopEngine.js:75-104 | global frame 0 is source frame 0, forward, loop 0 |
| LoopEngine.FrameInRange | src/renderer/loopEngine.js:75-104 | every frame in `[0, totalFrames)` maps to a source frame in `[0, N)` and a loop in `[0, L)` |
| LoopEngine.Direction | src/renderer/loopEngine.js:78-96 | forward exactly when the position in the loop is below `N`, then source = position; otherwise source = `2N - 1 - position`, running from `N - 1` down to 1 |
| LoopEngine.BoundaryFrameRepeats | src/renderer/loopEngine.js:87-96 | with `N = 10`, frames 9 and 10 both show source frame 9; frame 18 shows 1 reversed; frame 19 starts loop 1 |
| LoopEngine.NextLoopSameFrame | src/renderer/loopEngine.js:81-82 | adding one loop's length keeps source frame and pass and adds 1 to the loop index |
| LoopEngine.CurrentSpeed | src/renderer/loopEngine.js:220-229 | the speed is never 0; with no data or no frames it is 1.0 |
| LoopEngine.SpeedIndexInBounds | src/renderer/loopEngine.js:225-228 | for `0 <= currentFrame < totalFrames` the index `currentFrame * (len - 1) / totalFrames` is in bounds, and a zero entry reads as 1.0 |
| LoopEngine.SeekTarget | src/renderer/loopEngine.js:232-233 | the seek target is `clamp(f, 0, totalFrames - 1)`: unchanged inside the range, 0 below it, the last frame above it |
| LoopEngine.NextFrame | src/renderer/loopEngine.js:196-201 | no contract of its own: the frame after a due tick; `NextFrameWraps` and `AfterTicksFromZero` state how it advances and wraps |
| LoopEngine.NextFrameWraps | src/renderer/loopEngine.js:196-201 | one advance stays in range, wraps to 0 exactly at the last frame, and otherwise adds 1 |
| LoopEngine.AfterTicksFromZero | src/renderer/loopEngine.js:187-217 | from frame 0, `k` advances land on `k mod totalFrames` |
| LoopEngine.Engine.constructor | src/renderer/loopEngine.js:3-27 | a new engine has no frames, frame 0, three loops, is stopped and has no speed data |
| LoopEngine.Engine.Speed | src/renderer/loopEngine.js:220-229 | the engine's current speed is never 0, so the frame duration is defined |
| LoopEngine.Engine.UpdateTotalFrames | src/renderer/loopEngine.js:58-72 | `totalFrames` becomes `TotalFrames(N, loopCount)` |
| LoopEngine.Engine.LoadVideo | src/renderer/loopEngine.js:34-49 | the frame count becomes `floor(duration * 30)` and the total is recomputed |
| LoopEngine.Engine.Pause | src/renderer/loopEngine.js:168-174 | playback stops |
| LoopEngine.Engine.Stop | src/renderer/loopEngine.js:176-184 | playback stops, the frame returns to 0 and one frame update reports it |
| LoopEngine.Engine.Tick | src/renderer/loopEngine.js:187-217 | a due tick advances with wrap, reports playback end exactly on wrapping, then a frame update, and records `now`; otherwise nothing changes; the frame stays in range |
| LoopEngine.Engine.Play | src/renderer/loopEngine.js:160-166 | a no-op while playing; otherwise starts the clock at `now` and runs the first tick: when it is due the frame advances and the events are exactly the tick's (playback end on wrapping, then the frame update), otherwise nothing is reported |
| LoopEngine.Engine.Seek | src/renderer/loopEngine.js:232-239 | the frame becomes the clamped target and one frame update reports it |
| LoopEngine.Engine.SetLoopCount | src/renderer/loopEngine.js:242-250 | the loop count and total are updated, and a frame now past the end resets to 0 |
| LoopEngine.Engine.SetSpeedCurve | src/renderer/loopEngine.js:253-255 | the speed data is replaced |
| VideoProcessor.InterpolateFrom | src/modules/videoProcessor.js:207-220 | the result is a finite number or NaN, never infinite |
| VideoProcessor.NaNOnlyAtZeroWidth | src/modules/videoProcessor.js:210-216 | the search gives NaN only on reaching a zero-width segment whose two points both sit at `progress` |
| VideoProcessor.InterpolateSpeedCurve | src/modules/videoProcessor.js:207-220 | fails, with `EmptySpeedCurve`, exactly on an empty curve; a one-point curve gives its speed everywhere |
| VideoProcessor.FiniteWhenIncreasing | src/modules/videoProcessor.js:207-220 | with strictly increasing times the speed is always a finite number |
| VideoProcessor.AtControlPoint | src/modules/videoProcessor.js:207-220 | with strictly increasing times, a point's own time gives that point's speed |
| VideoProcessor.InsideSegment | src/modules/videoProcessor.js:207-216 | inside `[t_i, t_{i+1}]` the result is the line `s_i + (s_{i+1} - s_i) * t` and lies between `s_i` and `s_{i+1}` |
| VideoProcessor.OutsideCurve | src/modules/videoProcessor.js:207-220 | below the first time or above the last, the result is the last point's speed |
| VideoProcessor.ParseFps | src/modules/videoProcessor.js:58-63 | a rate without `/` never comes out NaN or 0, since both fall back to 30 |
| VideoProcessor.ParseFpsRatio | src/modules/videoProcessor.js:58-62 | a rate `n/d` with `d > 0` is exactly `n / d` |
| VideoProcessor.ParseFpsPlain | src/modules/videoProcessor.js:63 | a plain integer rate is that number, and 0 falls back to 30 |
| VideoProcessor.SlicesTile | src/modules/videoProcessor.js:179-202 | the ten slices are each a tenth, abut, cover `[0, d]`, and sample progress rising from 0 to 1 |
| VideoProcessor.SpeedFilters | src/modules/videoProcessor.js:236-243 | no filters exactly at speed 1; otherwise `setpts` by `1 / speed` and `atempo` by `speed`, with speed 0 giving an infinite factor |
| VideoProcessor.RepeatAt | src/modules/videoProcessor.js:156-160 | entry `k` of the repeated list is entry `k mod |unit|` of `forward ++ reverse` |
| VideoProcessor.RepeatLength | src/modules/videoProcessor.js:156-160 | `n` rounds of a unit hold `n * |unit|` entries |
| VideoProcessor.LoopListLength | src/modules/videoProcessor.js:156-160 | the assembled list has `2 * loopCount * |segments|` entries |
| VideoProcessor.AssembleLoop | src/modules/videoProcessor.js:156-160 | the loop builds `(forward ++ reverse)` repeated `loopCount` times, and nothing for a count of 0 or less |
| VideoProcessor.ConcatList | src/modules/videoProcessor.js:304 | no contract of its own: the list text, one `file '<path>'` line per segment joined by line breaks; `ConcatListLines` states that it splits back into those lines |
| VideoProcessor.ConcatListLines | src/modules/videoProcessor.js:304 | splitting the list text at line breaks gives back one `file '<path>'` line per segment, in order |
| VideoProcessor.Processor.GetVideoInfo | src/modules/videoProcessor.js:29-56 | the probe gives the input's duration, or fails |
| VideoProcessor.Processor.CreateSegmentWithSpeed | src/modules/videoProcessor.js:225-254 | one encoder job with fresh output `segment_<id>.mp4`, duration `end - start` and the speed filters; the file exists exactly when the call succeeds |
| VideoProcessor.Processor.ReverseSegment | src/modules/videoProcessor.js:274-290 | one reversal job with fresh output `reverse_<id>.mp4`; the file exists exactly when the call succeeds |
| VideoProcessor.Processor.ConcatenateSegments | src/modules/videoProcessor.js:295-335 | one concat job over the list text with the default settings filled in; the list file is gone afterwards on both paths; the output exists exactly on success |
| VideoProcessor.Processor.CreateSlice | src/modules/videoProcessor.js:184-196 | slice `i` of ten: an empty curve fails before any job; otherwise one job over `[i d / 10, (i + 1) d / 10]` at the curve's speed for progress `i / 9`, whose file exists exactly when the call succeeds |
| VideoProcessor.Processor.CreateSpeedSegments | src/modules/videoProcessor.js:179-202 | an empty curve fails before any job; success makes exactly ten slice jobs and files in order; failure at slice `k` leaves the first `k` slices behind |
| VideoProcessor.Processor.CreateReverseSegments | src/modules/videoProcessor.js:259-269 | job `j` reverses `forward[len - 1 - j]`; the result has the input's length; failure at `k` leaves the first `k` reversals behind |
| VideoProcessor.Processor.CleanupSegments | src/modules/videoProcessor.js:340-350 | the files become the old files minus the listed ones; missing ones are skipped and nothing else is touched |
| VideoProcessor.Processor.RenderSlices | src/modules/videoProcessor.js:145-153 | probe, ten slices and their ten reversals under consecutive fresh ids; on success the log gains the slice jobs then the reversal jobs and exactly those twenty files are new; on every path only new temporaries are added |
| VideoProcessor.Processor.FinishLoop | src/modules/videoProcessor.js:155-166 | one concat job over `(forward ++ reverse)` repeated `count` times; on failure the files are unchanged; on success the output is added and every slice and reversal is removed |
| VideoProcessor.CleanupRestores | src/modules/videoProcessor.js:163-166 | once the slices and reversals made by the render are removed, the files are those from before the render plus the output |
| VideoProcessor.Processor.GenerateLoopVideo | src/modules/videoProcessor.js:135-174 | on success the only new file is the loop output, and the job log is slices, reversals, then one concat of the assembled list; on failure only new temporaries are left behind |
| ProjectManager.WithBom | src/modules/projectManager.js:70-72 | the saved text is one U+FEFF followed by the JSON text, one character longer |
| ProjectManager.BomRoundTrip | src/modules/projectManager.js:70-72 | loading strips exactly the mark that saving added, even when the text itself starts with one |
| ProjectManager.StripBom | src/modules/projectManager.js:94-96 | one leading U+FEFF is removed, and text without one is unchanged |
| ProjectManager.ValidateProjectData | src/modules/projectManager.js:119-140 | the first missing required field is reported; a non-array timeline is rejected; a version mismatch only warns; valid exactly when all four are present and the timeline is an array |
| ProjectManager.ToProject | src/modules/projectManager.js:103 | the adopted project is the validated data, field for field |
| ProjectManager.Basename | src/modules/projectManager.js:154 | the base name never contains `/` |
| ProjectManager.BasenameOf | src/modules/projectManager.js:154 | the file name of `dir/name` is `name`, also with a trailing slash |
| ProjectManager.NewMediaClip | src/modules/projectManager.js:153-166 | a media clip takes the id and path, the base name, and duration, width, height and fps falling back to 0, 1920, 1080 and 30 when missing or zero |
| ProjectManager.FindMedia | src/modules/projectManager.js:190 | a media clip is found exactly when the pool exists and holds that id, and it is the first clip with that id, as `find` returns |
| ProjectManager.FindFirst | src/modules/projectManager.js:190 | the first clip of the list with that id, or none exactly when no clip has it |
| ProjectManager.ClampLoopCount | src/modules/projectManager.js:209 | the result is in `[1, 99]`, equal to the input inside it and to the nearer bound outside it |
| ProjectManager.NewTimelineClip | src/modules/projectManager.js:195-215 | a new clip starts at 0 by default, has loop count `clamp(loopCount, 1, 99)` defaulting to 3, and a default linear curve of two points at speed 1.0 |
| ProjectManager.ApplyUpdates | src/modules/projectManager.js:243-257 | only start time, curve and loop count change; a non-zero loop count is stored as `ClampLoopCount` of it (into `[1, 99]`, as `ClampLoopCount` states), and zero is stored as it is |
| ProjectManager.ApplyUpdatesIdempotent | src/modules/projectManager.js:243-257 | applying the same updates twice equals applying them once |
| ProjectManager.FindIndex | src/modules/projectManager.js:234-236 | the first clip with the id, or -1 exactly when there is none |
| ProjectManager.RemoveById | src/modules/projectManager.js:273-278 | the kept clips are exactly those with another id, and the list got shorter exactly when some clip had that id |
| ProjectManager.RemoveByIdAppend | src/modules/projectManager.js:274-276 | the filter works piece by piece, so the kept clips stay in order |
| ProjectManager.RemoveByIdIdempotent | src/modules/projectManager.js:274-276 | removing the same id again removes nothing more |
| ProjectManager.TotalDuration | src/modules/projectManager.js:290-310 | no contract of its own: the sum of `duration * 2 * loopCount` over clips with media in the pool; `TotalDurationAppend`, `TotalDurationMissingMedia` and `TotalDurationNonNegative` state its properties |
| ProjectManager.TotalDurationAppend | src/modules/projectManager.js:290-310 | the total of two timelines is the sum of their totals |
| ProjectManager.TotalDurationMissingMedia | src/modules/projectManager.js:298-306 | clips whose media is not in the pool add nothing |
| ProjectManager.TotalDurationNonNegative | src/modules/projectManager.js:290-310 | non-negative durations and loop counts give a non-negative total |
| ProjectManager.ApplySettings | src/modules/projectManager.js:330-339 | each of resolution, bitrate and fps takes the update when given and keeps its value otherwise |
| ProjectManager.ApplySettingsLaws | src/modules/projectManager.js:330-339 | an empty update changes nothing, and repeating an update changes nothing more |
| ProjectManager.Manager.CreateNewProject | src/modules/projectManager.js:24-48 | a fresh project at version 1.0.0 with empty timeline and pool, the default settings and preferences, and no path |
| ProjectManager.Manager.SaveProject | src/modules/projectManager.js:55-82 | fails, changing nothing, when no project was loaded or no path is known; otherwise stamps the time and picks the first non-empty of the argument and the old path; a write the environment refuses fails with `WriteFailed`, leaving the stamp in place and disk and path unchanged; otherwise mark plus JSON is written there and that path is remembered |
| ProjectManager.Manager.LoadProject | src/modules/projectManager.js:89-113 | a missing file, bad JSON or invalid data fails and changes nothing; otherwise the validated data becomes the project and the path is remembered |
| ProjectManager.Manager.AddMediaClip | src/modules/projectManager.js:148-176 | fails without a project; otherwise appends the new clip, added at its own clock reading, to the pool, creating the pool if absent, and stamps the project with the second reading |
| ProjectManager.Manager.AddTimelineClip | src/modules/projectManager.js:184-221 | fails without a project or when the media id is not in the pool, changing nothing; otherwise appends exactly the new clip |
| ProjectManager.Manager.UpdateTimelineClip | src/modules/projectManager.js:229-261 | fails when the id is absent; otherwise only the first matching clip changes, through the whitelist |
| ProjectManager.Manager.RemoveTimelineClip | src/modules/projectManager.js:268-284 | the timeline becomes the filtered list; the result is true exactly when a clip had the id, and only then is the time stamped |
| ProjectManager.Manager.CalculateTotalDuration | src/modules/projectManager.js:290-310 | the loop sums `duration * 2 * loopCount` over clips whose media exists, and gives 0 without a project |
| ProjectManager.Manager.UpdateOutputSettings | src/modules/projectManager.js:325-341 | fails without a project; otherwise merges the whitelisted settings and stamps the time, returning no value |
| App.StopLoop | src/renderer/app.js:510-518 | no contract of its own: the state after `stopLoopPlayback`; `EventsValid` states that it keeps the invariant |
| App.Pause | src/renderer/app.js:449-456 | afterwards loop playback is not running, no frame is pending, the element is paused with the play head where it was, and the loop counter is back at 0, forward |
| App.Stop | src/renderer/app.js:458-466 | as `Pause`, with the play head at 0 |
| App.OrThree | src/renderer/app.js:470 | a parsed non-zero count is kept, and a missing or zero one is 3 |
| App.Update | src/renderer/app.js:520-565 | inert unless playing and looping; past the last loop it stops and rewinds; forward adds 1/30 s and pins at the end while turning round; reverse subtracts 1/30 s and at 0 turns forward and counts one loop |
| App.Start | src/renderer/app.js:493-509 | nothing changes without a source of known length; when loop playback is not running it only rewinds and pauses the element; when it runs with at least one loop to play, the first frame has advanced from 0 and the next is pending |
| App.Toggle | src/renderer/app.js:468-483 | loop mode flips and the loop total is the parsed count or 3; playing flag, play head and element are untouched; turning loop mode off leaves frames and updates with nothing to do |
| App.PlayAsWritten | src/renderer/app.js:435-447 | nothing without a source; with one, playing is set and loop mode kept; outside loop mode the element plays from where it was |
| App.PlayCorrected | src/renderer/app.js:435-447 | as `PlayAsWritten`, except that a loop total of 0 or less ends playback at once, and in loop mode with a known length and at least one loop a frame is pending |
| App.Frame | src/renderer/app.js:561-564 | with no frame pending nothing changes; a pending frame during the loops leaves the next one pending; one past the last loop stops playback with nothing pending |
| App.EventsValid | src/renderer/app.js:434-565 | every event keeps the play head in `[0, duration]`, the counter at 0 and forward whenever loop playback is not running, and a frame pending only while it runs |
| App.FrameProgress | src/renderer/app.js:520-565 | each frame that does not finish shortens what is left to play by at least a step, and that amount is never negative, so the loops always finish |
| App.PlayNeverSchedules | src/renderer/app.js:435-447 | in loop mode, play as written leaves no frame pending and further frames change nothing |
| App.PlayCorrectedSchedules | src/renderer/app.js:435-447 | with `isPlaying` set first, the first frame advances and the next one is pending |
| App.SumLoops | src/renderer/app.js:315 | no contract of its own: the `reduce` over the loop counts; `SumLoopsNonNegative`, `SumLoopsAppend` and `SumLoopsAtLeastCount` state its properties |
| App.SumLoopsNonNegative | src/renderer/app.js:315 | with no negative loop count the total is not negative |
| App.TimelineInfo | src/renderer/app.js:313-319 | no contract of its own: the read-out text; `LoopApp.SetClipToTimeline` states that after each append the read-out shows this text of the new timeline |
| App.SumLoopsAppend | src/renderer/app.js:313-319 | the loop total of two timelines is the sum of their totals |
| App.SumLoopsAtLeastCount | src/renderer/app.js:313-319 | with every loop count at least 1, the total loops are at least the number of clips |
| App.FormatTime | src/renderer/app.js:578-582 | no contract of its own: zero-padded minutes, a colon and zero-padded seconds; `FormatTimeParts` and `FormatTimeShape` state what the parts are and the shape of the text |
| App.FormatTimeParts | src/renderer/app.js:578-582 | for `s >= 0`, minutes are non-negative, seconds are in `[0, 60)`, and `60 * minutes + seconds = floor(s)` |
| App.FormatTimeShape | src/renderer/app.js:578-582 | below 100 minutes the text is exactly two minute digits, a colon and two second digits |
| App.LoopApp.constructor | src/renderer/app.js:3-28 | the window starts stopped, not looping, at loop 0 of 3, with an empty timeline |
| App.LoopApp.StopLoopPlayback | src/renderer/app.js:510-518 | the pending frame is cancelled and counter and direction reset; afterwards `Inv` holds, from the play head and timeline being in order |
| App.LoopApp.PauseVideo | src/renderer/app.js:449-456 | the video pauses, playing stops, and loop playback stops; `Inv` is kept |
| App.LoopApp.StopVideo | src/renderer/app.js:458-466 | as pause, and the play head returns to 0; `Inv` is kept |
| App.LoopApp.UpdateLoopPlayback | src/renderer/app.js:520-565 | the new state is `Update` of the old; `Inv` is kept |
| App.LoopApp.StartLoopPlayback | src/renderer/app.js:493-509 | without a source of known length nothing happens; otherwise rewind, pause, reset and run one update; `Inv` is kept |
| App.LoopApp.PlayVideo | src/renderer/app.js:435-447 | the new state is play as written of the old; `Inv` is kept |
| App.LoopApp.ToggleLoop | src/renderer/app.js:468-483 | loop mode flips, the loop total is read, and turning it off stops loop playback; `Inv` is kept |
| App.LoopApp.UpdateLoopCount | src/renderer/app.js:485-491 | the loop total and the selected clip's loop count take the new value, and nothing else changes; `Inv` is kept |
| App.LoopApp.AnimationFrame | src/renderer/app.js:561-564 | a pending frame callback runs one update; `Inv` is kept |
| App.LoopApp.SetClipToTimeline | src/renderer/app.js:260-301 | nothing without a selection; otherwise one entry with position = previous length and loop count parsed or 3, and the read-out shows the new sum |
| App.Clamp | src/renderer/app.js:191-192 | the result lies in `[lo, hi]`, equals the input inside, and the nearer bound outside |
| App.Insert | src/renderer/app.js:213-219 | inserting into points sorted by `x` keeps them sorted, adds one point, and adds no point but the new one |
| App.InsertPermutes | src/renderer/app.js:213-219 | inserting keeps every point exactly once more |
| App.SortByX | src/renderer/app.js:213-219 | the points come out ordered by `x` with their number unchanged |
| App.SortByXPermutes | src/renderer/app.js:213-219 | the sorted points are a permutation of the circles' points |
| App.PathData | src/renderer/app.js:221-229 | no contract of its own: `M x y` for the first point, then ` L x y` for each further point; `BuildPathData` and `PathDataShape` state what the loop builds and the shape of the text |
| App.BuildPathData | src/renderer/app.js:221-229 | the loop's string is `M x y` for the first point followed by ` L x y` for each further point |
| App.PathDataShape | src/renderer/app.js:221-229 | the path starts with `M`, has one `M`, and has one `L` per point after the first |
| App.CurveEditor.constructor | src/renderer/app.js:166-172 | the editor starts with the two end points and their path |
| App.CurveEditor.UpdateSpeedCurvePath | src/renderer/app.js:212-230 | with at least two circles the path is rebuilt from the sorted points; otherwise it is left alone |
| App.CurveEditor.Drag | src/renderer/app.js:183-198 | a dragged end point moves to `x` clamped to `[20, 280]` and `y` clamped to `[20, 180]`, and the path is rebuilt |
| App.CurveEditor.AddSpeedCurvePoint | src/renderer/app.js:232-258 | a click appends a circle where it lands and rebuilds the path |
| App.CurveEditor.RemovePoint | src/renderer/app.js:248-254 | an added circle is removed only while more than two exist, so at least two always remain |
| App.CurveEditor.ResetSpeedCurve | src/renderer/app.js:321-337 | only the two end points remain, at `(20, 180)` and `(280, 180)`, and the path is rebuilt |

## Findings

| source | as written | input that shows it | evidently intended | confidence | as-written member | corrected member |
|---|---|---|---|---|---|---|
| src/renderer/app.js:435-447 | in loop mode `playVideo` calls `startLoopPlayback` before it sets `isPlaying = true`, so the first `updateLoopPlayback` returns at once and requests no animation frame | a source of positive duration is loaded, loop mode is on, playback is stopped, and play is pressed: the element stays paused at 0 and no frame ever follows | `isPlaying` is set before loop playback starts, so the first frame advances and schedules the next | not executed; high, since nothing else calls `updateLoopPlayback` | App.PlayNeverSchedules | App.PlayCorrectedSchedules |

`App.PlayAsWritten` models the code as written. `App.PlayCorrected` is the corrected
order. `App.EventsValid` proves that both keep the playback invariant.
`App.LoopApp.PlayVideo` follows the code as written.

## Left out

- Media decoding and drawing are left out: `drawFrame`, the canvas, the letterbox geometry and the `onseeked` wait. They are host APIs and asynchronous.
- Clocks and callbacks are not modelled as such. `performance.now` is a parameter; `requestAnimationFrame` is a pending flag plus a method the host calls; the engine's two callbacks are the returned event list.
- LoopEngine.Engine.LoadVideo: models only the metadata handler of `loadVideo`. Setting the source, the error path and the per-frame placeholder objects are left out; only their count is kept.
- LoopEngine.CurrentSpeed: progress is exact rather than a floating-point quotient, so the floor of `currentFrame * (len - 1) / totalFrames` is taken on integers.
- The engine's `setDebugMode` and its debug overlay are left out; they only draw.
- ffmpeg, ffprobe and the file system are abstract. An encoder call succeeds or fails according to its call id; a probe gives a duration or fails. Stream selection and the other probe fields (width, height, bitrate, codec) are left out.
- VideoProcessor.Processor.CreateSegmentWithSpeed, VideoProcessor.Processor.ReverseSegment, VideoProcessor.Processor.ConcatenateSegments, VideoProcessor.Processor.CreateSpeedSegments, VideoProcessor.Processor.CreateReverseSegments, VideoProcessor.Processor.FinishLoop: take as given that a failing encoder call leaves no output file. A real ffmpeg run can fail after it has begun writing its output, and such a partial file is not modelled; so "a failure at slice `k` leaves exactly the first `k` slices" and "on failure the files are unchanged but for the list file's removal" hold only under that assumption.
- VideoProcessor.Processor.CleanupSegments, VideoProcessor.Processor.FinishLoop, VideoProcessor.Processor.GenerateLoopVideo: take as given that removing an existing file succeeds. The code catches a failing `fs.unlinkSync` (`src/modules/videoProcessor.js:342-348`), only warns and keeps the file; that path is not modelled, so "the listed files are removed" and "on success the only new file is the output" hold only under this assumption. Writing and removing the concat list file (`src/modules/videoProcessor.js:305`, `323`, `329`) are taken to succeed as well.
- LoopEngine.SegmentInfoForFrame: the `progress` field of the returned object (`frameNum / this.totalFrames`, `src/renderer/loopEngine.js:102`) is not modelled; no code in the model's scope reads it.
- VideoProcessor.SpeedFilters: keeps the filter factors as numbers, without `toFixed(3)` rounding into filter text.
- VideoProcessor.ParseFps: reads decimal digits with an optional fraction only. Signs, exponents, blanks, hexadecimal and `Infinity` text are not modelled.
- `generateThumbnail`, `generateProxyVideo` and `cleanupTempDir` are left out; none of them is part of the loop plan.
- `uuidv4` and ISO timestamps are fresh values passed in: a counter in `Processor`, and parameters in `Manager`. Each `new Date()` reading is a parameter of its own, so `AddMediaClip` and `AddTimelineClip` take the clip's `addedAt` apart from the project's `modifiedAt`.
- JSON text is produced and read by functions the caller passes in. Field values of the wrong JSON type, other than a timeline that is not an array, are not modelled.
- ProjectManager.Manager.LoadProject: does not model aliasing. The returned project and clips are values, so a caller's later edits to the returned object do not reach the stored project.
- ProjectManager.Basename: a POSIX `path.basename` on `/`; Windows separators are not modelled.
- `getProjectInfo`, `markProjectAsModified` as a method of its own, and `autoSave` are left out. The first two are folded into the operations that stamp `modifiedAt`; the third is a timer around `saveProject` with a regular-expression path rewrite.
- The main process (`src/main.js`) and the preload bridge (`src/preload.js`) are not part of this model.
- DOM and event wiring in the window are left out: listeners, drag-and-drop, modals, `importVideos`, `selectMediaClip`, and saving and opening through the bridge. The timeline element's pixel offset is also left out.
- `simulateExport` is left out; it reports random progress on a timer.
- App.LoopApp.UpdateLoopCount: takes the parsed count as an integer; a field that parses to NaN is not modelled.
- App.LoopApp: the media element's own playback (time advancing while the element plays normally) and its clamping of `currentTime` are not modelled. The loop machine's `+=` and `-=` can write a value past either end, but the branch at once replaces it by that end, so the element's clamping does not change which branch runs.
- App.CurveEditor: coordinates are exact reals. Writing them into attributes and reading them back with `parseFloat` is identity, and the number-to-text conversion is a function the editor is given.
- `index.html`, which places the two end points and draws the first path, is not part of this model. The constructor takes the two points.
- App.SortByX: states that the result is sorted by `x` and a permutation of the circles. That points with equal `x` keep their document order, as JavaScript's stable `sort` does, is not stated.
- App.FormatTime: a NaN or infinite time is not modelled. The read-out is only produced when the duration is known.
