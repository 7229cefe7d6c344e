/** The editor window: ping-pong preview of the selected clip driven by animation
    frames, the timeline the user fills, the time read-out and the speed-curve
    editor. The video element, the animation-frame queue and the SVG circles are
    state here; clicks, key presses and frame callbacks are method calls. */
module App {
  import opened Common

  // ---------------------------------------------------------------------------
  // Loop playback

  /** One frame at 30 fps, in milliseconds, and the step it makes in seconds. */
  const FrameTime: real := 1000.0 / 30.0
  const FrameStep: real := FrameTime / 1000.0

  /** Everything the loop playback reads and writes: `isPlaying`, the fields of
      `loopState`, the video element (`src` set, `duration` with 0 for unknown,
      `currentTime`, playing or paused) and whether an animation frame is pending. */
  datatype Player = Player(
    isPlaying: bool,
    isLooping: bool, currentLoop: int, totalLoops: int, isReverse: bool, direction: int,
    hasSource: bool, duration: real, currentTime: real, videoPlaying: bool,
    pending: bool)

  /** Loop playback is running: both flags set. */
  predicate Active(s: Player) {
    s.isPlaying && s.isLooping
  }

  /** `parseInt(loopCount) || 3`: `None` is NaN, and NaN and 0 are falsy. */
  function OrThree(parsed: Option<int>): (n: int)
    ensures parsed.Some? && parsed.value != 0 ==> n == parsed.value
    ensures parsed.None? || parsed.value == 0 ==> n == 3
  {
    if parsed.Some? && parsed.value != 0 then parsed.value else 3
  }

  /** `stopLoopPlayback`: cancel the pending frame and reset the loop counter. */
  function StopLoop(s: Player): Player {
    s.(pending := false, currentLoop := 0, isReverse := false)
  }

  /** `pauseVideo`: the play head stays where it is, loop playback stops and no
      frame is left to run. */
  function Pause(s: Player): (r: Player)
    ensures !Active(r) && !r.pending && !r.videoPlaying && r.currentTime == s.currentTime
    ensures r.currentLoop == 0 && !r.isReverse && r.isLooping == s.isLooping && r.totalLoops == s.totalLoops
  {
    StopLoop(s.(videoPlaying := false, isPlaying := false))
  }

  /** `stopVideo`: as `pauseVideo`, and the play head is back at the start. */
  function Stop(s: Player): (r: Player)
    ensures !Active(r) && !r.pending && !r.videoPlaying && r.currentTime == 0.0
    ensures r.currentLoop == 0 && !r.isReverse && r.isLooping == s.isLooping && r.totalLoops == s.totalLoops
  {
    StopLoop(s.(videoPlaying := false, currentTime := 0.0, isPlaying := false))
  }

  /** `updateLoopPlayback`: one frame of the forward/reverse/loop-counter machine. */
  function Update(s: Player): (r: Player)
    ensures !Active(s) ==> r == s
    ensures Active(s) && s.currentLoop >= s.totalLoops ==>
      && !r.isPlaying && !r.videoPlaying && !r.pending
      && r.currentLoop == 0 && r.currentTime == 0.0 && !r.isReverse
      && r.isLooping && r.totalLoops == s.totalLoops
    ensures Active(s) && s.currentLoop < s.totalLoops ==>
      && r.pending && Active(r) && r.totalLoops == s.totalLoops && r.duration == s.duration
      && (!s.isReverse && s.currentTime + FrameStep < s.duration ==>
            r.currentTime == s.currentTime + FrameStep && !r.isReverse && r.currentLoop == s.currentLoop)
      && (!s.isReverse && s.currentTime + FrameStep >= s.duration ==>
            r.currentTime == s.duration && r.isReverse && r.currentLoop == s.currentLoop)
      && (s.isReverse && s.currentTime - FrameStep > 0.0 ==>
            r.currentTime == s.currentTime - FrameStep && r.isReverse && r.currentLoop == s.currentLoop)
      && (s.isReverse && s.currentTime - FrameStep <= 0.0 ==>
            r.currentTime == 0.0 && !r.isReverse && r.currentLoop == s.currentLoop + 1)
  {
    if !s.isPlaying || !s.isLooping then s
    else if s.currentLoop >= s.totalLoops then Pause(s).(currentLoop := 0, currentTime := 0.0)
    else
      var stepped :=
        if !s.isReverse then
          var t := s.currentTime + FrameStep;
          if t >= s.duration then s.(isReverse := true, currentTime := s.duration) else s.(currentTime := t)
        else
          var t := s.currentTime - FrameStep;
          if t <= 0.0 then s.(isReverse := false, currentLoop := s.currentLoop + 1, currentTime := 0.0)
          else s.(currentTime := t);
      stepped.(pending := true)
  }

  /** `startLoopPlayback`: nothing without a source of known length; otherwise rewind,
      pause the element and run the first frame. */
  function Start(s: Player): (r: Player)
    ensures !s.hasSource || s.duration == 0.0 ==> r == s
    ensures s.hasSource && s.duration != 0.0 && !Active(s) ==>
      r.currentTime == 0.0 && r.currentLoop == 0 && !r.isReverse && !r.videoPlaying && r.pending == s.pending
    ensures s.hasSource && s.duration > 0.0 && Active(s) && s.totalLoops > 0 ==>
      && r.pending && Active(r) && r.currentLoop == 0 && !r.videoPlaying
      && r.currentTime == (if FrameStep >= s.duration then s.duration else FrameStep)
  {
    if !s.hasSource || s.duration == 0.0 then s
    else Update(s.(currentLoop := 0, isReverse := false, direction := 1, currentTime := 0.0, videoPlaying := false))
  }

  /** `toggleLoop`, given what the loop-count field parses to. */
  function Toggle(s: Player, parsed: Option<int>): (r: Player)
    ensures r.isLooping == !s.isLooping && r.totalLoops == OrThree(parsed)
    ensures r.isPlaying == s.isPlaying && r.currentTime == s.currentTime && r.videoPlaying == s.videoPlaying
    ensures !r.isLooping ==> Frame(r) == r && Update(r) == r
  {
    var s1 := s.(isLooping := !s.isLooping, totalLoops := OrThree(parsed));
    if !s1.isLooping then StopLoop(s1) else s1
  }

  /** `playVideo` as written: loop playback is started before `isPlaying` is set. */
  function PlayAsWritten(s: Player): (r: Player)
    ensures !s.hasSource ==> r == s
    ensures s.hasSource ==> r.isPlaying && r.isLooping == s.isLooping
    ensures s.hasSource && !s.isLooping ==> r.videoPlaying && r.currentTime == s.currentTime
  {
    if !s.hasSource then s
    else (if s.isLooping then Start(s) else s.(videoPlaying := true)).(isPlaying := true)
  }

  /** `playVideo` with `isPlaying` set first, so that the first frame runs. */
  function PlayCorrected(s: Player): (r: Player)
    ensures !s.hasSource ==> r == s
    ensures s.hasSource ==> r.isLooping == s.isLooping
    ensures s.hasSource && !(s.isLooping && s.duration != 0.0 && s.totalLoops <= 0) ==> r.isPlaying
    ensures s.hasSource && !s.isLooping ==> r.videoPlaying && r.currentTime == s.currentTime
    ensures s.hasSource && s.isLooping && s.duration > 0.0 && s.totalLoops > 0 ==> r.pending
  {
    if !s.hasSource then s
    else if s.isLooping then Start(s.(isPlaying := true))
    else s.(videoPlaying := true, isPlaying := true)
  }

  /** The host runs the pending animation-frame callback, if there is one. */
  function Frame(s: Player): (r: Player)
    ensures !s.pending ==> r == s
    ensures s.pending && Active(s) && s.currentLoop < s.totalLoops ==> r.pending
    ensures s.pending && Active(s) && s.currentLoop >= s.totalLoops ==> !r.pending && !Active(r)
  {
    if s.pending then Update(s.(pending := false)) else s
  }

  /** What holds between events: the play head inside the clip, a non-negative loop
      counter that is reset whenever loop playback is not running, and a frame
      pending only while it is. */
  ghost predicate Valid(s: Player) {
    && HeadInClip(s)
    && 0 <= s.currentLoop
    && (!Active(s) ==> s.currentLoop == 0 && !s.isReverse)
    && (s.pending ==> Active(s))
  }

  ghost predicate HeadInClip(s: Player) {
    0.0 <= s.duration && 0.0 <= s.currentTime <= s.duration
  }

  lemma UpdateValid(s: Player)
    requires Valid(s)
    ensures Valid(Update(s))
  {
  }

  /** Every event keeps the invariant. */
  lemma {:induction false} EventsValid(s: Player, parsed: Option<int>)
    requires Valid(s)
    ensures Valid(Update(s)) && Valid(Start(s)) && Valid(StopLoop(s)) && Valid(Pause(s)) && Valid(Stop(s))
    ensures Valid(Toggle(s, parsed)) && Valid(PlayAsWritten(s)) && Valid(PlayCorrected(s)) && Valid(Frame(s))
  {
    UpdateValid(s);
    var started := s.(currentLoop := 0, isReverse := false, direction := 1, currentTime := 0.0, videoPlaying := false);
    assert Valid(started);
    UpdateValid(started);
    if s.hasSource && s.isLooping {
      var playing := s.(isPlaying := true);
      assert Valid(playing);
      var startedPlaying := playing.(currentLoop := 0, isReverse := false, direction := 1, currentTime := 0.0, videoPlaying := false);
      UpdateValid(startedPlaying);
    }
    if s.pending {
      UpdateValid(s.(pending := false));
    }
  }

  /** What is left to play, in seconds of play-head travel plus one step per turn:
      the loops not yet begun, then the rest of the current pass. */
  function Remaining(s: Player): real {
    var perLoop := 2.0 * s.duration + 2.0 * FrameStep;
    (s.totalLoops - s.currentLoop - 1) as real * perLoop
      + (if !s.isReverse then (s.duration - s.currentTime) + s.duration + 2.0 * FrameStep else s.currentTime + FrameStep)
  }

  lemma SubOneLoop(k: int, p: real)
    ensures (k - 1) as real * p == k as real * p - p
  {
  }

  /** Every frame that does not finish the loops shortens what is left by at least
      one step, and what is left is never negative: the loops always finish. */
  lemma {:induction false} FrameProgress(s: Player)
    requires Valid(s) && Active(s) && s.currentLoop < s.totalLoops
    ensures Remaining(s) >= 0.0
    ensures Remaining(Update(s)) <= Remaining(s) - FrameStep
  {
    var perLoop := 2.0 * s.duration + 2.0 * FrameStep;
    var k := s.totalLoops - s.currentLoop - 1;
    assert k >= 0 && perLoop >= 0.0;
    assert k as real * perLoop >= 0.0;
    var r := Update(s);
    if s.isReverse && s.currentTime - FrameStep <= 0.0 {
      SubOneLoop(k, perLoop);
      assert r.totalLoops - r.currentLoop - 1 == k - 1;
    }
  }

  /** The defect of `playVideo`: in loop mode the first frame meets `isPlaying` still
      false and schedules nothing, so loop playback never advances. */
  lemma {:induction false} PlayNeverSchedules(s: Player)
    requires Valid(s) && s.hasSource && s.duration > 0.0 && s.isLooping && !s.isPlaying
    ensures var r := PlayAsWritten(s);
      && Active(r) && !r.pending && r.currentTime == 0.0 && !r.videoPlaying
      && Frame(r) == r && Frame(Frame(r)) == r
  {
  }

  /** With `isPlaying` set first, the first frame advances and the next is pending. */
  lemma {:induction false} PlayCorrectedSchedules(s: Player)
    requires Valid(s) && s.hasSource && s.duration > 0.0 && s.isLooping && !s.isPlaying && s.totalLoops > 0
    ensures var r := PlayCorrected(s);
      && Active(r) && r.pending && r.currentLoop == 0
      && r.currentTime == (if FrameStep >= s.duration then s.duration else FrameStep)
  {
    var started := s.(isPlaying := true, currentLoop := 0, isReverse := false, direction := 1, currentTime := 0.0, videoPlaying := false);
    assert PlayCorrected(s) == Update(started);
    assert started.currentTime + FrameStep == FrameStep;
  }

  // ---------------------------------------------------------------------------
  // Timeline

  /** The clip picked in the media pool. */
  datatype SelectedClip = SelectedClip(filePath: string, fileName: string, loopCount: int)

  /** `{...selectedClip, id, position}`. */
  datatype TimelineEntry = TimelineEntry(filePath: string, fileName: string, loopCount: int, id: int, position: int)

  /** The `reduce` of `updateTimelineInfo`: the loop counts added up. */
  function SumLoops(timeline: seq<TimelineEntry>): int {
    if timeline == [] then 0 else SumLoops(timeline[..|timeline| - 1]) + timeline[|timeline| - 1].loopCount
  }

  lemma {:induction false} SumLoopsAppend(a: seq<TimelineEntry>, b: seq<TimelineEntry>)
    ensures SumLoops(a + b) == SumLoops(a) + SumLoops(b)
    decreases |b|
  {
    if b == [] {
      assert a + b == a;
    } else {
      assert (a + b)[..|a + b| - 1] == a + b[..|b| - 1];
      SumLoopsAppend(a, b[..|b| - 1]);
    }
  }

  /** With no negative loop count the total is not negative. */
  lemma {:induction false} SumLoopsNonNegative(timeline: seq<TimelineEntry>)
    requires forall i :: 0 <= i < |timeline| ==> timeline[i].loopCount >= 0
    ensures SumLoops(timeline) >= 0
  {
    if timeline != [] {
      SumLoopsNonNegative(timeline[..|timeline| - 1]);
    }
  }

  /** With every loop count at least one, there are at least as many loops as clips. */
  lemma {:induction false} SumLoopsAtLeastCount(timeline: seq<TimelineEntry>)
    requires forall i :: 0 <= i < |timeline| ==> timeline[i].loopCount >= 1
    ensures SumLoops(timeline) >= |timeline|
  {
    if timeline != [] {
      SumLoopsAtLeastCount(timeline[..|timeline| - 1]);
    }
  }

  /** The text of `updateTimelineInfo`. */
  function TimelineInfo(timeline: seq<TimelineEntry>): string {
    "Timeline: " + IntToString(|timeline|) + " clips, " + IntToString(SumLoops(timeline)) + " total loops"
  }

  // ---------------------------------------------------------------------------
  // formatTime

  /** `Math.trunc`, which JavaScript's `%` uses for its quotient. */
  function Trunc(x: real): (n: int)
    ensures x >= 0.0 ==> n == x.Floor
    ensures x < 0.0 ==> n == -((-x).Floor)
  {
    if x >= 0.0 then x.Floor else -((-x).Floor)
  }

  /** JavaScript's `a % b` on numbers: the sign follows the dividend. */
  function JsRealRem(a: real, b: real): real
    requires b != 0.0
  {
    a - b * Trunc(a / b) as real
  }

  function Minutes(seconds: real): int {
    (seconds / 60.0).Floor
  }

  function Seconds(seconds: real): int {
    JsRealRem(seconds, 60.0).Floor
  }

  /** `formatTime`: zero-padded minutes, a colon, zero-padded seconds. */
  function FormatTime(seconds: real): string {
    PadStart2(IntToString(Minutes(seconds))) + ":" + PadStart2(IntToString(Seconds(seconds)))
  }

  /** For a non-negative time the two parts are the whole minutes and the whole
      seconds left over, which together give back the whole seconds. */
  lemma FormatTimeParts(seconds: real)
    requires seconds >= 0.0
    ensures Minutes(seconds) >= 0 && 0 <= Seconds(seconds) < 60
    ensures 60 * Minutes(seconds) + Seconds(seconds) == seconds.Floor
  {
    var m := Minutes(seconds);
    assert m as real <= seconds / 60.0 < m as real + 1.0;
    assert Trunc(seconds / 60.0) == m;
    var rest := seconds - 60.0 * m as real;
    assert 0.0 <= rest < 60.0;
    assert JsRealRem(seconds, 60.0) == rest;
    assert rest == seconds - (60 * m) as real;
    FloorShift(seconds, 60 * m);
  }

  lemma FloorShift(x: real, k: int)
    ensures (x - k as real).Floor == x.Floor - k
  {
  }

  /** Below 100 minutes the read-out is exactly `MM:SS`. */
  lemma FormatTimeShape(seconds: real)
    requires 0.0 <= seconds < 6000.0
    ensures var m, sec := Minutes(seconds), Seconds(seconds);
      && m < 100
      && FormatTime(seconds) == [DigitChar(m / 10), DigitChar(m % 10), ':', DigitChar(sec / 10), DigitChar(sec % 10)]
  {
    FormatTimeParts(seconds);
    var m, sec := Minutes(seconds), Seconds(seconds);
    assert m < 100 by {
      assert m as real <= seconds / 60.0 < 100.0;
    }
    var a := PadStart2(IntToString(m));
    var b := PadStart2(IntToString(sec));
    assert a == [DigitChar(m / 10), DigitChar(m % 10)] by {
      TwoDigits(m);
    }
    assert b == [DigitChar(sec / 10), DigitChar(sec % 10)] by {
      TwoDigits(sec);
    }
    assert FormatTime(seconds) == a + ":" + b;
  }

  // ---------------------------------------------------------------------------
  // The window's state

  class LoopApp {
    var isPlaying: bool
    var isLooping: bool
    var currentLoop: int
    var totalLoops: int
    var isReverse: bool
    var playbackDirection: int
    /** The preview video element. */
    var hasSource: bool
    var duration: real
    var currentTime: real
    var videoPlaying: bool
    /** `loopAnimationId` is set. */
    var pending: bool
    var selectedClip: Option<SelectedClip>
    var timeline: seq<TimelineEntry>
    /** The text of the timeline read-out. */
    var timelineInfo: string

    function State(): Player
      reads this
    {
      Player(isPlaying, isLooping, currentLoop, totalLoops, isReverse, playbackDirection,
             hasSource, duration, currentTime, videoPlaying, pending)
    }

    /** The loop-playback invariant, and each timeline entry knows its place. */
    ghost predicate Inv()
      reads this
    {
      Valid(State()) && Placed()
    }

    ghost predicate Placed()
      reads this
    {
      forall i :: 0 <= i < |timeline| ==> timeline[i].position == i
    }

    /** The window with a preview element that has a source of `duration` seconds
        (0 while unknown), or none. */
    constructor (hasSource: bool, duration: real)
      requires duration >= 0.0
      ensures Inv() && timeline == [] && selectedClip == None
      ensures State() == Player(false, false, 0, 3, false, 1, hasSource, duration, 0.0, false, false)
    {
      isPlaying := false;
      isLooping, currentLoop, totalLoops, isReverse, playbackDirection := false, 0, 3, false, 1;
      this.hasSource, this.duration, currentTime, videoPlaying := hasSource, duration, 0.0, false;
      pending := false;
      selectedClip := None;
      timeline := [];
      timelineInfo := "";
    }

    /** Also called half-way through `pauseVideo`, `stopVideo` and `toggleLoop`, where
        only the play head and the timeline are known to be in order. */
    method StopLoopPlayback()
      requires HeadInClip(State()) && Placed()
      modifies this`pending, this`currentLoop, this`isReverse
      ensures Inv()
      ensures State() == StopLoop(old(State()))
    {
      if pending {
        pending := false;
      }
      currentLoop := 0;
      isReverse := false;
    }

    method PauseVideo()
      requires Inv()
      modifies this`videoPlaying, this`isPlaying, this`pending, this`currentLoop, this`isReverse
      ensures Inv()
      ensures State() == Pause(old(State()))
    {
      videoPlaying := false;
      isPlaying := false;
      StopLoopPlayback();
    }

    method StopVideo()
      requires Inv()
      modifies this`videoPlaying, this`currentTime, this`isPlaying, this`pending, this`currentLoop, this`isReverse
      ensures Inv()
      ensures State() == Stop(old(State()))
    {
      videoPlaying := false;
      currentTime := 0.0;
      isPlaying := false;
      StopLoopPlayback();
    }

    method UpdateLoopPlayback()
      requires Inv()
      modifies this`videoPlaying, this`currentTime, this`isPlaying, this`pending, this`currentLoop, this`isReverse
      ensures Inv()
      ensures State() == Update(old(State()))
    {
      if !isPlaying || !isLooping {
        return;
      }
      if currentLoop >= totalLoops {
        PauseVideo();
        currentLoop := 0;
        currentTime := 0.0;
        return;
      }
      if !isReverse {
        currentTime := currentTime + FrameStep;
        if currentTime >= duration {
          isReverse := true;
          currentTime := duration;
        }
      } else {
        currentTime := currentTime - FrameStep;
        if currentTime <= 0.0 {
          isReverse := false;
          currentLoop := currentLoop + 1;
          currentTime := 0.0;
        }
      }
      pending := true;
    }

    method StartLoopPlayback()
      requires Inv()
      modifies this`videoPlaying, this`currentTime, this`isPlaying, this`pending, this`currentLoop, this`isReverse,
               this`playbackDirection
      ensures Inv()
      ensures State() == Start(old(State()))
    {
      if !hasSource || duration == 0.0 {
        return;
      }
      currentLoop := 0;
      isReverse := false;
      playbackDirection := 1;
      currentTime := 0.0;
      videoPlaying := false;
      UpdateLoopPlayback();
    }

    /** `playVideo`, in the order the code has. */
    method PlayVideo()
      requires Inv()
      modifies this`videoPlaying, this`currentTime, this`isPlaying, this`pending, this`currentLoop, this`isReverse,
               this`playbackDirection
      ensures Inv()
      ensures State() == PlayAsWritten(old(State()))
    {
      if hasSource {
        if isLooping {
          StartLoopPlayback();
        } else {
          videoPlaying := true;
        }
        isPlaying := true;
      }
    }

    method ToggleLoop(parsedLoopCount: Option<int>)
      requires Inv()
      modifies this`isLooping, this`totalLoops, this`pending, this`currentLoop, this`isReverse
      ensures Inv()
      ensures State() == Toggle(old(State()), parsedLoopCount)
    {
      isLooping := !isLooping;
      totalLoops := OrThree(parsedLoopCount);
      if !isLooping {
        StopLoopPlayback();
      }
    }

    /** `updateLoopCount`, run when the loop-count field changes: the loop total and
        the selected clip's count both take the parsed value. */
    method UpdateLoopCount(count: int)
      requires Inv()
      modifies this`totalLoops, this`selectedClip
      ensures Inv()
      ensures State() == old(State()).(totalLoops := count)
      ensures old(selectedClip).None? ==> selectedClip == None
      ensures old(selectedClip).Some? ==> selectedClip == Some(old(selectedClip).value.(loopCount := count))
    {
      totalLoops := count;
      if selectedClip.Some? {
        selectedClip := Some(selectedClip.value.(loopCount := count));
      }
    }

    /** The host calls back the frame requested by `requestAnimationFrame`. */
    method AnimationFrame()
      requires Inv()
      modifies this`videoPlaying, this`currentTime, this`isPlaying, this`pending, this`currentLoop, this`isReverse
      ensures Inv()
      ensures State() == Frame(old(State()))
    {
      if pending {
        pending := false;
        UpdateLoopPlayback();
      }
    }

    /** `setClipToTimeline`, given what the loop-count field parses to and `Date.now()`. */
    method SetClipToTimeline(parsedLoopCount: Option<int>, now: int)
      requires Inv()
      modifies this`selectedClip, this`timeline, this`timelineInfo
      ensures Inv()
      ensures old(selectedClip).None? ==>
        selectedClip == old(selectedClip) && timeline == old(timeline) && timelineInfo == old(timelineInfo)
      ensures old(selectedClip).Some? ==>
        var clip := old(selectedClip).value;
        var loopCount := OrThree(parsedLoopCount);
        && selectedClip == Some(clip.(loopCount := loopCount))
        && timeline == old(timeline) + [TimelineEntry(clip.filePath, clip.fileName, loopCount, now, |old(timeline)|)]
        && timelineInfo == TimelineInfo(timeline)
        && SumLoops(timeline) == SumLoops(old(timeline)) + loopCount
    {
      if selectedClip.None? {
        return;
      }
      var loopCount := OrThree(parsedLoopCount);
      selectedClip := Some(selectedClip.value.(loopCount := loopCount));
      var clip := selectedClip.value;
      timeline := timeline + [TimelineEntry(clip.filePath, clip.fileName, clip.loopCount, now, |timeline|)];
      assert timeline[..|timeline| - 1] == old(timeline);
      timelineInfo := TimelineInfo(timeline);
    }
  }

  // ---------------------------------------------------------------------------
  // The speed-curve editor

  /** A circle of the SVG editor, at `(cx, cy)` in the 300 x 200 view box. */
  datatype Point = Point(x: real, y: real)

  /** `Math.max(lo, Math.min(hi, v))`. */
  function Clamp(v: real, lo: real, hi: real): (r: real)
    requires lo <= hi
    ensures lo <= r <= hi
    ensures lo <= v <= hi ==> r == v
    ensures v < lo ==> r == lo
    ensures v > hi ==> r == hi
  {
    if v < lo then lo else if v > hi then hi else v
  }

  predicate SortedByX(ps: seq<Point>) {
    forall i, j :: 0 <= i < j < |ps| ==> ps[i].x <= ps[j].x
  }

  /** Insertion in front of the first point that is not to the left. */
  function Insert(p: Point, sorted: seq<Point>): (r: seq<Point>)
    requires SortedByX(sorted)
    ensures SortedByX(r) && |r| == |sorted| + 1
    ensures forall q :: q in r ==> q == p || q in sorted
  {
    if sorted == [] || p.x <= sorted[0].x then
      var r := [p] + sorted;
      assert forall j :: 0 < j < |r| ==> r[j] == sorted[j - 1];
      r
    else
      var head, tail := sorted[0], sorted[1..];
      var rest := Insert(p, tail);
      assert forall j :: 0 <= j < |rest| ==> head.x <= rest[j].x by {
        forall j | 0 <= j < |rest|
          ensures head.x <= rest[j].x
        {
          assert rest[j] in rest;
        }
      }
      [head] + rest
  }

  lemma {:induction false} InsertPermutes(p: Point, sorted: seq<Point>)
    requires SortedByX(sorted)
    ensures multiset(Insert(p, sorted)) == multiset(sorted) + multiset{p}
  {
    if !(sorted == [] || p.x <= sorted[0].x) {
      InsertPermutes(p, sorted[1..]);
      assert sorted == [sorted[0]] + sorted[1..];
    }
  }

  /** `sort((a, b) => a.x - b.x)`: the points in order of `x`. */
  function SortByX(ps: seq<Point>): (r: seq<Point>)
    ensures SortedByX(r) && |r| == |ps|
  {
    if ps == [] then [] else Insert(ps[0], SortByX(ps[1..]))
  }

  /** The sorted points are the circles' points, each as often as it occurs. */
  lemma {:induction false} SortByXPermutes(ps: seq<Point>)
    ensures multiset(SortByX(ps)) == multiset(ps)
  {
    if ps != [] {
      SortByXPermutes(ps[1..]);
      InsertPermutes(ps[0], SortByX(ps[1..]));
      assert ps == [ps[0]] + ps[1..];
    }
  }

  /** `M x y` for the first point, then ` L x y` for each further point. */
  function PathData(points: seq<Point>, show: real -> string): string
    requires |points| >= 1
  {
    "M " + show(points[0].x) + " " + show(points[0].y) + LineSegments(points[1..], show)
  }

  function LineSegments(points: seq<Point>, show: real -> string): string {
    if points == [] then ""
    else
      var last := points[|points| - 1];
      LineSegments(points[..|points| - 1], show) + " L " + show(last.x) + " " + show(last.y)
  }

  /** The loop of `updateSpeedCurvePath` that appends one segment per point. */
  method BuildPathData(points: seq<Point>, show: real -> string) returns (pathData: string)
    requires |points| >= 1
    ensures pathData == PathData(points, show)
  {
    pathData := "M " + show(points[0].x) + " " + show(points[0].y);
    var i := 1;
    while i < |points|
      invariant 1 <= i <= |points|
      invariant pathData == "M " + show(points[0].x) + " " + show(points[0].y) + LineSegments(points[1..i], show)
    {
      assert points[1..i + 1][..i - 1] == points[1..i];
      pathData := pathData + " L " + show(points[i].x) + " " + show(points[i].y);
      i := i + 1;
    }
    assert points[1..i] == points[1..];
  }

  lemma {:induction false} LineSegmentsCount(points: seq<Point>, show: real -> string)
    requires forall r :: 'M' !in show(r) && 'L' !in show(r)
    ensures CountChar(LineSegments(points, show), 'M') == 0
    ensures CountChar(LineSegments(points, show), 'L') == |points|
  {
    if points != [] {
      var last := points[|points| - 1];
      var init := points[..|points| - 1];
      LineSegmentsCount(init, show);
      var a, b := show(last.x), show(last.y);
      CountCharAbsent(a, 'M');
      CountCharAbsent(a, 'L');
      CountCharAbsent(b, 'M');
      CountCharAbsent(b, 'L');
      var head := LineSegments(init, show);
      CountCharAppend(head, " L ", 'M');
      CountCharAppend(head, " L ", 'L');
      CountCharAppend(head + " L ", a, 'M');
      CountCharAppend(head + " L ", a, 'L');
      CountCharAppend(head + " L " + a, " ", 'M');
      CountCharAppend(head + " L " + a, " ", 'L');
      CountCharAppend(head + " L " + a + " ", b, 'M');
      CountCharAppend(head + " L " + a + " ", b, 'L');
    }
  }

  /** When the number texts hold neither letter, the path has one `M` and one `L` per
      point after the first, and it starts at the first point. */
  lemma {:induction false} PathDataShape(points: seq<Point>, show: real -> string)
    requires |points| >= 1
    requires forall r :: 'M' !in show(r) && 'L' !in show(r)
    ensures CountChar(PathData(points, show), 'M') == 1
    ensures CountChar(PathData(points, show), 'L') == |points| - 1
    ensures PathData(points, show)[..2] == "M "
  {
    var a, b := show(points[0].x), show(points[0].y);
    var tail := LineSegments(points[1..], show);
    LineSegmentsCount(points[1..], show);
    CountCharAbsent(a, 'M');
    CountCharAbsent(a, 'L');
    CountCharAbsent(b, 'M');
    CountCharAbsent(b, 'L');
    CountCharAppend("M ", a, 'M');
    CountCharAppend("M ", a, 'L');
    CountCharAppend("M " + a, " ", 'M');
    CountCharAppend("M " + a, " ", 'L');
    CountCharAppend("M " + a + " ", b, 'M');
    CountCharAppend("M " + a + " ", b, 'L');
    CountCharAppend("M " + a + " " + b, tail, 'M');
    CountCharAppend("M " + a + " " + b, tail, 'L');
  }

  const MinX: real := 20.0
  const MaxX: real := 280.0
  const MinY: real := 20.0
  const MaxY: real := 180.0

  class CurveEditor {
    /** The circles in document order; the first two are the fixed end points. */
    var circles: seq<Point>
    /** The `d` attribute of the curve. */
    var pathData: string
    /** How a coordinate is written into the path text. */
    const show: real -> string

    ghost predicate Valid()
      reads this
    {
      |circles| >= 2
    }

    /** The editor's two end points, as the page first places them. */
    constructor (first: Point, second: Point, show: real -> string)
      ensures Valid() && circles == [first, second] && this.show == show
      ensures pathData == PathData(SortByX([first, second]), show)
    {
      circles := [first, second];
      this.show := show;
      pathData := PathData(SortByX([first, second]), show);
    }

    /** `updateSpeedCurvePath`. */
    method UpdateSpeedCurvePath()
      modifies this`pathData
      ensures |circles| >= 2 ==> pathData == PathData(SortByX(circles), show)
      ensures |circles| < 2 ==> pathData == old(pathData)
    {
      var points := SortByX(circles);
      if |points| < 2 {
        return;
      }
      pathData := BuildPathData(points, show);
    }

    /** Dragging one of the two end points to `(x, y)`. */
    method Drag(index: nat, x: real, y: real)
      requires Valid() && index < 2
      modifies this`circles, this`pathData
      ensures Valid()
      ensures circles == old(circles)[index := Point(Clamp(x, MinX, MaxX), Clamp(y, MinY, MaxY))]
      ensures pathData == PathData(SortByX(circles), show)
    {
      var clampedX := Clamp(x, MinX, MaxX);
      var clampedY := Clamp(y, MinY, MaxY);
      circles := circles[index := Point(clampedX, clampedY)];
      UpdateSpeedCurvePath();
    }

    /** `addSpeedCurvePoint`: a click adds a circle where it lands, unclamped. */
    method AddSpeedCurvePoint(x: real, y: real)
      requires Valid()
      modifies this`circles, this`pathData
      ensures Valid()
      ensures circles == old(circles) + [Point(x, y)]
      ensures pathData == PathData(SortByX(circles), show)
    {
      circles := circles + [Point(x, y)];
      UpdateSpeedCurvePath();
    }

    /** The context-menu handler, which only added circles carry: removal keeps at
        least two, so with the handler on an added circle the guard always passes. */
    method RemovePoint(index: nat)
      requires Valid() && 2 <= index < |circles|
      modifies this`circles, this`pathData
      ensures Valid()
      ensures circles == old(circles)[..index] + old(circles)[index + 1..]
      ensures pathData == PathData(SortByX(circles), show)
    {
      if |circles| > 2 {
        circles := circles[..index] + circles[index + 1..];
        UpdateSpeedCurvePath();
      }
    }

    /** `resetSpeedCurve`: drop every added circle from the last one down, then put
        the end points back at the bottom corners. */
    method ResetSpeedCurve()
      requires Valid()
      modifies this`circles, this`pathData
      ensures Valid()
      ensures circles == [Point(MinX, MaxY), Point(MaxX, MaxY)]
      ensures pathData == PathData(SortByX(circles), show)
    {
      var i := |circles| - 1;
      while i >= 2
        invariant 1 <= i < |circles| && |circles| == i + 1
        invariant circles == old(circles)[..i + 1]
      {
        circles := circles[..i];
        i := i - 1;
      }
      circles := [Point(MinX, MaxY), circles[1]];
      circles := [circles[0], Point(MaxX, MaxY)];
      UpdateSpeedCurvePath();
    }
  }
}
