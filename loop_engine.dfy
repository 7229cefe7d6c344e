/** The frame-based preview engine: a source of `frameCount` frames is shown forward,
    then backward, `loopCount` times; a tick driven by the display refresh advances one
    global frame when enough time has passed for the current speed. */
module LoopEngine {

  /** The engine's frame rate; the class sets it to 30 and never changes it. */
  const Fps: real := 30.0

  /** Where a global frame lands: which source frame, in which pass, in which loop. */
  datatype SegmentInfo = SegmentInfo(sourceFrame: int, isReverse: bool, loopIndex: int)

  /** What the engine reports to its two callbacks, in the order it calls them. */
  datatype Event = FrameUpdate(frame: int, total: int) | PlaybackEnd

  /** `Math.floor(a / b)`. */
  function FloorDiv(a: int, b: int): int
    requires b != 0
  {
    if b > 0 then a / b else (-a) / (-b)
  }

  /** JavaScript's `a % b`: the remainder takes the sign of the dividend. */
  function JsRem(a: int, b: int): int
    requires b != 0
  {
    var m := if b > 0 then b else -b;
    if a >= 0 then a % m else -((-a) % m)
  }

  /** Forward frames plus reverse frames, the last forward frame not counted twice. */
  function FramesPerLoop(frameCount: nat): int {
    frameCount + (frameCount - 1)
  }

  /** `updateTotalFrames`: no frames, no playback; otherwise every loop has the same length. */
  function TotalFrames(frameCount: nat, loopCount: int): int {
    if frameCount == 0 then 0 else FramesPerLoop(frameCount) * loopCount
  }

  /** `getSegmentInfoForFrame`, as the code computes it. */
  function SegmentInfoForFrame(frameCount: nat, frameNum: int): SegmentInfo {
    var forwardFrames := frameCount as int;
    var perLoop := FramesPerLoop(frameCount);
    var loopIndex := FloorDiv(frameNum, perLoop);
    var frameInLoop := JsRem(frameNum, perLoop);
    if frameInLoop < forwardFrames then
      SegmentInfo(frameInLoop, false, loopIndex)
    else
      var reverseIndex := frameInLoop - forwardFrames;
      SegmentInfo(forwardFrames - 1 - reverseIndex, true, loopIndex)
  }

  /** `getCurrentSpeed`: the sampled speed for the current progress. An index that the
      exact quotient puts out of range, an empty array, no frames at all (progress is
      then not a number) and a zero entry all give 1.0. */
  function CurrentSpeed(data: seq<real>, currentFrame: int, totalFrames: int): (r: real)
    ensures r != 0.0
    ensures |data| == 0 || totalFrames == 0 ==> r == 1.0
  {
    if |data| == 0 || totalFrames == 0 then 1.0
    else
      var index := FloorDiv(currentFrame * (|data| - 1), totalFrames);
      if 0 <= index < |data| && data[index] != 0.0 then data[index] else 1.0
  }

  /** How long the current frame stays on screen, in milliseconds. */
  function FrameDuration(speed: real): real
    requires speed != 0.0
  {
    1000.0 / Fps / speed
  }

  /** The frame after `frame`: wrap to 0 on reaching the end. */
  function NextFrame(frame: int, totalFrames: int): int {
    if frame + 1 >= totalFrames then 0 else frame + 1
  }

  /** `seek`: clamp into the playable range. */
  function SeekTarget(frameNum: int, totalFrames: int): (r: int)
    ensures 0 <= r
    ensures totalFrames >= 1 ==> r < totalFrames
    ensures 0 <= frameNum < totalFrames ==> r == frameNum
    ensures frameNum < 0 ==> r == 0
    ensures totalFrames >= 1 && frameNum >= totalFrames ==> r == totalFrames - 1
  {
    var upper := if frameNum < totalFrames - 1 then frameNum else totalFrames - 1;
    if upper > 0 then upper else 0
  }

  // ---------------------------------------------------------------------------
  // Properties of the frame mapping

  /** With frames, a run is `(2N - 1) * L` frames long; without frames it is empty.
      A loop is never zero frames long, so dividing by it is always defined. */
  lemma TotalFramesFormula(frameCount: nat, loopCount: int)
    ensures FramesPerLoop(frameCount) != 0
    ensures frameCount == 0 ==> TotalFrames(frameCount, loopCount) == 0
    ensures frameCount >= 1 ==> TotalFrames(frameCount, loopCount) == (2 * frameCount - 1) * loopCount
  {
  }

  lemma FrameZero(frameCount: nat)
    requires frameCount >= 1
    ensures SegmentInfoForFrame(frameCount, 0) == SegmentInfo(0, false, 0)
  {
  }

  lemma DivBelow(f: int, d: int, l: int)
    requires d >= 1 && 0 <= f < d * l
    ensures 0 <= f / d < l && 0 <= f % d < d
  {
  }

  /** Quotient and remainder are the only pair that rebuilds the dividend. */
  lemma DivModUnique(a: int, d: int, q: int, r: int)
    requires d >= 1 && 0 <= r < d && a == d * q + r
    ensures a / d == q && a % d == r
  {
    var q', r' := a / d, a % d;
    assert a == d * q' + r';
    if q > q' {
      MulStep(d, q - q');
      assert false;
    } else if q < q' {
      MulStep(d, q' - q);
      assert false;
    }
  }

  lemma MulStep(d: int, m: int)
    requires d >= 1 && m >= 1
    ensures d * m >= d
  {
  }

  /** For a frame at or after 0 the JavaScript floor and remainder are Dafny's. */
  lemma InfoOfNonNegative(frameCount: nat, f: int)
    requires frameCount >= 1 && f >= 0
    ensures var d := FramesPerLoop(frameCount);
      var k := f % d;
      SegmentInfoForFrame(frameCount, f)
        == if k < frameCount then SegmentInfo(k, false, f / d)
           else SegmentInfo(frameCount - 1 - (k - frameCount), true, f / d)
  {
  }

  /** Every frame of the run resolves to an existing source frame and an existing loop. */
  lemma {:induction false} FrameInRange(frameCount: nat, loopCount: int, f: int)
    requires frameCount >= 1
    requires 0 <= f < TotalFrames(frameCount, loopCount)
    ensures var info := SegmentInfoForFrame(frameCount, f);
      0 <= info.sourceFrame < frameCount && 0 <= info.loopIndex < loopCount
  {
    var d := FramesPerLoop(frameCount);
    DivBelow(f, d, loopCount);
    InfoOfNonNegative(frameCount, f);
  }

  /** The pass is forward exactly while the position in the loop is below `N`; the
      reverse pass starts again at source frame `N - 1` and ends at source frame 1. */
  lemma {:induction false} Direction(frameCount: nat, f: int)
    requires frameCount >= 1 && f >= 0
    ensures var k := f % (2 * frameCount - 1);
      var info := SegmentInfoForFrame(frameCount, f);
      && info.loopIndex == f / (2 * frameCount - 1)
      && (info.isReverse <==> k >= frameCount)
      && (!info.isReverse ==> info.sourceFrame == k)
      && (info.isReverse ==> info.sourceFrame == 2 * frameCount - 1 - k && 1 <= info.sourceFrame <= frameCount - 1)
  {
  }

  /** With ten source frames, global frames 9 and 10 both show source frame 9. */
  lemma BoundaryFrameRepeats()
    ensures SegmentInfoForFrame(10, 9) == SegmentInfo(9, false, 0)
    ensures SegmentInfoForFrame(10, 10) == SegmentInfo(9, true, 0)
    ensures SegmentInfoForFrame(10, 18) == SegmentInfo(1, true, 0)
    ensures SegmentInfoForFrame(10, 19) == SegmentInfo(0, false, 1)
  {
  }

  /** One loop later shows the same source frame in the same pass. */
  lemma {:induction false} NextLoopSameFrame(frameCount: nat, f: int)
    requires frameCount >= 1 && f >= 0
    ensures var a := SegmentInfoForFrame(frameCount, f);
      var b := SegmentInfoForFrame(frameCount, f + FramesPerLoop(frameCount));
      b.sourceFrame == a.sourceFrame && b.isReverse == a.isReverse && b.loopIndex == a.loopIndex + 1
  {
    var d := FramesPerLoop(frameCount);
    InfoOfNonNegative(frameCount, f);
    InfoOfNonNegative(frameCount, f + d);
    var q, r := f / d, f % d;
    assert f + d == d * (q + 1) + r;
    DivModUnique(f + d, d, q + 1, r);
  }

  // ---------------------------------------------------------------------------
  // Properties of the sampled speed and the tick

  lemma MulBelow(c: int, m: int, t: int)
    requires 0 <= c < t && m >= 0
    ensures c * m <= t * m - m
  {
    var k := t - 1 - c;
    assert t * m - m - c * m == k * m;
    MulNonNegative(k, m);
  }

  lemma MulNonNegative(a: int, b: int)
    requires a >= 0 && b >= 0
    ensures a * b >= 0
  {
  }

  /** On the playable range the sampled index is always in bounds. */
  lemma {:induction false} SpeedIndexInBounds(data: seq<real>, currentFrame: int, totalFrames: int)
    requires |data| > 0 && 0 <= currentFrame < totalFrames
    ensures var index := currentFrame * (|data| - 1) / totalFrames;
      && 0 <= index < |data|
      && CurrentSpeed(data, currentFrame, totalFrames) == if data[index] != 0.0 then data[index] else 1.0
  {
    var m := |data| - 1;
    var p := currentFrame * m;
    assert p >= 0;
    MulBelow(currentFrame, m, totalFrames);
    DivBelow(p, totalFrames, m + 1);
  }

  /** The tick wraps and reports playback end exactly on reaching `totalFrames`. */
  lemma NextFrameWraps(frame: int, totalFrames: int)
    requires 0 <= frame < totalFrames
    ensures 0 <= NextFrame(frame, totalFrames) < totalFrames
    ensures NextFrame(frame, totalFrames) == 0 <==> frame == totalFrames - 1 || totalFrames == 1
    ensures frame < totalFrames - 1 ==> NextFrame(frame, totalFrames) == frame + 1
  {
  }

  /** The frame reached after `k` advancing ticks. */
  function AfterTicks(frame: int, totalFrames: int, k: nat): int {
    if k == 0 then frame else NextFrame(AfterTicks(frame, totalFrames, k - 1), totalFrames)
  }

  /** From frame 0, `k` advances land on `k mod totalFrames`: every frame is visited in
      order and the run restarts after exactly `totalFrames` advances. */
  lemma {:induction false} AfterTicksFromZero(totalFrames: int, k: nat)
    requires totalFrames >= 1
    ensures AfterTicks(0, totalFrames, k) == k % totalFrames
  {
    if k > 0 {
      AfterTicksFromZero(totalFrames, k - 1);
      ModSucc(k, totalFrames);
    }
  }

  /** Counting one further steps the remainder the way a tick steps the frame. */
  lemma ModSucc(k: int, n: int)
    requires n >= 1 && k >= 1
    ensures k % n == NextFrame((k - 1) % n, n)
  {
    var q, r := (k - 1) / n, (k - 1) % n;
    assert k == n * q + r + 1 && 0 <= r < n;
    if r + 1 < n {
      DivModUnique(k, n, q, r + 1);
    } else {
      assert k == n * (q + 1);
      DivModUnique(k, n, q + 1, 0);
    }
  }

  // ---------------------------------------------------------------------------
  // The engine's mutable state

  class Engine {
    var frameCount: nat
    var currentFrame: int
    var totalFrames: int
    var loopCount: int
    var isPlaying: bool
    var lastFrameTime: real
    var speedCurveData: seq<real>

    constructor ()
      ensures frameCount == 0 && currentFrame == 0 && totalFrames == 0 && loopCount == 3
      ensures !isPlaying && lastFrameTime == 0.0 && speedCurveData == []
    {
      frameCount, currentFrame, totalFrames, loopCount := 0, 0, 0, 3;
      isPlaying, lastFrameTime, speedCurveData := false, 0.0, [];
    }

    /** Current frame inside the playable range (frame 0 when there is nothing to play). */
    ghost predicate InRange()
      reads this
    {
      0 <= currentFrame && (currentFrame < totalFrames || currentFrame == 0)
    }

    function Speed(): (r: real)
      reads this
      ensures r != 0.0
    {
      CurrentSpeed(speedCurveData, currentFrame, totalFrames)
    }

    method UpdateTotalFrames()
      modifies this`totalFrames
      ensures totalFrames == TotalFrames(frameCount, loopCount)
    {
      if frameCount == 0 {
        totalFrames := 0;
        return;
      }
      var forwardFrames := frameCount as int;
      var reverseFrames := frameCount - 1;
      var framesPerLoop := forwardFrames + reverseFrames;
      totalFrames := framesPerLoop * loopCount;
    }

    /** The metadata half of `loadVideo`: `floor(duration * fps)` frames; the current
        frame is left where it was. */
    method LoadVideo(duration: real)
      requires duration >= 0.0
      modifies this`frameCount, this`totalFrames
      ensures frameCount == (duration * Fps).Floor
      ensures totalFrames == TotalFrames(frameCount, loopCount)
    {
      frameCount := (duration * Fps).Floor;
      UpdateTotalFrames();
    }

    method Pause()
      modifies this`isPlaying
      ensures !isPlaying
    {
      isPlaying := false;
    }

    method Stop() returns (events: seq<Event>)
      modifies this`isPlaying, this`currentFrame
      ensures !isPlaying && currentFrame == 0 && InRange()
      ensures events == [FrameUpdate(0, totalFrames)]
    {
      Pause();
      currentFrame := 0;
      events := [FrameUpdate(currentFrame, totalFrames)];
    }

    /** One call of `animate` at clock reading `now`. */
    method Tick(now: real) returns (events: seq<Event>)
      modifies this`currentFrame, this`lastFrameTime
      ensures var due := old(isPlaying) && now - old(lastFrameTime) >= FrameDuration(old(Speed()));
        && (due ==> currentFrame == NextFrame(old(currentFrame), totalFrames) && lastFrameTime == now)
        && (due ==> events == (if old(currentFrame) + 1 >= totalFrames then [PlaybackEnd] else [])
                              + [FrameUpdate(currentFrame, totalFrames)])
        && (!due ==> currentFrame == old(currentFrame) && lastFrameTime == old(lastFrameTime) && events == [])
      ensures old(isPlaying) && old(InRange()) ==> InRange()
    {
      events := [];
      if !isPlaying {
        return;
      }
      var deltaTime := now - lastFrameTime;
      var frameDuration := 1000.0 / Fps / Speed();
      if deltaTime >= frameDuration {
        currentFrame := currentFrame + 1;
        if currentFrame >= totalFrames {
          currentFrame := 0;
          events := events + [PlaybackEnd];
        }
        events := events + [FrameUpdate(currentFrame, totalFrames)];
        lastFrameTime := now;
      }
    }

    /** `play`: no-op while playing; otherwise starts the clock at `now` and runs the
        first tick, whose own clock reading is `tickNow`. */
    method Play(now: real, tickNow: real) returns (events: seq<Event>)
      modifies this`isPlaying, this`lastFrameTime, this`currentFrame
      ensures old(isPlaying) ==>
        isPlaying && currentFrame == old(currentFrame) && lastFrameTime == old(lastFrameTime) && events == []
      ensures !old(isPlaying) ==>
        isPlaying &&
        if tickNow - now >= FrameDuration(old(Speed())) then
          && currentFrame == NextFrame(old(currentFrame), totalFrames) && lastFrameTime == tickNow
          && events == (if old(currentFrame) + 1 >= totalFrames then [PlaybackEnd] else [])
                       + [FrameUpdate(currentFrame, totalFrames)]
        else
          currentFrame == old(currentFrame) && lastFrameTime == now && events == []
    {
      if isPlaying {
        events := [];
        return;
      }
      isPlaying := true;
      lastFrameTime := now;
      events := Tick(tickNow);
    }

    method Seek(frameNum: int) returns (events: seq<Event>)
      modifies this`currentFrame
      ensures currentFrame == SeekTarget(frameNum, totalFrames) && InRange()
      ensures events == [FrameUpdate(currentFrame, totalFrames)]
    {
      var upper := if frameNum < totalFrames - 1 then frameNum else totalFrames - 1;
      currentFrame := if 0 > upper then 0 else upper;
      events := [FrameUpdate(currentFrame, totalFrames)];
    }

    method SetLoopCount(count: int)
      modifies this`loopCount, this`totalFrames, this`currentFrame
      ensures loopCount == count && totalFrames == TotalFrames(frameCount, count)
      ensures currentFrame == if old(currentFrame) >= totalFrames then 0 else old(currentFrame)
      ensures old(currentFrame) >= 0 ==> InRange()
    {
      loopCount := count;
      UpdateTotalFrames();
      if currentFrame >= totalFrames {
        currentFrame := 0;
      }
    }

    method SetSpeedCurve(curveData: seq<real>)
      modifies this`speedCurveData
      ensures speedCurveData == curveData
    {
      speedCurveData := curveData;
    }
  }
}
