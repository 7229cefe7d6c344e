/** The offline render of a ping-pong loop: slice the source into ten equal-time
    pieces, each re-timed by the speed curve, reverse every piece, lay out
    `(forward ++ reverse)` `loopCount` times and hand the list to the encoder.
    The encoder and the file system are modelled by the `Processor` class: every
    encoder call takes a fresh id, records a job, and fails exactly when its id is
    one of the ids the environment has chosen to fail. */
module VideoProcessor {
  import opened Common

  // ---------------------------------------------------------------------------
  // Numbers as JavaScript has them where the code can produce more than a real

  datatype Num = Finite(v: real) | NaN | Infinity | NegInfinity

  /** The `/` operator on these numbers (signed zeros are not told apart). */
  function Divide(a: Num, b: Num): Num {
    match (a, b)
    case (NaN, _) => NaN
    case (_, NaN) => NaN
    case (Finite(x), Finite(y)) =>
      if y != 0.0 then Finite(x / y) else if x > 0.0 then Infinity else if x < 0.0 then NegInfinity else NaN
    case (Finite(_), _) => Finite(0.0)
    case (Infinity, Finite(y)) => if y < 0.0 then NegInfinity else Infinity
    case (NegInfinity, Finite(y)) => if y < 0.0 then Infinity else NegInfinity
    case (_, _) => NaN
  }

  // ---------------------------------------------------------------------------
  // interpolateSpeedCurve

  datatype Error = EmptySpeedCurve | ProbeFailed(input: Path) | EncoderFailed(output: Path)

  /** The search from segment `i` on: the first segment `[t_i, t_{i+1}]` that holds
      `progress` gives the linear blend; when none does, the last point's speed. A
      segment of width zero that holds `progress` divides 0 by 0. */
  function InterpolateFrom(curve: seq<SpeedPoint>, progress: real, i: nat): (r: Num)
    requires i < |curve|
    ensures r.Finite? || r.NaN?
    decreases |curve| - i
  {
    if i < |curve| - 1 then
      var current := curve[i];
      var next := curve[i + 1];
      if progress >= current.time && progress <= next.time then
        if next.time == current.time then NaN
        else
          var t := (progress - current.time) / (next.time - current.time);
          Finite(current.speed + (next.speed - current.speed) * t)
      else
        InterpolateFrom(curve, progress, i + 1)
    else
      Finite(curve[|curve| - 1].speed)
  }

  /** `interpolateSpeedCurve`; an empty curve makes the code read a property of
      `undefined`, which throws. */
  function InterpolateSpeedCurve(curve: seq<SpeedPoint>, progress: real): (r: Result<Num, Error>)
    ensures r.Failure? <==> |curve| == 0
    ensures r.Failure? ==> r.error == EmptySpeedCurve
    ensures |curve| == 1 ==> r == Success(Finite(curve[0].speed))
  {
    if |curve| == 0 then Failure(EmptySpeedCurve) else Success(InterpolateFrom(curve, progress, 0))
  }

  /** The search gives NaN only on reaching a zero-width segment whose two points
      both sit at `progress`. */
  lemma {:induction false} NaNOnlyAtZeroWidth(curve: seq<SpeedPoint>, progress: real, i: nat)
    requires i < |curve|
    ensures InterpolateFrom(curve, progress, i).NaN? ==>
      exists j :: i <= j < |curve| - 1 && curve[j].time == progress && curve[j + 1].time == progress
    decreases |curve| - i
  {
    if i < |curve| - 1 && !(progress >= curve[i].time && progress <= curve[i + 1].time) {
      NaNOnlyAtZeroWidth(curve, progress, i + 1);
    }
  }

  /** So with strictly increasing times the speed is always a finite number. */
  lemma FiniteWhenIncreasing(curve: seq<SpeedPoint>, progress: real)
    requires |curve| >= 1 && StrictlyIncreasing(curve)
    ensures InterpolateSpeedCurve(curve, progress).value.Finite?
  {
    NaNOnlyAtZeroWidth(curve, progress, 0);
  }

  ghost predicate StrictlyIncreasing(curve: seq<SpeedPoint>) {
    forall i, j :: 0 <= i < j < |curve| ==> curve[i].time < curve[j].time
  }

  ghost predicate NonDecreasing(curve: seq<SpeedPoint>) {
    forall i, j :: 0 <= i < j < |curve| ==> curve[i].time <= curve[j].time
  }

  /** The straight line through points `i` and `i + 1`, evaluated at `progress`. */
  function LinearAt(curve: seq<SpeedPoint>, i: nat, progress: real): real
    requires i + 1 < |curve|
    requires curve[i].time != curve[i + 1].time
  {
    curve[i].speed
      + (curve[i + 1].speed - curve[i].speed) * ((progress - curve[i].time) / (curve[i + 1].time - curve[i].time))
  }

  lemma {:induction false} SkipSegments(curve: seq<SpeedPoint>, progress: real, i: nat, m: nat)
    requires i <= m < |curve|
    requires forall j :: i <= j < m ==> !(curve[j].time <= progress <= curve[j + 1].time)
    ensures InterpolateFrom(curve, progress, i) == InterpolateFrom(curve, progress, m)
    decreases m - i
  {
    if i < m {
      SkipSegments(curve, progress, i + 1, m);
    }
  }

  /** The line of segment `i` passes through the segment's first point ... */
  lemma LinearAtStart(curve: seq<SpeedPoint>, i: nat)
    requires i + 1 < |curve| && curve[i].time != curve[i + 1].time
    ensures LinearAt(curve, i, curve[i].time) == curve[i].speed
  {
    ZeroDiv(curve[i + 1].time - curve[i].time);
    assert (curve[i].time - curve[i].time) / (curve[i + 1].time - curve[i].time) == 0.0;
    assert (curve[i + 1].speed - curve[i].speed) * 0.0 == 0.0;
  }

  /** ... and through its second point. */
  lemma LinearAtEnd(curve: seq<SpeedPoint>, i: nat)
    requires i + 1 < |curve| && curve[i].time != curve[i + 1].time
    ensures LinearAt(curve, i, curve[i + 1].time) == curve[i + 1].speed
  {
    DivSelf(curve[i + 1].time - curve[i].time);
    assert (curve[i + 1].speed - curve[i].speed) * 1.0 == curve[i + 1].speed - curve[i].speed;
  }

  /** When segment `i` holds `progress` and has width, the search from `i` stops there. */
  lemma FirstMatch(curve: seq<SpeedPoint>, progress: real, i: nat)
    requires i + 1 < |curve| && curve[i].time < curve[i + 1].time
    requires curve[i].time <= progress <= curve[i + 1].time
    ensures InterpolateFrom(curve, progress, i) == Finite(LinearAt(curve, i, progress))
  {
  }

  /** At a control point's own time the curve returns that point's stored speed. */
  lemma {:induction false} AtControlPoint(curve: seq<SpeedPoint>, k: nat)
    requires StrictlyIncreasing(curve) && k < |curve|
    ensures InterpolateSpeedCurve(curve, curve[k].time) == Success(Finite(curve[k].speed))
  {
    var p := curve[k].time;
    if k == 0 {
      if |curve| > 1 {
        assert curve[0].time < curve[1].time;
        FirstMatch(curve, p, 0);
        LinearAtStart(curve, 0);
      }
    } else {
      forall j | 0 <= j < k - 1
        ensures !(curve[j].time <= p <= curve[j + 1].time)
      {
        assert curve[j + 1].time < p;
      }
      SkipSegments(curve, p, 0, k - 1);
      assert curve[k - 1].time < p;
      FirstMatch(curve, p, k - 1);
      LinearAtEnd(curve, k - 1);
    }
  }

  lemma DivSelf(a: real)
    requires a != 0.0
    ensures a / a == 1.0
  {
  }

  lemma ZeroDiv(y: real)
    requires y != 0.0
    ensures 0.0 / y == 0.0
  {
  }

  lemma DivUnit(x: real, y: real)
    requires 0.0 <= x <= y && y > 0.0
    ensures 0.0 <= x / y <= 1.0
  {
    assert (x / y) * y == x;
  }

  lemma BlendBetween(a: real, b: real, t: real, v: real)
    requires 0.0 <= t <= 1.0 && v == a + (b - a) * t
    ensures (a <= b ==> a <= v <= b) && (b <= a ==> b <= v <= a)
  {
    var d := if a <= b then b - a else a - b;
    ProductNonNegative(d, t);
    ProductNonNegative(d, 1.0 - t);
    assert d * (1.0 - t) == d - d * t;
    if a <= b {
      assert v == a + d * t;
    } else {
      assert (b - a) * t == -(d * t);
      assert v == a - d * t;
    }
  }

  lemma ProductNonNegative(x: real, y: real)
    requires x >= 0.0 && y >= 0.0
    ensures x * y >= 0.0
  {
  }

  /** Between its two ends, the line of a segment stays between their speeds. */
  lemma LinearBetween(curve: seq<SpeedPoint>, i: nat, progress: real)
    requires i + 1 < |curve| && curve[i].time < curve[i + 1].time
    requires curve[i].time <= progress <= curve[i + 1].time
    ensures var v := LinearAt(curve, i, progress);
      var lo, hi := curve[i].speed, curve[i + 1].speed;
      (lo <= hi ==> lo <= v <= hi) && (hi <= lo ==> hi <= v <= lo)
  {
    var t0, t1 := curve[i].time, curve[i + 1].time;
    var t := (progress - t0) / (t1 - t0);
    DivUnit(progress - t0, t1 - t0);
    BlendBetween(curve[i].speed, curve[i + 1].speed, t, LinearAt(curve, i, progress));
  }

  /** Inside segment `i` the curve is the straight line between its two ends, and the
      value lies between their speeds. */
  lemma {:induction false} InsideSegment(curve: seq<SpeedPoint>, i: nat, progress: real)
    requires StrictlyIncreasing(curve) && i + 1 < |curve|
    requires curve[i].time <= progress <= curve[i + 1].time
    ensures InterpolateSpeedCurve(curve, progress) == Success(Finite(LinearAt(curve, i, progress)))
    ensures var v := LinearAt(curve, i, progress);
      var lo, hi := curve[i].speed, curve[i + 1].speed;
      (lo <= hi ==> lo <= v <= hi) && (hi <= lo ==> hi <= v <= lo)
  {
    var t0, t1 := curve[i].time, curve[i + 1].time;
    assert t0 < t1;
    LinearBetween(curve, i, progress);
    if i > 0 && progress == t0 {
      AtControlPoint(curve, i);
      LinearAtStart(curve, i);
    } else {
      forall j | 0 <= j < i
        ensures !(curve[j].time <= progress <= curve[j + 1].time)
      {
        if j + 1 < i {
          assert curve[j + 1].time < t0;
        }
      }
      SkipSegments(curve, progress, 0, i);
      FirstMatch(curve, progress, i);
    }
  }

  /** Below the first time or above the last, no segment matches and the last
      point's speed is returned. */
  lemma {:induction false} OutsideCurve(curve: seq<SpeedPoint>, progress: real)
    requires NonDecreasing(curve) && |curve| >= 1
    requires progress < curve[0].time || progress > curve[|curve| - 1].time
    ensures InterpolateSpeedCurve(curve, progress) == Success(Finite(curve[|curve| - 1].speed))
  {
    var last := |curve| - 1;
    forall j | 0 <= j < last
      ensures !(curve[j].time <= progress <= curve[j + 1].time)
    {
      if progress < curve[0].time {
        assert j == 0 || curve[0].time <= curve[j].time;
      } else {
        assert j + 1 == last || curve[j + 1].time <= curve[last].time;
      }
    }
    SkipSegments(curve, progress, 0, last);
  }

  // ---------------------------------------------------------------------------
  // parseFPS, over decimal text without sign, exponent or surrounding blanks

  function LeadingDigits(s: string): (k: nat)
    ensures k <= |s| && IsDigits(s[..k])
    ensures k < |s| ==> !('0' <= s[k] <= '9')
  {
    if s == [] || !('0' <= s[0] <= '9') then 0
    else
      var k := 1 + LeadingDigits(s[1..]);
      assert s[..k] == [s[0]] + s[1..][..k - 1];
      k
  }

  function Pow10(n: nat): (p: nat)
    ensures p >= 1
  {
    if n == 0 then 1 else 10 * Pow10(n - 1)
  }

  function DecimalValue(whole: string, fraction: string): real
    requires IsDigits(whole) && IsDigits(fraction)
  {
    DigitsValue(whole) as real + DigitsValue(fraction) as real / Pow10(|fraction|) as real
  }

  /** `Number(s)`: the empty string is 0, text that is not wholly a decimal is NaN. */
  function JsNumber(s: string): Num {
    if s == [] then Finite(0.0)
    else
      var k := LeadingDigits(s);
      if k == |s| then Finite(DigitsValue(s) as real)
      else if s[k] == '.' then
        var fraction := s[k + 1..];
        var m := LeadingDigits(fraction);
        if m == |fraction| && (k > 0 || m > 0) then Finite(DecimalValue(s[..k], fraction)) else NaN
      else NaN
  }

  /** `parseFloat(s)`: the longest decimal prefix, NaN when there is none. */
  function ParseFloat(s: string): Num {
    var k := LeadingDigits(s);
    if k < |s| && s[k] == '.' then
      var m := LeadingDigits(s[k + 1..]);
      if k == 0 && m == 0 then NaN else Finite(DecimalValue(s[..k], s[k + 1..][..m]))
    else if k == 0 then NaN
    else Finite(DigitsValue(s[..k]) as real)
  }

  /** `parseFPS`: a ratio `num/den` (only its first two pieces count), otherwise the
      leading number, with 30 when that is missing or zero. */
  function ParseFps(frameRate: string): (r: Num)
    ensures '/' !in frameRate ==> r != NaN && r != Finite(0.0)
  {
    if '/' in frameRate then
      CountCharPresent(frameRate, '/');
      var parts := Split(frameRate, '/');
      Divide(JsNumber(parts[0]), JsNumber(parts[1]))
    else
      var v := ParseFloat(frameRate);
      if v == NaN || v == Finite(0.0) then Finite(30.0) else v
  }

  lemma JsNumberOfDigits(n: nat)
    ensures JsNumber(NatToString(n)) == Finite(n as real)
  {
    var s := NatToString(n);
    assert s[..|s|] == s;
    DigitsValueOfNatToString(n);
  }

  /** An ffprobe rate `n/d` with a non-zero denominator is the exact quotient. */
  lemma {:induction false} ParseFpsRatio(n: nat, d: nat)
    requires d > 0
    ensures ParseFps(NatToString(n) + "/" + NatToString(d)) == Finite(n as real / d as real)
  {
    var a, b := NatToString(n), NatToString(d);
    var s := a + "/" + b;
    assert s[|a|] == '/';
    assert '/' !in a && '/' !in b;
    assert s == a + ['/'] + b;
    SplitAfterPiece(a, '/', b);
    SplitNoSep(b, '/');
    JsNumberOfDigits(n);
    JsNumberOfDigits(d);
  }

  /** A plain positive integer rate is that integer; zero falls back to 30. */
  lemma {:induction false} ParseFpsPlain(n: nat)
    ensures ParseFps(NatToString(n)) == Finite(if n == 0 then 30.0 else n as real)
  {
    var s := NatToString(n);
    assert '/' !in s;
    assert s[..|s|] == s;
    DigitsValueOfNatToString(n);
  }

  // ---------------------------------------------------------------------------
  // createSpeedSegments: ten equal-time slices, sampled at progress i / 9

  const SegmentCount: nat := 10

  function SliceStart(i: nat, duration: real): real {
    (i as real / SegmentCount as real) * duration
  }

  function SliceEnd(i: nat, duration: real): real {
    ((i + 1) as real / SegmentCount as real) * duration
  }

  function SliceProgress(i: nat): real {
    i as real / (SegmentCount - 1) as real
  }

  /** The slices abut, each is a tenth of the source, together they cover `[0, d]`,
      and the sampled progress climbs from 0 to 1. */
  lemma SlicesTile(duration: real)
    ensures SliceStart(0, duration) == 0.0 && SliceEnd(SegmentCount - 1, duration) == duration
    ensures forall i :: 0 <= i < SegmentCount - 1 ==> SliceEnd(i, duration) == SliceStart(i + 1, duration)
    ensures forall i :: 0 <= i < SegmentCount ==> SliceEnd(i, duration) - SliceStart(i, duration) == duration / 10.0
    ensures SliceProgress(0) == 0.0 && SliceProgress(SegmentCount - 1) == 1.0
    ensures forall i :: 0 <= i < SegmentCount - 1 ==> SliceProgress(i) < SliceProgress(i + 1)
  {
  }

  datatype Filter = SetPts(factor: Num) | ATempo(factor: Num)

  /** The filters of `createSegmentWithSpeed`: none at speed 1, otherwise the video
      timestamps scaled by `1 / speed` and the audio tempo by `speed`. */
  function SpeedFilters(speed: Num): (filters: seq<Filter>)
    ensures filters == [] <==> speed == Finite(1.0)
    ensures speed.Finite? && speed.v != 0.0 && speed.v != 1.0 ==>
      filters == [SetPts(Finite(1.0 / speed.v)), ATempo(speed)] && (1.0 / speed.v) * speed.v == 1.0
    ensures speed == Finite(0.0) ==> filters == [SetPts(Infinity), ATempo(speed)]
  {
    if speed != Finite(1.0) then [SetPts(Divide(Finite(1.0), speed)), ATempo(speed)] else []
  }

  // ---------------------------------------------------------------------------
  // Files, encoder jobs and the plan they follow

  /** The four kinds of temporary the render writes. */
  datatype TempKind = LoopFile | SegmentFile | ReverseFile | ListFile

  function Prefix(kind: TempKind): string {
    match kind
    case LoopFile => "loop"
    case SegmentFile => "segment"
    case ReverseFile => "reverse"
    case ListFile => "concat"
  }

  function Extension(kind: TempKind): string {
    if kind == ListFile then ".txt" else ".mp4"
  }

  /** A file the user supplied, or a temporary `<prefix>_<id><extension>` in the temp folder. */
  datatype Path = UserFile(name: string) | Temp(kind: TempKind, id: nat)

  const TempDir: string := "temp"

  function PathText(p: Path): string {
    match p
    case UserFile(name) => name
    case Temp(kind, id) => TempDir + "/" + Prefix(kind) + "_" + NatToString(id) + Extension(kind)
  }

  datatype OutputOptions = OutputOptions(resolution: Option<string>, bitrate: Option<string>, fps: Option<int>)

  datatype EncodeSettings = EncodeSettings(resolution: string, bitrate: string, fps: int)

  /** The defaults of `concatenateSegments`. */
  function Settings(options: OutputOptions): EncodeSettings {
    EncodeSettings(
      match options.resolution case Some(r) => r case None => "1920x1080",
      match options.bitrate case Some(b) => b case None => "10000k",
      match options.fps case Some(f) => f case None => 30)
  }

  datatype Job =
    | Slice(input: Path, start: real, duration: real, filters: seq<Filter>, output: Path)
    | Reverse(input: Path, output: Path)
    | Concat(list: Path, listText: string, settings: EncodeSettings, output: Path)

  /** The ids `from, from + 1, ...` as temporaries of one kind. */
  function TempRun(kind: TempKind, from: nat, n: nat): (run: seq<Path>)
    ensures |run| == n
  {
    seq(n, i requires 0 <= i < n => Temp(kind, from + i))
  }

  function Elems(paths: seq<Path>): set<Path> {
    set p | p in paths
  }

  function SliceSpeed(curve: seq<SpeedPoint>, i: nat): Num
    requires |curve| >= 1
  {
    InterpolateFrom(curve, SliceProgress(i), 0)
  }

  /** The encoder job for slice `i`. */
  function SliceJob(input: Path, curve: seq<SpeedPoint>, duration: real, i: nat, output: Path): Job
    requires |curve| >= 1
  {
    Slice(input, SliceStart(i, duration), SliceEnd(i, duration) - SliceStart(i, duration),
          SpeedFilters(SliceSpeed(curve, i)), output)
  }

  function SliceJobs(input: Path, curve: seq<SpeedPoint>, duration: real, outputs: seq<Path>): (jobs: seq<Job>)
    requires |curve| >= 1
    ensures |jobs| == |outputs|
  {
    seq(|outputs|, i requires 0 <= i < |outputs| => SliceJob(input, curve, duration, i, outputs[i]))
  }

  /** Reverse job `j` takes forward slice `|forward| - 1 - j`. */
  function ReverseJobs(forward: seq<Path>, reversed: seq<Path>): (jobs: seq<Job>)
    requires |reversed| <= |forward|
    ensures |jobs| == |reversed|
  {
    seq(|reversed|, j requires 0 <= j < |reversed| => Reverse(forward[|forward| - 1 - j], reversed[j]))
  }

  /** The encoder calls of the two passes of a render: one re-timed slice per forward
      output, then the reversals, last slice first. */
  function RenderJobs(input: Path, curve: seq<SpeedPoint>, duration: real, segments: seq<Path>,
                      reversed: seq<Path>): seq<Job>
    requires |curve| >= 1 && |reversed| <= |segments|
  {
    SliceJobs(input, curve, duration, segments) + ReverseJobs(segments, reversed)
  }

  /** The final encoder call: `count` rounds of forward then reverse slices, listed in
      the list file with id `listId`, concatenated into `output`. */
  function FinishJob(listId: nat, segments: seq<Path>, reversed: seq<Path>, count: int,
                     options: OutputOptions, output: Path): Job
  {
    Concat(Temp(ListFile, listId), ConcatList(Repeat(segments + reversed, Times(count))), Settings(options), output)
  }

  /** `n` copies of `unit` one after the other. */
  function Repeat<T>(unit: seq<T>, n: nat): seq<T> {
    if n == 0 then [] else Repeat(unit, n - 1) + unit
  }

  lemma {:induction false} RepeatLength<T>(unit: seq<T>, n: nat)
    ensures |Repeat(unit, n)| == n * |unit|
  {
    if n > 0 {
      RepeatLength(unit, n - 1);
      assert n * |unit| == (n - 1) * |unit| + |unit|;
    }
  }

  /** Position `k` of the repetition is position `k mod |unit|` of the unit. */
  lemma {:induction false} RepeatAt<T>(unit: seq<T>, n: nat, k: nat)
    requires k < n * |unit|
    ensures |unit| > 0 && |Repeat(unit, n)| == n * |unit| && Repeat(unit, n)[k] == unit[k % |unit|]
    decreases n
  {
    assert |unit| > 0;
    RepeatLength(unit, n);
    RepeatLength(unit, n - 1);
    var prev := (n - 1) * |unit|;
    assert n * |unit| == prev + |unit|;
    if k < prev {
      RepeatAt(unit, n - 1, k);
    } else {
      var q := n - 1;
      assert k == |unit| * q + (k - prev);
      DivModUniqueNat(k, |unit|, q, k - prev);
    }
  }

  lemma DivModUniqueNat(a: int, d: int, q: int, r: int)
    requires d >= 1 && 0 <= r < d && a == d * q + r
    ensures a % d == r
  {
    var q', r' := a / d, a % d;
    assert a == d * q' + r';
    if q > q' {
      MulAtLeast(d, q - q');
      assert false;
    } else if q < q' {
      MulAtLeast(d, q' - q);
      assert false;
    }
  }

  lemma MulAtLeast(d: int, m: int)
    requires d >= 1 && m >= 1
    ensures d * m >= d
  {
  }

  /** The assembled list holds `2 * loopCount * |segments|` entries. */
  lemma {:induction false} LoopListLength(forward: seq<Path>, reversed: seq<Path>, loopCount: nat)
    requires |reversed| == |forward|
    ensures |Repeat(forward + reversed, loopCount)| == 2 * loopCount * |forward|
  {
    RepeatLength(forward + reversed, loopCount);
    assert loopCount * (2 * |forward|) == 2 * loopCount * |forward|;
  }

  /** One line of the concat list. */
  function ListLine(p: Path): string {
    "file '" + PathText(p) + "'"
  }

  function ListLines(paths: seq<Path>): (lines: seq<string>)
    ensures |lines| == |paths|
    ensures forall i :: 0 <= i < |paths| ==> lines[i] == ListLine(paths[i])
  {
    seq(|paths|, i requires 0 <= i < |paths| => ListLine(paths[i]))
  }

  /** The text of the concat list file that `concatenateSegments` writes: one line per segment. */
  function ConcatList(paths: seq<Path>): string {
    Join(ListLines(paths), '\n')
  }

  lemma TempTextHasNoNewline(p: Path)
    requires p.Temp?
    ensures '\n' !in ListLine(p)
  {
    var digits := NatToString(p.id);
    assert '\n' !in digits;
    assert '\n' !in Prefix(p.kind) && '\n' !in Extension(p.kind);
    assert ListLine(p) == "file '" + TempDir + "/" + Prefix(p.kind) + "_" + digits + Extension(p.kind) + "'";
  }

  /** Splitting the list at line breaks gives back exactly one line per temporary. */
  lemma ConcatListLines(paths: seq<Path>)
    requires |paths| >= 1
    requires forall i :: 0 <= i < |paths| ==> paths[i].Temp?
    ensures Split(ConcatList(paths), '\n') == ListLines(paths)
  {
    var lines := ListLines(paths);
    forall i | 0 <= i < |lines|
      ensures '\n' !in lines[i]
    {
      TempTextHasNoNewline(paths[i]);
    }
    SplitJoin(lines, '\n');
  }

  /** The options of `generateLoopVideo` and their defaults: three loops and a flat
      curve at speed 1. */
  function CountOrDefault(loopCount: Option<int>): int {
    match loopCount case Some(c) => c case None => 3
  }

  function CurveOrDefault(speedCurve: Option<seq<SpeedPoint>>): seq<SpeedPoint> {
    match speedCurve case Some(c) => c case None => [SpeedPoint(0.0, 1.0), SpeedPoint(1.0, 1.0)]
  }

  /** How often a loop count repeats the pair: a count of 0 or less gives none. */
  function Times(count: int): nat {
    if count > 0 then count else 0
  }

  /** The loop assembly of `generateLoopVideo`: `(forward ++ reverse)`, `loopCount` times. */
  method AssembleLoop<T>(forward: seq<T>, reversed: seq<T>, loopCount: int) returns (loopSegments: seq<T>)
    ensures loopSegments == Repeat(forward + reversed, Times(loopCount))
  {
    loopSegments := [];
    var i := 0;
    while i < loopCount
      invariant 0 <= i <= Times(loopCount)
      invariant loopSegments == Repeat(forward + reversed, i)
    {
      loopSegments := loopSegments + forward;
      loopSegments := loopSegments + reversed;
      i := i + 1;
    }
  }

  lemma SliceJobsAppend(input: Path, curve: seq<SpeedPoint>, duration: real, outputs: seq<Path>, out: Path)
    requires |curve| >= 1
    ensures SliceJobs(input, curve, duration, outputs + [out])
         == SliceJobs(input, curve, duration, outputs) + [SliceJob(input, curve, duration, |outputs|, out)]
  {
    var jobs := SliceJobs(input, curve, duration, outputs + [out]);
    assert jobs[..|outputs|] == SliceJobs(input, curve, duration, outputs);
    assert jobs == jobs[..|outputs|] + [jobs[|outputs|]];
  }

  lemma TempRunAppend(kind: TempKind, from: nat, n: nat)
    ensures TempRun(kind, from, n + 1) == TempRun(kind, from, n) + [Temp(kind, from + n)]
  {
    var run := TempRun(kind, from, n + 1);
    assert run == run[..n] + [run[n]];
  }

  lemma ElemsAppend(paths: seq<Path>, p: Path)
    ensures Elems(paths + [p]) == Elems(paths) + {p}
  {
  }

  lemma AppendAssoc<T>(a: seq<T>, b: seq<T>, c: seq<T>)
    ensures a + b + c == a + (b + c)
  {
  }

  lemma ElemsConcat(a: seq<Path>, b: seq<Path>)
    ensures Elems(a + b) == Elems(a) + Elems(b)
  {
  }

  /** Every temporary of a run carries an id from `from` on. */
  lemma TempRunIdsFrom(kind: TempKind, from: nat, n: nat)
    ensures forall p :: p in Elems(TempRun(kind, from, n)) ==> p.Temp? && p.id >= from
  {
  }

  /** Removing what was made, when none of it was there before, leaves what was there
      plus the output. */
  lemma RemoveMade(start: set<Path>, made: set<Path>, output: Path)
    requires made !! start && output !in made
    ensures (start + made + {output}) - made == start + {output}
  {
  }

  /** Once the slices and reversals are removed again, the files are those from before
      the render plus the output. */
  lemma CleanupRestores(start: set<Path>, mid: set<Path>, final: set<Path>, n: nat, segs: seq<Path>,
                         revs: seq<Path>, output: Path)
    requires forall p :: p in start && p.Temp? ==> p.id < n
    requires segs == TempRun(SegmentFile, n, SegmentCount)
    requires revs == TempRun(ReverseFile, n + SegmentCount, SegmentCount)
    requires output.Temp? && output.kind == LoopFile
    requires mid == start + Elems(segs) + Elems(revs)
    requires final == (mid + {output}) - Elems(segs + revs)
    ensures final == start + {output}
  {
    var made := Elems(segs) + Elems(revs);
    TempRunIdsFrom(SegmentFile, n, SegmentCount);
    TempRunIdsFrom(ReverseFile, n + SegmentCount, SegmentCount);
    assert made !! start;
    ElemsConcat(segs, revs);
    RemoveMade(start, made, output);
  }

  /** What a failed render leaves behind: every file that `after` has and `before`
      lacked is a temporary named with an id from `n0` on. */
  ghost predicate OnlyNewTemps(before: set<Path>, after: set<Path>, n0: nat) {
    before <= after && forall p :: p in after - before ==> p.Temp? && p.id >= n0
  }

  lemma OnlyNewTempsTrans(a: set<Path>, b: set<Path>, c: set<Path>, n0: nat, n1: nat)
    requires OnlyNewTemps(a, b, n0) && OnlyNewTemps(b, c, n1) && n0 <= n1
    ensures OnlyNewTemps(a, c, n0)
  {
  }

  lemma RunIsNew(before: set<Path>, kind: TempKind, from: nat, n: nat)
    ensures OnlyNewTemps(before, before + Elems(TempRun(kind, from, n)), from)
  {
    TempRunIdsFrom(kind, from, n);
  }

  // ---------------------------------------------------------------------------
  // The processor, its files and its encoder

  class Processor {
    /** The files that exist. */
    var files: set<Path>
    /** The next fresh id (what `uuidv4` provides). */
    var nextId: nat
    /** Every encoder call made, in order. */
    var log: seq<Job>
    /** The ids of the encoder calls that fail. */
    const failing: set<nat>
    /** What ffprobe reports for each probe-able input: its duration in seconds. */
    const durations: map<Path, real>

    /** Every temporary on disk was named with an id already handed out. */
    ghost predicate Valid()
      reads this
    {
      forall p :: p in files && p.Temp? ==> p.id < nextId
    }

    constructor (userFiles: set<Path>, failing: set<nat>, durations: map<Path, real>)
      requires forall p :: p in userFiles ==> p.UserFile?
      ensures Valid() && files == userFiles && nextId == 0 && log == []
      ensures this.failing == failing && this.durations == durations
    {
      files, nextId, log := userFiles, 0, [];
      this.failing, this.durations := failing, durations;
    }

    method NewTempPath(kind: TempKind) returns (p: Path)
      requires Valid()
      modifies this`nextId
      ensures Valid() && p == Temp(kind, old(nextId)) && p !in files
      ensures nextId == old(nextId) + 1
    {
      p := Temp(kind, nextId);
      nextId := nextId + 1;
    }

    /** `getVideoInfo`, reduced to the duration that the render uses. */
    method GetVideoInfo(input: Path) returns (r: Result<real, Error>)
      ensures input in durations ==> r == Success(durations[input])
      ensures input !in durations ==> r == Failure(ProbeFailed(input))
    {
      if input in durations {
        r := Success(durations[input]);
      } else {
        r := Failure(ProbeFailed(input));
      }
    }

    method CreateSegmentWithSpeed(input: Path, startTime: real, endTime: real, speed: Num) returns (r: Result<Path, Error>)
      requires Valid()
      modifies this`files, this`nextId, this`log
      ensures Valid() && nextId == old(nextId) + 1
      ensures var out := Temp(SegmentFile, old(nextId));
        && log == old(log) + [Slice(input, startTime, endTime - startTime, SpeedFilters(speed), out)]
        && (old(nextId) in failing ==> r == Failure(EncoderFailed(out)) && files == old(files))
        && (old(nextId) !in failing ==> r == Success(out) && files == old(files) + {out})
    {
      var segmentPath := NewTempPath(SegmentFile);
      var duration := endTime - startTime;
      log := log + [Slice(input, startTime, duration, SpeedFilters(speed), segmentPath)];
      if segmentPath.id in failing {
        r := Failure(EncoderFailed(segmentPath));
      } else {
        files := files + {segmentPath};
        r := Success(segmentPath);
      }
    }

    method ReverseSegment(segmentPath: Path) returns (r: Result<Path, Error>)
      requires Valid()
      modifies this`files, this`nextId, this`log
      ensures Valid() && nextId == old(nextId) + 1
      ensures var out := Temp(ReverseFile, old(nextId));
        && log == old(log) + [Reverse(segmentPath, out)]
        && (old(nextId) in failing ==> r == Failure(EncoderFailed(out)) && files == old(files))
        && (old(nextId) !in failing ==> r == Success(out) && files == old(files) + {out})
    {
      var reversePath := NewTempPath(ReverseFile);
      log := log + [Reverse(segmentPath, reversePath)];
      if reversePath.id in failing {
        r := Failure(EncoderFailed(reversePath));
      } else {
        files := files + {reversePath};
        r := Success(reversePath);
      }
    }

    /** `concatenateSegments`: write the list file, run the encoder, and remove the list
        file whether the encoder succeeds or fails. */
    method ConcatenateSegments(segments: seq<Path>, outputPath: Path, options: OutputOptions) returns (r: Result<Path, Error>)
      requires Valid() && (outputPath.Temp? ==> outputPath.id < nextId)
      modifies this`files, this`nextId, this`log
      ensures Valid() && nextId == old(nextId) + 1
      ensures log == old(log) + [Concat(Temp(ListFile, old(nextId)), ConcatList(segments), Settings(options), outputPath)]
      ensures old(nextId) in failing ==> r == Failure(EncoderFailed(outputPath)) && files == old(files)
      ensures old(nextId) !in failing ==> r == Success(outputPath) && files == old(files) + {outputPath}
    {
      var listPath := NewTempPath(ListFile);
      var listContent := ConcatList(segments);
      files := files + {listPath};
      log := log + [Concat(listPath, listContent, Settings(options), outputPath)];
      if listPath.id in failing {
        if listPath in files {
          files := files - {listPath};
        }
        r := Failure(EncoderFailed(outputPath));
      } else {
        files := files - {listPath};
        files := files + {outputPath};
        r := Success(outputPath);
      }
    }

    /** One pass of the loop of `createSpeedSegments`: slice `i` of ten, re-timed by
        the curve's speed at progress `i / 9`. */
    method CreateSlice(input: Path, speedCurve: seq<SpeedPoint>, duration: real, i: nat) returns (r: Result<Path, Error>)
      requires Valid()
      modifies this`files, this`nextId, this`log
      ensures Valid()
      ensures |speedCurve| == 0 ==>
        r == Failure(EmptySpeedCurve) && files == old(files) && log == old(log) && nextId == old(nextId)
      ensures |speedCurve| >= 1 ==>
        var out := Temp(SegmentFile, old(nextId));
        && nextId == old(nextId) + 1
        && log == old(log) + [SliceJob(input, speedCurve, duration, i, out)]
        && (old(nextId) in failing ==> r == Failure(EncoderFailed(out)) && files == old(files))
        && (old(nextId) !in failing ==> r == Success(out) && files == old(files) + {out})
    {
      var startTime := SliceStart(i, duration);
      var endTime := SliceEnd(i, duration);
      var progress := SliceProgress(i);
      var speed := InterpolateSpeedCurve(speedCurve, progress);
      if speed.Failure? {
        return Failure(speed.error);
      }
      r := CreateSegmentWithSpeed(input, startTime, endTime, speed.value);
    }

    method CreateSpeedSegments(input: Path, speedCurve: seq<SpeedPoint>, duration: real) returns (r: Result<seq<Path>, Error>)
      requires Valid()
      modifies this`files, this`nextId, this`log
      ensures Valid()
      ensures |speedCurve| == 0 ==>
        r == Failure(EmptySpeedCurve) && files == old(files) && log == old(log) && nextId == old(nextId)
      ensures r.Success? ==>
        && |speedCurve| >= 1
        && r.value == TempRun(SegmentFile, old(nextId), SegmentCount)
        && nextId == old(nextId) + SegmentCount
        && log == old(log) + SliceJobs(input, speedCurve, duration, r.value)
        && files == old(files) + Elems(r.value)
      ensures r.Failure? && |speedCurve| >= 1 ==>
        exists k :: 0 <= k < SegmentCount && old(nextId) + k in failing
          && r == Failure(EncoderFailed(Temp(SegmentFile, old(nextId) + k)))
          && nextId == old(nextId) + k + 1
          && files == old(files) + Elems(TempRun(SegmentFile, old(nextId), k))
      ensures r.Failure? ==> OnlyNewTemps(old(files), files, old(nextId))
    {
      if |speedCurve| == 0 {
        // The first slice already fails, before anything is written.
        var made := CreateSlice(input, speedCurve, duration, 0);
        return Failure(made.error);
      }
      ghost var n0, files0, log0 := nextId, files, log;
      var segments: seq<Path> := [];
      var i: nat := 0;
      while i < SegmentCount
        invariant i <= SegmentCount && Valid()
        invariant nextId == n0 + i
        invariant segments == TempRun(SegmentFile, n0, i)
        invariant files == files0 + Elems(segments)
        invariant log == log0 + SliceJobs(input, speedCurve, duration, segments)
      {
        var made := CreateSlice(input, speedCurve, duration, i);
        if made.Failure? {
          assert 0 <= i < SegmentCount && n0 + i in failing
            && made == Failure(EncoderFailed(Temp(SegmentFile, n0 + i)))
            && nextId == n0 + i + 1
            && files == files0 + Elems(TempRun(SegmentFile, n0, i));
          RunIsNew(files0, SegmentFile, n0, i);
          return Failure(made.error);
        }
        SliceJobsAppend(input, speedCurve, duration, segments, made.value);
        TempRunAppend(SegmentFile, n0, i);
        ElemsAppend(segments, made.value);
        segments := segments + [made.value];
        i := i + 1;
      }
      r := Success(segments);
    }

    method CreateReverseSegments(forwardSegments: seq<Path>) returns (r: Result<seq<Path>, Error>)
      requires Valid()
      modifies this`files, this`nextId, this`log
      ensures Valid()
      ensures r.Success? ==>
        && r.value == TempRun(ReverseFile, old(nextId), |forwardSegments|)
        && nextId == old(nextId) + |forwardSegments|
        && log == old(log) + ReverseJobs(forwardSegments, r.value)
        && files == old(files) + Elems(r.value)
      ensures r.Failure? ==>
        exists k :: 0 <= k < |forwardSegments| && old(nextId) + k in failing
          && r == Failure(EncoderFailed(Temp(ReverseFile, old(nextId) + k)))
          && nextId == old(nextId) + k + 1
          && files == old(files) + Elems(TempRun(ReverseFile, old(nextId), k))
      ensures r.Failure? ==> OnlyNewTemps(old(files), files, old(nextId))
    {
      var reverseSegments: seq<Path> := [];
      var i := |forwardSegments| - 1;
      while i >= 0
        invariant -1 <= i < |forwardSegments| && Valid()
        invariant |reverseSegments| == |forwardSegments| - 1 - i
        invariant nextId == old(nextId) + |reverseSegments|
        invariant reverseSegments == TempRun(ReverseFile, old(nextId), |reverseSegments|)
        invariant files == old(files) + Elems(reverseSegments)
        invariant log == old(log) + ReverseJobs(forwardSegments, reverseSegments)
      {
        var made := ReverseSegment(forwardSegments[i]);
        if made.Failure? {
          RunIsNew(old(files), ReverseFile, old(nextId), |reverseSegments|);
          return Failure(made.error);
        }
        reverseSegments := reverseSegments + [made.value];
        i := i - 1;
      }
      r := Success(reverseSegments);
    }

    /** `cleanupSegments`: delete each listed file that exists; missing ones are skipped. */
    method CleanupSegments(segments: seq<Path>)
      modifies this`files
      ensures files == old(files) - Elems(segments)
    {
      var i := 0;
      while i < |segments|
        invariant 0 <= i <= |segments|
        invariant files == old(files) - Elems(segments[..i])
      {
        assert Elems(segments[..i + 1]) == Elems(segments[..i]) + {segments[i]} by {
          assert segments[..i + 1] == segments[..i] + [segments[i]];
        }
        if segments[i] in files {
          files := files - {segments[i]};
        }
        i := i + 1;
      }
      assert segments[..i] == segments;
    }

    /** The first steps of `generateLoopVideo`: probe the input, cut the ten slices,
        then reverse each of them. */
    method RenderSlices(input: Path, curve: seq<SpeedPoint>) returns (r: Result<(seq<Path>, seq<Path>), Error>)
      requires Valid()
      modifies this`files, this`nextId, this`log
      ensures Valid()
      ensures r.Success? ==>
        var segments, reversed := r.value.0, r.value.1;
        && input in durations && |curve| >= 1
        && segments == TempRun(SegmentFile, old(nextId), SegmentCount)
        && reversed == TempRun(ReverseFile, old(nextId) + SegmentCount, SegmentCount)
        && nextId == old(nextId) + 2 * SegmentCount
        && log == old(log) + RenderJobs(input, curve, durations[input], segments, reversed)
        && files == old(files) + Elems(segments) + Elems(reversed)
      ensures OnlyNewTemps(old(files), files, old(nextId))
    {
      var info := GetVideoInfo(input);
      if info.Failure? {
        return Failure(info.error);
      }
      var segments := CreateSpeedSegments(input, curve, info.value);
      if segments.Failure? {
        return Failure(segments.error);
      }
      ghost var afterSlices, n1, log1 := files, nextId, log;
      RunIsNew(old(files), SegmentFile, old(nextId), SegmentCount);
      var reverseSegments := CreateReverseSegments(segments.value);
      if reverseSegments.Failure? {
        OnlyNewTempsTrans(old(files), afterSlices, files, old(nextId), n1);
        return Failure(reverseSegments.error);
      }
      assert reverseSegments.value == TempRun(ReverseFile, n1, SegmentCount);
      RunIsNew(afterSlices, ReverseFile, n1, SegmentCount);
      OnlyNewTempsTrans(old(files), afterSlices, files, old(nextId), n1);
      AppendAssoc(old(log), SliceJobs(input, curve, info.value, segments.value),
                  ReverseJobs(segments.value, reverseSegments.value));
      r := Success((segments.value, reverseSegments.value));
    }

    /** The end of `generateLoopVideo`: lay out `(forward ++ reverse)` `count` times,
        concatenate the list into the output, then remove the slices and reversals. */
    method FinishLoop(segments: seq<Path>, reversed: seq<Path>, count: int, outputPath: Path,
                      outputOptions: OutputOptions) returns (r: Result<Path, Error>)
      requires Valid() && (outputPath.Temp? ==> outputPath.id < nextId)
      modifies this`files, this`nextId, this`log
      ensures Valid() && nextId == old(nextId) + 1
      ensures log == old(log) + [FinishJob(old(nextId), segments, reversed, count, outputOptions, outputPath)]
      ensures r.Failure? ==> files == old(files)
      ensures r.Success? ==> r == Success(outputPath) && files == (old(files) + {outputPath}) - Elems(segments + reversed)
    {
      var loopSegments := AssembleLoop(segments, reversed, count);
      r := ConcatenateSegments(loopSegments, outputPath, outputOptions);
      if r.Failure? {
        return;
      }
      CleanupSegments(segments + reversed);
    }

    /** `generateLoopVideo`. On success every temporary is gone again and only the
        output file is new; on failure the code does not clean up. */
    method GenerateLoopVideo(input: Path, loopCount: Option<int>, speedCurve: Option<seq<SpeedPoint>>,
                             outputOptions: OutputOptions) returns (r: Result<Path, Error>)
      requires Valid()
      modifies this`files, this`nextId, this`log
      ensures Valid()
      ensures var n := old(nextId);
        var loopPath := Temp(LoopFile, n);
        var curve := CurveOrDefault(speedCurve);
        var segments := TempRun(SegmentFile, n + 1, SegmentCount);
        var reversed := TempRun(ReverseFile, n + 1 + SegmentCount, SegmentCount);
        r.Success? ==>
          && r.value == loopPath
          && input in durations && |curve| >= 1
          && files == old(files) + {loopPath}
          && log == old(log) + RenderJobs(input, curve, durations[input], segments, reversed)
               + [FinishJob(n + 1 + 2 * SegmentCount, segments, reversed, CountOrDefault(loopCount), outputOptions, loopPath)]
      ensures r.Failure? ==> OnlyNewTemps(old(files), files, old(nextId))
    {
      var count := CountOrDefault(loopCount);
      var curve := CurveOrDefault(speedCurve);
      var loopPath := NewTempPath(LoopFile);
      ghost var start, n1 := files, nextId;
      assert start == old(files) && log == old(log);
      var pieces := RenderSlices(input, curve);
      if pieces.Failure? {
        OnlyNewTempsTrans(start, start, files, old(nextId), n1);
        return Failure(pieces.error);
      }
      ghost var segs, revs := pieces.value.0, pieces.value.1;
      ghost var mid, rendered, n2 := files, log, nextId;
      assert n1 == old(nextId) + 1 && n2 == old(nextId) + 1 + 2 * SegmentCount;
      assert segs == TempRun(SegmentFile, old(nextId) + 1, SegmentCount);
      assert revs == TempRun(ReverseFile, old(nextId) + 1 + SegmentCount, SegmentCount);
      assert rendered == old(log) + RenderJobs(input, curve, durations[input], segs, revs);
      var done := FinishLoop(pieces.value.0, pieces.value.1, count, loopPath, outputOptions);
      if done.Failure? {
        OnlyNewTempsTrans(start, start, files, old(nextId), n1);
        return Failure(done.error);
      }
      assert log == rendered + [FinishJob(n2, segs, revs, count, outputOptions, loopPath)];
      CleanupRestores(start, mid, files, n1, segs, revs, loopPath);
      r := Success(loopPath);
    }
  }
}
