/**
 * The scan session of `VitalsScanner`: per-frame sample extraction from the forehead
 * region, the rolling green-signal buffer, the every-fifth-sample processing pass, the
 * 100 ms countdown and the final result.
 *
 * The React component's state (`useState`, `useRef`) becomes the fields of `Session`;
 * the FaceMesh callback becomes `OnResults`, the interval callback `Tick`. What the
 * camera, FaceMesh and the canvas deliver is an input `Frame`.
 */
module VitalsScanner {
  import opened Wrappers
  import opened JsMath
  import opened SignalProcessing
  import opened Types

  const ScanDurationSec: int := 25
  const FpsEstimate: nat := 30
  /** The buffer keeps the last 15 seconds. */
  const BufferCapacity: nat := FpsEstimate * 15
  /** Processing runs whenever the buffer length is a multiple of this. */
  const Stride: nat := 5
  const RoiSize: int := 16
  /** `getImageData` over the region returns 16 x 16 RGBA pixels. */
  const RoiBytes: nat := 16 * 16 * 4
  const MinProcessLength: nat := FpsEstimate * 2
  const QualityWindow: nat := 60
  const WaveWindow: nat := FpsEstimate * 3
  const WaveSmoothing: int := 4
  const AnalysisWindow: nat := FpsEstimate * 8
  const MinAnalysisLength: nat := FpsEstimate * 4
  const FinalMinLength: nat := FpsEstimate * 10
  const FinalWindow: nat := FpsEstimate * 15
  const HrvWindow: nat := FpsEstimate * 5
  const FallbackBpm: int := 75

  type Byte = x: int | 0 <= x < 256

  predicate InBpmRange(b: int)
  {
    MinBpm <= b <= MaxBpm
  }

  /** `slice(-n)`: the last n elements, or all of them when there are fewer. */
  function Last(s: seq<real>, n: nat): (r: seq<real>)
    ensures |r| == MinInt(|s|, n)
    ensures s == s[..|s| - |r|] + r
  {
    if |s| <= n then s else s[|s| - n..]
  }

  /**
   * Pushing onto a buffer that holds the last n samples and dropping its head when it
   * is one too long leaves the last n samples of the longer history.
   */
  lemma LastAppend(history: seq<real>, x: real, n: nat)
    requires n > 0
    ensures Last(Last(history, n) + [x], n) == Last(history + [x], n)
  {
    if |history| >= n {
      var b := Last(history, n);
      assert b == history[|history| - n..];
      assert (b + [x])[1..] == (history + [x])[|history| + 1 - n..];
    }
  }

  // ---------------------------------------------------------------------------
  // Per-frame input: the region of interest and its mean green value.
  // ---------------------------------------------------------------------------

  /**
   * What one FaceMesh result amounts to: no face (or no canvas or video element), a face
   * but no 2-D canvas context, or a face whose landmark 151 sits at normalised
   * (landmarkX, landmarkY) on a width x height canvas, with `pixels` the RGBA bytes that
   * `getImageData` returns for the region.
   */
  datatype Frame =
    | NoFace
    | NoContext
    | Face(landmarkX: real, landmarkY: real, width: int, height: int, pixels: seq<Byte>)

  predicate InRoi(dx: int, dy: int)
  {
    0 <= dx < RoiSize && 0 <= dy < RoiSize
  }

  predicate PixelOnCanvas(px: int, py: int, width: int, height: int)
  {
    0 <= px < width && 0 <= py < height
  }

  /** Every pixel of the 16 x 16 box with top-left corner (x, y) is on the canvas. */
  ghost predicate BoxOnCanvas(x: int, y: int, width: int, height: int)
  {
    forall dx, dy :: InRoi(dx, dy) ==> PixelOnCanvas(x + dx, y + dy, width, height)
  }

  /** The top-left corner of the region: the landmark in pixels, less half the box, floored. */
  function RoiStart(landmarkX: real, landmarkY: real, width: int, height: int): (int, int)
  {
    ((landmarkX * width as real - RoiSize as real / 2.0).Floor,
     (landmarkY * height as real - RoiSize as real / 2.0).Floor)
  }

  /** The region's corner when the whole box lies on the canvas, and None otherwise. */
  function RoiOrigin(landmarkX: real, landmarkY: real, width: int, height: int): (o: Option<(int, int)>)
    ensures o.Some? ==> o.value == RoiStart(landmarkX, landmarkY, width, height)
    ensures o.Some? <==> BoxOnCanvas(RoiStart(landmarkX, landmarkY, width, height).0,
                                     RoiStart(landmarkX, landmarkY, width, height).1, width, height)
  {
    var (startX, startY) := RoiStart(landmarkX, landmarkY, width, height);
    if startX < 0 || startY < 0 || startX + RoiSize > width || startY + RoiSize > height then
      assert !PixelOnCanvas(startX, startY, width, height)
          || !PixelOnCanvas(startX + RoiSize - 1, startY + RoiSize - 1, width, height);
      assert InRoi(0, 0) && InRoi(RoiSize - 1, RoiSize - 1);
      None
    else
      Some((startX, startY))
  }

  /** The green bytes, at offsets 1, 5, 9, ... of an RGBA byte sequence. */
  function GreenChannel(data: seq<Byte>): (g: seq<real>)
    requires |data| % 4 == 0
    ensures |g| == |data| / 4
    ensures forall k :: 0 <= k < |g| ==> 0.0 <= g[k] <= 255.0
    decreases |data|
  {
    if |data| == 0 then []
    else GreenChannel(data[..|data| - 4]) + [data[|data| - 3] as real]
  }

  /** Element k of the green channel is the byte at offset 4k + 1, the G of pixel k. */
  lemma {:induction false} GreenChannelAt(data: seq<Byte>, k: nat)
    requires |data| % 4 == 0 && k < |data| / 4
    ensures GreenChannel(data)[k] == data[4 * k + 1] as real
    decreases |data|
  {
    var n := |data| - 4;
    if k < n / 4 {
      GreenChannelAt(data[..n], k);
    }
  }

  lemma GreenChannelBounds(data: seq<Byte>)
    requires |data| % 4 == 0 && |data| > 0
    ensures 0.0 <= Mean(GreenChannel(data)) <= 255.0
  {
    MeanBounds(GreenChannel(data), 0.0, 255.0);
  }

  /** One more pixel extends the green channel by its green byte. */
  lemma GreenChannelStep(data: seq<Byte>, i: nat)
    requires i % 4 == 0 && i + 4 <= |data|
    ensures GreenChannel(data[..i + 4]) == GreenChannel(data[..i]) + [data[i + 1] as real]
  {
    assert data[..i + 4][..i] == data[..i];
  }

  lemma SumSnoc(s: seq<real>, x: real)
    ensures Sum(s + [x]) == Sum(s) + x
  {
    assert (s + [x])[..|s|] == s;
  }

  /** The loop summing `data[i + 1]` over the pixels, in steps of 4. */
  method SumGreen(data: seq<Byte>) returns (sumGreen: real)
    requires |data| % 4 == 0
    ensures sumGreen == Sum(GreenChannel(data))
  {
    sumGreen := 0.0;
    var i := 0;
    while i < |data|
      invariant 0 <= i <= |data| && i % 4 == 0
      invariant sumGreen == Sum(GreenChannel(data[..i]))
    {
      GreenChannelStep(data, i);
      SumSnoc(GreenChannel(data[..i]), data[i + 1] as real);
      sumGreen := sumGreen + data[i + 1] as real;
      i := i + 4;
    }
    assert data[..i] == data;
  }

  /** The mean green value of the region, `sumGreen / (data.length / 4)`. */
  method AvgGreen(data: seq<Byte>) returns (avgGreen: real)
    requires |data| > 0 && |data| % 4 == 0
    ensures avgGreen == Mean(GreenChannel(data))
    ensures 0.0 <= avgGreen <= 255.0
  {
    var sumGreen := SumGreen(data);
    // data.length / 4 is a whole number here, so integer division gives the same divisor.
    var pixelCount := |data| / 4;
    avgGreen := sumGreen / pixelCount as real;
    GreenChannelBounds(data);
  }

  /** The sample a frame contributes to the buffer, if any. */
  function FrameSample(frame: Frame): (s: Option<real>)
    requires frame.Face? ==> |frame.pixels| == RoiBytes
    ensures s.Some? <==> frame.Face? && RoiOrigin(frame.landmarkX, frame.landmarkY, frame.width, frame.height).Some?
    ensures s.Some? ==> 0.0 <= s.value <= 255.0
  {
    match frame
    case Face(x, y, w, h, pixels) =>
      if RoiOrigin(x, y, w, h).Some? then
        GreenChannelBounds(pixels);
        Some(Mean(GreenChannel(pixels)))
      else None
    case _ => None
  }

  // ---------------------------------------------------------------------------
  // The processing pass and its smoothing rules.
  // ---------------------------------------------------------------------------

  /** `prev * 0.8 + quality * 0.2`: a convex combination, so it stays between the two. */
  function SmoothQuality(prev: real, quality: int): (r: real)
    ensures MinReal(prev, quality as real) <= r <= MaxReal(prev, quality as real)
    ensures 0.0 <= prev <= 100.0 && 0 <= quality <= 100 ==> 0.0 <= r <= 100.0
  {
    prev * 0.8 + quality as real * 0.2
  }

  /** The first estimate is taken as it is; later ones are blended 70/30 and rounded. */
  function SmoothBpm(prev: int, estimate: int): (r: int)
    ensures prev == 0 ==> r == estimate
    ensures prev != 0 ==> MinInt(prev, estimate) <= r <= MaxInt(prev, estimate)
    ensures (prev == 0 || InBpmRange(prev)) && InBpmRange(estimate) ==> InBpmRange(r)
  {
    if prev == 0 then estimate else Round(prev as real * 0.7 + estimate as real * 0.3)
  }

  /**
   * The displayed heart rate after one pass over the analysis window: it moves only when
   * the window has more than 120 samples and the estimate is positive.
   */
  function NextDisplayBpm(prev: int, window: seq<real>, m: MathLib): (r: int)
    ensures r != prev ==> |window| > MinAnalysisLength && DominantBpm(window, FpsEstimate, m) > 0
    ensures (prev == 0 || InBpmRange(prev)) ==> r == 0 || InBpmRange(r)
    ensures prev != 0 && InBpmRange(prev) ==> InBpmRange(r)
  {
    if |window| > MinAnalysisLength then
      var calculatedBpm := DominantBpm(window, FpsEstimate, m);
      if calculatedBpm > 0 then SmoothBpm(prev, calculatedBpm) else prev
    else prev
  }

  /** The values one processing pass updates: quality, displayed BPM and the waveform. */
  datatype Estimates = Estimates(quality: real, bpm: int, wave: seq<real>)

  predicate ValidEstimates(e: Estimates)
  {
    0.0 <= e.quality <= 100.0 && (e.bpm == 0 || InBpmRange(e.bpm))
  }

  /** One `processSignal` pass over the buffer `raw`. */
  function Process(e: Estimates, raw: seq<real>, m: MathLib): (e': Estimates)
    ensures |raw| < MinProcessLength ==> e' == e
    ensures ValidEstimates(e) ==> ValidEstimates(e')
    ensures e'.bpm != e.bpm ==> |raw| >= MinProcessLength && |Last(raw, AnalysisWindow)| > MinAnalysisLength
    ensures |raw| >= MinProcessLength ==> |e'.wave| == MinInt(|raw|, WaveWindow)
  {
    if |raw| < MinProcessLength then e
    else
      Estimates(
        SmoothQuality(e.quality, Quality(Last(raw, QualityWindow))),
        NextDisplayBpm(e.bpm, Last(raw, AnalysisWindow), m),
        Smoothed(Detrend(Last(raw, WaveWindow)), WaveSmoothing))
  }

  /** The computation of one `processSignal` pass over a buffer of at least 60 samples. */
  method ProcessPass(e: Estimates, raw: seq<real>, m: MathLib) returns (next: Estimates)
    requires |raw| >= MinProcessLength
    ensures next == Process(e, raw, m)
  {
    var recentRaw := Last(raw, QualityWindow);
    var quality := GetSignalQuality(recentRaw);
    var newQuality := SmoothQuality(e.quality, quality);

    var visSignal := Last(raw, WaveWindow);
    var detrended := Detrend(visSignal);
    var newWave := MovingAverage(detrended, WaveSmoothing);

    var newBpm := e.bpm;
    var analysisWindow := Last(raw, AnalysisWindow);
    if |analysisWindow| > MinAnalysisLength {
      var calculatedBpm := CalculateBpmFromSpectrum(analysisWindow, FpsEstimate, m);
      if calculatedBpm > 0 {
        newBpm := SmoothBpm(e.bpm, calculatedBpm);
      }
    }
    next := Estimates(newQuality, newBpm, newWave);
  }

  // ---------------------------------------------------------------------------
  // The countdown and the final result.
  // ---------------------------------------------------------------------------

  datatype Clock = Clock(remaining: real, progress: real, timeLeft: int)

  /** The arithmetic of one 100 ms tick, from the seconds elapsed since the timer started. */
  function TickClock(elapsed: real): (c: Clock)
    requires 0.0 <= elapsed
    ensures 0.0 <= c.remaining <= ScanDurationSec as real
    ensures elapsed < ScanDurationSec as real ==> c.remaining + elapsed == ScanDurationSec as real
    ensures c.remaining <= 0.0 <==> elapsed >= ScanDurationSec as real
    ensures c.progress == if elapsed >= ScanDurationSec as real then 100.0 else 4.0 * elapsed
    ensures 0.0 <= c.progress <= 100.0
    ensures c.timeLeft as real - 1.0 < c.remaining <= c.timeLeft as real
    ensures 0 <= c.timeLeft <= ScanDurationSec
  {
    var remaining := MaxReal(0.0, ScanDurationSec as real - elapsed);
    var progressPct := ((ScanDurationSec as real - remaining) / ScanDurationSec as real) * 100.0;
    Clock(remaining, progressPct, Ceil(remaining))
  }

  /** Out-of-range rates are replaced by 75. */
  function ClampBpm(b: int): (r: int)
    ensures InBpmRange(r)
    ensures InBpmRange(b) ==> r == b
    ensures !InBpmRange(b) ==> r == FallbackBpm
  {
    if b < MinBpm || b > MaxBpm then FallbackBpm else b
  }

  /**
   * The final heart rate: recomputed over the last 450 samples when the buffer holds more
   * than 300, otherwise the displayed value; then clamped.
   */
  function FinalHeartRate(buffer: seq<real>, displayBpm: int, m: MathLib): (hr: int)
    ensures InBpmRange(hr)
    ensures |buffer| <= FinalMinLength ==> hr == ClampBpm(displayBpm)
  {
    var finalBpm := if |buffer| > FinalMinLength then DominantBpm(Last(buffer, FinalWindow), FpsEstimate, m) else displayBpm;
    ClampBpm(finalBpm)
  }

  /**
   * With more than 300 samples the final rate is the spectral estimate itself, and it
   * falls back to 75 exactly when the scan found no candidate of positive power.
   */
  lemma FinalHeartRateFromSpectrum(buffer: seq<real>, displayBpm: int, m: MathLib)
    requires |buffer| > FinalMinLength
    ensures var d := DominantBpm(Last(buffer, FinalWindow), FpsEstimate, m);
            FinalHeartRate(buffer, displayBpm, m) == if d == 0 then FallbackBpm else d
    ensures var window := Last(buffer, FinalWindow);
            DominantBpm(window, FpsEstimate, m) == 0
            <==> forall c :: MinBpm <= c <= MaxBpm ==> Power(CleanSignal(window, m), m, c, FpsEstimate) <= 0.0
  {
    DominantBpmIsFirstMax(Last(buffer, FinalWindow), FpsEstimate, m);
  }

  /** `Math.round(heartRate / 4)`: within two beats of a quarter of the heart rate. */
  function RespiratoryRate(heartRate: int): (rr: int)
    ensures heartRate - 2 < 4 * rr <= heartRate + 2
    ensures InBpmRange(heartRate) ==> 11 <= rr <= 45
  {
    Round(heartRate as real / 4.0)
  }

  /** The record `finishScan` hands to `onComplete`. */
  function FinalResult(buffer: seq<real>, displayBpm: int, quality: real, m: MathLib, timestamp: string): (r: VitalsResult)
    ensures r.heartRate == FinalHeartRate(buffer, displayBpm, m)
    ensures InBpmRange(r.heartRate)
    ensures r.respiratoryRate == Some(RespiratoryRate(r.heartRate))
    ensures r.respiratoryRate.Some? && 11 <= r.respiratoryRate.value <= 45
    ensures r.hrv == Some(HrvProxy(Last(buffer, HrvWindow), m))
    ensures r.hrv.Some? && r.hrv.value <= 100 && (SqrtFacts(m) ==> 0 <= r.hrv.value)
    ensures quality - 0.5 < r.confidence as real <= quality + 0.5
    ensures 0.0 <= quality <= 100.0 ==> 0 <= r.confidence <= 100
    ensures r.timestamp == timestamp
  {
    var heartRate := FinalHeartRate(buffer, displayBpm, m);
    VitalsResult(
      heartRate,
      Some(RespiratoryRate(heartRate)),
      Some(HrvProxy(Last(buffer, HrvWindow), m)),
      Round(quality),
      timestamp)
  }

  // ---------------------------------------------------------------------------
  // The session.
  // ---------------------------------------------------------------------------

  class Session {
    const math: MathLib
    /** `greenSignalBuffer.current`. */
    var buffer: seq<real>
    var signalQuality: real
    var displayBpm: int
    /** The detrended, smoothed waveform before it is scaled for the chart. */
    var wave: seq<real>
    var progress: real
    var timeLeft: int
    var isReady: bool
    /** The countdown interval has been cleared. */
    var timerCleared: bool
    /** Every sample ever pushed, oldest first. */
    ghost var history: seq<real>
    /** How many times `processSignal` has been called. */
    ghost var passes: nat

    ghost predicate Valid()
      reads this
    {
      SqrtFacts(math)
      && buffer == Last(history, BufferCapacity)
      && ValidEstimates(Current())
      && 0.0 <= progress <= 100.0
      && 0 <= timeLeft <= ScanDurationSec
    }

    function Current(): Estimates
      reads this
    {
      Estimates(signalQuality, displayBpm, wave)
    }

    constructor (m: MathLib)
      requires SqrtFacts(m)
      ensures Valid()
      ensures math == m && buffer == [] && history == [] && passes == 0
      ensures Current() == Estimates(100.0, 0, [])
      ensures progress == 0.0 && timeLeft == ScanDurationSec && !isReady && !timerCleared
    {
      math := m;
      buffer := [];
      signalQuality := 100.0;
      displayBpm := 0;
      wave := [];
      progress := 0.0;
      timeLeft := ScanDurationSec;
      isReady := false;
      timerCleared := false;
      history := [];
      passes := 0;
    }

    method ProcessSignal()
      requires Valid()
      modifies this
      ensures Valid()
      ensures buffer == old(buffer) && history == old(history) && passes == old(passes) + 1
      ensures progress == old(progress) && timeLeft == old(timeLeft)
      ensures isReady == old(isReady) && timerCleared == old(timerCleared)
      ensures Current() == Process(old(Current()), buffer, math)
    {
      passes := passes + 1;
      var raw := buffer;
      if |raw| < MinProcessLength {
        return;
      }
      var next := ProcessPass(Current(), raw, math);
      SetEstimates(next);
    }

    /** The React state setters `setSignalQuality`, `setBpm` and `setWaveformData`. */
    method SetEstimates(next: Estimates)
      requires Valid() && ValidEstimates(next)
      modifies this
      ensures Valid()
      ensures Current() == next
      ensures buffer == old(buffer) && history == old(history) && passes == old(passes)
      ensures progress == old(progress) && timeLeft == old(timeLeft)
      ensures isReady == old(isReady) && timerCleared == old(timerCleared)
    {
      signalQuality, displayBpm, wave := next.quality, next.bpm, next.wave;
    }

    /** Push one sample, drop the oldest beyond 450, and process on every fifth length. */
    method Ingest(sample: real)
      requires Valid()
      modifies this
      ensures Valid()
      ensures history == old(history) + [sample]
      ensures buffer == Last(old(buffer) + [sample], BufferCapacity)
      ensures progress == old(progress) && timeLeft == old(timeLeft)
      ensures isReady == old(isReady) && timerCleared == old(timerCleared)
      ensures passes == old(passes) + (if |buffer| % Stride == 0 then 1 else 0)
      ensures Current() == if |buffer| % Stride == 0 then Process(old(Current()), buffer, math) else old(Current())
      ensures |old(buffer)| == BufferCapacity ==> |buffer| == BufferCapacity && passes == old(passes) + 1
    {
      PushSample(sample);
      if |buffer| % Stride == 0 {
        ProcessSignal();
      }
    }

    /** `push` and, past 450 samples, `shift`: the buffer stays the last 450 samples pushed. */
    method PushSample(sample: real)
      requires Valid()
      modifies this
      ensures Valid()
      ensures history == old(history) + [sample]
      ensures buffer == Last(old(buffer) + [sample], BufferCapacity)
      ensures Current() == old(Current()) && passes == old(passes)
      ensures progress == old(progress) && timeLeft == old(timeLeft)
      ensures isReady == old(isReady) && timerCleared == old(timerCleared)
    {
      LastAppend(history, sample, BufferCapacity);
      history := history + [sample];
      buffer := buffer + [sample];
      if |buffer| > BufferCapacity {
        buffer := buffer[1..];
      }
    }

    /** The FaceMesh results callback. */
    method OnResults(frame: Frame)
      requires Valid()
      requires frame.Face? ==> |frame.pixels| == RoiBytes
      modifies this
      ensures Valid()
      ensures progress == old(progress) && timeLeft == old(timeLeft) && timerCleared == old(timerCleared)
      ensures isReady == (old(isReady) || !frame.NoFace?)
      ensures FrameSample(frame).None? ==> buffer == old(buffer) && history == old(history) && passes == old(passes)
      ensures frame.NoFace? ==> Current() == old(Current()).(quality := 0.0)
      ensures !frame.NoFace? && FrameSample(frame).None? ==> Current() == old(Current())
      ensures FrameSample(frame).Some? ==>
        var x := FrameSample(frame).value;
        && history == old(history) + [x]
        && buffer == Last(old(buffer) + [x], BufferCapacity)
        && passes == old(passes) + (if |buffer| % Stride == 0 then 1 else 0)
        && Current() == if |buffer| % Stride == 0 then Process(old(Current()), buffer, math) else old(Current())
    {
      match frame
      case NoFace =>
        signalQuality := 0.0;
      case NoContext =>
        isReady := true;
      case Face(landmarkX, landmarkY, width, height, pixels) =>
        isReady := true;
        var origin := RoiOrigin(landmarkX, landmarkY, width, height);
        if origin.None? {
          assert FrameSample(frame).None?;
          return;
        }
        var avgGreen := AvgGreen(pixels);
        assert FrameSample(frame) == Some(avgGreen);
        Ingest(avgGreen);
    }

    method FinishScan(timestamp: string) returns (result: VitalsResult)
      requires Valid()
      ensures result == FinalResult(buffer, displayBpm, signalQuality, math, timestamp)
      ensures InBpmRange(result.heartRate)
      ensures result.hrv.Some? && 0 <= result.hrv.value <= 100
      ensures 0 <= result.confidence <= 100
    {
      var fullBuffer := buffer;
      var finalBpm := displayBpm;
      if |fullBuffer| > FinalMinLength {
        finalBpm := CalculateBpmFromSpectrum(Last(fullBuffer, FinalWindow), FpsEstimate, math);
      }
      if finalBpm < MinBpm || finalBpm > MaxBpm {
        finalBpm := FallbackBpm;
      }
      assert finalBpm == FinalHeartRate(fullBuffer, displayBpm, math);
      var hrvScore := CalculateHrvProxy(Last(fullBuffer, HrvWindow), math);
      var estimatedRr := RespiratoryRate(finalBpm);
      result := VitalsResult(finalBpm, Some(estimatedRr), Some(hrvScore), Round(signalQuality), timestamp);
      ghost var expected := FinalResult(fullBuffer, displayBpm, signalQuality, math, timestamp);
      assert expected.heartRate == finalBpm;
      assert expected.respiratoryRate == Some(estimatedRr);
      assert expected.hrv == Some(hrvScore);
    }

    /** `setTimeLeft` and `setProgress`. */
    method SetClock(newTimeLeft: int, newProgress: real)
      requires Valid()
      requires 0 <= newTimeLeft <= ScanDurationSec && 0.0 <= newProgress <= 100.0
      modifies this
      ensures Valid()
      ensures timeLeft == newTimeLeft && progress == newProgress
      ensures buffer == old(buffer) && history == old(history) && passes == old(passes)
      ensures Current() == old(Current()) && isReady == old(isReady) && timerCleared == old(timerCleared)
    {
      timeLeft, progress := newTimeLeft, newProgress;
    }

    /** `clearInterval` on the countdown. */
    method ClearTimer()
      requires Valid()
      modifies this
      ensures Valid()
      ensures timerCleared
      ensures timeLeft == old(timeLeft) && progress == old(progress)
      ensures buffer == old(buffer) && history == old(history) && passes == old(passes)
      ensures Current() == old(Current()) && isReady == old(isReady)
    {
      timerCleared := true;
    }

    /**
     * The 100 ms interval callback, given the seconds since the timer started. It runs only
     * while the session is ready and the interval has not been cleared; when no time is left
     * it clears the interval first and then finishes the scan.
     */
    method Tick(elapsed: real, timestamp: string) returns (outcome: Option<VitalsResult>)
      requires Valid()
      requires 0.0 <= elapsed
      modifies this
      ensures Valid()
      ensures buffer == old(buffer) && history == old(history) && passes == old(passes)
      ensures Current() == old(Current()) && isReady == old(isReady)
      ensures !old(isReady) || old(timerCleared) ==>
        outcome.None? && progress == old(progress) && timeLeft == old(timeLeft) && timerCleared == old(timerCleared)
      ensures old(isReady) && !old(timerCleared) ==>
        && progress == TickClock(elapsed).progress
        && timeLeft == TickClock(elapsed).timeLeft
        && (outcome.Some? <==> elapsed >= ScanDurationSec as real)
        && timerCleared == outcome.Some?
      ensures outcome.Some? ==> outcome.value == FinalResult(buffer, displayBpm, signalQuality, math, timestamp)
    {
      if !isReady || timerCleared {
        return None;
      }
      var clock := TickClock(elapsed);
      SetClock(clock.timeLeft, clock.progress);
      if clock.remaining <= 0.0 {
        ClearTimer();
        var result := FinishScan(timestamp);
        return Some(result);
      }
      return None;
    }
  }
}
