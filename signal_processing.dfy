/**
 * The digital signal processing helpers of the rPPG pipeline: detrending, the Hamming
 * window, a trailing moving average, the frequency-domain heart-rate scan, the
 * successive-difference HRV proxy and the artifact-count quality score.
 *
 * Each helper the source writes as an expression is a function here; each helper the
 * source writes as a loop is a method, proved equal to a function that specifies it,
 * and the properties of the helper are lemmas about that function.
 */
module SignalProcessing {
  import opened JsMath

  const MinBpm: int := 45
  const MaxBpm: int := 180
  const ArtifactThreshold: real := 15.0
  const ArtifactPenalty: int := 20
  /** Quality and HRV need at least this many samples to say anything. */
  const MinEstimateLength: nat := 10
  const HrvScale: real := 50.0

  // ---------------------------------------------------------------------------
  // Sums and means: `reduce((a, b) => a + b, 0)` and the division by the length.
  // ---------------------------------------------------------------------------

  /** A left fold of addition starting from 0, as `reduce` computes it. */
  function Sum(s: seq<real>): real
    decreases |s|
  {
    if |s| == 0 then 0.0 else Sum(s[..|s| - 1]) + s[|s| - 1]
  }

  function Mean(s: seq<real>): real
    requires |s| > 0
  {
    Sum(s) / |s| as real
  }

  /** Every element minus c. */
  function Offset(s: seq<real>, c: real): seq<real>
  {
    seq(|s|, i requires 0 <= i < |s| => s[i] - c)
  }

  lemma {:induction false} SumOffset(s: seq<real>, c: real)
    ensures Sum(Offset(s, c)) == Sum(s) - |s| as real * c
    decreases |s|
  {
    if |s| > 0 {
      var n := |s| - 1;
      assert Offset(s, c)[..n] == Offset(s[..n], c);
      SumOffset(s[..n], c);
    }
  }

  lemma {:induction false} SumBounds(s: seq<real>, lo: real, hi: real)
    requires forall i :: 0 <= i < |s| ==> lo <= s[i] <= hi
    ensures |s| as real * lo <= Sum(s) <= |s| as real * hi
    decreases |s|
  {
    if |s| > 0 {
      var n := |s| - 1;
      assert forall i :: 0 <= i < n ==> s[..n][i] == s[i];
      SumBounds(s[..n], lo, hi);
    }
  }

  /** A mean lies between any lower and any upper bound of its elements. */
  lemma MeanBounds(s: seq<real>, lo: real, hi: real)
    requires |s| > 0
    requires forall i :: 0 <= i < |s| ==> lo <= s[i] <= hi
    ensures lo <= Mean(s) <= hi
  {
    SumBounds(s, lo, hi);
    var n := |s| as real;
    assert Mean(s) * n == Sum(s);
  }

  function SeqMin(s: seq<real>): (r: real)
    requires |s| > 0
    ensures forall i :: 0 <= i < |s| ==> r <= s[i]
    ensures exists i :: 0 <= i < |s| && s[i] == r
    decreases |s|
  {
    if |s| == 1 then s[0]
    else
      var p := SeqMin(s[..|s| - 1]);
      assert forall i :: 0 <= i < |s| - 1 ==> s[..|s| - 1][i] == s[i];
      MinReal(p, s[|s| - 1])
  }

  function SeqMax(s: seq<real>): (r: real)
    requires |s| > 0
    ensures forall i :: 0 <= i < |s| ==> s[i] <= r
    ensures exists i :: 0 <= i < |s| && s[i] == r
    decreases |s|
  {
    if |s| == 1 then s[0]
    else
      var p := SeqMax(s[..|s| - 1]);
      assert forall i :: 0 <= i < |s| - 1 ==> s[..|s| - 1][i] == s[i];
      MaxReal(p, s[|s| - 1])
  }

  ghost predicate Constant(s: seq<real>)
  {
    forall i :: 0 <= i < |s| ==> s[i] == s[0]
  }

  // ---------------------------------------------------------------------------
  // 1. Detrending (signalProcessing.ts `detrend`).
  // ---------------------------------------------------------------------------

  /**
   * Subtracts the mean from every sample. An empty input maps to the empty output: the
   * mean is then 0/0, but no element is there to subtract it from.
   */
  function Detrend(data: seq<real>): (r: seq<real>)
    ensures |r| == |data|
    ensures Sum(r) == 0.0
    ensures |data| > 0 ==> Mean(r) == 0.0
  {
    if |data| == 0 then []
    else
      var mean := Mean(data);
      SumOffset(data, mean);
      assert |data| as real * mean == Sum(data);
      Offset(data, mean)
  }

  /** A detrended sample is the sample's distance from the mean. */
  lemma DetrendAt(data: seq<real>, i: nat)
    requires i < |data|
    ensures Detrend(data)[i] == data[i] - Mean(data)
  {
  }

  /** A constant brightness offset added to the input is removed entirely by detrending. */
  lemma DetrendRemovesOffset(data: seq<real>, c: real)
    ensures Detrend(Offset(data, c)) == Detrend(data)
  {
    if |data| > 0 {
      var n := |data| as real;
      SumOffset(data, c);
      assert Sum(Offset(data, c)) == (Mean(data) - c) * n;
      assert Mean(Offset(data, c)) == Mean(data) - c;
      assert Detrend(Offset(data, c)) == Offset(Offset(data, c), Mean(data) - c);
      assert Offset(Offset(data, c), Mean(data) - c) == Offset(data, Mean(data));
    }
  }

  // ---------------------------------------------------------------------------
  // 2. Hamming window (signalProcessing.ts `applyHammingWindow`).
  // ---------------------------------------------------------------------------

  /** The weight 0.54 - 0.46 cos(2 pi i / (n - 1)) of sample i in an n-sample window. */
  function HammingWeight(m: MathLib, i: nat, n: nat): real
    requires n >= 2
  {
    0.54 - 0.46 * m.cos((2.0 * m.pi * i as real) / (n - 1) as real)
  }

  function ApplyHammingWindow(data: seq<real>, m: MathLib): (r: seq<real>)
    requires |data| != 1
    ensures |r| == |data|
  {
    seq(|data|, i requires 0 <= i < |data| => data[i] * HammingWeight(m, i, |data|))
  }

  /**
   * With cosine in [-1, 1] every weight lies in [0.08, 1], so the window scales each
   * sample by a non-negative factor of at most one: it never amplifies a sample and never
   * flips its sign.
   */
  lemma HammingAttenuates(data: seq<real>, m: MathLib, i: nat)
    requires CosBounded(m)
    requires |data| != 1 && i < |data|
    ensures 0.08 <= HammingWeight(m, i, |data|) <= 1.0
    ensures Abs(ApplyHammingWindow(data, m)[i]) <= Abs(data[i])
    ensures data[i] >= 0.0 ==> ApplyHammingWindow(data, m)[i] >= 0.0
    ensures data[i] <= 0.0 ==> ApplyHammingWindow(data, m)[i] <= 0.0
  {
    var w := HammingWeight(m, i, |data|);
    var c := m.cos((2.0 * m.pi * i as real) / (|data| - 1) as real);
    assert -1.0 <= c <= 1.0;
    assert ApplyHammingWindow(data, m)[i] == data[i] * w;
    if data[i] >= 0.0 {
      assert data[i] * w <= data[i] * 1.0;
      assert data[i] * w >= 0.0;
    } else {
      assert data[i] * w >= data[i] * 1.0;
      assert data[i] * w <= 0.0;
    }
  }

  // ---------------------------------------------------------------------------
  // 3. Moving average (signalProcessing.ts `movingAverage`).
  // ---------------------------------------------------------------------------

  /** data[max(0, i - w + 1) .. i], the trailing window ending at i. */
  function TrailingWindow(data: seq<real>, i: nat, w: int): (win: seq<real>)
    requires i < |data| && w >= 1
    ensures |win| == MinInt(i + 1, w)
  {
    data[MaxInt(0, i - w + 1)..i + 1]
  }

  /** Element i is the mean of the trailing window ending at i; prefix windows are partial. */
  function Smoothed(data: seq<real>, w: int): (r: seq<real>)
    requires w >= 1
    ensures |r| == |data|
  {
    seq(|data|, i requires 0 <= i < |data| => Mean(TrailingWindow(data, i, w)))
  }

  method MovingAverage(data: seq<real>, windowSize: int) returns (smoothed: seq<real>)
    requires windowSize >= 1
    ensures smoothed == Smoothed(data, windowSize)
  {
    smoothed := [];
    var i := 0;
    while i < |data|
      invariant 0 <= i <= |data|
      invariant |smoothed| == i
      invariant forall k :: 0 <= k < i ==> smoothed[k] == Mean(TrailingWindow(data, k, windowSize))
    {
      var start := MaxInt(0, i - windowSize + 1);
      var end := i + 1;
      var subset := data[start..end];
      var avg := Sum(subset) / |subset| as real;
      smoothed := smoothed + [avg];
      i := i + 1;
    }
  }

  /** Each smoothed value lies between the least and the greatest sample of its window. */
  lemma SmoothedWithinWindow(data: seq<real>, w: int, i: nat)
    requires w >= 1 && i < |data|
    ensures SeqMin(TrailingWindow(data, i, w)) <= Smoothed(data, w)[i]
    ensures Smoothed(data, w)[i] <= SeqMax(TrailingWindow(data, i, w))
  {
    var win := TrailingWindow(data, i, w);
    MeanBounds(win, SeqMin(win), SeqMax(win));
  }

  /** A window of one sample leaves the signal unchanged. */
  lemma SmoothedByOneIsIdentity(data: seq<real>)
    ensures Smoothed(data, 1) == data
  {
    forall i | 0 <= i < |data|
      ensures Smoothed(data, 1)[i] == data[i]
    {
      var win := TrailingWindow(data, i, 1);
      assert win == [data[i]];
      assert Sum(win) == Sum([]) + data[i];
    }
  }

  // ---------------------------------------------------------------------------
  // 4. Frequency-domain heart rate (signalProcessing.ts `calculateBPMFromSpectrum`).
  // ---------------------------------------------------------------------------

  /** The phase 2 pi (bpm / 60) (n / fps) of sample n at a candidate rate. */
  function Angle(m: MathLib, bpm: int, n: nat, fps: nat): real
    requires fps > 0
  {
    2.0 * m.pi * (bpm as real / 60.0) * (n as real / fps as real)
  }

  /** The cosine accumulator `sumCos` after all samples of x. */
  function CosSum(x: seq<real>, m: MathLib, bpm: int, fps: nat): real
    requires fps > 0
    decreases |x|
  {
    if |x| == 0 then 0.0
    else CosSum(x[..|x| - 1], m, bpm, fps) + x[|x| - 1] * m.cos(Angle(m, bpm, |x| - 1, fps))
  }

  /** The sine accumulator `sumSin` after all samples of x. */
  function SinSum(x: seq<real>, m: MathLib, bpm: int, fps: nat): real
    requires fps > 0
    decreases |x|
  {
    if |x| == 0 then 0.0
    else SinSum(x[..|x| - 1], m, bpm, fps) + x[|x| - 1] * m.sin(Angle(m, bpm, |x| - 1, fps))
  }

  /** The correlation energy of x at a candidate rate: a sum of two squares. */
  function Power(x: seq<real>, m: MathLib, bpm: int, fps: nat): (p: real)
    requires fps > 0
    ensures p >= 0.0
  {
    var c := CosSum(x, m, bpm, fps);
    var s := SinSum(x, m, bpm, fps);
    c * c + s * s
  }

  /** The detrended, windowed signal the scan works on. */
  function CleanSignal(raw: seq<real>, m: MathLib): seq<real>
    requires |raw| != 1
  {
    ApplyHammingWindow(Detrend(raw), m)
  }

  /**
   * The rest of the scan from candidate `bpm`, with the best power so far and its rate:
   * a candidate replaces the best only with strictly greater power.
   */
  function ScanFrom(x: seq<real>, m: MathLib, fps: nat, bpm: int, maxPower: real, dominant: int): int
    requires fps > 0
    requires MinBpm <= bpm <= MaxBpm + 1
    decreases MaxBpm + 1 - bpm
  {
    if bpm > MaxBpm then dominant
    else
      var p := Power(x, m, bpm, fps);
      if p > maxPower then ScanFrom(x, m, fps, bpm + 1, p, bpm)
      else ScanFrom(x, m, fps, bpm + 1, maxPower, dominant)
  }

  /** The heart rate the source returns for a raw signal sampled at fps frames per second. */
  function DominantBpm(raw: seq<real>, fps: nat, m: MathLib): (r: int)
    requires fps > 0
    ensures |raw| < 2 * fps ==> r == 0
    ensures r == 0 || MinBpm <= r <= MaxBpm
  {
    if |raw| < fps * 2 then 0
    else
      ScanFromFindsFirstMax(CleanSignal(raw, m), m, fps, MinBpm, 0.0, 0);
      ScanFrom(CleanSignal(raw, m), m, fps, MinBpm, 0.0, 0)
  }

  /**
   * b is the first strict maximum of the power over the candidates 45..180, or 0 when no
   * candidate has positive power.
   */
  ghost predicate IsFirstMax(x: seq<real>, m: MathLib, fps: nat, b: int)
    requires fps > 0
  {
    (b == 0 && forall c :: MinBpm <= c <= MaxBpm ==> Power(x, m, c, fps) <= 0.0)
    || (MinBpm <= b <= MaxBpm && Power(x, m, b, fps) > 0.0
        && (forall c :: MinBpm <= c < b ==> Power(x, m, c, fps) < Power(x, m, b, fps))
        && (forall c :: b < c <= MaxBpm ==> Power(x, m, c, fps) <= Power(x, m, b, fps)))
  }

  /** What `maxPower` and `dominantBPM` say about the candidates already scanned. */
  ghost predicate ScanInvariant(x: seq<real>, m: MathLib, fps: nat, bpm: int, maxPower: real, dominant: int)
    requires fps > 0
  {
    (dominant == 0 && maxPower == 0.0 && forall c :: MinBpm <= c < bpm ==> Power(x, m, c, fps) <= 0.0)
    || (MinBpm <= dominant < bpm && maxPower == Power(x, m, dominant, fps) && maxPower > 0.0
        && (forall c :: MinBpm <= c < dominant ==> Power(x, m, c, fps) < maxPower)
        && (forall c :: dominant < c < bpm ==> Power(x, m, c, fps) <= maxPower))
  }

  lemma {:induction false} ScanFromFindsFirstMax(x: seq<real>, m: MathLib, fps: nat, bpm: int, maxPower: real, dominant: int)
    requires fps > 0
    requires MinBpm <= bpm <= MaxBpm + 1
    requires ScanInvariant(x, m, fps, bpm, maxPower, dominant)
    ensures IsFirstMax(x, m, fps, ScanFrom(x, m, fps, bpm, maxPower, dominant))
    decreases MaxBpm + 1 - bpm
  {
    if bpm <= MaxBpm {
      var p := Power(x, m, bpm, fps);
      if p > maxPower {
        ScanFromFindsFirstMax(x, m, fps, bpm + 1, p, bpm);
      } else {
        ScanFromFindsFirstMax(x, m, fps, bpm + 1, maxPower, dominant);
      }
    }
  }

  /**
   * Once the signal is long enough, the estimate is the first candidate of maximal power,
   * and it is 0 exactly when every candidate's power is at most 0 (since `maxPower` starts
   * at 0 and a candidate must beat it strictly).
   */
  lemma DominantBpmIsFirstMax(raw: seq<real>, fps: nat, m: MathLib)
    requires fps > 0
    requires |raw| >= 2 * fps
    ensures IsFirstMax(CleanSignal(raw, m), m, fps, DominantBpm(raw, fps, m))
    ensures DominantBpm(raw, fps, m) == 0
        <==> forall c :: MinBpm <= c <= MaxBpm ==> Power(CleanSignal(raw, m), m, c, fps) <= 0.0
  {
    var x := CleanSignal(raw, m);
    ScanFromFindsFirstMax(x, m, fps, MinBpm, 0.0, 0);
    var b := DominantBpm(raw, fps, m);
    if b != 0 {
      assert Power(x, m, b, fps) > 0.0;
    }
  }

  /** Adding a constant brightness to every sample does not change the estimate. */
  lemma DominantBpmIgnoresOffset(raw: seq<real>, fps: nat, m: MathLib, c: real)
    requires fps > 0
    ensures DominantBpm(Offset(raw, c), fps, m) == DominantBpm(raw, fps, m)
  {
    DetrendRemovesOffset(raw, c);
  }

  method CalculateBpmFromSpectrum(rawSignal: seq<real>, fps: nat, m: MathLib) returns (dominantBpm: int)
    requires fps > 0
    ensures dominantBpm == DominantBpm(rawSignal, fps, m)
    ensures dominantBpm == 0 || MinBpm <= dominantBpm <= MaxBpm
  {
    if |rawSignal| < fps * 2 {
      return 0;
    }
    var cleanSignal := Detrend(rawSignal);
    cleanSignal := ApplyHammingWindow(cleanSignal, m);

    var maxPower := 0.0;
    dominantBpm := 0;
    var bpm := MinBpm;
    while bpm <= MaxBpm
      invariant MinBpm <= bpm <= MaxBpm + 1
      invariant ScanFrom(cleanSignal, m, fps, bpm, maxPower, dominantBpm) == DominantBpm(rawSignal, fps, m)
      decreases MaxBpm + 1 - bpm
    {
      var power := CandidatePower(cleanSignal, m, bpm, fps);
      if power > maxPower {
        maxPower := power;
        dominantBpm := bpm;
      }
      bpm := bpm + 1;
    }
  }

  /** The inner loop of the scan: the quadrature sums at one candidate rate, then their power. */
  method CandidatePower(cleanSignal: seq<real>, m: MathLib, bpm: int, fps: nat) returns (power: real)
    requires fps > 0
    ensures power == Power(cleanSignal, m, bpm, fps)
  {
    var sumCos := 0.0;
    var sumSin := 0.0;
    var n := 0;
    while n < |cleanSignal|
      invariant 0 <= n <= |cleanSignal|
      invariant sumCos == CosSum(cleanSignal[..n], m, bpm, fps)
      invariant sumSin == SinSum(cleanSignal[..n], m, bpm, fps)
    {
      var angle := Angle(m, bpm, n, fps);
      assert cleanSignal[..n + 1][..n] == cleanSignal[..n];
      sumCos := sumCos + cleanSignal[n] * m.cos(angle);
      sumSin := sumSin + cleanSignal[n] * m.sin(angle);
      n := n + 1;
    }
    assert cleanSignal[..n] == cleanSignal;
    power := sumCos * sumCos + sumSin * sumSin;
  }

  // ---------------------------------------------------------------------------
  // 5. HRV proxy (signalProcessing.ts `calculateHRVProxy`).
  // ---------------------------------------------------------------------------

  /** The sum of squared successive differences, the accumulator `sumDiffSq`. */
  function DiffSqSum(s: seq<real>): real
    decreases |s|
  {
    if |s| < 2 then 0.0
    else
      var d := s[|s| - 1] - s[|s| - 2];
      DiffSqSum(s[..|s| - 1]) + d * d
  }

  lemma {:induction false} DiffSqSumNonNegative(s: seq<real>)
    ensures DiffSqSum(s) >= 0.0
    decreases |s|
  {
    if |s| >= 2 {
      DiffSqSumNonNegative(s[..|s| - 1]);
    }
  }

  lemma {:induction false} DiffSqSumOfConstant(s: seq<real>)
    requires Constant(s)
    ensures DiffSqSum(s) == 0.0
    decreases |s|
  {
    if |s| >= 2 {
      var p := s[..|s| - 1];
      assert Constant(p);
      DiffSqSumOfConstant(p);
    }
  }

  /**
   * The RMSSD proxy: root-mean-square successive difference of the detrended signal,
   * times 50, rounded, at most 100; 0 for fewer than 10 samples.
   */
  function HrvProxy(signal: seq<real>, m: MathLib): (r: int)
    ensures |signal| < MinEstimateLength ==> r == 0
    ensures r <= 100
    ensures SqrtFacts(m) ==> 0 <= r
  {
    if |signal| < MinEstimateLength then 0
    else
      var clean := Detrend(signal);
      DiffSqSumNonNegative(clean);
      var rmssd := m.sqrt(DiffSqSum(clean) / (|clean| - 1) as real);
      MinInt(100, Round(rmssd * HrvScale))
  }

  /** A constant signal has no variability. */
  lemma HrvOfConstant(signal: seq<real>, m: MathLib)
    requires SqrtFacts(m)
    requires Constant(signal)
    ensures HrvProxy(signal, m) == 0
  {
    if |signal| >= MinEstimateLength {
      var clean := Detrend(signal);
      assert Constant(clean);
      DiffSqSumOfConstant(clean);
      assert DiffSqSum(clean) / (|clean| - 1) as real == 0.0;
    }
  }

  /** Adding a constant brightness to every sample does not change the HRV proxy. */
  lemma HrvIgnoresOffset(signal: seq<real>, m: MathLib, c: real)
    ensures HrvProxy(Offset(signal, c), m) == HrvProxy(signal, m)
  {
    DetrendRemovesOffset(signal, c);
  }

  method CalculateHrvProxy(signal: seq<real>, m: MathLib) returns (hrv: int)
    ensures hrv == HrvProxy(signal, m)
  {
    if |signal| < MinEstimateLength {
      return 0;
    }
    var clean := Detrend(signal);
    var sumDiffSq := 0.0;
    var i := 1;
    while i < |clean|
      invariant 1 <= i <= |clean|
      invariant sumDiffSq == DiffSqSum(clean[..i])
    {
      assert clean[..i + 1][..i] == clean[..i];
      var diff := clean[i] - clean[i - 1];
      sumDiffSq := sumDiffSq + diff * diff;
      i := i + 1;
    }
    assert clean[..i] == clean;
    var rmssd := m.sqrt(sumDiffSq / (|clean| - 1) as real);
    hrv := MinInt(100, Round(rmssd * HrvScale));
  }

  // ---------------------------------------------------------------------------
  // 6. Signal quality (signalProcessing.ts `getSignalQuality`).
  // ---------------------------------------------------------------------------

  /** A frame-to-frame change of more than 15 intensity units. */
  predicate IsArtifact(previous: real, current: real)
  {
    Abs(current - previous) > ArtifactThreshold
  }

  /** The number of indices i >= 1 with |raw[i] - raw[i-1]| > 15. */
  function ArtifactCount(raw: seq<real>): (k: nat)
    ensures |raw| > 0 ==> k <= |raw| - 1
    ensures |raw| <= 1 ==> k == 0
    decreases |raw|
  {
    if |raw| < 2 then 0
    else ArtifactCount(raw[..|raw| - 1]) + (if IsArtifact(raw[|raw| - 2], raw[|raw| - 1]) then 1 else 0)
  }

  /** 100 for short inputs, otherwise max(0, 100 - 20 * artifacts). */
  function Quality(raw: seq<real>): (q: int)
    ensures 0 <= q <= 100
    ensures q % ArtifactPenalty == 0
    ensures q == 100 <==> |raw| < MinEstimateLength || ArtifactCount(raw) == 0
    ensures q == 0 <==> |raw| >= MinEstimateLength && ArtifactCount(raw) >= 5
  {
    if |raw| < MinEstimateLength then 100
    else MaxInt(0, 100 - ArtifactCount(raw) * ArtifactPenalty)
  }

  lemma {:induction false} ConstantHasNoArtifacts(raw: seq<real>)
    requires Constant(raw)
    ensures ArtifactCount(raw) == 0
    decreases |raw|
  {
    if |raw| >= 2 {
      var p := raw[..|raw| - 1];
      assert Constant(p);
      ConstantHasNoArtifacts(p);
    }
  }

  /** A constant signal is of full quality. */
  lemma QualityOfConstant(raw: seq<real>)
    requires Constant(raw)
    ensures Quality(raw) == 100
  {
    ConstantHasNoArtifacts(raw);
  }

  /** More artifacts never give a better score. */
  lemma QualityAntitone(a: seq<real>, b: seq<real>)
    requires |a| >= MinEstimateLength && |b| >= MinEstimateLength
    requires ArtifactCount(a) <= ArtifactCount(b)
    ensures Quality(b) <= Quality(a)
  {
  }

  lemma {:induction false} ArtifactCountIgnoresOffset(raw: seq<real>, c: real)
    ensures ArtifactCount(Offset(raw, c)) == ArtifactCount(raw)
    decreases |raw|
  {
    if |raw| >= 2 {
      var n := |raw| - 1;
      assert Offset(raw, c)[..n] == Offset(raw[..n], c);
      ArtifactCountIgnoresOffset(raw[..n], c);
      assert (raw[n] - c) - (raw[n - 1] - c) == raw[n] - raw[n - 1];
    }
  }

  /** Adding a constant brightness to every sample does not change the quality. */
  lemma QualityIgnoresOffset(raw: seq<real>, c: real)
    ensures Quality(Offset(raw, c)) == Quality(raw)
  {
    ArtifactCountIgnoresOffset(raw, c);
  }

  method GetSignalQuality(raw: seq<real>) returns (quality: int)
    ensures quality == Quality(raw)
  {
    if |raw| < MinEstimateLength {
      return 100;
    }
    var artifacts := 0;
    var i := 1;
    while i < |raw|
      invariant 1 <= i <= |raw|
      invariant artifacts == ArtifactCount(raw[..i])
    {
      assert raw[..i + 1][..i] == raw[..i];
      if Abs(raw[i] - raw[i - 1]) > ArtifactThreshold {
        artifacts := artifacts + 1;
      }
      i := i + 1;
    }
    assert raw[..i] == raw;
    quality := MaxInt(0, 100 - artifacts * ArtifactPenalty);
  }
}
