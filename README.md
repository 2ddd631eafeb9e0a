# rPPG vital-signs pipeline, modelled in Dafny

This project models the estimation core of a camera-based vital-signs scanner (remote
photoplethysmography, rPPG). Each video frame gives one brightness sample: the mean green
value of a 16 x 16 forehead region. Samples go into a rolling buffer of 450. On every fifth
buffer length a processing pass runs. It updates a smoothed signal quality, a smoothed heart
rate and a display waveform. After 25 seconds the scan ends with a final heart rate, a
respiratory-rate estimate, an HRV proxy and a confidence score.

Files:

- `js_math.dfy` (`JsMath`): `Math.round` and `Math.ceil`, done exactly, plus min, max and abs.
  `Math.PI`, `Math.cos`, `Math.sin` and `Math.sqrt` are passed around as an uninterpreted
  record `MathLib`. Only the facts a contract needs are assumed about them: `SqrtFacts`
  (sqrt(0) = 0, sqrt is non-negative on non-negative inputs) and `CosBounded` (cos in [-1, 1]).
- `signal_processing.dfy` (`SignalProcessing`): `detrend`, `applyHammingWindow`,
  `movingAverage`, `calculateBPMFromSpectrum`, `calculateHRVProxy` and `getSignalQuality`.
  A pure function states what each one computes. Where the source loops, a method keeps
  the source's loop and is proved equal to that function.
- `types.dfy` (`Types`): the `VitalsResult` record.
- `vitals_scanner.dfy` (`VitalsScanner`): the scanner component. The frame callback, the
  processing pass, the timer tick and `finishScan` are methods of the class `Session`. Its
  fields are the component's state and refs. A ghost `history` of every sample pushed makes
  the FIFO property an invariant: `buffer == Last(history, 450)`.
- `wrappers.dfy` (`Wrappers`): `Option`.

`detrend([])` returns `[]` (a map over nothing never uses the NaN mean), so `Detrend` has no
precondition.

## Model

| member | source | states |
|---|---|---|
| JsMath.Round | utils/signalProcessing.ts:87 | `Math.round` returns the integer within half a unit of x, rounding halves up (x - 0.5 < r <= x + 0.5) |
| JsMath.Ceil | components/VitalsScanner.tsx:176 | `Math.ceil` returns the least integer not below x |
| SignalProcessing.Sum | utils/signalProcessing.ts:11 | the left fold `reduce((a, b) => a + b, 0)` |
| SignalProcessing.Mean | utils/signalProcessing.ts:29 | the fold divided by the length, as in `reduce(...) / length` at lines 11 and 29 |
| SignalProcessing.HammingWeight | utils/signalProcessing.ts:18 | the weight 0.54 - 0.46 cos(2 pi i / (n - 1)) |
| SignalProcessing.Angle | utils/signalProcessing.ts:57 | the phase 2 pi (bpm / 60) (n / fps) |
| SignalProcessing.CosSum | utils/signalProcessing.ts:53-60 | the `sumCos` accumulator over the samples in order |
| SignalProcessing.SinSum | utils/signalProcessing.ts:54-60 | the `sumSin` accumulator over the samples in order |
| SignalProcessing.CleanSignal | utils/signalProcessing.ts:41-42 | detrend, then the Hamming window |
| SignalProcessing.ScanFrom | utils/signalProcessing.ts:46-69 | the candidate loop from `bpm`: a candidate replaces the best only with strictly greater power, starting from `maxPower = 0` |
| SignalProcessing.DiffSqSum | utils/signalProcessing.ts:80-84 | the `sumDiffSq` accumulator of squared successive differences |
| SignalProcessing.IsArtifact | utils/signalProcessing.ts:97 | a jump `Math.abs(raw[i] - raw[i-1]) > 15` |
| VitalsScanner.RoiStart | components/VitalsScanner.tsx:62-67 | the floored corner `Math.floor(landmark * size - 16 / 2)` in each axis |
| JsMath.Abs | utils/signalProcessing.ts:97 | `Math.abs` |
| JsMath.MinInt | utils/signalProcessing.ts:87 | `Math.min` on integers |
| JsMath.MaxInt | utils/signalProcessing.ts:102 | `Math.max` on integers, also at line 26 |
| JsMath.MaxReal | components/VitalsScanner.tsx:173 | `Math.max` on reals |
| SignalProcessing.Detrend | utils/signalProcessing.ts:10-13 | length is preserved; the output sums to exactly 0 and, when non-empty, has mean 0 |
| SignalProcessing.DetrendAt | utils/signalProcessing.ts:11-12 | output element i is input element i minus the input mean |
| SignalProcessing.DetrendRemovesOffset | utils/signalProcessing.ts:10-13 | adding a constant to every sample does not change the detrended signal |
| SignalProcessing.ApplyHammingWindow | utils/signalProcessing.ts:16-20 | length is preserved; element i is defined as data[i] times 0.54 - 0.46 cos(2 pi i / (n - 1)) |
| SignalProcessing.HammingAttenuates | utils/signalProcessing.ts:17-19 | if cos lies in [-1, 1], every weight lies in [0.08, 1]; no sample grows in magnitude or changes sign |
| SignalProcessing.TrailingWindow | utils/signalProcessing.ts:26-28 | the window ending at i has min(i + 1, w) samples |
| SignalProcessing.Smoothed | utils/signalProcessing.ts:23-33 | output length equals input length; element i is defined as the mean of `TrailingWindow` at i |
| SignalProcessing.MovingAverage | utils/signalProcessing.ts:23-33 | the loop that pushes one subset mean per index returns exactly `Smoothed(data, w)` |
| SignalProcessing.SmoothedWithinWindow | utils/signalProcessing.ts:26-30 | each smoothed value lies between the minimum and the maximum of its window |
| SignalProcessing.SmoothedByOneIsIdentity | utils/signalProcessing.ts:23-33 | a window size of 1 returns the input unchanged |
| SignalProcessing.Power | utils/signalProcessing.ts:63 | the power at a candidate rate, sumCos^2 + sumSin^2, is never negative |
| SignalProcessing.DominantBpm | utils/signalProcessing.ts:37-72 | 0 when there are fewer than 2 * fps samples; otherwise 0 or a rate in [45, 180] |
| SignalProcessing.ScanFromFindsFirstMax | utils/signalProcessing.ts:46-69 | a scan that starts from a state meeting the scan invariant ends at the first strict maximum of the power, or at 0 |
| SignalProcessing.DominantBpmIsFirstMax | utils/signalProcessing.ts:44-69 | with enough samples the result has positive power, strictly more than every lower candidate and at least every higher one; it is 0 iff every candidate's power is <= 0 |
| SignalProcessing.DominantBpmIgnoresOffset | utils/signalProcessing.ts:41-42 | adding a constant brightness to every sample does not change the estimate |
| SignalProcessing.CalculateBpmFromSpectrum | utils/signalProcessing.ts:37-72 | the nested-loop scan returns exactly `DominantBpm`, so 0 or a rate in [45, 180] |
| SignalProcessing.CandidatePower | utils/signalProcessing.ts:52-63 | the inner loop's sumCos and sumSin give exactly `Power` at that candidate |
| SignalProcessing.DiffSqSumNonNegative | utils/signalProcessing.ts:80-84 | the sum of squared successive differences is never negative |
| SignalProcessing.DiffSqSumOfConstant | utils/signalProcessing.ts:80-84 | that sum is 0 for a constant signal |
| SignalProcessing.HrvProxy | utils/signalProcessing.ts:76-88 | 0 below 10 samples; never above 100; never negative when sqrt is non-negative |
| SignalProcessing.HrvOfConstant | utils/signalProcessing.ts:76-88 | a constant signal yields an HRV proxy of 0 |
| SignalProcessing.HrvIgnoresOffset | utils/signalProcessing.ts:76-88 | adding a constant to every sample does not change the HRV proxy |
| SignalProcessing.CalculateHrvProxy | utils/signalProcessing.ts:76-88 | the loop accumulating `sumDiffSq` returns exactly `HrvProxy` |
| SignalProcessing.ArtifactCount | utils/signalProcessing.ts:95-100 | the count of adjacent jumps greater than 15 is at most length - 1, and 0 for at most one sample |
| SignalProcessing.Quality | utils/signalProcessing.ts:91-104 | in [0, 100] and a multiple of 20; 100 iff short or artifact-free; 0 iff at least 10 samples and at least 5 artifacts |
| SignalProcessing.ConstantHasNoArtifacts | utils/signalProcessing.ts:96-100 | a constant signal has no artifacts |
| SignalProcessing.QualityOfConstant | utils/signalProcessing.ts:91-104 | a constant signal has quality exactly 100 |
| SignalProcessing.QualityAntitone | utils/signalProcessing.ts:102 | for inputs of at least 10 samples, more artifacts never give a higher quality |
| SignalProcessing.ArtifactCountIgnoresOffset | utils/signalProcessing.ts:96-100 | adding a constant to every sample does not change the artifact count |
| SignalProcessing.QualityIgnoresOffset | utils/signalProcessing.ts:91-104 | adding a constant to every sample does not change the quality |
| SignalProcessing.GetSignalQuality | utils/signalProcessing.ts:91-104 | the loop counting artifacts returns exactly `Quality` |
| VitalsScanner.Last | components/VitalsScanner.tsx:103 | `slice(-n)` has min(length, n) elements, and they are the input's suffix |
| VitalsScanner.LastAppend | components/VitalsScanner.tsx:85-90 | push, then shift beyond n, keeps the last n samples of the whole history |
| VitalsScanner.RoiOrigin | components/VitalsScanner.tsx:62-69 | there is a region exactly when every pixel of the 16 x 16 box at the floored corner is on the canvas, and its corner is that floored point |
| VitalsScanner.GreenChannel | components/VitalsScanner.tsx:78-81 | one value per RGBA pixel, each in [0, 255] |
| VitalsScanner.GreenChannelAt | components/VitalsScanner.tsx:80 | value k is the byte at offset 4k + 1, the G of pixel k |
| VitalsScanner.GreenChannelBounds | components/VitalsScanner.tsx:78-82 | the mean green value lies in [0, 255] |
| VitalsScanner.SumGreen | components/VitalsScanner.tsx:78-81 | the loop stepping i by 4 returns the sum of the green bytes |
| VitalsScanner.AvgGreen | components/VitalsScanner.tsx:78-82 | `sumGreen / (data.length / 4)` is the mean of the green bytes, in [0, 255] |
| VitalsScanner.FrameSample | components/VitalsScanner.tsx:44-82 | a frame yields a sample iff it has a face, a context and a region on the canvas; that sample lies in [0, 255] |
| VitalsScanner.SmoothQuality | components/VitalsScanner.tsx:105 | 0.8 prev + 0.2 q lies between prev and q, so it stays in [0, 100] |
| VitalsScanner.SmoothBpm | components/VitalsScanner.tsx:124 | the first estimate is taken verbatim; later ones land between the previous and the new rate, and stay in [45, 180] |
| VitalsScanner.NextDisplayBpm | components/VitalsScanner.tsx:120-126 | the displayed rate changes only when the window has more than 120 samples and the estimate is positive; once non-zero it stays in [45, 180] |
| VitalsScanner.Process | components/VitalsScanner.tsx:98-127 | one pass changes nothing below 60 samples; it keeps quality in [0, 100] and the rate at 0 or in [45, 180]; it changes the rate only when the analysis window exceeds 120; the waveform has min(length, 90) points |
| VitalsScanner.ProcessPass | components/VitalsScanner.tsx:102-126 | the pass's computation, calling the signal-processing methods, returns exactly `Process` |
| VitalsScanner.TickClock | components/VitalsScanner.tsx:172-176 | remaining = max(0, 25 - elapsed) lies in [0, 25] and is <= 0 iff elapsed >= 25; progress is 4 * elapsed capped at 100; timeLeft = ceil(remaining) |
| VitalsScanner.ClampBpm | components/VitalsScanner.tsx:199 | a rate in [45, 180] is kept and any other becomes 75 |
| VitalsScanner.FinalHeartRate | components/VitalsScanner.tsx:193-199 | the final rate lies in [45, 180]; with at most 300 samples it is the displayed rate clamped |
| VitalsScanner.FinalHeartRateFromSpectrum | components/VitalsScanner.tsx:193-199 | with more than 300 samples it is the estimate over the last 450, or 75 exactly when no candidate there has positive power |
| VitalsScanner.RespiratoryRate | components/VitalsScanner.tsx:207 | round(hr / 4) lies within two beats of hr / 4 and, for hr in [45, 180], in [11, 45] |
| VitalsScanner.FinalResult | components/VitalsScanner.tsx:188-216 | heart rate in [45, 180]; respiratory rate round(hr / 4) in [11, 45]; HRV over the last 150 samples in [0, 100]; confidence = round(quality); timestamp passed through |
| VitalsScanner.Session.constructor | components/VitalsScanner.tsx:27-38 | a session starts empty, with quality 100, rate 0, 25 seconds left and not ready |
| VitalsScanner.Session.ProcessSignal | components/VitalsScanner.tsx:98-127 | the estimates become `Process` of the old estimates over the buffer; nothing else changes; the session stays valid |
| VitalsScanner.Session.SetEstimates | components/VitalsScanner.tsx:105-124 | the three state setters replace quality, rate and waveform and nothing else |
| VitalsScanner.Session.PushSample | components/VitalsScanner.tsx:85-90 | after push and shift, the buffer is the last 450 samples ever pushed, in arrival order |
| VitalsScanner.Session.Ingest | components/VitalsScanner.tsx:85-95 | one pass runs exactly when the new length is a multiple of 5, so on every sample once the buffer is full |
| VitalsScanner.Session.OnResults | components/VitalsScanner.tsx:44-96 | no face sets quality to 0 and leaves the buffer alone; a region off the canvas or a missing context leaves buffer and estimates alone; otherwise the frame's sample is ingested |
| VitalsScanner.Session.FinishScan | components/VitalsScanner.tsx:188-216 | returns `FinalResult` of the session, so heart rate in [45, 180], HRV and confidence in [0, 100] |
| VitalsScanner.Session.SetClock | components/VitalsScanner.tsx:176-177 | `setTimeLeft` and `setProgress` change only those two fields |
| VitalsScanner.Session.ClearTimer | components/VitalsScanner.tsx:180 | `clearInterval` marks the timer cleared and changes nothing else |
| VitalsScanner.Session.Tick | components/VitalsScanner.tsx:171-183 | a running tick sets progress and timeLeft from `TickClock`; when no time is left it clears the timer and then yields `FinalResult`; otherwise no result; a cleared or not-ready timer does nothing |

## Left out

- Camera, MediaPipe FaceMesh, `drawImage` and `getImageData` (components/VitalsScanner.tsx:130-163, 72-73) are browser APIs. Their output is the input `Frame`: the landmark, the canvas size and the 1024 RGBA bytes of the region.
- React hooks are replaced by explicit fields and methods: `useState`, `useRef`, `useEffect`, `setInterval` and `Date.now`. The tick takes the elapsed seconds as an input. Stale closures are not modelled. The timer effect depends on `isReady` and `displayBPM` (components/VitalsScanner.tsx:186), so its interval is rebuilt on every `displayBPM` change and `finishScan` sees the current `displayBPM`. It does not depend on `signalQuality`: the `signalQuality` that `finishScan` rounds into `confidence` is the value from the last effect re-run, which can be seconds old by the end of the scan. `FinishScan` reads the session's current quality instead. The interval restart itself is not modelled either.
- Floating point is not modelled. Arithmetic is over exact reals, so there is no NaN, no infinity, no -0 and no rounding error. `Math.PI`, `Math.cos`, `Math.sin` and `Math.sqrt` are uninterpreted.
- The waveform chart normalisation (components/VitalsScanner.tsx:114-116) is display-only. The model keeps the smoothed waveform before scaling.
- App.tsx, components/ResultCard.tsx and services/geminiService.ts are not part of this model: screen switching, rendering and a remote text-generation call. Neither is the cancel button of the scanner's markup.
- ApplyHammingWindow: requires a length other than 1, because a single sample divides 0 by 0 (NaN in the source).
- MovingAverage: requires a window size of at least 1, because a smaller window gives empty subsets and 0/0 averages. The source only passes 4.
- CalculateBpmFromSpectrum: requires fps > 0. The source only passes 30.
- TickClock: requires elapsed >= 0; the model assumes the wall clock does not move back during a scan. `Date.now()` is wall-clock time and can go back when the system clock is adjusted; with elapsed = -1 the source would show `timeLeft` 26 and progress -4, outside the bounds `Session.Valid` keeps.
- HrvProxy: its lower bound of 0 holds only when `Math.sqrt` is non-negative (`SqrtFacts`), which a `Session` carries in its invariant.
- HammingAttenuates: holds only when `Math.cos` stays in [-1, 1] (`CosBounded`).
- AvgGreen: divides by the integer `|data| / 4`. Where the source divides `data.length / 4` as a float, the two agree because the length is a multiple of 4.
