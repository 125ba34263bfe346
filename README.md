# FFTAnalyzer model

A Dafny model of the analysis core of pipespectrum. pipespectrum is a real-time audio
spectrum meter. Its `FFTAnalyzer` takes interleaved stereo float samples and averages each
pair to mono. It appends the mono values to a fixed analysis window of `fftSize` samples.
Each time the window fills, the analyzer:

- multiplies it by a Hann window, in place;
- runs a real-to-complex FFT;
- averages bin magnitudes into `numBands` bands spaced logarithmically between `minFreq`
  and `maxFreq`;
- weights, converts to dB, maps onto [0,1] and noise-gates each band;
- blends the bands exponentially into a smoothing accumulator;
- moves the second half of the (windowed) buffer to the front and sets the cursor to
  `fftSize/2` (overlap-advance).

Once per rendered frame, a peak-hold row rises to the band levels at once and otherwise
falls linearly, never below 0.

The project has one module per concern:

- `Numerics` (numerics.dfy): the library maths and the FFT plan, which are uninterpreted
  (`Maths`, `Dft`), plus the C++ float-to-int cast (`TruncateToInt`).
- `Settings` (settings.dfy): the constructor's configuration, and the conditions its
  arithmetic needs (`WellFormed`).
- `BandMapper` (band_mapper.dfy): bin indexing, the weighting curve, band edges, the bin
  range each band reads, dB normalisation, the noise gate, and smoothing, all as functions.
- `PeakTracker` (peak_tracker.dfy): the per-band peak-hold state machine, and the decay
  the render loop feeds it.
- `Pipeline` (pipeline.dfy): the ingest and analysis state as a value, `Analysis`.
  `Step` handles one stereo pair, `Transform` one full window, and `IngestPairs` a whole
  chunk. This module also holds the lemmas about cursor arithmetic, overlap-advance and
  level bounds.
- `Analyzer` (fft_analyzer.dfy): the class `FFTAnalyzer`. The configuration is `const`
  fields. The buffers are arrays, and the cursor is a mutable field. Each method is
  proved to leave the object in the state that the `Pipeline` or `PeakTracker` function
  describes.

Some loop bodies of `process` and `calculateBands` are separate methods:

- `IngestMono` is one pair of `process`;
- `AnalyzeFullWindow` is its full-window branch;
- `MapBands`, `SumBins` and `SmoothBands` are the band loop, the averaging loop and the
  smoothing loop of `calculateBands`.

Each of these methods keeps the statements of the source in the same order.

The Hann coefficients depend on an uninterpreted `cos`. The ghost constant `hann` names
them: the constructor fixes `hann == HannWindow(maths, fftSize)`, and the invariant keeps
`windowFunction` equal to it.

Edge cases of the code that the model follows as written:

- **Odd count.** The loop at src/FFTAnalyzer.cpp:43-46 checks only `i < count`, then
  reads `samples[i + 1]`. For an odd `count`, the last pair therefore reads
  `samples[count]`, one past the chunk. `Process` requires that sample to exist and
  ingests `(count + 1) / 2` pairs.
- **No configuration errors.** The constructor does no validation of its own. A negative
  `fftSize` or `numBands` makes the `resize` calls at src/FFTAnalyzer.cpp:12-16 throw
  `std::length_error`; the model does not represent that exception and excludes those
  inputs instead. The settings the constructor's arithmetic needs are preconditions
  (`Settings.WellFormed`):
  - `fftSize >= 2`, because the Hann formula divides by `fftSize - 1`;
  - `sampleRate > 0`, because bins divide by it;
  - `numBands >= 0`, because the vectors are sized with it;
  - `minFreq > 0` and `maxFreq > 0`, because `log10` is taken of both;
  - `minDb != maxDb`, because the dB mapping divides by their difference.

  `minFreq < maxFreq` and a smoothing factor in [0,1) are not demanded, and the code works
  without them. The bound on levels is proved for any smoothing factor in [0,1].
- **Empty band.** A band that maps to no bin gets raw level 0, because line 81 resets the
  bands before the loop. Its exposed level is the smoothed value of lines 143-144, which
  is 0 only because the band's bin range is the same in every analysis: its accumulator
  starts at 0 and every blend keeps it there (`TransformKeepsEmptyBandAtZero`,
  `IngestKeepsEmptyBandAtZero`).
- **Gate before smoothing.** The noise gate (lines 133-135) acts on each band's raw level,
  and the exponential blend (lines 142-144) comes after it. With a positive smoothing
  factor, an analysis in which every band is gated therefore only multiplies each
  exposed level by the factor. After silence the bands decay geometrically, and in real
  arithmetic a band that was above 0 never reaches exactly 0 (`SilentTransformScales`,
  `SilenceNeverReachesZero`).

## Model

| member | source | states |
|---|---|---|
| Numerics.TruncateToInt | src/FFTAnalyzer.cpp:170 | `static_cast<int>` truncates toward zero: for x >= 0 the result r is the whole part (r <= x < r + 1); for x < 0, r - 1 < x <= r |
| Numerics.SquaredMagnitude | src/FFTAnalyzer.cpp:103-105 | the sum of the squared real and imaginary parts is never negative, so `sqrt` is always applied inside its domain |
| BandMapper.FreqToFFTBin | src/FFTAnalyzer.cpp:169-171 | the bin of a frequency is `freq * fftSize / sampleRate` truncated, and it is nonnegative for a nonnegative frequency |
| BandMapper.FreqToFFTBinBrackets | src/FFTAnalyzer.cpp:169-171 | for freq >= 0 the bin b satisfies b * sampleRate <= freq * fftSize < (b + 1) * sampleRate |
| BandMapper.FreqToFFTBinMonotone | src/FFTAnalyzer.cpp:169-171 | a higher nonnegative frequency never maps to a lower bin |
| BandMapper.FrequencyWeight | src/FFTAnalyzer.cpp:173-184 | below 1 kHz the weight starts at exactly 1 at 20 Hz and stays in [1, 1.49) up to 1 kHz |
| BandMapper.LowWeightIncreasing | src/FFTAnalyzer.cpp:176-178 | below 1 kHz the weight rises strictly with frequency |
| BandMapper.BandEdges | src/FFTAnalyzer.cpp:87-93 | both edge frequencies of a band are positive when powers of ten are |
| BandMapper.BandsTileRange | src/FFTAnalyzer.cpp:87-93 | the bands tile the logarithmic axis: the first starts at 10^log10(minFreq), the last ends at 10^log10(maxFreq), and each band's upper edge is the next band's lower edge |
| BandMapper.ReadEnd | src/FFTAnalyzer.cpp:102 | the averaging loop reads exactly the bins from binLow up to the first that is above binHigh or at least fftSize/2: every bin before the end passes the loop guard and the end fails it |
| BandMapper.BinRange | src/FFTAnalyzer.cpp:95-102 | a band's bin range starts at a nonnegative bin, and when nonempty it ends at or below fftSize/2 |
| BandMapper.BinsReadInBounds | src/FFTAnalyzer.cpp:95-108 | every bin a band reads lies in [binLow, min(binHigh, fftSize/2 - 1)]: inside the fftSize/2 + 1 outputs and never the Nyquist bin |
| BandMapper.MagnitudeSumSplit | src/FFTAnalyzer.cpp:99-107 | the summed magnitude of a bin range is the sum over any split into two adjacent ranges |
| BandMapper.MagnitudeSumLocal | src/FFTAnalyzer.cpp:99-107 | the summed magnitude reads only the bins of its range: spectra that agree there give the same sum |
| BandMapper.NormalizeDb | src/FFTAnalyzer.cpp:127-130 | the normalised level always lies in [0,1] |
| BandMapper.NormalizeDbMonotone | src/FFTAnalyzer.cpp:127-130 | with minDb < maxDb, a louder dB value never normalises to a lower level |
| BandMapper.NormalizeDbShape | src/FFTAnalyzer.cpp:127-130 | with minDb < maxDb, values at or below minDb map to 0, values at or above maxDb map to 1, and in between the level times (maxDb - minDb) is db - minDb |
| BandMapper.NoiseGate | src/FFTAnalyzer.cpp:133-135 | the gate either zeroes a level or passes it unchanged, and it passes every level at or above the threshold |
| BandMapper.BandLevel | src/FFTAnalyzer.cpp:110-137 | a band with at least one bin gets a level in [0,1] that is either exactly 0 or at least the noise threshold |
| BandMapper.RawLevel | src/FFTAnalyzer.cpp:81-137 | a band's level before smoothing lies in [0,1], is 0 or at least the noise threshold, and is exactly 0 when its bin range is empty |
| BandMapper.RawLevels | src/FFTAnalyzer.cpp:80-139 | the unsmoothed row has numBands entries, each in [0,1] |
| BandMapper.MagnitudeSumConjugated | src/FFTAnalyzer.cpp:99-107 | conjugating every bin leaves the summed magnitude of any range unchanged |
| BandMapper.RawLevelsIgnoreConjugation | src/FFTAnalyzer.cpp:80-139 | the band levels read only bin magnitudes: conjugating every bin leaves every raw level unchanged |
| BandMapper.Smooth | src/FFTAnalyzer.cpp:142-146 | smoothing keeps the row length |
| BandMapper.SmoothIsConvex | src/FFTAnalyzer.cpp:142-146 | with a factor in [0,1] each smoothed value lies between the previous value and the raw level, so rows in [0,1] stay in [0,1]; factor 0 passes the raw levels through and factor 1 holds the previous ones |
| BandMapper.SilenceScales | src/FFTAnalyzer.cpp:142-144 | blending a gated row only scales each previous value by the smoothing factor, so with a positive factor a positive value stays positive |
| BandMapper.SilentFor | src/FFTAnalyzer.cpp:142-144 | repeated silent blending keeps the row length |
| BandMapper.SilenceNeverReachesZero | src/FFTAnalyzer.cpp:133-144 | with a positive smoothing factor, a band above 0 is still above 0 after any number of silent analyses |
| PeakTracker.DecayAmount | src/SpectrumMeter.cpp:83-84 | the per-frame decay is positive and takes exactly peakFallTime * 60 frames to remove a full-scale peak |
| PeakTracker.PeakNext | src/FFTAnalyzer.cpp:159-165 | a higher level replaces the peak; otherwise the peak never rises, falls by exactly the decay while that stays at or above 0, and is clamped to 0 below it |
| PeakTracker.PeakNextBounds | src/FFTAnalyzer.cpp:159-165 | a nonnegative peak stays nonnegative; a peak in [0,1] stays in [0,1] when the level is at most 1 and the decay is not negative |
| PeakTracker.PeakRow | src/FFTAnalyzer.cpp:158-166 | one frame of peak hold keeps one peak per band |
| PeakTracker.PeakRowBounds | src/FFTAnalyzer.cpp:158-166 | across a frame nonnegative peaks stay nonnegative, and peaks in [0,1] stay in [0,1] when levels are at most 1 and the decay is not negative |
| PeakTracker.LinearFall | src/FFTAnalyzer.cpp:163-164 | over a silent band with decay 1/n a full-scale peak is (n - k)/n after k <= n frames |
| PeakTracker.StaysEmpty | src/FFTAnalyzer.cpp:163-164 | an empty peak over a silent band stays 0 for every later frame |
| PeakTracker.DecayTiming | src/SpectrumMeter.cpp:83-84 | when peakFallTime * 60 is a whole number n of frames, a full-scale peak over a silent band is above 0 after every frame before the n-th, exactly 0 after the n-th, and stays 0 |
| PeakTracker.SteadyLevelLetsPeakFall | src/FFTAnalyzer.cpp:159-164 | only a strictly higher level refreshes a peak: a band held exactly at its peak lets the peak fall below it on the next frame |
| Pipeline.HannWindow | src/FFTAnalyzer.cpp:19-21 | the window has one coefficient per sample of the analysis window |
| Pipeline.Windowed | src/FFTAnalyzer.cpp:72-74 | windowing multiplies each sample by its coefficient and keeps the length |
| Pipeline.ShiftHalf | src/FFTAnalyzer.cpp:63-64 | the overlap-advance keeps the buffer length |
| Pipeline.ShiftHalfMoves | src/FFTAnalyzer.cpp:63-64 | the samples from index fftSize/2 on land at the front in order, and the last fftSize/2 samples keep their old values |
| Pipeline.ShiftWindowed | src/FFTAnalyzer.cpp:59-65 | after windowing and shifting, front slot k holds sample k + fftSize/2 times its window coefficient |
| Pipeline.Spectrum | src/FFTAnalyzer.cpp:24-25 | the transform yields fftSize/2 + 1 bins |
| Pipeline.Transform | src/FFTAnalyzer.cpp:52-66 | a full window leaves every length unchanged, the cursor at fftSize/2, and the exposed bands equal to the smoothing accumulator |
| Pipeline.TransformOverlap | src/FFTAnalyzer.cpp:59-65 | after a transform the cursor is fftSize/2, the spectrum is that of the windowed buffer, and the front of the buffer holds the former second half as windowed values, not raw samples |
| Pipeline.TransformIgnoresSignConvention | src/FFTAnalyzer.cpp:59-60 | a transform with the opposite sign convention, which conjugates every bin, yields the same bands and smoothing accumulator |
| Pipeline.TransformKeepsEmptyBandAtZero | src/FFTAnalyzer.cpp:80-146 | a band whose bin range is empty and whose accumulator is 0 keeps both its accumulator and its exposed level at exactly 0 through an analysis |
| Pipeline.IngestKeepsEmptyBandAtZero | src/FFTAnalyzer.cpp:43-66 | an empty band whose level and accumulator start at 0 reads exactly 0 after any chunk of samples |
| Pipeline.SilentTransformScales | src/FFTAnalyzer.cpp:52-66 | an analysis in which every band is gated leaves each exposed level at the previous smoothed value times the smoothing factor, so with a positive factor no positive level drops to 0 |
| Pipeline.Step | src/FFTAnalyzer.cpp:44-66 | after one pair the cursor is inside the window: it advances by one unless that fills the window, in which case it is fftSize/2 |
| Pipeline.Mono | src/FFTAnalyzer.cpp:46 | the mono value is the average of the pair: twice it is their sum, and it lies between them |
| Pipeline.IngestPairs | src/FFTAnalyzer.cpp:43-67 | ingesting any number of pairs keeps the lengths and keeps the cursor in [0, fftSize) |
| Pipeline.StepAppends | src/FFTAnalyzer.cpp:44-47 | with room for more than one sample, a pair writes its mono value at the cursor, advances the cursor and changes nothing else |
| Pipeline.StepTransformsFullWindow | src/FFTAnalyzer.cpp:44-65 | no pair is dropped: the pair that fills the last slot is transformed in the same step, and its windowed value survives the shift at index fftSize - 1 - fftSize/2 |
| Pipeline.IngestAppends | src/FFTAnalyzer.cpp:43-49 | while the window does not fill, the buffer after k pairs is the old buffer with the k mono values written from the cursor on, and the cursor has advanced by k |
| Pipeline.IngestWithoutTransform | src/FFTAnalyzer.cpp:43-49 | while the window does not fill, pair j lands at index pos + j, the cursor advances by the number of pairs, and every other slot keeps its value |
| Pipeline.IngestWithoutTransformKeepsBands | src/FFTAnalyzer.cpp:43-49 | while the window does not fill, the spectrum, the bands and the smoothing accumulator are unchanged |
| Pipeline.CursorAfter | src/FFTAnalyzer.cpp:44-65 | the closed-form cursor always lies in [0, fftSize) |
| Pipeline.CursorAfterNext | src/FFTAnalyzer.cpp:44-65 | the closed-form cursor moves like the loop's cursor: one more pair advances it by one, or sends it back to fftSize/2 when it would reach fftSize |
| Pipeline.IngestCursor | src/FFTAnalyzer.cpp:43-67 | after k pairs from cursor p the cursor climbs to fftSize and then cycles through [fftSize/2, fftSize) with period fftSize - fftSize/2 |
| Pipeline.TransformKeepsLevelsInUnit | src/FFTAnalyzer.cpp:142-146 | with a smoothing factor in [0,1], one analysis keeps every band and smoothed value in [0,1] |
| Pipeline.StepKeepsLevelsInUnit | src/FFTAnalyzer.cpp:44-66 | with a smoothing factor in [0,1], one pair keeps every band and smoothed value in [0,1] |
| Pipeline.IngestKeepsLevelsInUnit | src/FFTAnalyzer.cpp:43-67 | with a smoothing factor in [0,1], any chunk keeps every band and smoothed value in [0,1] |
| Pipeline.IngestKeepsBandsMirrored | src/FFTAnalyzer.cpp:142-145 | any chunk keeps the exposed bands equal to the smoothing accumulator |
| Analyzer.FFTAnalyzer.constructor | src/FFTAnalyzer.cpp:6-29 | stores the configuration with the header defaults, fills the Hann window, starts the cursor at 0 and every band, peak and smoothed value at 0, and establishes the object invariant |
| Analyzer.FFTAnalyzer.Process | src/FFTAnalyzer.cpp:36-68 | keeps the cursor in [0, fftSize), leaves the state equal to ingesting (count + 1)/2 pairs, keeps levels in [0,1] for a smoothing factor in [0,1], and keeps bands mirroring the accumulator |
| Analyzer.FFTAnalyzer.IngestMono | src/FFTAnalyzer.cpp:44-66 | one iteration of the ingest loop performs exactly one `Step` and keeps the object invariant |
| Analyzer.FFTAnalyzer.AnalyzeFullWindow | src/FFTAnalyzer.cpp:52-66 | the full-window branch performs exactly one `Transform`, leaving the cursor at fftSize/2 |
| Analyzer.FFTAnalyzer.PerformFFT | src/FFTAnalyzer.cpp:70-78 | the buffer becomes its windowed self, in place, and the output holds the spectrum of the windowed buffer |
| Analyzer.FFTAnalyzer.CalculateBands | src/FFTAnalyzer.cpp:80-153 | the accumulator becomes the smoothing of its old value with the raw band levels of the current spectrum, and the bands equal it |
| Analyzer.FFTAnalyzer.MapBands | src/FFTAnalyzer.cpp:81-139 | after the reset and the band loop, every band holds its raw level for the current spectrum |
| Analyzer.FFTAnalyzer.SumBins | src/FFTAnalyzer.cpp:99-108 | the averaging loop counts exactly the bins in the band's read range and sums their magnitudes in ascending order |
| Analyzer.FFTAnalyzer.SmoothBands | src/FFTAnalyzer.cpp:142-146 | the accumulator becomes the smoothing of its old value with the old band levels, and the bands equal it |
| Analyzer.FFTAnalyzer.UpdatePeaks | src/FFTAnalyzer.cpp:155-167 | each peak takes one step of the peak-hold machine; nonnegative peaks stay nonnegative, peaks in [0,1] stay in [0,1] when bands are at most 1 and the decay is not negative; bands are not modified; the object invariant is kept |
| Analyzer.FFTAnalyzer.GetBands | include/FFTAnalyzer.h:16 | returns the current numBands band levels and changes nothing |
| Analyzer.FFTAnalyzer.GetPeaks | include/FFTAnalyzer.h:17 | returns the current numBands peak levels and changes nothing |

## Left out

- The FFTW plan, execution and release (src/FFTAnalyzer.cpp:24-25, 32-34, 77) belong to a foreign library. The transform is a parameter, `Dft`, mapping the window and a bin index to that bin's complex value; nothing is claimed about its values.
- `cos`, `log10`, `pow`, `sqrt` and `log2` are uninterpreted (`Maths`) and total. The only assumption is that powers of ten are positive (`PowOfTenPositive`). Nonpositive frequency limits, where `log10` is undefined, are excluded by `WellFormed` rather than modelled. Nothing is claimed about the Hann coefficients' values, the weighting above 1 kHz, or the dB conversion.
- Single-precision rounding, overflow to infinity and NaN are not modelled: every `float` is a real number.
- Numerics.TruncateToInt: the model truncates any real, while `static_cast<int>` at src/FFTAnalyzer.cpp:170 is undefined behaviour when the truncated value does not fit in an `int`. Frequency limits such that `freq * fftSize / sampleRate` exceeds 2^31 - 1 are therefore not covered: `BandMapper.BinRange`, `BandMapper.BinsReadInBounds` and everything built on them describe the C++ only for configurations whose edge bins fit in an `int`.
- Analyzer.FFTAnalyzer.constructor: it does not specify the contents of the analysis buffer and the transform output after construction. Planning with `FFTW_MEASURE` may overwrite them.
- Analyzer.FFTAnalyzer.constructor: it requires `fftSize >= 2` rather than `>= 1`. With one sample, the Hann formula divides 0 by 0.
- The destructor (src/FFTAnalyzer.cpp:31-34) only frees library resources.
- The mutex in `process` and `updatePeaks` exists for concurrency between the audio thread and the render thread. The operations are modelled as sequential methods, so interleavings are not covered.
- The static diagnostic counters, the running maxima and the console output (src/FFTAnalyzer.cpp:27-28, 39-40, 48, 53-57, 83-84, 145, 148-152) have no effect on the analyzer's state and are omitted.
- Audio capture, rendering, configuration loading, the main loop and signal handling (src/AudioCapture.cpp, src/Renderer.cpp, src/Config.cpp, src/main.cpp, and src/SpectrumMeter.cpp apart from the decay formula) are not part of this model. The application's configuration default of smoothing 0.7 (include/Config.h) reaches the analyzer through those files. The model takes the smoothing factor as a constructor argument and uses the header's default of 0.3.
