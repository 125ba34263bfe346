/** The analyzer object: a fixed analysis window fed with stereo samples, the
    Hann window, the transform output, and the band, peak and smoothing rows.
    Each method is proved to leave the object in the state the value-level
    functions of `Pipeline` and `PeakTracker` describe. */
module Analyzer {
  import opened Numerics
  import opened Settings
  import opened BandMapper
  import opened PeakTracker
  import opened Pipeline

  /** A band's level is determined by the sum and the number of the bins it
      reads: 0 when it reads none, otherwise the post-processed average. */
  lemma RawLevelFromSum(m: Maths, c: Config, spectrum: seq<Complex>, band: int, sum: real, count: int)
    requires WellFormed(c) && PowOfTenPositive(m) && |spectrum| == c.fftSize / 2 + 1 && 0 <= band < c.numBands
    requires count == BinRange(m, c, band).1 - BinRange(m, c, band).0
    requires count > 0 ==> sum == MagnitudeSum(m, spectrum, BinRange(m, c, band).0, BinRange(m, c, band).1)
    ensures RawLevel(m, c, spectrum, band) ==
      if count > 0 then BandLevel(m, c, sum, count, BandEdges(m, c, band).0, BandEdges(m, c, band).1) else 0.0
  {
  }

  class FFTAnalyzer {
    // Configuration, fixed at construction.
    const fftSize: int
    const sampleRate: int
    const numBands: int
    const minFreq: real
    const maxFreq: real
    const minDb: real
    const maxDb: real
    const noiseThreshold: real
    const freqWeighting: bool
    const smoothing: real

    // The library maths and the transform plan the analyzer calls.
    const maths: Maths
    const transform: Dft

    // Buffers, allocated once; their contents change.
    const inputBuffer: array<real>
    const windowFunction: array<real>
    const fftOutput: array<Complex>
    const bands: array<real>
    const peaks: array<real>
    const smoothedBands: array<real>

    /** The window coefficients as a value: the Hann window of `fftSize`
        points, fixed by the constructor. */
    ghost const hann: seq<real>

    /** The write cursor into `inputBuffer`. */
    var bufferPos: int

    /** The configuration as a value. */
    function Cfg(): Config {
      Config(fftSize, sampleRate, numBands, minFreq, maxFreq, minDb, maxDb, noiseThreshold, freqWeighting, smoothing)
    }

    /** Sizes and distinct buffers; holds at every point of every method. */
    ghost predicate Sized() {
      WellFormed(Cfg()) && PowOfTenPositive(maths) &&
      inputBuffer.Length == fftSize && windowFunction.Length == fftSize &&
      fftOutput.Length == fftSize / 2 + 1 &&
      bands.Length == numBands && peaks.Length == numBands && smoothedBands.Length == numBands &&
      inputBuffer != windowFunction && inputBuffer != bands && inputBuffer != peaks &&
      inputBuffer != smoothedBands && windowFunction != bands && windowFunction != peaks &&
      windowFunction != smoothedBands && bands != peaks && bands != smoothedBands &&
      peaks != smoothedBands
    }

    /** The object invariant between calls: the window array holds the
        coefficients and the cursor is inside the analysis window. */
    ghost predicate Valid()
      reads this, windowFunction
    {
      Sized() && windowFunction[..] == hann && 0 <= bufferPos < fftSize
    }

    /** The ingest-related state as a value of the pipeline model. */
    ghost function State(): Analysis
      reads this, inputBuffer, fftOutput, bands, smoothedBands
    {
      Analysis(inputBuffer[..], bufferPos, fftOutput[..], bands[..], smoothedBands[..])
    }

    /** Stores the configuration, allocates the buffers with every band, peak
        and smoothed value at 0, and fills the Hann window. The analysis
        buffer and the transform output are not specified: planning with
        measurement may overwrite them. */
    constructor(maths: Maths, transform: Dft, fftSize: int, sampleRate: int, numBands: int,
                minFreq: real, maxFreq: real, minDb: real := -80.0, maxDb: real := 0.0,
                noiseThreshold: real := 0.05, freqWeighting: bool := true, smoothing: real := 0.3)
      requires WellFormed(Config(fftSize, sampleRate, numBands, minFreq, maxFreq, minDb, maxDb,
                                 noiseThreshold, freqWeighting, smoothing))
      requires PowOfTenPositive(maths)
      ensures Valid() && bufferPos == 0 && hann == HannWindow(maths, fftSize)
      ensures LevelsInUnit(State()) && bands[..] == smoothedBands[..]
      ensures Cfg() == Config(fftSize, sampleRate, numBands, minFreq, maxFreq, minDb, maxDb,
                              noiseThreshold, freqWeighting, smoothing)
      ensures this.maths == maths && this.transform == transform
      ensures forall i :: 0 <= i < numBands ==> bands[i] == 0.0 && peaks[i] == 0.0 && smoothedBands[i] == 0.0
      ensures fresh(inputBuffer) && fresh(windowFunction) && fresh(fftOutput)
      ensures fresh(bands) && fresh(peaks) && fresh(smoothedBands)
    {
      this.fftSize, this.sampleRate, this.numBands := fftSize, sampleRate, numBands;
      this.minFreq, this.maxFreq, this.minDb, this.maxDb := minFreq, maxFreq, minDb, maxDb;
      this.noiseThreshold, this.freqWeighting, this.smoothing := noiseThreshold, freqWeighting, smoothing;
      this.maths, this.transform := maths, transform;
      var window := new real[fftSize];
      for i := 0 to fftSize
        invariant forall k :: 0 <= k < i ==> window[k] == HannWindow(maths, fftSize)[k]
      {
        window[i] := 0.5 * (1.0 - maths.cos(2.0 * PI * i as real / (fftSize - 1) as real));
      }
      windowFunction := window;
      hann := window[..];
      inputBuffer := new real[fftSize](_ => 0.0);
      bands := new real[numBands](_ => 0.0);
      peaks := new real[numBands](_ => 0.0);
      smoothedBands := new real[numBands](_ => 0.0);
      fftOutput := new Complex[fftSize / 2 + 1];
      bufferPos := 0;
    }

    /** Averages each interleaved stereo pair of `samples[0..count)` to mono and
        appends it at the cursor; whenever the window is full it is windowed,
        transformed and mapped to bands, and its second half is moved to the
        front with the cursor at fftSize/2. For an odd `count` the last pair
        reads `samples[count]`, one past the chunk. */
    method Process(samples: seq<real>, count: int)
      requires Valid()
      requires 0 <= count && count + count % 2 <= |samples|
      modifies this, inputBuffer, fftOutput, bands, smoothedBands
      ensures Valid()
      ensures State() == IngestPairs(Cfg(), maths, transform, hann, old(State()), samples, (count + 1) / 2)
      ensures 0.0 <= smoothing <= 1.0 && LevelsInUnit(old(State())) ==> LevelsInUnit(State())
      ensures old(bands[..]) == old(smoothedBands[..]) ==> bands[..] == smoothedBands[..]
    {
      ghost var start := State();
      ghost var pairs := 0;
      var i := 0;
      while i < count
        invariant 0 <= pairs && i == 2 * pairs && i <= count + count % 2
        invariant Valid()
        invariant State() == IngestPairs(Cfg(), maths, transform, hann, start, samples, pairs)
        decreases count - i
      {
        var sample := (samples[i] + samples[i + 1]) * 0.5;
        assert sample == Mono(samples, pairs);
        ghost var before := State();
        IngestMono(sample);
        IngestPairsNext(Cfg(), maths, transform, hann, start, samples, pairs);
        assert State() == Step(Cfg(), maths, transform, hann, before, sample);
        i, pairs := i + 2, pairs + 1;
      }
      assert pairs == (count + 1) / 2;
      if 0.0 <= smoothing <= 1.0 && LevelsInUnit(start) {
        IngestKeepsLevelsInUnit(Cfg(), maths, transform, hann, start, samples, pairs);
      }
      if start.bands == start.smoothed {
        IngestKeepsBandsMirrored(Cfg(), maths, transform, hann, start, samples, pairs);
      }
    }

    /** The body of the ingest loop for one stereo pair, given its mono
        value: append it if there is room, and analyze the window once it
        is full. */
    method IngestMono(sample: real)
      requires Valid()
      modifies this, inputBuffer, fftOutput, bands, smoothedBands
      ensures Valid()
      ensures State() == Step(Cfg(), maths, transform, hann, old(State()), sample)
    {
      if bufferPos < fftSize {
        inputBuffer[bufferPos] := sample;
        bufferPos := bufferPos + 1;
      }
      if bufferPos >= fftSize {
        AnalyzeFullWindow();
      }
    }

    /** The full-window branch of `Process`: window and transform the buffer,
        update the bands, then move the second half of the windowed buffer to
        the front and put the cursor at fftSize/2. */
    method AnalyzeFullWindow()
      requires Sized() && windowFunction[..] == hann && bufferPos == fftSize
      modifies this, inputBuffer, fftOutput, bands, smoothedBands
      ensures Sized() && bufferPos == fftSize / 2
      ensures State() == Transform(Cfg(), maths, transform, hann, old(State()))
    {
      ghost var before := State();
      PerformFFT();
      ghost var windowed := inputBuffer[..];
      ghost var spectrum := fftOutput[..];
      CalculateBands();
      ghost var smoothed := smoothedBands[..];
      forall k | 0 <= k < fftSize - fftSize / 2 {
        inputBuffer[k] := inputBuffer[k + fftSize / 2];
      }
      bufferPos := fftSize / 2;
      ShiftHalfMoves(windowed);
      assert inputBuffer[..] == ShiftHalf(windowed);
      assert State() == Analysis(ShiftHalf(windowed), fftSize / 2, spectrum, smoothed, smoothed);
      TransformUnfolds(Cfg(), maths, transform, hann, before);
    }

    /** Multiplies the window into the analysis buffer in place, then runs the
        transform of the windowed buffer into `fftOutput`. */
    method PerformFFT()
      requires Sized()
      modifies inputBuffer, fftOutput
      ensures inputBuffer[..] == Windowed(old(inputBuffer[..]), windowFunction[..])
      ensures fftOutput[..] == Spectrum(transform, inputBuffer[..], fftSize)
    {
      for i := 0 to fftSize
        invariant forall k :: 0 <= k < i ==> inputBuffer[k] == old(inputBuffer[k]) * windowFunction[k]
        invariant forall k :: i <= k < fftSize ==> inputBuffer[k] == old(inputBuffer[k])
      {
        inputBuffer[i] := inputBuffer[i] * windowFunction[i];
      }
      ghost var expected := Windowed(old(inputBuffer[..]), windowFunction[..]);
      assert forall k :: 0 <= k < fftSize ==> inputBuffer[k] == expected[k];
      assert inputBuffer[..] == expected;
      // the plan runs on the windowed buffer
      var windowed := inputBuffer[..];
      forall k | 0 <= k < fftOutput.Length {
        fftOutput[k] := transform(windowed, k);
      }
      assert fftOutput[..] == Spectrum(transform, windowed, fftSize);
      assert windowFunction[..] == old(windowFunction[..]);
    }

    /** Computes the band levels from the transform output, then blends them
        into the smoothing accumulator and exposes the blended values. */
    method CalculateBands()
      requires Sized()
      modifies bands, smoothedBands
      ensures smoothedBands[..] == Smooth(old(smoothedBands[..]), RawLevels(maths, Cfg(), fftOutput[..]), smoothing)
      ensures bands[..] == smoothedBands[..]
    {
      MapBands();
      SmoothBands();
    }

    /** Resets every band to 0, then sets each band whose frequency range
        covers at least one bin to the post-processed average magnitude of
        those bins. */
    method MapBands()
      requires Sized()
      modifies bands
      ensures bands[..] == RawLevels(maths, Cfg(), fftOutput[..])
    {
      ghost var spectrum := fftOutput[..];
      forall b | 0 <= b < bands.Length {
        bands[b] := 0.0;
      }
      for band := 0 to numBands
        invariant forall b :: 0 <= b < band ==> bands[b] == RawLevel(maths, Cfg(), spectrum, b)
        invariant forall b :: band <= b < numBands ==> bands[b] == 0.0
        invariant fftOutput[..] == spectrum
      {
        var (freqLow, freqHigh) := BandEdges(maths, Cfg(), band);
        var binLow := FreqToFFTBin(freqLow, fftSize, sampleRate);
        var binHigh := FreqToFFTBin(freqHigh, fftSize, sampleRate);
        ghost var end := ReadEnd(binLow, binHigh, fftSize / 2);
        assert (binLow, end) == BinRange(maths, Cfg(), band);
        var sum, count := SumBins(binLow, binHigh);
        RawLevelFromSum(maths, Cfg(), spectrum, band, sum, count);
        if count > 0 {
          bands[band] := BandLevel(maths, Cfg(), sum, count, freqLow, freqHigh);
        }
      }
      ghost var raw := RawLevels(maths, Cfg(), spectrum);
      assert forall b :: 0 <= b < numBands ==> bands[b] == raw[b];
      assert bands[..] == raw;
    }

    /** The averaging loop of one band: sums the magnitudes of the bins from
        `binLow` up to `binHigh` inclusive that lie below fftSize/2, and counts
        them. */
    method SumBins(binLow: int, binHigh: int) returns (sum: real, count: int)
      requires Sized() && 0 <= binLow
      ensures count == ReadEnd(binLow, binHigh, fftSize / 2) - binLow
      ensures count == 0 ==> sum == 0.0
      ensures count > 0 ==> sum == MagnitudeSum(maths, fftOutput[..], binLow, binLow + count)
    {
      ghost var end := ReadEnd(binLow, binHigh, fftSize / 2);
      sum, count := 0.0, 0;
      var bin := binLow;
      while bin <= binHigh && bin < fftSize / 2
        invariant binLow <= bin <= end && count == bin - binLow
        invariant count == 0 ==> sum == 0.0
        invariant count > 0 ==> bin <= fftOutput.Length && sum == MagnitudeSum(maths, fftOutput[..], binLow, bin)
        decreases fftSize / 2 - bin
      {
        var magnitude := Magnitude(maths, fftOutput[bin]);
        sum := sum + magnitude;
        count := count + 1;
        bin := bin + 1;
      }
    }

    /** Blends each band into its smoothed value with weight `smoothing` on
        the old value, and exposes the result as the band level. */
    method SmoothBands()
      requires Sized()
      modifies bands, smoothedBands
      ensures smoothedBands[..] == Smooth(old(smoothedBands[..]), old(bands[..]), smoothing)
      ensures bands[..] == smoothedBands[..]
    {
      for i := 0 to numBands
        invariant forall k :: 0 <= k < i ==>
          smoothedBands[k] == old(smoothedBands[k]) * smoothing + old(bands[k]) * (1.0 - smoothing) &&
          bands[k] == smoothedBands[k]
        invariant forall k :: i <= k < numBands ==> smoothedBands[k] == old(smoothedBands[k]) && bands[k] == old(bands[k])
      {
        smoothedBands[i] := smoothedBands[i] * smoothing + bands[i] * (1.0 - smoothing);
        bands[i] := smoothedBands[i];
      }
      ghost var blended := Smooth(old(smoothedBands[..]), old(bands[..]), smoothing);
      assert forall k :: 0 <= k < numBands ==> smoothedBands[k] == blended[k];
      assert smoothedBands[..] == blended;
    }

    /** One display frame of peak hold: each peak rises to a higher band level
        at once, otherwise falls by `decayAmount`, never below 0. */
    method UpdatePeaks(decayAmount: real)
      requires Valid()
      modifies peaks
      ensures Valid()
      ensures peaks[..] == PeakRow(old(peaks[..]), bands[..], decayAmount)
      ensures NonNegative(old(peaks[..])) ==> NonNegative(peaks[..])
      ensures InUnit(old(peaks[..])) && InUnit(bands[..]) && 0.0 <= decayAmount ==> InUnit(peaks[..])
    {
      for i := 0 to numBands
        invariant forall k :: 0 <= k < i ==> peaks[k] == PeakNext(old(peaks[k]), bands[k], decayAmount)
        invariant forall k :: i <= k < numBands ==> peaks[k] == old(peaks[k])
      {
        if bands[i] > peaks[i] {
          peaks[i] := bands[i];
        } else {
          peaks[i] := peaks[i] - decayAmount;
          if peaks[i] < 0.0 {
            peaks[i] := 0.0;
          }
        }
      }
      PeakRowBounds(old(peaks[..]), bands[..], decayAmount);
    }

    /** The current band levels, one per band. */
    method GetBands() returns (levels: seq<real>)
      requires Sized()
      ensures |levels| == numBands && levels == bands[..]
    {
      levels := bands[..];
    }

    /** The current peak levels, one per band. */
    method GetPeaks() returns (levels: seq<real>)
      requires Sized()
      ensures |levels| == numBands && levels == peaks[..]
    {
      levels := peaks[..];
    }
  }
}
