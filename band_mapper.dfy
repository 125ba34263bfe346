/** Mapping one transform's complex bins onto logarithmically spaced bands,
    with weighting, dB compression, normalisation, the noise gate, and the
    exponential smoothing that follows. */
module BandMapper {
  import opened Numerics
  import opened Settings

  /** Fixed gain applied before the dB conversion. */
  const Sensitivity: real := 2.0
  /** Offset added so that the logarithm never sees zero. */
  const DbFloor: real := 0.000000001

  /** The transform bin of a frequency: `freq * fftSize / sampleRate`, truncated. */
  function FreqToFFTBin(freq: real, fftSize: int, sampleRate: int): (bin: int)
    requires sampleRate > 0
    ensures 0.0 <= freq && 0 <= fftSize ==> 0 <= bin
  {
    TruncateToInt(freq * fftSize as real / sampleRate as real)
  }

  /** For a nonnegative frequency the bin is the whole part of
      `freq * fftSize / sampleRate`: its rate-scaled value brackets the frequency. */
  lemma FreqToFFTBinBrackets(freq: real, fftSize: int, sampleRate: int)
    requires sampleRate > 0 && 0.0 <= freq && 0 <= fftSize
    ensures var bin := FreqToFFTBin(freq, fftSize, sampleRate);
      0 <= bin &&
      (bin * sampleRate) as real <= freq * fftSize as real < ((bin + 1) * sampleRate) as real
  {
    var x := freq * fftSize as real / sampleRate as real;
    var bin := TruncateToInt(x);
    assert bin == FreqToFFTBin(freq, fftSize, sampleRate);
    ScaleBracket(freq * fftSize as real, sampleRate, bin);
  }

  /** If `bin` is the whole part of `scaled / rate`, then `bin * rate` and
      `(bin + 1) * rate` bracket `scaled`. */
  lemma ScaleBracket(scaled: real, rate: int, bin: int)
    requires rate > 0 && bin as real <= scaled / rate as real < bin as real + 1.0
    ensures (bin * rate) as real <= scaled < ((bin + 1) * rate) as real
  {
    var r := rate as real;
    var x := scaled / r;
    var up := bin as real + 1.0;
    assert up == (bin + 1) as real;
    assert x * r == scaled;
    MulMonotone(bin as real, x, r);
    MulStrictMonotone(x, up, r);
    ProductAsReal(bin, rate);
    ProductAsReal(bin + 1, rate);
    assert scaled < up * r;
  }

  /** A higher nonnegative frequency never maps to a lower bin. */
  lemma FreqToFFTBinMonotone(f1: real, f2: real, fftSize: int, sampleRate: int)
    requires sampleRate > 0 && 0 <= fftSize && 0.0 <= f1 <= f2
    ensures FreqToFFTBin(f1, fftSize, sampleRate) <= FreqToFFTBin(f2, fftSize, sampleRate)
  {
    var sr := sampleRate as real;
    var x1 := f1 * fftSize as real / sr;
    var x2 := f2 * fftSize as real / sr;
    MulMonotone(f1, f2, fftSize as real);
    DivMonotone(f1 * fftSize as real, f2 * fftSize as real, sr);
    TruncateMonotone(x1, x2);
  }

  /** The weighting curve: a gentle linear boost up to 1 kHz, then 0.8 per
      octave above it. */
  function FrequencyWeight(m: Maths, freq: real): (weight: real)
    ensures 20.0 <= freq < 1000.0 ==> 1.0 <= weight < 1.49
    ensures freq == 20.0 ==> weight == 1.0
  {
    if freq < 1000.0 then 1.0 + (freq - 20.0) / 1000.0 * 0.5
    else 1.5 + m.log2(freq / 1000.0) * 0.8
  }

  /** Below 1 kHz the weight rises strictly with frequency. */
  lemma LowWeightIncreasing(m: Maths, f1: real, f2: real)
    requires f1 < f2 < 1000.0
    ensures FrequencyWeight(m, f1) < FrequencyWeight(m, f2)
  {
  }

  /** The k-th of the numBands + 1 points that split [log10(minFreq),
      log10(maxFreq)] evenly, as a frequency: 10 to that power. */
  function EdgeFreq(m: Maths, c: Config, k: int): real
    requires c.numBands > 0
  {
    var logMin := m.log10(c.minFreq);
    var logMax := m.log10(c.maxFreq);
    var logStep := (logMax - logMin) / c.numBands as real;
    m.pow(10.0, logMin + k as real * logStep)
  }

  /** The lower and upper edge frequencies of a band on the logarithmic axis. */
  function BandEdges(m: Maths, c: Config, band: int): (edges: (real, real))
    requires 0 <= band < c.numBands
    ensures PowOfTenPositive(m) ==> 0.0 < edges.0 && 0.0 < edges.1
  {
    (EdgeFreq(m, c, band), EdgeFreq(m, c, band + 1))
  }

  /** The bands tile the axis: each band ends where the next begins, the first
      begins at 10^log10(minFreq) and the last ends at 10^log10(maxFreq). */
  lemma BandsTileRange(m: Maths, c: Config)
    requires 1 <= c.numBands
    ensures BandEdges(m, c, 0).0 == m.pow(10.0, m.log10(c.minFreq))
    ensures BandEdges(m, c, c.numBands - 1).1 == m.pow(10.0, m.log10(c.maxFreq))
    ensures forall b :: 0 <= b < c.numBands - 1 ==> BandEdges(m, c, b).1 == BandEdges(m, c, b + 1).0
  {
    var logMin := m.log10(c.minFreq);
    var logMax := m.log10(c.maxFreq);
    var n := c.numBands as real;
    var logStep := (logMax - logMin) / n;
    assert logMin + 0 as real * logStep == logMin;
    assert logMin + c.numBands as real * logStep == logMax;
    assert EdgeFreq(m, c, c.numBands) == m.pow(10.0, logMin + c.numBands as real * logStep);
  }

  /** The first bin the averaging loop does NOT read, starting at `binLow`: it
      reads every bin up to `binHigh` inclusive that lies below `half`
      (`fftSize / 2`), and stops at the first that fails either bound. */
  function ReadEnd(binLow: int, binHigh: int, half: int): (end: int)
    ensures binLow <= end
    ensures forall bin :: binLow <= bin < end ==> LoopGuard(bin, binHigh, half)
    ensures !LoopGuard(end, binHigh, half)
  {
    var last := if binHigh + 1 < half then binHigh + 1 else half;
    if binLow < last then last else binLow
  }

  /** The averaging loop's condition on a bin: at most `binHigh`, below `half`. */
  predicate LoopGuard(bin: int, binHigh: int, half: int) {
    bin <= binHigh && bin < half
  }

  /** The bins a band averages, as the half-open range [lo, end). */
  function BinRange(m: Maths, c: Config, band: int): (range: (int, int))
    requires WellFormed(c) && PowOfTenPositive(m) && 0 <= band < c.numBands
    ensures 0 <= range.0 <= range.1
    ensures range.0 < range.1 ==> range.1 <= c.fftSize / 2
  {
    var (freqLow, freqHigh) := BandEdges(m, c, band);
    var binLow := FreqToFFTBin(freqLow, c.fftSize, c.sampleRate);
    var binHigh := FreqToFFTBin(freqHigh, c.fftSize, c.sampleRate);
    (binLow, ReadEnd(binLow, binHigh, c.fftSize / 2))
  }

  /** Every bin a band reads lies in [binLow, min(binHigh, fftSize/2 - 1)]: inside
      the fftSize/2 + 1 outputs, never the Nyquist bin fftSize/2. */
  lemma BinsReadInBounds(m: Maths, c: Config, band: int)
    requires WellFormed(c) && PowOfTenPositive(m) && 0 <= band < c.numBands
    ensures var (freqLow, freqHigh) := BandEdges(m, c, band);
      var (lo, end) := BinRange(m, c, band);
      lo == FreqToFFTBin(freqLow, c.fftSize, c.sampleRate) &&
      forall bin :: lo <= bin < end ==>
        LoopGuard(bin, FreqToFFTBin(freqHigh, c.fftSize, c.sampleRate), c.fftSize / 2) &&
        0 <= bin < c.fftSize / 2 + 1 && bin != c.fftSize / 2
  {
  }

  /** The sum of the magnitudes of bins [lo, hi), accumulated in ascending order. */
  function MagnitudeSum(m: Maths, spectrum: seq<Complex>, lo: int, hi: int): real
    requires 0 <= lo <= hi <= |spectrum|
    decreases hi - lo
  {
    if hi == lo then 0.0 else MagnitudeSum(m, spectrum, lo, hi - 1) + Magnitude(m, spectrum[hi - 1])
  }

  /** The sum over a range is the sum over any split of it into two adjacent
      ranges: the accumulation order does not change the real-valued sum. */
  lemma {:induction false} MagnitudeSumSplit(m: Maths, spectrum: seq<Complex>, lo: int, mid: int, hi: int)
    requires 0 <= lo <= mid <= hi <= |spectrum|
    ensures MagnitudeSum(m, spectrum, lo, hi) == MagnitudeSum(m, spectrum, lo, mid) + MagnitudeSum(m, spectrum, mid, hi)
    decreases hi - mid
  {
    if hi > mid {
      MagnitudeSumSplit(m, spectrum, lo, mid, hi - 1);
    }
  }

  /** The sum reads only the bins of its range: two spectra that agree there
      give the same sum. */
  lemma {:induction false} MagnitudeSumLocal(m: Maths, s1: seq<Complex>, s2: seq<Complex>, lo: int, hi: int)
    requires 0 <= lo <= hi <= |s1| && hi <= |s2|
    requires forall k :: lo <= k < hi ==> s1[k] == s2[k]
    ensures MagnitudeSum(m, s1, lo, hi) == MagnitudeSum(m, s2, lo, hi)
    decreases hi - lo
  {
    if hi > lo {
      MagnitudeSumLocal(m, s1, s2, lo, hi - 1);
    }
  }

  /** The spectrum with every bin conjugated: what a transform with the
      opposite sign convention in its exponent produces for a real input. */
  function Conjugated(spectrum: seq<Complex>): (conj: seq<Complex>)
    ensures |conj| == |spectrum|
  {
    seq(|spectrum|, k requires 0 <= k < |spectrum| => Complex(spectrum[k].re, -spectrum[k].im))
  }

  /** Conjugating the bins does not change the summed magnitude of a range. */
  lemma {:induction false} MagnitudeSumConjugated(m: Maths, spectrum: seq<Complex>, lo: int, hi: int)
    requires 0 <= lo <= hi <= |spectrum|
    ensures MagnitudeSum(m, Conjugated(spectrum), lo, hi) == MagnitudeSum(m, spectrum, lo, hi)
    decreases hi - lo
  {
    if hi > lo {
      MagnitudeSumConjugated(m, spectrum, lo, hi - 1);
      MagnitudeIgnoresSigns(m, spectrum[hi - 1]);
      assert Conjugated(spectrum)[hi - 1] == Complex(spectrum[hi - 1].re, -spectrum[hi - 1].im);
    }
  }

  /** Maps a dB value onto [0,1] through the configured range, clamping both ends. */
  function NormalizeDb(db: real, minDb: real, maxDb: real): (normalized: real)
    requires minDb != maxDb
    ensures 0.0 <= normalized <= 1.0
  {
    var scaled := (db - minDb) / (maxDb - minDb);
    var floored := if 0.0 < scaled then scaled else 0.0;
    if floored < 1.0 then floored else 1.0
  }

  /** With minDb < maxDb the mapping never reverses the order of two dB values. */
  lemma NormalizeDbMonotone(db1: real, db2: real, minDb: real, maxDb: real)
    requires minDb < maxDb && db1 <= db2
    ensures NormalizeDb(db1, minDb, maxDb) <= NormalizeDb(db2, minDb, maxDb)
  {
    DivMonotone(db1 - minDb, db2 - minDb, maxDb - minDb);
  }

  /** With minDb < maxDb the mapping sends every dB value at or below minDb to
      0, every value at or above maxDb to 1, and is linear in between. */
  lemma NormalizeDbShape(db: real, minDb: real, maxDb: real)
    requires minDb < maxDb
    ensures db <= minDb ==> NormalizeDb(db, minDb, maxDb) == 0.0
    ensures maxDb <= db ==> NormalizeDb(db, minDb, maxDb) == 1.0
    ensures minDb <= db <= maxDb ==> NormalizeDb(db, minDb, maxDb) * (maxDb - minDb) == db - minDb
  {
    var range := maxDb - minDb;
    if db <= minDb {
      DivMonotone(db - minDb, 0.0, range);
    } else if maxDb <= db {
      DivMonotone(range, db - minDb, range);
      assert range / range == 1.0;
    } else {
      DivMonotone(0.0, db - minDb, range);
      DivMonotone(db - minDb, range, range);
      assert (db - minDb) / range * range == db - minDb;
    }
  }

  /** The noise gate: levels below the threshold become exactly 0. */
  function NoiseGate(level: real, threshold: real): (gated: real)
    ensures gated == 0.0 || (threshold <= gated && gated == level)
    ensures threshold <= level ==> gated == level
  {
    if level < threshold then 0.0 else level
  }

  /** The post-processing of a band whose bins summed to `sum` over `count` bins:
      average, normalise by the transform size, weight by the centre frequency,
      apply the gain, convert to dB, map onto [0,1] and gate. */
  function BandLevel(m: Maths, c: Config, sum: real, count: int, freqLow: real, freqHigh: real): (level: real)
    requires WellFormed(c) && count > 0
    ensures 0.0 <= level <= 1.0
    ensures level == 0.0 || c.noiseThreshold <= level
  {
    var average := sum / count as real / (c.fftSize as real * 0.5);
    var weighted :=
      if c.freqWeighting then average * FrequencyWeight(m, m.sqrt(freqLow * freqHigh)) else average;
    var db := 20.0 * m.log10(weighted * Sensitivity + DbFloor);
    NoiseGate(NormalizeDb(db, c.minDb, c.maxDb), c.noiseThreshold)
  }

  /** A band's level before smoothing: 0 when no bin maps to it (the reset
      value), otherwise the post-processed average of its bins. */
  function RawLevel(m: Maths, c: Config, spectrum: seq<Complex>, band: int): (level: real)
    requires WellFormed(c) && PowOfTenPositive(m) && |spectrum| == c.fftSize / 2 + 1
    requires 0 <= band < c.numBands
    ensures 0.0 <= level <= 1.0
    ensures level == 0.0 || c.noiseThreshold <= level
    ensures BinRange(m, c, band).0 == BinRange(m, c, band).1 ==> level == 0.0
  {
    var (freqLow, freqHigh) := BandEdges(m, c, band);
    var (lo, end) := BinRange(m, c, band);
    if end - lo > 0 then BandLevel(m, c, MagnitudeSum(m, spectrum, lo, end), end - lo, freqLow, freqHigh)
    else 0.0
  }

  /** The levels of all bands before smoothing. */
  function RawLevels(m: Maths, c: Config, spectrum: seq<Complex>): (levels: seq<real>)
    requires WellFormed(c) && PowOfTenPositive(m) && |spectrum| == c.fftSize / 2 + 1
    ensures |levels| == c.numBands && InUnit(levels)
  {
    seq(c.numBands, b requires 0 <= b < c.numBands => RawLevel(m, c, spectrum, b))
  }

  /** The band levels read only the magnitudes of the bins, so they do not
      depend on the transform's sign convention: conjugating every bin leaves
      every raw level unchanged. */
  lemma RawLevelsIgnoreConjugation(m: Maths, c: Config, spectrum: seq<Complex>)
    requires WellFormed(c) && PowOfTenPositive(m) && |spectrum| == c.fftSize / 2 + 1
    ensures RawLevels(m, c, Conjugated(spectrum)) == RawLevels(m, c, spectrum)
  {
    var conj := Conjugated(spectrum);
    forall b | 0 <= b < c.numBands
      ensures RawLevel(m, c, conj, b) == RawLevel(m, c, spectrum, b)
    {
      RawLevelIgnoresConjugation(m, c, spectrum, b);
    }
  }

  /** One band's level is unchanged by conjugating every bin. */
  lemma RawLevelIgnoresConjugation(m: Maths, c: Config, spectrum: seq<Complex>, band: int)
    requires WellFormed(c) && PowOfTenPositive(m) && |spectrum| == c.fftSize / 2 + 1
    requires 0 <= band < c.numBands
    ensures RawLevel(m, c, Conjugated(spectrum), band) == RawLevel(m, c, spectrum, band)
  {
    var range := BinRange(m, c, band);
    if range.0 < range.1 {
      MagnitudeSumConjugated(m, spectrum, range.0, range.1);
    }
  }

  /** Exponential smoothing of each band with the previous smoothed value. */
  function Smooth(previous: seq<real>, raw: seq<real>, smoothing: real): (smoothed: seq<real>)
    requires |previous| == |raw|
    ensures |smoothed| == |raw|
  {
    seq(|raw|, i requires 0 <= i < |raw| => previous[i] * smoothing + raw[i] * (1.0 - smoothing))
  }

  /** Smoothing is a convex blend: with a factor in [0,1] and both inputs in
      [0,1] the result stays in [0,1] and lies between the two inputs; a factor
      of 0 passes the raw levels through and a factor of 1 holds the previous ones. */
  lemma SmoothIsConvex(previous: seq<real>, raw: seq<real>, smoothing: real)
    requires |previous| == |raw| && 0.0 <= smoothing <= 1.0
    ensures smoothing == 0.0 ==> Smooth(previous, raw, smoothing) == raw
    ensures smoothing == 1.0 ==> Smooth(previous, raw, smoothing) == previous
    ensures forall i :: 0 <= i < |raw| ==>
      Between(Smooth(previous, raw, smoothing)[i], previous[i], raw[i])
    ensures InUnit(previous) && InUnit(raw) ==> InUnit(Smooth(previous, raw, smoothing))
  {
    var smoothed := Smooth(previous, raw, smoothing);
    forall i | 0 <= i < |raw|
      ensures Between(smoothed[i], previous[i], raw[i])
    {
      BlendBetween(previous[i], raw[i], smoothing);
    }
  }

  /** A row of silent raw levels: every band gated to 0. */
  function Silence(n: nat): (row: seq<real>)
    ensures |row| == n && InUnit(row)
  {
    seq(n, _ => 0.0)
  }

  /** The noise gate acts on the raw level, before the blend: a silent
      analysis only scales each smoothed value by the smoothing factor, so a
      positive level stays positive. */
  lemma SilenceScales(previous: seq<real>, smoothing: real)
    ensures forall i :: 0 <= i < |previous| ==>
      Smooth(previous, Silence(|previous|), smoothing)[i] == previous[i] * smoothing
    ensures 0.0 < smoothing ==> forall i :: 0 <= i < |previous| && 0.0 < previous[i] ==>
      0.0 < Smooth(previous, Silence(|previous|), smoothing)[i]
  {
    forall i | 0 <= i < |previous| && 0.0 < smoothing && 0.0 < previous[i]
      ensures 0.0 < previous[i] * smoothing
    {
      MulStrictMonotone(0.0, previous[i], smoothing);
    }
  }

  /** The smoothed row after `k` silent analyses in a row. */
  function SilentFor(previous: seq<real>, smoothing: real, k: nat): (row: seq<real>)
    ensures |row| == |previous|
  {
    if k == 0 then previous else Smooth(SilentFor(previous, smoothing, k - 1), Silence(|previous|), smoothing)
  }

  /** With a positive smoothing factor, silence never brings a band that was
      above 0 to exactly 0: after any number of silent analyses it is still
      positive. */
  lemma {:induction false} SilenceNeverReachesZero(previous: seq<real>, smoothing: real, k: nat, i: int)
    requires 0.0 < smoothing && 0 <= i < |previous| && 0.0 < previous[i]
    ensures 0.0 < SilentFor(previous, smoothing, k)[i]
  {
    if k > 0 {
      SilenceNeverReachesZero(previous, smoothing, k - 1, i);
      SilenceScales(SilentFor(previous, smoothing, k - 1), smoothing);
    }
  }

  /** `x` lies between `a` and `b`, whichever is smaller. */
  predicate Between(x: real, a: real, b: real) {
    (a <= x <= b) || (b <= x <= a)
  }

  /** A convex combination lies between its two ends. */
  lemma BlendBetween(a: real, b: real, s: real)
    requires 0.0 <= s <= 1.0
    ensures Between(a * s + b * (1.0 - s), a, b)
  {
    if a <= b {
      BlendBelow(a, b, s);
    } else {
      BlendAbove(a, b, s);
    }
  }

  /** The other ordered case: with b <= a the blend lies in [b, a]. */
  lemma BlendAbove(a: real, b: real, s: real)
    requires 0.0 <= s <= 1.0 && b <= a
    ensures b <= a * s + b * (1.0 - s) <= a
  {
    var d := a - b;
    var e := s * d;
    MulMonotone(0.0, s, d);
    MulMonotone(s, 1.0, d);
    assert 0.0 <= e && e <= 1.0 * d;
    assert 1.0 * d == d;
    calc {
      a * s + b * (1.0 - s);
    ==
      b + e;
    }
  }

  /** The ordered case: with a <= b the blend lies in [a, b]. */
  lemma BlendBelow(a: real, b: real, s: real)
    requires 0.0 <= s <= 1.0 && a <= b
    ensures a <= a * s + b * (1.0 - s) <= b
  {
    var d := b - a;
    var e := s * d;
    MulMonotone(0.0, s, d);
    MulMonotone(s, 1.0, d);
    assert 0.0 <= e && e <= 1.0 * d;
    assert 1.0 * d == d;
    calc {
      a * s + b * (1.0 - s);
    ==
      b - e;
    }
  }
}
