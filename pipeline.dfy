/** The analysis pipeline as values: stereo-to-mono ingest into a fixed window,
    the Hann window, the transform, band mapping with smoothing, and the
    overlap-advance that keeps the second half of the window. The analyzer's
    methods are proved to compute exactly these functions. */
module Pipeline {
  import opened Numerics
  import opened Settings
  import opened BandMapper

  /** The part of the analyzer's state that ingest changes. */
  datatype Analysis = Analysis(
    buffer: seq<real>,        // the analysis window, fftSize samples
    pos: int,                 // the write cursor
    spectrum: seq<Complex>,   // the last transform's fftSize/2 + 1 bins
    bands: seq<real>,         // the exposed band levels
    smoothed: seq<real>)      // the smoothing accumulator

  /** The sizes the analyzer allocates once and never changes. */
  predicate Shaped(c: Config, st: Analysis) {
    |st.buffer| == c.fftSize && |st.spectrum| == c.fftSize / 2 + 1 &&
    |st.bands| == c.numBands && |st.smoothed| == c.numBands
  }

  /** Every band level and every smoothed value lies in [0,1]. */
  predicate LevelsInUnit(st: Analysis) {
    InUnit(st.bands) && InUnit(st.smoothed)
  }

  /** The Hann window coefficients, computed once at construction. */
  function HannWindow(m: Maths, n: int): (window: seq<real>)
    requires n >= 2
    ensures |window| == n
  {
    seq(n, i => 0.5 * (1.0 - m.cos(2.0 * PI * i as real / (n - 1) as real)))
  }

  /** The window applied to the buffer, sample by sample. */
  function Windowed(buffer: seq<real>, window: seq<real>): (windowed: seq<real>)
    requires |window| == |buffer|
    ensures |windowed| == |buffer|
    ensures forall i :: 0 <= i < |buffer| ==> windowed[i] == buffer[i] * window[i]
  {
    seq(|buffer|, i requires 0 <= i < |buffer| => buffer[i] * window[i])
  }

  /** The overlap-advance: the samples from index n/2 on are copied to the
      front; the tail beyond the copied run keeps its old contents. */
  function ShiftHalf(buffer: seq<real>): (shifted: seq<real>)
    ensures |shifted| == |buffer|
  {
    buffer[|buffer| / 2..] + buffer[|buffer| - |buffer| / 2..]
  }

  /** What the overlap-advance moves where: the run from n/2 on lands at the
      front, and the last n/2 samples are left as they were. */
  lemma ShiftHalfMoves(buffer: seq<real>)
    ensures forall k :: 0 <= k < |buffer| - |buffer| / 2 ==> ShiftHalf(buffer)[k] == buffer[k + |buffer| / 2]
    ensures forall k :: |buffer| - |buffer| / 2 <= k < |buffer| ==> ShiftHalf(buffer)[k] == buffer[k]
  {
  }

  /** The windowed second half lands at the front of the shifted buffer. */
  lemma ShiftWindowed(buffer: seq<real>, window: seq<real>)
    requires |window| == |buffer|
    ensures forall k :: 0 <= k < |buffer| - |buffer| / 2 ==>
      ShiftHalf(Windowed(buffer, window))[k] == buffer[k + |buffer| / 2] * window[k + |buffer| / 2]
  {
    ShiftHalfMoves(Windowed(buffer, window));
  }

  /** The fftSize/2 + 1 output bins of the transform of a window. */
  function Spectrum(t: Dft, window: seq<real>, n: int): (bins: seq<Complex>)
    requires n >= 0
    ensures |bins| == n / 2 + 1
  {
    seq(n / 2 + 1, k => t(window, k))
  }

  /** One full window: apply the Hann window in place, transform, map and smooth
      the bands, then shift the second half of the windowed buffer to the front
      and reset the cursor to fftSize/2. */
  function Transform(c: Config, m: Maths, t: Dft, window: seq<real>, st: Analysis): (next: Analysis)
    requires WellFormed(c) && PowOfTenPositive(m) && |window| == c.fftSize && Shaped(c, st)
    ensures Shaped(c, next) && next.pos == c.fftSize / 2
    ensures next.bands == next.smoothed
  {
    var windowed := Windowed(st.buffer, window);
    var spectrum := Spectrum(t, windowed, c.fftSize);
    var smoothed := Smooth(st.smoothed, RawLevels(m, c, spectrum), c.smoothing);
    Analysis(ShiftHalf(windowed), c.fftSize / 2, spectrum, smoothed, smoothed)
  }

  /** Overlap-advance: after a transform the cursor is at fftSize/2 and the
      front of the buffer holds the former second half, as windowed by the
      transform (not the raw samples); the spectrum is that of the windowed
      buffer. */
  lemma TransformOverlap(c: Config, m: Maths, t: Dft, window: seq<real>, st: Analysis)
    requires WellFormed(c) && PowOfTenPositive(m) && |window| == c.fftSize && Shaped(c, st)
    ensures var next := Transform(c, m, t, window, st);
      next.pos == c.fftSize / 2 &&
      next.spectrum == Spectrum(t, Windowed(st.buffer, window), c.fftSize) &&
      forall k :: 0 <= k < c.fftSize - c.fftSize / 2 ==>
        next.buffer[k] == st.buffer[k + c.fftSize / 2] * window[k + c.fftSize / 2]
  {
    TransformParts(c, m, t, window, st);
    ShiftWindowed(st.buffer, window);
  }

  /** The state a transform leaves behind, field by field. */
  lemma TransformUnfolds(c: Config, m: Maths, t: Dft, window: seq<real>, st: Analysis)
    requires WellFormed(c) && PowOfTenPositive(m) && |window| == c.fftSize && Shaped(c, st)
    ensures var windowed := Windowed(st.buffer, window);
      var spectrum := Spectrum(t, windowed, c.fftSize);
      var smoothed := Smooth(st.smoothed, RawLevels(m, c, spectrum), c.smoothing);
      Transform(c, m, t, window, st) == Analysis(ShiftHalf(windowed), c.fftSize / 2, spectrum, smoothed, smoothed)
  {
  }

  /** The buffer and the spectrum a transform leaves behind. */
  lemma TransformParts(c: Config, m: Maths, t: Dft, window: seq<real>, st: Analysis)
    requires WellFormed(c) && PowOfTenPositive(m) && |window| == c.fftSize && Shaped(c, st)
    ensures Transform(c, m, t, window, st).buffer == ShiftHalf(Windowed(st.buffer, window))
    ensures Transform(c, m, t, window, st).spectrum == Spectrum(t, Windowed(st.buffer, window), c.fftSize)
  {
  }

  /** One stereo pair's mono value, written at the cursor if there is room;
      a full window is transformed at once. */
  function Step(c: Config, m: Maths, t: Dft, window: seq<real>, st: Analysis, mono: real): (next: Analysis)
    requires WellFormed(c) && PowOfTenPositive(m) && |window| == c.fftSize && Shaped(c, st) && 0 <= st.pos <= c.fftSize
    ensures Shaped(c, next) && 0 <= next.pos < c.fftSize
    ensures next.pos == if st.pos + 1 < c.fftSize then st.pos + 1 else c.fftSize / 2
  {
    var filled :=
      if st.pos < c.fftSize then st.(buffer := st.buffer[st.pos := mono], pos := st.pos + 1) else st;
    if filled.pos >= c.fftSize then Transform(c, m, t, window, filled) else filled
  }

  /** The mono value of the j-th interleaved stereo pair. */
  function Mono(samples: seq<real>, j: int): (mono: real)
    requires 0 <= j && 2 * j + 1 < |samples|
    ensures mono + mono == samples[2 * j] + samples[2 * j + 1]
    ensures Between(mono, samples[2 * j], samples[2 * j + 1])
  {
    (samples[2 * j] + samples[2 * j + 1]) * 0.5
  }

  /** The state after ingesting the first k stereo pairs of `samples`. */
  function IngestPairs(c: Config, m: Maths, t: Dft, window: seq<real>, st: Analysis, samples: seq<real>, k: nat): (next: Analysis)
    requires WellFormed(c) && PowOfTenPositive(m) && |window| == c.fftSize && Shaped(c, st) && 0 <= st.pos < c.fftSize
    requires 2 * k <= |samples|
    ensures Shaped(c, next) && 0 <= next.pos < c.fftSize
    decreases k
  {
    if k == 0 then st
    else Step(c, m, t, window, IngestPairs(c, m, t, window, st, samples, k - 1), Mono(samples, k - 1))
  }

  /** Ingesting one more pair is one more step. */
  lemma IngestPairsNext(c: Config, m: Maths, t: Dft, window: seq<real>, st: Analysis, samples: seq<real>, k: nat)
    requires WellFormed(c) && PowOfTenPositive(m) && |window| == c.fftSize && Shaped(c, st) && 0 <= st.pos < c.fftSize
    requires 2 * k + 2 <= |samples|
    ensures IngestPairs(c, m, t, window, st, samples, k + 1) ==
      Step(c, m, t, window, IngestPairs(c, m, t, window, st, samples, k), Mono(samples, k))
  {
  }

  /** With room for more than one sample, a pair is appended at the cursor and
      the cursor advances; nothing else changes. */
  lemma StepAppends(c: Config, m: Maths, t: Dft, window: seq<real>, st: Analysis, mono: real)
    requires WellFormed(c) && PowOfTenPositive(m) && |window| == c.fftSize && Shaped(c, st)
    requires 0 <= st.pos && st.pos + 1 < c.fftSize
    ensures Step(c, m, t, window, st, mono) == st.(buffer := st.buffer[st.pos := mono], pos := st.pos + 1)
  {
  }

  /** No pair is ever dropped: when a pair fills the last slot, the transform
      runs in the same step, over the window that holds the pair's value, and
      the windowed value survives the overlap-advance at index n - 1 - n/2. */
  lemma StepTransformsFullWindow(c: Config, m: Maths, t: Dft, window: seq<real>, st: Analysis, mono: real)
    requires WellFormed(c) && PowOfTenPositive(m) && |window| == c.fftSize && Shaped(c, st)
    requires st.pos + 1 == c.fftSize
    ensures Step(c, m, t, window, st, mono).pos == c.fftSize / 2
    ensures Step(c, m, t, window, st, mono).spectrum ==
      Spectrum(t, Windowed(st.buffer[c.fftSize - 1 := mono], window), c.fftSize)
    ensures Step(c, m, t, window, st, mono).buffer[c.fftSize - 1 - c.fftSize / 2] == mono * window[c.fftSize - 1]
  {
    var n := c.fftSize;
    var filled := st.(buffer := st.buffer[st.pos := mono], pos := st.pos + 1);
    var next := Transform(c, m, t, window, filled);
    assert Step(c, m, t, window, st, mono) == next;
    TransformOverlap(c, m, t, window, filled);
    assert next.buffer[n - 1 - n / 2] == filled.buffer[n - 1] * window[n - 1];
  }

  /** The buffer with the mono values of the first k pairs written from
      index pos on. */
  function Appended(buffer: seq<real>, pos: int, samples: seq<real>, k: int): (appended: seq<real>)
    requires 0 <= pos && 0 <= k && pos + k <= |buffer| && 2 * k <= |samples|
    ensures |appended| == |buffer|
  {
    seq(|buffer|, i requires 0 <= i < |buffer| => if pos <= i < pos + k then Mono(samples, i - pos) else buffer[i])
  }

  /** Writing pair k - 1 one past a run of k - 1 appended pairs gives a run
      of k. */
  lemma AppendOne(buffer: seq<real>, pos: int, samples: seq<real>, k: int)
    requires 0 <= pos && 1 <= k && pos + k <= |buffer| && 2 * k <= |samples|
    ensures Appended(buffer, pos, samples, k - 1)[pos + k - 1 := Mono(samples, k - 1)] == Appended(buffer, pos, samples, k)
  {
    var after := Appended(buffer, pos, samples, k - 1)[pos + k - 1 := Mono(samples, k - 1)];
    assert forall i :: 0 <= i < |buffer| ==> after[i] == Appended(buffer, pos, samples, k)[i];
  }

  /** While the window does not fill, the buffer after k pairs is the old
      buffer with the k mono values appended at the cursor. */
  lemma {:induction false} IngestAppends(
    c: Config, m: Maths, t: Dft, window: seq<real>, st: Analysis, samples: seq<real>, k: nat)
    requires WellFormed(c) && PowOfTenPositive(m) && |window| == c.fftSize && Shaped(c, st) && 0 <= st.pos < c.fftSize
    requires 2 * k <= |samples| && st.pos + k < c.fftSize
    ensures IngestPairs(c, m, t, window, st, samples, k).pos == st.pos + k
    ensures IngestPairs(c, m, t, window, st, samples, k).buffer == Appended(st.buffer, st.pos, samples, k)
  {
    if k == 0 {
      assert Appended(st.buffer, st.pos, samples, 0) == st.buffer;
    } else {
      IngestAppends(c, m, t, window, st, samples, k - 1);
      var before := IngestPairs(c, m, t, window, st, samples, k - 1);
      IngestPairsNext(c, m, t, window, st, samples, k - 1);
      StepAppends(c, m, t, window, before, Mono(samples, k - 1));
      AppendOne(st.buffer, st.pos, samples, k);
    }
  }

  /** While the window does not fill, ingest appends: pair j lands at index
      pos + j, the cursor advances by the number of pairs, and every other
      slot of the buffer keeps its value. */
  lemma IngestWithoutTransform(
    c: Config, m: Maths, t: Dft, window: seq<real>, st: Analysis, samples: seq<real>, k: nat)
    requires WellFormed(c) && PowOfTenPositive(m) && |window| == c.fftSize && Shaped(c, st) && 0 <= st.pos < c.fftSize
    requires 2 * k <= |samples| && st.pos + k < c.fftSize
    ensures IngestPairs(c, m, t, window, st, samples, k).pos == st.pos + k
    ensures forall j :: 0 <= j < k ==> IngestPairs(c, m, t, window, st, samples, k).buffer[st.pos + j] == Mono(samples, j)
    ensures forall i :: 0 <= i < c.fftSize && !(st.pos <= i < st.pos + k) ==>
      IngestPairs(c, m, t, window, st, samples, k).buffer[i] == st.buffer[i]
  {
    IngestAppends(c, m, t, window, st, samples, k);
    var appended := Appended(st.buffer, st.pos, samples, k);
    forall j | 0 <= j < k
      ensures appended[st.pos + j] == Mono(samples, j)
    {
      assert st.pos + j - st.pos == j;
    }
  }

  /** While the window does not fill, ingest leaves the spectrum, the bands
      and the smoothing accumulator as they were: no transform runs. */
  lemma {:induction false} IngestWithoutTransformKeepsBands(
    c: Config, m: Maths, t: Dft, window: seq<real>, st: Analysis, samples: seq<real>, k: nat)
    requires WellFormed(c) && PowOfTenPositive(m) && |window| == c.fftSize && Shaped(c, st) && 0 <= st.pos < c.fftSize
    requires 2 * k <= |samples| && st.pos + k < c.fftSize
    ensures IngestPairs(c, m, t, window, st, samples, k).pos == st.pos + k
    ensures IngestPairs(c, m, t, window, st, samples, k).spectrum == st.spectrum
    ensures IngestPairs(c, m, t, window, st, samples, k).bands == st.bands
    ensures IngestPairs(c, m, t, window, st, samples, k).smoothed == st.smoothed
  {
    if k > 0 {
      IngestWithoutTransformKeepsBands(c, m, t, window, st, samples, k - 1);
      var before := IngestPairs(c, m, t, window, st, samples, k - 1);
      IngestPairsNext(c, m, t, window, st, samples, k - 1);
      StepAppends(c, m, t, window, before, Mono(samples, k - 1));
    }
  }

  /** The noise gate acts before the blend: an analysis whose every band is
      gated to 0 only scales the previous smoothed values by the smoothing
      factor, so with a positive factor no band that was above 0 drops to
      exactly 0. */
  lemma SilentTransformScales(c: Config, m: Maths, t: Dft, window: seq<real>, st: Analysis)
    requires WellFormed(c) && PowOfTenPositive(m) && |window| == c.fftSize && Shaped(c, st)
    requires RawLevels(m, c, Spectrum(t, Windowed(st.buffer, window), c.fftSize)) == Silence(c.numBands)
    ensures forall i :: 0 <= i < c.numBands ==>
      Transform(c, m, t, window, st).bands[i] == st.smoothed[i] * c.smoothing
    ensures 0.0 < c.smoothing ==> forall i :: 0 <= i < c.numBands && 0.0 < st.smoothed[i] ==>
      0.0 < Transform(c, m, t, window, st).bands[i]
  {
    SilenceScales(st.smoothed, c.smoothing);
  }

  /** The analysis depends on the transform only through the magnitudes of
      its bins: a transform with the opposite sign convention, which conjugates
      every bin, yields the same bands and accumulator. */
  lemma TransformIgnoresSignConvention(c: Config, m: Maths, t: Dft, u: Dft, window: seq<real>, st: Analysis)
    requires WellFormed(c) && PowOfTenPositive(m) && |window| == c.fftSize && Shaped(c, st)
    requires forall w, k :: u(w, k) == Complex(t(w, k).re, -t(w, k).im)
    ensures Transform(c, m, u, window, st).bands == Transform(c, m, t, window, st).bands
    ensures Transform(c, m, u, window, st).smoothed == Transform(c, m, t, window, st).smoothed
  {
    var windowed := Windowed(st.buffer, window);
    assert Spectrum(u, windowed, c.fftSize) == Conjugated(Spectrum(t, windowed, c.fftSize));
    RawLevelsIgnoreConjugation(m, c, Spectrum(t, windowed, c.fftSize));
  }

  /** A band whose range holds no bin has raw level 0 in every analysis, so
      while its accumulator is 0 a transform keeps it, and the exposed level,
      at exactly 0. */
  lemma TransformKeepsEmptyBandAtZero(c: Config, m: Maths, t: Dft, window: seq<real>, st: Analysis, b: int)
    requires WellFormed(c) && PowOfTenPositive(m) && |window| == c.fftSize && Shaped(c, st)
    requires 0 <= b < c.numBands && BinRange(m, c, b).0 == BinRange(m, c, b).1 && st.smoothed[b] == 0.0
    ensures Transform(c, m, t, window, st).smoothed[b] == 0.0
    ensures Transform(c, m, t, window, st).bands[b] == 0.0
  {
    var spectrum := Spectrum(t, Windowed(st.buffer, window), c.fftSize);
    assert RawLevels(m, c, spectrum)[b] == 0.0;
    assert 0.0 * c.smoothing == 0.0 && 0.0 * (1.0 - c.smoothing) == 0.0;
  }

  /** An empty band whose level and accumulator start at 0, as the constructor
      leaves them, reads exactly 0 after any chunk of samples. */
  lemma {:induction false} IngestKeepsEmptyBandAtZero(
    c: Config, m: Maths, t: Dft, window: seq<real>, st: Analysis, samples: seq<real>, k: nat, b: int)
    requires WellFormed(c) && PowOfTenPositive(m) && |window| == c.fftSize && Shaped(c, st) && 0 <= st.pos < c.fftSize
    requires 2 * k <= |samples|
    requires 0 <= b < c.numBands && BinRange(m, c, b).0 == BinRange(m, c, b).1
    requires st.smoothed[b] == 0.0 && st.bands[b] == 0.0
    ensures IngestPairs(c, m, t, window, st, samples, k).smoothed[b] == 0.0
    ensures IngestPairs(c, m, t, window, st, samples, k).bands[b] == 0.0
  {
    if k > 0 {
      var prev := IngestPairs(c, m, t, window, st, samples, k - 1);
      IngestKeepsEmptyBandAtZero(c, m, t, window, st, samples, k - 1, b);
      var filled := prev.(buffer := prev.buffer[prev.pos := Mono(samples, k - 1)], pos := prev.pos + 1);
      if filled.pos >= c.fftSize {
        TransformKeepsEmptyBandAtZero(c, m, t, window, filled, b);
      }
    }
  }

  /** Where the cursor stands after k pairs from cursor p in a window of n:
      it climbs to n, and from then on cycles through [n/2, n) with period
      n - n/2, one transform per cycle. */
  function CursorAfter(n: int, p: int, k: nat): (pos: int)
    requires n >= 2 && 0 <= p < n
    ensures 0 <= pos < n
  {
    if p + k < n then p + k else n / 2 + (p + k - n) % (n - n / 2)
  }

  /** The cursor after any number of pairs is given by the closed form above. */
  lemma {:induction false} IngestCursor(c: Config, m: Maths, t: Dft, window: seq<real>, st: Analysis, samples: seq<real>, k: nat)
    requires WellFormed(c) && PowOfTenPositive(m) && |window| == c.fftSize && Shaped(c, st) && 0 <= st.pos < c.fftSize
    requires 2 * k <= |samples|
    ensures IngestPairs(c, m, t, window, st, samples, k).pos == CursorAfter(c.fftSize, st.pos, k)
  {
    if k > 0 {
      IngestCursor(c, m, t, window, st, samples, k - 1);
      IngestPairsNext(c, m, t, window, st, samples, k - 1);
      CursorAfterNext(c.fftSize, st.pos, k);
    }
  }

  /** The closed form moves like the cursor: one more pair advances it by one,
      or sends it back to n/2 when it would reach n. */
  lemma CursorAfterNext(n: int, p: int, k: nat)
    requires n >= 2 && 0 <= p < n && k >= 1
    ensures CursorAfter(n, p, k) ==
      if CursorAfter(n, p, k - 1) + 1 < n then CursorAfter(n, p, k - 1) + 1 else n / 2
  {
    var h := n - n / 2;
    var q := CursorAfter(n, p, k - 1);
    if p + k < n {
      assert q == p + k - 1;
    } else if p + k == n {
      assert q == n - 1;
      assert CursorAfter(n, p, k) == n / 2 + 0 % h;
    } else {
      var x := p + k - 1 - n;
      assert q == n / 2 + x % h;
      ModSuccessor(x, h);
      assert CursorAfter(n, p, k) == n / 2 + (x + 1) % h;
    }
  }

  /** Stepping x by one steps x % h by one, wrapping to 0 at h. */
  lemma ModSuccessor(x: nat, h: int)
    requires h >= 1
    ensures (x + 1) % h == if x % h + 1 < h then x % h + 1 else 0
  {
    var q, r := x / h, x % h;
    if r + 1 < h {
      ModUnique(x + 1, h, q, r + 1);
    } else {
      assert x + 1 == (q + 1) * h;
      ModUnique(x + 1, h, q + 1, 0);
    }
  }

  /** With a smoothing factor in [0,1], a transform keeps every band level
      and smoothed value in [0,1]: the new values are convex blends of old
      values and raw levels, both in [0,1]. */
  lemma TransformKeepsLevelsInUnit(c: Config, m: Maths, t: Dft, window: seq<real>, st: Analysis)
    requires WellFormed(c) && PowOfTenPositive(m) && |window| == c.fftSize && Shaped(c, st)
    requires 0.0 <= c.smoothing <= 1.0 && LevelsInUnit(st)
    ensures LevelsInUnit(Transform(c, m, t, window, st))
  {
    var spectrum := Spectrum(t, Windowed(st.buffer, window), c.fftSize);
    SmoothIsConvex(st.smoothed, RawLevels(m, c, spectrum), c.smoothing);
  }

  /** With a smoothing factor in [0,1], one step keeps every band level and
      smoothed value in [0,1]. */
  lemma StepKeepsLevelsInUnit(c: Config, m: Maths, t: Dft, window: seq<real>, st: Analysis, mono: real)
    requires WellFormed(c) && PowOfTenPositive(m) && |window| == c.fftSize && Shaped(c, st) && 0 <= st.pos < c.fftSize
    requires 0.0 <= c.smoothing <= 1.0 && LevelsInUnit(st)
    ensures LevelsInUnit(Step(c, m, t, window, st, mono))
  {
    var filled := st.(buffer := st.buffer[st.pos := mono], pos := st.pos + 1);
    if filled.pos >= c.fftSize {
      TransformKeepsLevelsInUnit(c, m, t, window, filled);
    }
  }

  /** With a smoothing factor in [0,1], ingest keeps every band level and
      smoothed value in [0,1]. */
  lemma {:induction false} IngestKeepsLevelsInUnit(
    c: Config, m: Maths, t: Dft, window: seq<real>, st: Analysis, samples: seq<real>, k: nat)
    requires WellFormed(c) && PowOfTenPositive(m) && |window| == c.fftSize && Shaped(c, st) && 0 <= st.pos < c.fftSize
    requires 2 * k <= |samples| && 0.0 <= c.smoothing <= 1.0 && LevelsInUnit(st)
    ensures LevelsInUnit(IngestPairs(c, m, t, window, st, samples, k))
  {
    if k > 0 {
      IngestKeepsLevelsInUnit(c, m, t, window, st, samples, k - 1);
      StepKeepsLevelsInUnit(c, m, t, window, IngestPairs(c, m, t, window, st, samples, k - 1), Mono(samples, k - 1));
    }
  }

  /** Ingest keeps the exposed bands equal to the smoothing accumulator. */
  lemma {:induction false} IngestKeepsBandsMirrored(
    c: Config, m: Maths, t: Dft, window: seq<real>, st: Analysis, samples: seq<real>, k: nat)
    requires WellFormed(c) && PowOfTenPositive(m) && |window| == c.fftSize && Shaped(c, st) && 0 <= st.pos < c.fftSize
    requires 2 * k <= |samples| && st.bands == st.smoothed
    ensures var next := IngestPairs(c, m, t, window, st, samples, k); next.bands == next.smoothed
  {
    if k > 0 {
      IngestKeepsBandsMirrored(c, m, t, window, st, samples, k - 1);
    }
  }
}
