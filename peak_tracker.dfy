/** The per-band peak-hold state machine: instant rise, linear fall clamped at
    zero, one step per rendered frame. */
module PeakTracker {
  import opened Numerics

  /** Frames per second the render loop assumes when it derives the decay. */
  const FramesPerSecond: real := 60.0

  /** The per-frame decay the render loop passes in: a full-scale peak falls to
      zero in `peakFallTime` seconds of frames. */
  function DecayAmount(peakFallTime: real): (decay: real)
    requires peakFallTime > 0.0
    ensures decay > 0.0
    ensures decay * (peakFallTime * FramesPerSecond) == 1.0
  {
    1.0 / (peakFallTime * FramesPerSecond)
  }

  /** One band's peak after one frame, given its current level. */
  function PeakNext(peak: real, level: real, decay: real): (next: real)
    ensures level > peak ==> next == level
    ensures level <= peak && 0.0 <= peak && 0.0 <= decay ==> next <= peak
    ensures level <= peak && decay <= peak ==> next == peak - decay
    ensures level <= peak && peak <= decay ==> next == 0.0
  {
    if level > peak then level
    else if peak - decay < 0.0 then 0.0
    else peak - decay
  }

  /** A nonnegative peak stays nonnegative; a peak in [0,1] stays in [0,1] when
      the level is at most 1 and the decay is not negative. */
  lemma PeakNextBounds(peak: real, level: real, decay: real)
    ensures 0.0 <= peak ==> 0.0 <= PeakNext(peak, level, decay)
    ensures 0.0 <= peak <= 1.0 && level <= 1.0 && 0.0 <= decay ==> PeakNext(peak, level, decay) <= 1.0
  {
  }

  /** All bands' peaks after one frame. */
  function PeakRow(peaks: seq<real>, levels: seq<real>, decay: real): (next: seq<real>)
    requires |peaks| == |levels|
    ensures |next| == |peaks|
  {
    seq(|peaks|, i requires 0 <= i < |peaks| => PeakNext(peaks[i], levels[i], decay))
  }

  /** Peaks in [0,1] stay in [0,1] across a frame when levels are at most 1 and
      the decay is not negative; nonnegative peaks stay nonnegative regardless. */
  lemma PeakRowBounds(peaks: seq<real>, levels: seq<real>, decay: real)
    requires |peaks| == |levels|
    ensures NonNegative(peaks) ==> NonNegative(PeakRow(peaks, levels, decay))
    ensures InUnit(peaks) && (forall i :: 0 <= i < |levels| ==> levels[i] <= 1.0) && 0.0 <= decay ==>
      InUnit(PeakRow(peaks, levels, decay))
  {
    forall i | 0 <= i < |peaks| {
      PeakNextBounds(peaks[i], levels[i], decay);
    }
  }

  /** A peak after `frames` frames with its band's level held fixed. */
  function PeakAfter(peak: real, level: real, decay: real, frames: nat): real
  {
    if frames == 0 then peak else PeakNext(PeakAfter(peak, level, decay, frames - 1), level, decay)
  }

  /** With the level at 0 and a decay of 1/n, a full-scale peak falls linearly:
      after k <= n frames it is (n - k)/n. */
  lemma {:induction false} LinearFall(n: nat, k: nat)
    requires 1 <= n && k <= n
    ensures PeakAfter(1.0, 0.0, 1.0 / n as real, k) == (n - k) as real / n as real
  {
    if k > 0 {
      LinearFall(n, k - 1);
      var before := (n - (k - 1)) as real / n as real;
      assert before - 1.0 / n as real == (n - k) as real / n as real;
      assert (n - k) as real / n as real >= 0.0;
    }
  }

  /** An empty peak over a zero level stays empty for every later frame. */
  lemma {:induction false} StaysEmpty(decay: real, k: nat)
    requires 0.0 <= decay
    ensures PeakAfter(0.0, 0.0, decay, k) == 0.0
  {
    if k > 0 {
      StaysEmpty(decay, k - 1);
    }
  }

  /** Running `a` frames and then `b` more is running `a + b` frames. */
  lemma {:induction false} PeakAfterSplit(peak: real, level: real, decay: real, a: nat, b: nat)
    ensures PeakAfter(PeakAfter(peak, level, decay, a), level, decay, b) == PeakAfter(peak, level, decay, a + b)
  {
    if b > 0 {
      PeakAfterSplit(peak, level, decay, a, b - 1);
    }
  }

  /** Decay timing: when the fall time spans a whole number n of frames, a
      full-scale peak over a silent band is still above zero after every frame
      before the n-th, is exactly zero after the n-th and stays zero after it. */
  lemma DecayTiming(peakFallTime: real, n: nat)
    requires peakFallTime > 0.0 && 1 <= n && peakFallTime * FramesPerSecond == n as real
    ensures forall k: nat :: k < n ==> PeakAfter(1.0, 0.0, DecayAmount(peakFallTime), k) > 0.0
    ensures forall k: nat :: n <= k ==> PeakAfter(1.0, 0.0, DecayAmount(peakFallTime), k) == 0.0
  {
    var decay := DecayAmount(peakFallTime);
    assert decay == 1.0 / n as real;
    forall k: nat | k < n
      ensures PeakAfter(1.0, 0.0, decay, k) > 0.0
    {
      LinearFall(n, k);
    }
    forall k: nat | n <= k
      ensures PeakAfter(1.0, 0.0, decay, k) == 0.0
    {
      LinearFall(n, n);
      StaysEmpty(decay, k - n);
      PeakAfterSplit(1.0, 0.0, decay, n, k - n);
    }
  }

  /** When a band holds exactly at its peak, the next frame lowers the peak
      below the band: only a strictly higher level refreshes the peak. */
  lemma SteadyLevelLetsPeakFall(peak: real, decay: real)
    requires peak > 0.0 && decay > 0.0
    ensures PeakNext(peak, peak, decay) < peak
  {
  }
}
