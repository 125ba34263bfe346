/** The analyzer's configuration, as handed to its constructor. */
module Settings {

  /** The configuration fields of the analyzer, in declaration order. */
  datatype Config = Config(
    fftSize: int,
    sampleRate: int,
    numBands: int,
    minFreq: real,
    maxFreq: real,
    minDb: real,
    maxDb: real,
    noiseThreshold: real,
    freqWeighting: bool,
    smoothing: real)

  /** What the analyzer's arithmetic needs of its configuration: a window long
      enough for the Hann formula's division by `fftSize - 1`, a positive sample
      rate to divide by, a band count the vectors can be sized with, positive
      frequency limits for `log10`, and a nonzero dB range to divide by. */
  predicate WellFormed(c: Config) {
    c.fftSize >= 2 && c.sampleRate > 0 && c.numBands >= 0 &&
    0.0 < c.minFreq && 0.0 < c.maxFreq && c.minDb != c.maxDb
  }
}
