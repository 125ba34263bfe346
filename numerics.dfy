/** Real-number stand-ins for the single-precision maths of the analyzer.
    Every `float` of the C++ code is a `real` here; rounding is not modelled. */
module Numerics {

  /** The value of M_PI from <cmath>. */
  const PI: real := 3.14159265358979323846

  /** The library functions the analyzer calls, left uninterpreted: any functions
      may be supplied, and nothing is claimed about their values. `pow(b, e)` is
      `std::pow(b, e)`. */
  datatype Maths = Maths(
    cos: real -> real,
    log10: real -> real,
    pow: (real, real) -> real,
    sqrt: real -> real,
    log2: real -> real)

  /** The one fact about the library the model relies on: a power of ten is
      positive, so band edges are positive frequencies. */
  ghost predicate PowOfTenPositive(m: Maths) {
    forall e :: m.pow(10.0, e) > 0.0
  }

  /** One complex output slot of the transform (`fftwf_complex`). */
  datatype Complex = Complex(re: real, im: real)

  /** The real-to-complex transform of an `fftSize`-sample window, as a function
      from the window and a bin index to that bin (the FFTW plan). */
  type Dft = (seq<real>, int) -> Complex

  /** `static_cast<int>` of a floating-point value: truncation toward zero. */
  function TruncateToInt(x: real): (r: int)
    ensures 0.0 <= x ==> 0 <= r && r as real <= x < r as real + 1.0
    ensures x < 0.0 ==> r <= 0 && r as real - 1.0 < x <= r as real
  {
    if x >= 0.0 then x.Floor else -((-x).Floor)
  }

  /** Truncation toward zero never reverses the order of two values. */
  lemma TruncateMonotone(x: real, y: real)
    requires x <= y
    ensures TruncateToInt(x) <= TruncateToInt(y)
  {
  }

  /** `re*re + im*im`: the squared magnitude of one bin, never negative, so
      always inside the domain of `sqrt`. */
  function SquaredMagnitude(z: Complex): (sq: real)
    ensures 0.0 <= sq
  {
    SquareSign(z.re);
    SquareSign(z.im);
    z.re * z.re + z.im * z.im
  }

  /** A square is never negative, and is positive for a nonzero value. */
  lemma SquareSign(x: real)
    ensures 0.0 <= x * x
    ensures x != 0.0 ==> 0.0 < x * x
  {
    if x > 0.0 {
      MulStrictMonotone(0.0, x, x);
      assert 0.0 * x == 0.0;
    } else if x < 0.0 {
      var y := -x;
      MulStrictMonotone(0.0, y, y);
      assert 0.0 * y == 0.0;
      assert y * y == x * x;
    }
  }

  /** `sqrt(re*re + im*im)`: the magnitude of one bin. */
  function Magnitude(m: Maths, z: Complex): real {
    m.sqrt(SquaredMagnitude(z))
  }

  /** The magnitude ignores the signs of both parts: a bin, its conjugate and
      its negation have the same magnitude, whatever `sqrt` is. */
  lemma MagnitudeIgnoresSigns(m: Maths, z: Complex)
    ensures Magnitude(m, Complex(z.re, -z.im)) == Magnitude(m, z)
    ensures Magnitude(m, Complex(-z.re, z.im)) == Magnitude(m, z)
    ensures Magnitude(m, Complex(-z.re, -z.im)) == Magnitude(m, z)
  {
    assert (-z.re) * (-z.re) == z.re * z.re;
    assert (-z.im) * (-z.im) == z.im * z.im;
    assert SquaredMagnitude(Complex(z.re, -z.im)) == SquaredMagnitude(z);
    assert SquaredMagnitude(Complex(-z.re, z.im)) == SquaredMagnitude(z);
    assert SquaredMagnitude(Complex(-z.re, -z.im)) == SquaredMagnitude(z);
  }

  /** Every entry of a row of levels lies in [0,1]. */
  predicate InUnit(row: seq<real>) {
    forall i :: 0 <= i < |row| ==> 0.0 <= row[i] <= 1.0
  }

  /** No entry of a row of levels is negative. */
  predicate NonNegative(row: seq<real>) {
    forall i :: 0 <= i < |row| ==> 0.0 <= row[i]
  }

  /** Multiplying by a nonnegative factor keeps the order. */
  lemma MulMonotone(x: real, y: real, c: real)
    requires x <= y && 0.0 <= c
    ensures x * c <= y * c
  {
  }

  /** Dividing by a positive divisor keeps the order. */
  lemma DivMonotone(x: real, y: real, c: real)
    requires x <= y && 0.0 < c
    ensures x / c <= y / c
  {
  }

  /** Multiplying by a positive factor keeps a strict order. */
  lemma MulStrictMonotone(x: real, y: real, c: real)
    requires x < y && 0.0 < c
    ensures x * c < y * c
  {
  }

  /** Integer multiplication agrees with real multiplication. */
  lemma ProductAsReal(a: int, b: int)
    ensures (a * b) as real == a as real * b as real
  {
  }

  /** A positive multiple of h is at least h. */
  lemma MulAtLeast(a: int, h: int)
    requires a >= 1 && h >= 1
    ensures a * h >= h
  {
  }

  /** Euclidean division is unique: writing x as q * h + r with 0 <= r < h fixes r
      as x % h. */
  lemma ModUnique(x: int, h: int, q: int, r: int)
    requires h >= 1 && 0 <= r < h && x == q * h + r
    ensures x % h == r
  {
    var q2, r2 := x / h, x % h;
    assert q2 * h + r2 == q * h + r;
    assert (q - q2) * h == r2 - r;
    if q > q2 {
      MulAtLeast(q - q2, h);
    } else if q < q2 {
      MulAtLeast(q2 - q, h);
    }
  }
}
