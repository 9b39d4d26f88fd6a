/** Real-number and complex helpers shared by every component: `f64` is modelled
    as `real`, `Complex<f64>` as a pair of reals, and the few `f64` operations
    the components apply themselves (`round`, `as usize`, `signum`, iterator
    `skip`/`take`) are written out here. Foreign numerics (FFT, Hann window,
    logarithms, square roots, Gaussian fit) are passed in as function values. */
module Numerics {
  import opened Outcomes

  datatype Complex = Complex(re: real, im: real)

  const ZERO: Complex := Complex(0.0, 0.0)

  /** `Complex::norm_sqr`. */
  function NormSqr(c: Complex): (r: real)
    ensures r >= 0.0
    ensures c == ZERO ==> r == 0.0
  {
    c.re * c.re + c.im * c.im
  }

  function Conj(c: Complex): Complex {
    Complex(c.re, -c.im)
  }

  function Mul(a: Complex, b: Complex): Complex {
    Complex(a.re * b.re - a.im * b.im, a.re * b.im + a.im * b.re)
  }

  /** `z * z.conj()` is the real number `|z|²`. */
  lemma MulConjIsNormSqr(c: Complex)
    ensures Mul(c, Conj(c)) == Complex(NormSqr(c), 0.0)
  {
  }

  /** A transform (forward or inverse FFT) over a whole buffer; the only thing
      the model knows about it is that it keeps the buffer length. */
  type Transform = seq<Complex> -> seq<Complex>

  ghost predicate LengthPreserving(t: Transform) {
    forall s: seq<Complex> :: |t(s)| == |s|
  }

  /** Result of the foreign Gaussian fit `fitting::gaussian::fit`: `(mu, sigma, a)`. */
  datatype Gaussian = Gaussian(mu: real, sigma: real, a: real)

  /** The foreign Gaussian least-squares fit over `(x_vals, y_vals)`; `None` is a fit error. */
  type Fit = (seq<real>, seq<real>) -> Option<Gaussian>

  /** Rust `std::ops::Range<f64>`. */
  datatype FreqRange = FreqRange(start: real, end: real)

  function Min(a: int, b: int): int { if a <= b then a else b }

  function Max(a: int, b: int): int { if a >= b then a else b }

  /** `f64::floor` as an integer. */
  function Floor(x: real): (n: int)
    ensures n as real <= x < n as real + 1.0
  {
    x.Floor
  }

  /** `f64::round`: the nearest integer, halfway cases rounded away from zero. */
  function Round(x: real): (n: int)
    ensures -0.5 <= x - n as real <= 0.5
    ensures x - n as real == 0.5 ==> x < 0.0
    ensures x - n as real == -0.5 ==> x > 0.0
  {
    if x >= 0.0 then (x + 0.5).Floor else -((-x + 0.5).Floor)
  }

  lemma RoundMonotone(a: real, b: real)
    requires a <= b
    ensures Round(a) <= Round(b)
  {
  }

  /** `x.round() as usize`: Rust's float-to-integer cast saturates, so a negative
      rounded value becomes 0 (values above `usize::MAX` are not modelled). */
  function RoundToUsize(x: real): (n: nat)
    ensures Round(x) >= 0 ==> n == Round(x)
    ensures Round(x) < 0 ==> n == 0
  {
    Max(Round(x), 0)
  }

  lemma RoundToUsizeMonotone(a: real, b: real)
    requires a <= b
    ensures RoundToUsize(a) <= RoundToUsize(b)
  {
    RoundMonotone(a, b);
  }

  /** Real division. IEEE-754 division by zero (infinities, NaN) is outside the
      model: where a divisor can only be zero through foreign output, the
      quotient is taken to be 0.0. */
  function Div(a: real, b: real): (q: real)
    ensures b != 0.0 ==> q * b == a
  {
    if b == 0.0 then 0.0 else a / b
  }

  /** `a / b > t` evaluated in `f64` for finite `t` and `b` not `-0.0`: a positive
      number divided by `+0.0` is `+inf` (exceeds every `t`); `0.0 / 0.0` is NaN
      and a negative number over `+0.0` is `-inf` (neither exceeds). */
  predicate RatioExceeds(a: real, b: real, t: real) {
    if b == 0.0 then a > 0.0 else a / b > t
  }

  lemma RatioExceedsPositive(a: real, b: real, t: real)
    requires b > 0.0
    ensures RatioExceeds(a, b, t) <==> a > t * b
  {
    if a / b > t {
      assert a == (a / b) * b;
    } else {
      assert a == (a / b) * b;
    }
  }

  /** `num_traits::signum` on `f64`: `1.0` for positive numbers and `+0.0`,
      `-1.0` for negative numbers (`-0.0` and NaN are not modelled). */
  function Sign(x: real): (r: real)
    ensures r == 1.0 || r == -1.0
    ensures r == 1.0 <==> x >= 0.0
  {
    if x >= 0.0 then 1.0 else -1.0
  }

  /** `s.iter().skip(skip).take(take)` collected. */
  function Window<T>(s: seq<T>, skip: nat, take: nat): (w: seq<T>)
    ensures |w| == if skip >= |s| then 0 else Min(take, |s| - skip)
    ensures forall i :: 0 <= i < |w| ==> w[i] == s[skip + i]
  {
    if skip >= |s| then [] else s[skip..skip + Min(take, |s| - skip)]
  }

  /** `(lo..hi).map(|i| i as f64)` collected. */
  function IndexRange(lo: nat, hi: nat): (r: seq<real>)
    ensures |r| == if lo <= hi then hi - lo else 0
    ensures forall i :: 0 <= i < |r| ==> r[i] == (lo + i) as real
  {
    if lo < hi then seq(hi - lo, i => (lo + i) as real) else []
  }
}
