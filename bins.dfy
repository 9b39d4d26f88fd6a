/** The bin/frequency mapping of the FFT detectors (`bin_to_freq` and
    `freq_to_bin` of both `HannedFftDetector`s, and the raw-FFT range): a bin
    of a `paddedLen`-point transform is `sampleRate / paddedLen` Hz wide. */
module FftBins {
  import opened Outcomes
  import opened Numerics

  /** `bin * sample_rate / padded_len`. */
  function BinToFreq(bin: real, sampleRate: real, paddedLen: nat): real
    requires paddedLen > 0
  {
    bin * sampleRate / paddedLen as real
  }

  /** `freq * padded_len / sample_rate`. */
  function FreqToBin(freq: real, sampleRate: real, paddedLen: nat): real
    requires sampleRate != 0.0
  {
    freq * paddedLen as real / sampleRate
  }

  /** The two mappings are inverse to each other. */
  lemma BinFreqRoundTrip(x: real, sampleRate: real, paddedLen: nat)
    requires paddedLen > 0 && sampleRate != 0.0
    ensures FreqToBin(BinToFreq(x, sampleRate, paddedLen), sampleRate, paddedLen) == x
    ensures BinToFreq(FreqToBin(x, sampleRate, paddedLen), sampleRate, paddedLen) == x
  {
    var n := paddedLen as real;
    var f := BinToFreq(x, sampleRate, paddedLen);
    var b := FreqToBin(f, sampleRate, paddedLen);
    assert b * sampleRate * n == x * sampleRate * n;
    var b2 := FreqToBin(x, sampleRate, paddedLen);
    var f2 := BinToFreq(b2, sampleRate, paddedLen);
    assert f2 * n * sampleRate == x * n * sampleRate;
  }

  /** A higher bin is a higher frequency, for a positive sample rate. */
  lemma BinToFreqMonotone(a: real, b: real, sampleRate: real, paddedLen: nat)
    requires paddedLen > 0 && sampleRate > 0.0 && a <= b
    ensures BinToFreq(a, sampleRate, paddedLen) <= BinToFreq(b, sampleRate, paddedLen)
  {
    var n := paddedLen as real;
    assert (b - a) * sampleRate >= 0.0;
    assert (BinToFreq(b, sampleRate, paddedLen) - BinToFreq(a, sampleRate, paddedLen)) * n == (b - a) * sampleRate;
  }

  /** The precondition `into_frequency_domain` / `signal_to_spectrum` places on an
      optional `(range, sample_rate)`: a positive sample rate, since the divisor
      of `freq_to_bin`, and an ordered range, since `take(upper - lower)` on
      `usize` must not underflow. */
  predicate RangeHintAdmissible(freqRange: Option<(FreqRange, real)>) {
    freqRange.Some? ==> freqRange.value.1 > 0.0 && freqRange.value.0.start <= freqRange.value.0.end
  }

  /** The bin range of both Hann-windowed FFT detectors: the rounded bins of the
      range's ends, or the first half of the signal length without a range. */
  function HannedBinRange(freqRange: Option<(FreqRange, real)>, paddedLen: nat, signalLen: nat): (r: (nat, nat))
    requires RangeHintAdmissible(freqRange)
    ensures r.0 <= r.1
    ensures freqRange.None? ==> r == (0, signalLen / 2)
    ensures freqRange.Some? ==>
      r.0 == RoundToUsize(FreqToBin(freqRange.value.0.start, freqRange.value.1, paddedLen)) &&
      r.1 == RoundToUsize(FreqToBin(freqRange.value.0.end, freqRange.value.1, paddedLen))
  {
    match freqRange
    case None => (0, signalLen / 2)
    case Some((range, sampleRate)) =>
      var n := paddedLen as real;
      assert range.start * n <= range.end * n;
      assert range.start * n / sampleRate <= range.end * n / sampleRate;
      RoundToUsizeMonotone(FreqToBin(range.start, sampleRate, paddedLen), FreqToBin(range.end, sampleRate, paddedLen));
      (RoundToUsize(FreqToBin(range.start, sampleRate, paddedLen)),
       RoundToUsize(FreqToBin(range.end, sampleRate, paddedLen)))
  }

  /** The bins chosen for a non-negative frequency lie within half a bin width
      of that frequency. */
  lemma RangeBinWithinHalfBin(freq: real, sampleRate: real, paddedLen: nat)
    requires paddedLen > 0 && sampleRate > 0.0 && freq >= 0.0
    ensures var b := RoundToUsize(FreqToBin(freq, sampleRate, paddedLen));
      var f := BinToFreq(b as real, sampleRate, paddedLen);
      -0.5 * (sampleRate / paddedLen as real) <= f - freq <= 0.5 * (sampleRate / paddedLen as real)
  {
    var n := paddedLen as real;
    var x := FreqToBin(freq, sampleRate, paddedLen);
    NonNegativeQuotient(freq * n, sampleRate);
    var b := RoundToUsize(x);
    var d := b as real - x;
    assert -0.5 <= d <= 0.5;
    var f := BinToFreq(b as real, sampleRate, paddedLen);
    BinOffset(b as real, freq, sampleRate, n);
    assert f - freq == d * (sampleRate / n);
    ScaleBounded(d, sampleRate / n, f - freq);
  }

  lemma NonNegativeQuotient(a: real, b: real)
    requires a >= 0.0 && b > 0.0
    ensures a / b >= 0.0
  {
  }

  /** Going back from a bin `b` near `freq * n / sr` misses `freq` by the
      rounding offset scaled by the bin width. */
  lemma BinOffset(b: real, freq: real, sr: real, n: real)
    requires sr > 0.0 && n > 0.0
    ensures b * sr / n - freq == (b - freq * n / sr) * (sr / n)
  {
    var w := sr / n;
    assert b * sr / n == b * w;
    assert freq * n / sr * w == freq;
  }

  lemma ScaleBounded(d: real, w: real, e: real)
    requires -0.5 <= d <= 0.5 && w > 0.0 && e == d * w
    ensures -0.5 * w <= e <= 0.5 * w
  {
    ProductNonNegative(0.5 - d, w);
    ProductNonNegative(0.5 + d, w);
  }

  lemma ProductNonNegative(a: real, b: real)
    requires a >= 0.0 && b >= 0.0
    ensures a * b >= 0.0
  {
  }
}
