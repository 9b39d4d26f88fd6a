/** `AutocorrelationDetector` of src/pitch/autocorrelation.rs, over the
    zero-padded workspace: forward FFT, `z * conj(z)`, inverse FFT (the
    autocorrelation), the real parts of the lags of `MAX_FREQ` .. `MIN_FREQ`
    divided by the lag-0 value, and `sample_rate / lag` of the interpolated
    first maximum. */
module LegacyAutocorrelation {
  import opened Outcomes
  import opened Numerics
  import opened Core
  import opened FftWorkspace
  import opened LegacyPitch
  import opened LegacyCepstrum

  datatype AutocorrelationDetector = AutocorrelationDetector

  /** `f * f.conj()`: the slot's power as a real number. */
  function ConjugateProduct(c: Complex): (p: Complex)
    ensures p == Complex(NormSqr(c), 0.0) && p.re >= 0.0
  {
    MulConjIsNormSqr(c);
    Mul(c, Conj(c))
  }

  /** The `map(|f| f * f.conj())` of `process_fft`: every slot becomes its
      power, a non-negative real number. */
  function PowerProducts(space: seq<Complex>): (r: seq<Complex>)
    ensures |r| == |space|
    ensures forall i :: 0 <= i < |r| ==> r[i] == ConjugateProduct(space[i])
  {
    seq(|space|, i requires 0 <= i < |space| => ConjugateProduct(space[i]))
  }

  /** `unscaled_spectrum(fft_space, (lower, upper))`: the real parts of the
      lags `lower .. upper`, each divided by the real part of lag 0. */
  function NormalizedLags(space: seq<Complex>, lower: nat, upper: nat): (s: seq<real>)
    requires |space| > 0 && lower <= upper
    ensures |s| == |Window(space, lower, upper - lower)| && |s| <= upper - lower
    ensures forall k :: 0 <= k < |s| ==> s[k] == Div(space[lower + k].re, space[0].re)
  {
    var lags := Window(space, lower, upper - lower);
    seq(|lags|, k requires 0 <= k < |lags| => Div(lags[k].re, space[0].re))
  }

  /** Lag 0 normalised by itself is 1, when it is not 0. */
  lemma NormalizedLagZero(space: seq<Complex>, upper: nat)
    requires |space| > 0 && upper > 0 && space[0].re != 0.0
    ensures NormalizedLags(space, 0, upper)[0] == 1.0
  {
  }

  /** What `detect_with_fft_space` reports for a transformed workspace. */
  function Pitch(space: seq<Complex>, sampleRate: real, fit: Fit): (r: Option<real>)
    requires |space| > 0
    ensures r.None? <==> UnscaledPeak(NormalizedLags(space, LagRange(sampleRate).0, LagRange(sampleRate).1), fit).None?
  {
    var range := LagRange(sampleRate);
    LagPitch(range.0, NormalizedLags(space, range.0, range.1), sampleRate, fit)
  }

  /** `process_fft(fft_space)`: transform the loaded workspace, take each
      slot's power, transform back. */
  method ProcessFft(fftSpace: FftSpace, fft: Transform, ifft: Transform)
    requires fftSpace.Valid() && LengthPreserving(fft) && LengthPreserving(ifft)
    modifies fftSpace.space
    ensures fftSpace.space[..] == ifft(PowerProducts(fft(old(fftSpace.space[..]))))
  {
    fftSpace.Process(fft);
    ghost var transformed := fftSpace.space[..];
    fftSpace.Map(ConjugateProduct);
    assert fftSpace.space[..] == PowerProducts(transformed);
    fftSpace.Process(ifft);
  }

  /** `detect_with_fft_space(sample_rate, fft_space)`; the workspace already
      holds the signal. */
  method DetectWithFftSpace(detector: AutocorrelationDetector, sampleRate: real, fftSpace: FftSpace,
                            fft: Transform, ifft: Transform, fit: Fit)
    returns (r: Option<real>)
    requires fftSpace.Valid()
    requires LengthPreserving(fft) && LengthPreserving(ifft)
    modifies fftSpace.space
    ensures fftSpace.space[..] == ifft(PowerProducts(fft(old(fftSpace.space[..]))))
    ensures r == Pitch(fftSpace.space[..], sampleRate, fit)
  {
    var range := LagRange(sampleRate);
    ProcessFft(fftSpace, fft, ifft);
    var spectrum := NormalizedLags(fftSpace.space[..], range.0, range.1);
    r := LagPitch(range.0, spectrum, sampleRate, fit);
  }
}
