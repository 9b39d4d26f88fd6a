/** `PowerCepstrum` of src/pitch/cepstrum.rs, over the unpadded workspace of
    src/fft_space.rs: forward FFT, `ln |z|²`, inverse FFT, then the
    interpolated first maximum of the powers between the lags of `MAX_FREQ` and
    `MIN_FREQ` (src/core/constants.rs), reported as `sample_rate / lag`. */
module LegacyCepstrum {
  import opened Outcomes
  import opened Numerics
  import opened Core
  import opened FftWorkspace
  import opened LegacyFftWorkspace
  import opened LegacyConstants
  import opened LegacyPitch
  import Cepstrum

  datatype PowerCepstrum = PowerCepstrum

  /** The lag of the highest frequency never exceeds that of the lowest: for a
      negative sample rate both round to 0. */
  lemma LagOrder(sampleRate: real)
    ensures RoundToUsize(sampleRate / CORE_MAX_FREQ) <= RoundToUsize(sampleRate / CORE_MIN_FREQ)
  {
    if sampleRate >= 0.0 {
      assert sampleRate / CORE_MAX_FREQ <= sampleRate / CORE_MIN_FREQ;
      RoundToUsizeMonotone(sampleRate / CORE_MAX_FREQ, sampleRate / CORE_MIN_FREQ);
    } else {
      assert sampleRate / CORE_MAX_FREQ < 0.0;
    }
  }

  /** `relevant_fft_range(sample_rate)` (the same in src/pitch/autocorrelation.rs):
      the rounded lags of the highest and the lowest frequency. */
  function LagRange(sampleRate: real): (r: (nat, nat))
    ensures r.0 <= r.1
    ensures r.0 == RoundToUsize(sampleRate / CORE_MAX_FREQ) && r.1 == RoundToUsize(sampleRate / CORE_MIN_FREQ)
  {
    LagOrder(sampleRate);
    (RoundToUsize(sampleRate / CORE_MAX_FREQ), RoundToUsize(sampleRate / CORE_MIN_FREQ))
  }

  /** `detect_unscaled_freq(...).map(|point| sample_rate / (lower_limit + point.x))`
      over a lag spectrum that starts at lag `lower`. */
  function LagPitch(lower: nat, spectrum: seq<real>, sampleRate: real, fit: Fit): (r: Option<real>)
    ensures r.None? <==> UnscaledPeak(spectrum, fit).None?
  {
    match UnscaledPeak(spectrum, fit)
    case None => None
    case Some(point) => Some(Div(sampleRate, lower as real + point.x))
  }

  /** A lone spike at slot `i` of a spectrum cut to the lags `lower .. upper`
      is reported as the frequency of lag `lower + i`, which lies in
      `(sample_rate / upper, sample_rate / lower]`. */
  lemma LagPitchOfLoneSpike(lower: nat, upper: nat, spectrum: seq<real>, sampleRate: real, fit: Fit, i: nat)
    requires lower <= upper && |spectrum| <= upper - lower && i < |spectrum|
    requires forall j :: 0 <= j < |spectrum| && j != i ==> spectrum[j] < spectrum[i]
    requires i > 0 ==> spectrum[i - 1] <= 0.0
    requires i < |spectrum| - 1 ==> spectrum[i + 1] <= 0.0
    requires sampleRate > 0.0 && lower > 0
    ensures LagPitch(lower, spectrum, sampleRate, fit) == Some(sampleRate / (lower + i) as real)
    ensures sampleRate / upper as real < sampleRate / (lower + i) as real <= sampleRate / lower as real
  {
    UnscaledPeakOfLoneSpike(spectrum, fit, i);
    assert lower as real + i as real == (lower + i) as real;
    ReciprocalOrder(sampleRate, lower as real, (lower + i) as real, upper as real);
  }

  /** `a / c < a / b <= a / l` for `0 < l <= b < c`. */
  lemma ReciprocalOrder(a: real, l: real, b: real, c: real)
    requires a > 0.0 && 0.0 < l <= b < c
    ensures a / c < a / b <= a / l
  {
    assert a / c * c == a == a / b * b;
    assert a / l * l == a;
  }

  /** `unscaled_spectrum` of the transformed workspace: `freq_domain(false)`,
      the plain powers, of the lags `lower .. upper`. */
  function LagSpectrum(space: seq<Complex>, lower: nat, upper: nat): (s: seq<real>)
    requires lower <= upper
    ensures |s| <= upper - lower && (|s| == 0 || lower + |s| <= |space|)
    ensures forall k :: 0 <= k < |s| ==> s[k] == NormSqr(space[lower + k])
  {
    Window(Powers(space), lower, upper - lower)
  }

  /** What `detect_with_fft_space` reports for a transformed workspace. */
  function Pitch(space: seq<Complex>, sampleRate: real, fit: Fit): (r: Option<real>)
    ensures r.None? <==> UnscaledPeak(LagSpectrum(space, LagRange(sampleRate).0, LagRange(sampleRate).1), fit).None?
  {
    var range := LagRange(sampleRate);
    LagPitch(range.0, LagSpectrum(space, range.0, range.1), sampleRate, fit)
  }

  /** `process_fft(signal, fft_space)`: load, transform, `ln |z|²`, inverse. */
  method ProcessFft(signal: seq<real>, fftSpace: UnpaddedFftSpace, fft: Transform, ifft: Transform, ln: real -> real)
    requires fftSpace.Valid() && |signal| <= fftSpace.space.Length
    requires LengthPreserving(fft) && LengthPreserving(ifft)
    modifies fftSpace.space
    ensures fftSpace.space[..] == ifft(Cepstrum.LogPower(fft(Loaded(signal, fftSpace.space.Length)), ln))
  {
    fftSpace.InitFftSpace(signal);
    fftSpace.Process(fft);
    ghost var transformed := fftSpace.space[..];
    fftSpace.Map(c => Complex(ln(NormSqr(c)), 0.0));
    assert fftSpace.space[..] == Cepstrum.LogPower(transformed, ln);
    fftSpace.Process(ifft);
  }

  /** `detect_with_fft_space(signal, sample_rate, fft_space)`. */
  method DetectWithFftSpace(detector: PowerCepstrum, signal: seq<real>, sampleRate: real, fftSpace: UnpaddedFftSpace,
                            fft: Transform, ifft: Transform, ln: real -> real, fit: Fit)
    returns (r: Option<real>)
    requires fftSpace.Valid() && |signal| <= fftSpace.space.Length
    requires LengthPreserving(fft) && LengthPreserving(ifft)
    modifies fftSpace.space
    ensures fftSpace.space[..] == ifft(Cepstrum.LogPower(fft(Loaded(signal, fftSpace.space.Length)), ln))
    ensures r == Pitch(fftSpace.space[..], sampleRate, fit)
  {
    var range := LagRange(sampleRate);
    ProcessFft(signal, fftSpace, fft, ifft, ln);
    var spectrum := LagSpectrum(fftSpace.space[..], range.0, range.1);
    r := LagPitch(range.0, spectrum, sampleRate, fit);
  }
}
