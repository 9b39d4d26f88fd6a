/** `RawFftDetector` of src/pitch/raw_fft.rs: a zero-crossing gate, then the
    Hann-windowed forward FFT over the zero-padded workspace, the square-rooted
    spectrum between the bins of `MIN_FREQ` and `MAX_FREQ` (src/core/constants.rs),
    its interpolated first maximum, and that bin's frequency. */
module RawFft {
  import opened Outcomes
  import opened Numerics
  import opened Core
  import opened FftWorkspace
  import opened FftBins
  import opened LegacyConstants
  import opened LegacyPitch
  import opened ZeroCrossing
  import LegacyHannedFft
  import Hinted

  datatype RawFftDetector = RawFftDetector

  /** `relevant_fft_range(fft_space_len, sample_rate)`: the rounded bins of
      `MIN_FREQ` and `MAX_FREQ`, the same formula as the Hann detector's range. */
  function FftRange(paddedLen: nat, sampleRate: real): (r: (nat, nat))
    requires sampleRate > 0.0
    ensures r.0 <= r.1
  {
    var n := paddedLen as real;
    assert CORE_MIN_FREQ * n / sampleRate <= CORE_MAX_FREQ * n / sampleRate;
    RoundToUsizeMonotone(CORE_MIN_FREQ * n / sampleRate, CORE_MAX_FREQ * n / sampleRate);
    (RoundToUsize(CORE_MIN_FREQ * n / sampleRate), RoundToUsize(CORE_MAX_FREQ * n / sampleRate))
  }

  /** The raw detector's range is the Hann detector's range for the fixed
      frequency limits. */
  lemma FftRangeIsHannedRange(paddedLen: nat, sampleRate: real)
    requires sampleRate > 0.0
    ensures FftRange(paddedLen, sampleRate) ==
      HannedBinRange(Some((FreqRange(CORE_MIN_FREQ, CORE_MAX_FREQ), sampleRate)), paddedLen, 0)
  {
  }

  /** The gate of `detect_with_fft_space`: a crossing rate neither below
      `MIN_ZERO_CROSSING_RATE` nor above twice `MAX_FREQ`. */
  predicate RateAdmissible(rate: real) {
    !(rate < CORE_MIN_ZERO_CROSSING_RATE || rate > CORE_MAX_FREQ * 2.0)
  }

  /** The frequency of the interpolated first maximum of a spectrum whose
      slot 0 is bin `start`. */
  function PeakFrequency(start: nat, spectrum: seq<real>, sampleRate: real, paddedLen: nat, fit: Fit): (r: Option<real>)
    requires paddedLen > 0
    ensures r.None? <==> UnscaledPeak(spectrum, fit).None?
  {
    match UnscaledPeak(spectrum, fit)
    case None => None
    case Some(point) => Some(BinToFreq(start as real + point.x, sampleRate, paddedLen))
  }

  /** What `detect_with_fft_space` returns once the gate has seen `rate` and
      the workspace holds the transformed signal. */
  function Pitch(rate: real, space: seq<Complex>, sampleRate: real, sqrt: real -> real, fit: Fit): (r: Option<real>)
    requires sampleRate > 0.0 && |space| > 0
    ensures r.Some? ==> RateAdmissible(rate)
  {
    if rate < CORE_MIN_ZERO_CROSSING_RATE || rate > CORE_MAX_FREQ * 2.0 then None
    else
      var range := FftRange(|space|, sampleRate);
      PeakFrequency(range.0, LegacyHannedFft.UnscaledSpectrum(space, range.0, range.1, sqrt), sampleRate, |space|, fit)
  }

  /** Past the gate, the raw detector is the default `detect` over its own
      range with the FFT bin-to-frequency mapping. */
  lemma PitchIsDefaultDetect(rate: real, space: seq<Complex>, sampleRate: real, sqrt: real -> real, fit: Fit)
    requires sampleRate > 0.0 && |space| > 0 && RateAdmissible(rate)
    ensures Pitch(rate, space, sampleRate, sqrt, fit) ==
      Detect(FftRange(|space|, sampleRate).0,
             LegacyHannedFft.UnscaledSpectrum(space, FftRange(|space|, sampleRate).0, FftRange(|space|, sampleRate).1, sqrt),
             Hinted.HannedMapper(sampleRate, |space|), fit)
  {
    var range := FftRange(|space|, sampleRate);
    var spectrum := LegacyHannedFft.UnscaledSpectrum(space, range.0, range.1, sqrt);
    DetectWithHannedMapper(range.0, spectrum, sampleRate, |space|, fit);
  }

  /** The default `detect` with the FFT mapping reports bin `start + x`. */
  lemma DetectWithHannedMapper(start: nat, spectrum: seq<real>, sampleRate: real, paddedLen: nat, fit: Fit)
    requires paddedLen > 0
    ensures Detect(start, spectrum, Hinted.HannedMapper(sampleRate, paddedLen), fit) ==
      PeakFrequency(start, spectrum, sampleRate, paddedLen, fit)
  {
    var mapper := Hinted.HannedMapper(sampleRate, paddedLen);
    match UnscaledPeak(spectrum, fit)
    case None =>
    case Some(point) =>
      var bin := start as real + point.x;
      assert point.x + start as real == bin;
      assert mapper(bin) == BinToFreq(bin, sampleRate, paddedLen);
  }

  /** A signal that never changes sign has crossing rate 0 and is rejected
      before any transform. */
  lemma OneSidedSignalRejected(signal: seq<real>, space: seq<Complex>, sampleRate: real, sqrt: real -> real, fit: Fit)
    requires |signal| > 0 && sampleRate > 0.0 && |space| > 0
    requires (forall i :: 0 <= i < |signal| ==> signal[i] >= 0.0) || (forall i :: 0 <= i < |signal| ==> signal[i] < 0.0)
    ensures Pitch(ZeroCrossingRate(signal, sampleRate), space, sampleRate, sqrt, fit) == None
  {
    OneSidedNoCrossing(signal);
    CountIsSignChanges(signal);
    ZeroCrossingRateZero(signal, sampleRate);
  }

  /** `detect_with_fft_space(sample_rate, fft_space)`: the gate reads the
      workspace's signal; only past it is the workspace transformed. */
  method DetectWithFftSpace(detector: RawFftDetector, sampleRate: real, fftSpace: FftSpace,
                            hann: nat -> seq<real>, fft: Transform, sqrt: real -> real, fit: Fit)
    returns (r: Option<real>)
    requires fftSpace.Valid() && fftSpace.signalLen > 0 && sampleRate > 0.0 && LengthPreserving(fft)
    modifies fftSpace.space
    ensures RateAdmissible(ZeroCrossingRate(old(fftSpace.Signal()), sampleRate)) ==>
      fftSpace.space[..] == fft(Windowed(old(fftSpace.space[..]), hann(fftSpace.signalLen)))
    ensures !RateAdmissible(ZeroCrossingRate(old(fftSpace.Signal()), sampleRate)) ==>
      fftSpace.space[..] == old(fftSpace.space[..])
    ensures r == Pitch(ZeroCrossingRate(old(fftSpace.Signal()), sampleRate), fftSpace.space[..], sampleRate, sqrt, fit)
  {
    var rate := ZeroCrossingRate(fftSpace.Signal(), sampleRate);
    if rate < CORE_MIN_ZERO_CROSSING_RATE || rate > CORE_MAX_FREQ * 2.0 {
      return None;
    }
    fftSpace.ApplyWindow(hann(fftSpace.signalLen));
    fftSpace.Process(fft);
    r := Pitch(rate, fftSpace.space[..], sampleRate, sqrt, fit);
  }
}
