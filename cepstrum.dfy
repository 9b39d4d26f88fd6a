/** `PowerCepstrum` of pitch-detector/src/pitch/cepstrum.rs: forward FFT,
    log power, inverse FFT; the power of the result per quefrency bin; then
    the most prominent of the peaks a foreign peak finder reports. The FFTs,
    `ln` and the peak finder (`find_peaks_over_stddev`) are foreign. */
module Cepstrum {
  import opened Outcomes
  import opened Numerics
  import opened Core
  import opened FftWorkspace
  import opened Interpolation
  import opened Selection
  import FftSizing

  /** `bin_to_freq` and `freq_to_bin` alike: `sample_rate / x`. Division by
      zero (an infinite frequency in `f64`) is not modelled. */
  function QuefrencyToFreq(x: real, sampleRate: real): real {
    Div(sampleRate, x)
  }

  /** The mapping is its own inverse. */
  lemma QuefrencyRoundTrip(x: real, sampleRate: real)
    requires x != 0.0 && sampleRate != 0.0
    ensures QuefrencyToFreq(QuefrencyToFreq(x, sampleRate), sampleRate) == x
  {
    var y := sampleRate / x;
    assert y * x == sampleRate;
    assert y != 0.0;
    assert (sampleRate / y) * y == sampleRate;
  }

  /** A higher frequency is a lower quefrency. */
  lemma QuefrencyAntitone(a: real, b: real, sampleRate: real)
    requires 0.0 < a <= b && sampleRate > 0.0
    ensures QuefrencyToFreq(b, sampleRate) <= QuefrencyToFreq(a, sampleRate)
  {
    var qa, qb := sampleRate / a, sampleRate / b;
    assert qa * a == sampleRate && qb * b == sampleRate;
    assert qb * a <= qb * b;
  }

  /** What `into_frequency_domain` needs of its range: a positive sample rate
      and a range of positive frequencies, ordered so that `take(upper - lower)`
      does not underflow; without a range the signal must hold at least 3
      samples for the same reason. */
  predicate RangeAdmissible(freqRange: Option<(FreqRange, real)>, signalLen: nat) {
    match freqRange
    case None => signalLen >= 3
    case Some((range, sampleRate)) => sampleRate > 0.0 && 0.0 < range.start <= range.end
  }

  /** The quefrency bins of a range: the upper frequency gives the lower bin. */
  function BinRange(freqRange: Option<(FreqRange, real)>, signalLen: nat): (r: (nat, nat))
    requires RangeAdmissible(freqRange, signalLen)
    ensures r.0 <= r.1
    ensures freqRange.None? ==> r == (3, signalLen)
    ensures freqRange.Some? ==>
      r.0 == RoundToUsize(QuefrencyToFreq(freqRange.value.0.end, freqRange.value.1)) &&
      r.1 == RoundToUsize(QuefrencyToFreq(freqRange.value.0.start, freqRange.value.1))
  {
    match freqRange
    case None => (3, signalLen)
    case Some((range, sampleRate)) =>
      QuefrencyAntitone(range.start, range.end, sampleRate);
      RoundToUsizeMonotone(QuefrencyToFreq(range.end, sampleRate), QuefrencyToFreq(range.start, sampleRate));
      (RoundToUsize(QuefrencyToFreq(range.end, sampleRate)),
       RoundToUsize(QuefrencyToFreq(range.start, sampleRate)))
  }

  /** The power spectrum cut to a bin range: `iter().skip(lower).take(upper - lower)`
      over the squared norms. */
  function Spectrum(space: seq<Complex>, range: (nat, nat)): (s: seq<real>)
    requires range.0 <= range.1
    ensures |s| == if range.0 >= |space| then 0 else Min(range.1 - range.0, |space| - range.0)
    ensures forall k :: 0 <= k < |s| ==> s[k] == NormSqr(space[range.0 + k])
  {
    Window(Powers(space), range.0, range.1 - range.0)
  }

  /** The map step of `process_fft`: each slot replaced by `(ln |z|², 0)`. */
  function LogPower(space: seq<Complex>, ln: real -> real): (r: seq<Complex>)
    ensures |r| == |space|
    ensures forall i :: 0 <= i < |r| ==> r[i] == Complex(ln(NormSqr(space[i])), 0.0)
  {
    seq(|space|, i requires 0 <= i < |space| => Complex(ln(NormSqr(space[i])), 0.0))
  }

  /** The first sorted candidate is one of the peaks and is a greatest one; the
      second is a greatest of the others. */
  lemma SortedPeaksHead(candidates: seq<FrequencyBin>)
    requires |candidates| > 0
    ensures SortByMagnitudeDesc(candidates)[0] in candidates
    ensures forall k :: 0 <= k < |candidates| ==> candidates[k].magnitude <= SortByMagnitudeDesc(candidates)[0].magnitude
    ensures forall k :: 2 <= k < |candidates| ==> SortByMagnitudeDesc(candidates)[k].magnitude <= SortByMagnitudeDesc(candidates)[1].magnitude
  {
    var sorted := SortByMagnitudeDesc(candidates);
    assert sorted[0] in multiset(sorted);
    forall k | 0 <= k < |candidates| ensures candidates[k].magnitude <= sorted[0].magnitude {
      assert candidates[k] in multiset(sorted);
      var j :| 0 <= j < |sorted| && sorted[j] == candidates[k];
    }
  }

  /** The match in `detect_pitch_in_range` over the sorted candidates: with two
      or more, the best must be more than `threshold` times as strong as the
      runner-up; a single candidate is taken as it is; none is an error. */
  function PitchOfCandidates(startBin: nat, spectrum: seq<real>, candidates: seq<FrequencyBin>,
                             threshold: real, sampleRate: real, fit: Fit): (r: Result<real>)
    requires forall k :: 0 <= k < |candidates| ==> candidates[k].bin < |spectrum|
    ensures r == Err(IncorrectParameters) <==> |candidates| == 0
    ensures r == Err(NoPitchDetected) <==>
      |candidates| >= 2 && !RatioExceeds(candidates[0].magnitude, candidates[1].magnitude, threshold)
    ensures r.Err? && r.error == UnexpectedError ==>
      |candidates| > 0 && Interpolate(spectrum, candidates[0].bin, fit).Err?
    ensures r.Ok? ==>
      (|candidates| > 0 && Interpolate(spectrum, candidates[0].bin, fit).Ok? &&
       r.value == QuefrencyToFreq(Interpolate(spectrum, candidates[0].bin, fit).value.x + startBin as real, sampleRate))
  {
    if |candidates| == 0 then Err(IncorrectParameters)
    else if |candidates| >= 2 && !RatioExceeds(candidates[0].magnitude, candidates[1].magnitude, threshold) then
      Err(NoPitchDetected)
    else
      InterpolateErrors(spectrum, candidates[0].bin, fit);
      match Interpolate(spectrum, candidates[0].bin, fit)
      case Err(e) => Err(e)
      case Ok(p) => Ok(QuefrencyToFreq(p.x + startBin as real, sampleRate))
  }

  /** The whole of `detect_pitch_in_range` after the spectrum: peaks, sorted
      descending, then the prominence test. */
  function PitchOfSpectrum(startBin: nat, spectrum: seq<real>, sigmas: real, threshold: real,
                           sampleRate: real, peaks: PeakFinder, fit: Fit): (r: Result<real>)
    requires PeaksInSpectrum(peaks)
    ensures r == Err(IncorrectParameters) <==> |peaks(spectrum, sigmas)| == 0
  {
    var found := peaks(spectrum, sigmas);
    SortedPeaksInSpectrum(found, |spectrum|);
    PitchOfCandidates(startBin, spectrum, SortByMagnitudeDesc(found), threshold, sampleRate, fit)
  }

  /** With a positive runner-up, the test is `best > threshold * runner_up`:
      the pitch is either reported or lost to a fit error exactly then. */
  lemma ProminenceTest(startBin: nat, spectrum: seq<real>, candidates: seq<FrequencyBin>,
                       threshold: real, sampleRate: real, fit: Fit)
    requires forall k :: 0 <= k < |candidates| ==> candidates[k].bin < |spectrum|
    requires |candidates| >= 2 && candidates[1].magnitude > 0.0
    ensures PitchOfCandidates(startBin, spectrum, candidates, threshold, sampleRate, fit) != Err(NoPitchDetected)
      <==> candidates[0].magnitude > threshold * candidates[1].magnitude
  {
    RatioExceedsPositive(candidates[0].magnitude, candidates[1].magnitude, threshold);
  }

  /** The pitch of a spectrum with peaks is at the interpolated position of a
      strongest peak, unless the prominence test or the fit fails. */
  lemma PitchOfSpectrumStrongest(startBin: nat, spectrum: seq<real>, sigmas: real, threshold: real,
                                 sampleRate: real, peaks: PeakFinder, fit: Fit)
    requires PeaksInSpectrum(peaks)
    ensures var r := PitchOfSpectrum(startBin, spectrum, sigmas, threshold, sampleRate, peaks, fit);
      r.Ok? ==> exists k :: (0 <= k < |peaks(spectrum, sigmas)| &&
        (forall j :: 0 <= j < |peaks(spectrum, sigmas)| ==>
           peaks(spectrum, sigmas)[j].magnitude <= peaks(spectrum, sigmas)[k].magnitude) &&
        Interpolate(spectrum, peaks(spectrum, sigmas)[k].bin, fit).Ok? &&
        r.value == QuefrencyToFreq(Interpolate(spectrum, peaks(spectrum, sigmas)[k].bin, fit).value.x + startBin as real, sampleRate))
  {
    var found := peaks(spectrum, sigmas);
    var r := PitchOfSpectrum(startBin, spectrum, sigmas, threshold, sampleRate, peaks, fit);
    if r.Ok? {
      SortedPeaksInSpectrum(found, |spectrum|);
      SortedPeaksHead(found);
      var best := SortByMagnitudeDesc(found)[0];
      var k :| 0 <= k < |found| && found[k] == best;
    }
  }

  /** The candidate match of `detect_pitch_in_range`, step by step. */
  method SelectPitch(startBin: nat, spectrum: seq<real>, candidates: seq<FrequencyBin>,
                     threshold: real, sampleRate: real, fit: Fit) returns (r: Result<real>)
    requires forall k :: 0 <= k < |candidates| ==> candidates[k].bin < |spectrum|
    ensures r == PitchOfCandidates(startBin, spectrum, candidates, threshold, sampleRate, fit)
  {
    if |candidates| == 0 {
      return Err(IncorrectParameters);
    }
    if |candidates| >= 2 && !RatioExceeds(candidates[0].magnitude, candidates[1].magnitude, threshold) {
      return Err(NoPitchDetected);
    }
    var peak := InterpolatedPeakAt(spectrum, candidates[0].bin, fit);
    match peak {
      case Err(e) => r := Err(e);
      case Ok(p) => r := Ok(QuefrencyToFreq(p.x + startBin as real, sampleRate));
    }
  }

  /** `detect_pitch_in_range` after the spectrum is computed. */
  method SpectrumPitch(startBin: nat, spectrum: seq<real>, sigmas: real, threshold: real,
                       sampleRate: real, peaks: PeakFinder, fit: Fit) returns (r: Result<real>)
    requires PeaksInSpectrum(peaks)
    ensures r == PitchOfSpectrum(startBin, spectrum, sigmas, threshold, sampleRate, peaks, fit)
  {
    var candidates := peaks(spectrum, sigmas);
    SortedPeaksInSpectrum(candidates, |spectrum|);
    candidates := SortByMagnitudeDesc(candidates);
    r := SelectPitch(startBin, spectrum, candidates, threshold, sampleRate, fit);
  }

  class PowerCepstrum {
    var fftSpace: FftSpace?
    /** How many standard deviations a peak must stand out to be a candidate. */
    var sigmas: real
    /** How many times stronger than the runner-up the best candidate must be. */
    var prominenceThreshold: real
    ghost var Repr: set<object>

    ghost predicate Valid()
      reads this, fftSpace
    {
      this in Repr &&
      (fftSpace == null ==> Repr == {this}) &&
      (fftSpace != null ==>
        fftSpace.Valid() && Repr == {this, fftSpace, fftSpace.space, fftSpace.scratch})
    }

    /** `PowerCepstrum::default()`: both parameters zero. */
    constructor Default()
      ensures Valid() && fresh(Repr) && fftSpace == null
      ensures sigmas == 0.0 && prominenceThreshold == 0.0
    {
      fftSpace := null;
      sigmas := 0.0;
      prominenceThreshold := 0.0;
      Repr := {this};
    }

    /** `new_with_defaults()`: 6 standard deviations, 1.25 times the runner-up. */
    constructor NewWithDefaults()
      ensures Valid() && fresh(Repr) && fftSpace == null
      ensures sigmas == 6.0 && prominenceThreshold == 1.25
    {
      fftSpace := null;
      sigmas := 6.0;
      prominenceThreshold := 1.25;
      Repr := {this};
    }

    /** `new(sigmas, prominence_threshold)`. */
    constructor(sigmas: real, prominenceThreshold: real)
      ensures Valid() && fresh(Repr) && fftSpace == null
      ensures this.sigmas == sigmas && this.prominenceThreshold == prominenceThreshold
    {
      fftSpace := null;
      this.sigmas := sigmas;
      this.prominenceThreshold := prominenceThreshold;
      Repr := {this};
    }

    /** `with_sigmas(self, sigmas)`: the detector moved in comes back with only
        `sigmas` changed. */
    method WithSigmas(sigmas: real)
      modifies this
      ensures this.sigmas == sigmas
      ensures prominenceThreshold == old(prominenceThreshold) && fftSpace == old(fftSpace) && Repr == old(Repr)
    {
      this.sigmas := sigmas;
    }

    /** `with_promince_threshold(self, prominence_threshold)`. */
    method WithProminenceThreshold(prominenceThreshold: real)
      modifies this
      ensures this.prominenceThreshold == prominenceThreshold
      ensures sigmas == old(sigmas) && fftSpace == old(fftSpace) && Repr == old(Repr)
    {
      this.prominenceThreshold := prominenceThreshold;
    }

    /** The lazy creation at the start of `into_frequency_domain`. */
    method EnsureFftSpace(size: nat)
      requires Valid()
      modifies this
      ensures Valid() && fftSpace != null && fresh(Repr - old(Repr))
      ensures sigmas == old(sigmas) && prominenceThreshold == old(prominenceThreshold)
      ensures old(fftSpace) != null ==> fftSpace == old(fftSpace) && Repr == old(Repr)
      ensures old(fftSpace) == null ==> fftSpace.signalLen == size
    {
      if fftSpace == null {
        fftSpace := new FftSpace(size);
        Repr := {this, fftSpace, fftSpace.space, fftSpace.scratch};
      }
    }

    /** `process_fft`: forward transform, log power, inverse transform. */
    method ProcessFft(fft: Transform, ifft: Transform, ln: real -> real)
      requires Valid() && fftSpace != null && LengthPreserving(fft) && LengthPreserving(ifft)
      modifies fftSpace.space
      ensures fftSpace.space[..] == ifft(LogPower(fft(old(fftSpace.space[..])), ln))
    {
      fftSpace.Process(fft);
      ghost var transformed := fftSpace.space[..];
      fftSpace.Map(c => Complex(ln(NormSqr(c)), 0.0));
      assert fftSpace.space[..] == LogPower(transformed, ln);
      fftSpace.Process(ifft);
    }

    /** `into_frequency_domain(signal, freq_range)`. */
    method IntoFrequencyDomain(signal: seq<real>, freqRange: Option<(FreqRange, real)>,
                               fft: Transform, ifft: Transform, ln: real -> real)
      returns (startBin: nat, spectrum: seq<real>)
      requires Valid() && LengthPreserving(fft) && LengthPreserving(ifft)
      requires RangeAdmissible(freqRange, |signal|)
      requires fftSpace != null ==> |signal| <= fftSpace.space.Length
      modifies Repr
      ensures Valid() && fftSpace != null && fresh(Repr - old(Repr))
      ensures sigmas == old(sigmas) && prominenceThreshold == old(prominenceThreshold)
      ensures old(fftSpace) != null ==>
        fftSpace == old(fftSpace) && Repr == old(Repr) &&
        fftSpace.signalLen == old(fftSpace.signalLen) && fftSpace.space == old(fftSpace.space)
      ensures old(fftSpace) == null ==> fftSpace.signalLen == |signal|
      ensures |signal| <= fftSpace.space.Length
      ensures fftSpace.space[..] == ifft(LogPower(fft(Loaded(signal, fftSpace.space.Length)), ln))
      ensures startBin == BinRange(freqRange, |signal|).0
      ensures spectrum == Spectrum(fftSpace.space[..], BinRange(freqRange, |signal|))
    {
      EnsureFftSpace(|signal|);
      fftSpace.InitWithSignal(signal);
      ProcessFft(fft, ifft, ln);
      var range := BinRange(freqRange, |signal|);
      startBin := range.0;
      spectrum := Window(FreqDomainValues(fftSpace.space[..], false, x => x), range.0, range.1 - range.0);
      assert spectrum == Spectrum(fftSpace.space[..], range);
    }

    /** `detect_pitch_in_range(signal, sample_rate, freq_range)`. */
    method DetectPitchInRange(signal: seq<real>, sampleRate: real, freqRange: FreqRange,
                              fft: Transform, ifft: Transform, ln: real -> real,
                              peaks: PeakFinder, fit: Fit)
      returns (r: Result<real>)
      requires Valid() && LengthPreserving(fft) && LengthPreserving(ifft) && PeaksInSpectrum(peaks)
      requires sampleRate > 0.0 && 0.0 < freqRange.start <= freqRange.end
      requires fftSpace != null ==> |signal| <= fftSpace.space.Length
      modifies Repr
      ensures Valid() && fftSpace != null && fresh(Repr - old(Repr))
      ensures sigmas == old(sigmas) && prominenceThreshold == old(prominenceThreshold)
      ensures old(fftSpace) != null ==>
        fftSpace == old(fftSpace) && Repr == old(Repr) &&
        fftSpace.signalLen == old(fftSpace.signalLen) && fftSpace.space == old(fftSpace.space)
      ensures old(fftSpace) == null ==> fftSpace.signalLen == |signal|
      ensures |signal| <= fftSpace.space.Length
      ensures fftSpace.space[..] == ifft(LogPower(fft(Loaded(signal, fftSpace.space.Length)), ln))
      ensures r == PitchOfSpectrum(
        BinRange(Some((freqRange, sampleRate)), |signal|).0,
        Spectrum(fftSpace.space[..], BinRange(Some((freqRange, sampleRate)), |signal|)),
        sigmas, prominenceThreshold, sampleRate, peaks, fit)
    {
      var startBin, spectrum := IntoFrequencyDomain(signal, Some((freqRange, sampleRate)), fft, ifft, ln);
      r := SpectrumPitch(startBin, spectrum, sigmas, prominenceThreshold, sampleRate, peaks, fit);
    }
  }
}
