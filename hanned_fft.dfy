/** `HannedFftDetector` of pitch-detector/src/pitch/hanned_fft.rs: Hann window,
    forward FFT over the zero-padded workspace, square-rooted power spectrum
    normalised by `1 / sqrt(padded_len)`, then the interpolated maximum. The
    window coefficients (`apodize::hanning_iter`), the FFT and `sqrt` are foreign. */
module HannedFft {
  import opened Outcomes
  import opened Numerics
  import opened Core
  import opened FftWorkspace
  import opened FftBins
  import opened Interpolation
  import opened Selection
  import FftSizing

  /** `unscaled_spectrum(bin_range)`: the slots `lower .. upper` of the
      square-rooted spectrum, each scaled by `1 / sqrt(padded_len)`. */
  function NormalizedSpectrum(space: seq<Complex>, lower: nat, upper: nat, sqrt: real -> real): (s: seq<real>)
    requires lower <= upper
    ensures |s| == |Window(space, lower, upper - lower)|
    ensures forall k :: 0 <= k < |s| ==>
      s[k] == sqrt(NormSqr(space[lower + k])) * Div(1.0, sqrt(|space| as real))
  {
    var normalize := Div(1.0, sqrt(|space| as real));
    var values := FreqDomainValues(space, true, sqrt);
    var n := |Window(space, lower, upper - lower)|;
    seq(n, k requires 0 <= k < n => values[lower + k] * normalize)
  }

  /** A spectrum slice cut at `upper` never extends past `upper` nor the buffer. */
  lemma NormalizedSpectrumLength(space: seq<Complex>, lower: nat, upper: nat, sqrt: real -> real)
    requires lower <= upper
    ensures upper <= |space| ==> |NormalizedSpectrum(space, lower, upper, sqrt)| == upper - lower
    ensures lower + |NormalizedSpectrum(space, lower, upper, sqrt)| <= |space| || |NormalizedSpectrum(space, lower, upper, sqrt)| == 0
  {
  }

  /** The frequency of an interpolated summit whose bin is counted from `startBin`. */
  function SummitFrequency(summit: Result<FftPoint>, startBin: nat, sampleRate: real, paddedLen: nat): (r: Result<real>)
    requires paddedLen > 0
    ensures r.Ok? <==> summit.Ok?
    ensures r.Err? ==> r.error == summit.error
    ensures r.Ok? ==> r.value == BinToFreq(summit.value.x + startBin as real, sampleRate, paddedLen)
  {
    match summit
    case Err(e) => Err(e)
    case Ok(p) => Ok(BinToFreq(p.x + startBin as real, sampleRate, paddedLen))
  }

  /** A summit at or after bin 0 and no later than `lastBin` once offset by
      `startBin` lies between the frequencies of those two bins. */
  lemma SummitFrequencyWithin(summit: Result<FftPoint>, startBin: nat, lastBin: nat, sampleRate: real, paddedLen: nat)
    requires paddedLen > 0 && sampleRate > 0.0
    requires summit.Ok? && 0.0 <= summit.value.x && summit.value.x + startBin as real <= lastBin as real
    ensures SummitFrequency(summit, startBin, sampleRate, paddedLen).Ok?
    ensures BinToFreq(startBin as real, sampleRate, paddedLen) <= SummitFrequency(summit, startBin, sampleRate, paddedLen).value
    ensures SummitFrequency(summit, startBin, sampleRate, paddedLen).value <= BinToFreq(lastBin as real, sampleRate, paddedLen)
  {
    var x := summit.value.x + startBin as real;
    BinToFreqMonotone(startBin as real, x, sampleRate, paddedLen);
    BinToFreqMonotone(x, lastBin as real, sampleRate, paddedLen);
  }

  /** What `detect_pitch_in_range` computes from `(start_bin, spectrum)`: the
      frequency of the interpolated summit around the first maximum. */
  function PitchOfSpectrum(startBin: nat, spectrum: seq<real>, sampleRate: real, paddedLen: nat, fit: Fit): (r: Result<real>)
    requires paddedLen > 0
    ensures r == Err(IncorrectParameters) <==> |spectrum| == 0
    ensures r.Err? && |spectrum| > 0 ==> r.error == UnexpectedError
    ensures |spectrum| > 0 ==>
      r == SummitFrequency(Interpolate(spectrum, FirstMax(spectrum), fit), startBin, sampleRate, paddedLen)
  {
    if |spectrum| == 0 then Err(IncorrectParameters)
    else
      InterpolateErrors(spectrum, FirstMax(spectrum), fit);
      SummitFrequency(Interpolate(spectrum, FirstMax(spectrum), fit), startBin, sampleRate, paddedLen)
  }

  /** A greatest slot whose neighbours are not positive (a lone spike) is
      reported at its own bin's frequency. */
  lemma PitchOfLoneSpike(startBin: nat, spectrum: seq<real>, sampleRate: real, paddedLen: nat, fit: Fit, i: nat)
    requires paddedLen > 0 && i < |spectrum|
    requires forall j :: 0 <= j < |spectrum| && j != i ==> spectrum[j] < spectrum[i]
    requires i > 0 ==> spectrum[i - 1] <= 0.0
    requires i < |spectrum| - 1 ==> spectrum[i + 1] <= 0.0
    ensures PitchOfSpectrum(startBin, spectrum, sampleRate, paddedLen, fit) ==
      Ok(BinToFreq((startBin + i) as real, sampleRate, paddedLen))
  {
    FirstMaxUnique(spectrum, i);
    IsolatedPeak(spectrum, i, fit);
  }

  /** Unless the Gaussian fit is used (a run of three or more slots), the pitch
      is the frequency of a bin of the analysed range. */
  lemma PitchWithinRangeWithoutFit(startBin: nat, spectrum: seq<real>, sampleRate: real, paddedLen: nat, fit: Fit)
    requires paddedLen > 0 && sampleRate > 0.0 && |spectrum| > 0
    requires PeakEnd(spectrum, FirstMax(spectrum)) <= PeakBegin(spectrum, FirstMax(spectrum)) + 1
    ensures PitchOfSpectrum(startBin, spectrum, sampleRate, paddedLen, fit).Ok?
    ensures BinToFreq(startBin as real, sampleRate, paddedLen) <= PitchOfSpectrum(startBin, spectrum, sampleRate, paddedLen, fit).value
    ensures PitchOfSpectrum(startBin, spectrum, sampleRate, paddedLen, fit).value <= BinToFreq((startBin + |spectrum| - 1) as real, sampleRate, paddedLen)
  {
    var summit := Interpolate(spectrum, FirstMax(spectrum), fit);
    assert summit.Ok? && 0.0 <= summit.value.x <= (|spectrum| - 1) as real by {
      var i := FirstMax(spectrum);
      ShortRunSummit(spectrum, PeakBegin(spectrum, i), PeakEnd(spectrum, i), fit);
    }
    assert PitchOfSpectrum(startBin, spectrum, sampleRate, paddedLen, fit) ==
      SummitFrequency(summit, startBin, sampleRate, paddedLen);
    SummitFrequencyWithin(summit, startBin, startBin + |spectrum| - 1, sampleRate, paddedLen);
  }

  /** The steps of `detect_pitch_in_range` after the spectrum is computed: the
      first maximum (an empty spectrum is an error), its interpolated summit,
      and that summit's frequency. */
  method PeakFrequency(startBin: nat, spectrum: seq<real>, sampleRate: real, paddedLen: nat, fit: Fit)
    returns (r: Result<real>)
    requires paddedLen > 0
    ensures r == PitchOfSpectrum(startBin, spectrum, sampleRate, paddedLen, fit)
  {
    if |spectrum| == 0 {
      return Err(IncorrectParameters);
    }
    var maxBin := FirstMax(spectrum);
    var peak := InterpolatedPeakAt(spectrum, maxBin, fit);
    match peak {
      case Err(e) => r := Err(e);
      case Ok(p) => r := Ok(BinToFreq(p.x + startBin as real, sampleRate, paddedLen));
    }
  }

  class HannedFftDetector {
    /** `None` until the first call sizes it for that call's signal. */
    var fftSpace: FftSpace?
    ghost var Repr: set<object>

    ghost predicate Valid()
      reads this, fftSpace
    {
      this in Repr &&
      (fftSpace == null ==> Repr == {this}) &&
      (fftSpace != null ==>
        fftSpace.Valid() && Repr == {this, fftSpace, fftSpace.space, fftSpace.scratch})
    }

    /** `HannedFftDetector::default()`. */
    constructor()
      ensures Valid() && fresh(Repr) && fftSpace == null
    {
      fftSpace := null;
      Repr := {this};
    }

    /** The lazy creation at the start of `into_frequency_domain`: a workspace
        sized for the first signal, then kept. */
    method EnsureFftSpace(size: nat)
      requires Valid()
      modifies this
      ensures Valid() && fftSpace != null && fresh(Repr - old(Repr))
      ensures old(fftSpace) != null ==> fftSpace == old(fftSpace) && Repr == old(Repr)
      ensures old(fftSpace) == null ==> fftSpace.signalLen == size
    {
      if fftSpace == null {
        fftSpace := new FftSpace(size);
        Repr := {this, fftSpace, fftSpace.space, fftSpace.scratch};
      }
    }

    /** `process_fft`: window the first `signal_len` slots (the length the
        workspace was created for), then transform the whole buffer. */
    method ProcessFft(hann: nat -> seq<real>, fft: Transform)
      requires Valid() && fftSpace != null && LengthPreserving(fft)
      modifies fftSpace.space
      ensures fftSpace.space[..] == fft(Windowed(old(fftSpace.space[..]), hann(fftSpace.signalLen)))
    {
      fftSpace.ApplyWindow(hann(fftSpace.signalLen));
      fftSpace.Process(fft);
    }

    /** `into_frequency_domain(signal, freq_range)`. A later signal must fit the
        buffer sized by the first one (`init_with_signal` asserts it). */
    method IntoFrequencyDomain(signal: seq<real>, freqRange: Option<(FreqRange, real)>,
                               hann: nat -> seq<real>, fft: Transform, sqrt: real -> real)
      returns (startBin: nat, spectrum: seq<real>)
      requires Valid() && LengthPreserving(fft) && RangeHintAdmissible(freqRange)
      requires fftSpace != null ==> |signal| <= fftSpace.space.Length
      modifies Repr
      ensures Valid() && fftSpace != null && fresh(Repr - old(Repr))
      ensures old(fftSpace) != null ==>
        fftSpace == old(fftSpace) && Repr == old(Repr) &&
        fftSpace.signalLen == old(fftSpace.signalLen) && fftSpace.space == old(fftSpace.space)
      ensures old(fftSpace) == null ==> fftSpace.signalLen == |signal|
      ensures |signal| <= fftSpace.space.Length
      ensures fftSpace.space[..] ==
        fft(Windowed(Loaded(signal, fftSpace.space.Length), hann(fftSpace.signalLen)))
      ensures startBin == HannedBinRange(freqRange, fftSpace.space.Length, |signal|).0
      ensures spectrum == NormalizedSpectrum(fftSpace.space[..], startBin,
                                             HannedBinRange(freqRange, fftSpace.space.Length, |signal|).1, sqrt)
    {
      EnsureFftSpace(|signal|);
      fftSpace.InitWithSignal(signal);
      ProcessFft(hann, fft);
      var range := HannedBinRange(freqRange, fftSpace.space.Length, |signal|);
      startBin := range.0;
      spectrum := NormalizedSpectrum(fftSpace.space[..], range.0, range.1, sqrt);
    }

    /** `detect_pitch_in_range(signal, sample_rate, freq_range)`. */
    method DetectPitchInRange(signal: seq<real>, sampleRate: real, freqRange: FreqRange,
                              hann: nat -> seq<real>, fft: Transform, sqrt: real -> real, fit: Fit)
      returns (r: Result<real>)
      requires Valid() && LengthPreserving(fft)
      requires sampleRate > 0.0 && freqRange.start <= freqRange.end
      requires fftSpace != null ==> |signal| <= fftSpace.space.Length
      modifies Repr
      ensures Valid() && fftSpace != null && fresh(Repr - old(Repr))
      ensures old(fftSpace) != null ==>
        fftSpace == old(fftSpace) && Repr == old(Repr) &&
        fftSpace.signalLen == old(fftSpace.signalLen) && fftSpace.space == old(fftSpace.space)
      ensures old(fftSpace) == null ==> fftSpace.signalLen == |signal|
      ensures |signal| <= fftSpace.space.Length
      ensures fftSpace.space[..] ==
        fft(Windowed(Loaded(signal, fftSpace.space.Length), hann(fftSpace.signalLen)))
      ensures r == PitchOfSpectrum(
        HannedBinRange(Some((freqRange, sampleRate)), fftSpace.space.Length, |signal|).0,
        NormalizedSpectrum(fftSpace.space[..],
                           HannedBinRange(Some((freqRange, sampleRate)), fftSpace.space.Length, |signal|).0,
                           HannedBinRange(Some((freqRange, sampleRate)), fftSpace.space.Length, |signal|).1, sqrt),
        sampleRate, fftSpace.space.Length, fit)
    {
      var startBin, spectrum := IntoFrequencyDomain(signal, Some((freqRange, sampleRate)), hann, fft, sqrt);
      var paddedLen := fftSpace.space.Length;
      r := PeakFrequency(startBin, spectrum, sampleRate, paddedLen, fit);
    }
  }
}
