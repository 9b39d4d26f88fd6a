/** The older `HannedFftDetector` of src/pitch/hanned_fft.rs: the same lazy,
    zero-padded workspace, Hann window and forward FFT as the current crate's,
    but the square-rooted spectrum is not normalised and `detect` is the
    default `PitchDetector::detect` returning an `Option`. */
module LegacyHannedFft {
  import opened Outcomes
  import opened Numerics
  import opened FftWorkspace
  import opened FftBins
  import LegacyPitch
  import Hinted

  /** `unscaled_spectrum(bin_range)`: the square-rooted powers of the slots
      `lower .. upper`, as they are. */
  function UnscaledSpectrum(space: seq<Complex>, lower: nat, upper: nat, sqrt: real -> real): (s: seq<real>)
    requires lower <= upper
    ensures |s| == |Window(space, lower, upper - lower)|
    ensures upper <= |space| ==> |s| == upper - lower
    ensures forall k :: 0 <= k < |s| ==> s[k] == sqrt(NormSqr(space[lower + k]))
  {
    Window(FreqDomainValues(space, true, sqrt), lower, upper - lower)
  }

  class HannedFftDetector {
    /** `None` until the first call sizes it for that call's signal. */
    var fftSpace: FftSpace?
    ghost var Repr: set<object>

    ghost predicate Valid()
      reads this, fftSpace
    {
      this in Repr &&
      (fftSpace == null ==> Repr == {this}) &&
      (fftSpace != null ==>
        fftSpace.Valid() && Repr == {this, fftSpace, fftSpace.space, fftSpace.scratch})
    }

    /** `HannedFftDetector::default()`. */
    constructor()
      ensures Valid() && fresh(Repr) && fftSpace == null
    {
      fftSpace := null;
      Repr := {this};
    }

    /** The lazy creation at the start of `signal_to_spectrum`. */
    method EnsureFftSpace(size: nat)
      requires Valid()
      modifies this
      ensures Valid() && fftSpace != null && fresh(Repr - old(Repr))
      ensures old(fftSpace) != null ==> fftSpace == old(fftSpace) && Repr == old(Repr)
      ensures old(fftSpace) == null ==> fftSpace.signalLen == size
    {
      if fftSpace == null {
        fftSpace := new FftSpace(size);
        Repr := {this, fftSpace, fftSpace.space, fftSpace.scratch};
      }
    }

    /** `process_fft`: `s.re *= h` over the Hann window of the workspace's
        signal length, then the forward transform. */
    method ProcessFft(hann: nat -> seq<real>, fft: Transform)
      requires Valid() && fftSpace != null && LengthPreserving(fft)
      modifies fftSpace.space
      ensures fftSpace.space[..] == fft(Windowed(old(fftSpace.space[..]), hann(fftSpace.signalLen)))
    {
      fftSpace.ApplyWindow(hann(fftSpace.signalLen));
      fftSpace.Process(fft);
    }

    /** `signal_to_spectrum(signal, freq_range)`. A later signal must fit the
        buffer sized by the first one. */
    method SignalToSpectrum(signal: seq<real>, freqRange: Option<(FreqRange, real)>,
                            hann: nat -> seq<real>, fft: Transform, sqrt: real -> real)
      returns (startBin: nat, spectrum: seq<real>)
      requires Valid() && LengthPreserving(fft) && RangeHintAdmissible(freqRange)
      requires fftSpace != null ==> |signal| <= fftSpace.space.Length
      modifies Repr
      ensures Valid() && fftSpace != null && fresh(Repr - old(Repr))
      ensures old(fftSpace) != null ==>
        fftSpace == old(fftSpace) && Repr == old(Repr) &&
        fftSpace.signalLen == old(fftSpace.signalLen) && fftSpace.space == old(fftSpace.space)
      ensures old(fftSpace) == null ==> fftSpace.signalLen == |signal|
      ensures |signal| <= fftSpace.space.Length
      ensures fftSpace.space[..] ==
        fft(Windowed(Loaded(signal, fftSpace.space.Length), hann(fftSpace.signalLen)))
      ensures startBin == HannedBinRange(freqRange, fftSpace.space.Length, |signal|).0
      ensures spectrum == UnscaledSpectrum(fftSpace.space[..], startBin,
                                          HannedBinRange(freqRange, fftSpace.space.Length, |signal|).1, sqrt)
    {
      EnsureFftSpace(|signal|);
      fftSpace.InitWithSignal(signal);
      ProcessFft(hann, fft);
      var range := HannedBinRange(freqRange, fftSpace.space.Length, |signal|);
      startBin := range.0;
      spectrum := UnscaledSpectrum(fftSpace.space[..], range.0, range.1, sqrt);
    }

    /** `PitchDetector::detect(signal, sample_rate, freq_range_hint)`. */
    method Detect(signal: seq<real>, sampleRate: real, freqRangeHint: Option<FreqRange>,
                  hann: nat -> seq<real>, fft: Transform, sqrt: real -> real, fit: Fit)
      returns (r: Option<real>)
      requires Valid() && LengthPreserving(fft)
      requires RangeHintAdmissible(Hinted.RangeHint(freqRangeHint, sampleRate))
      requires fftSpace != null ==> |signal| <= fftSpace.space.Length
      modifies Repr
      ensures Valid() && fftSpace != null && fresh(Repr - old(Repr))
      ensures old(fftSpace) != null ==>
        fftSpace == old(fftSpace) && Repr == old(Repr) &&
        fftSpace.signalLen == old(fftSpace.signalLen) && fftSpace.space == old(fftSpace.space)
      ensures old(fftSpace) == null ==> fftSpace.signalLen == |signal|
      ensures |signal| <= fftSpace.space.Length
      ensures fftSpace.space[..] ==
        fft(Windowed(Loaded(signal, fftSpace.space.Length), hann(fftSpace.signalLen)))
      ensures r == LegacyPitch.Detect(
        HannedBinRange(Hinted.RangeHint(freqRangeHint, sampleRate), fftSpace.space.Length, |signal|).0,
        UnscaledSpectrum(fftSpace.space[..],
                         HannedBinRange(Hinted.RangeHint(freqRangeHint, sampleRate), fftSpace.space.Length, |signal|).0,
                         HannedBinRange(Hinted.RangeHint(freqRangeHint, sampleRate), fftSpace.space.Length, |signal|).1, sqrt),
        Hinted.HannedMapper(sampleRate, fftSpace.space.Length), fit)
    {
      var startBin, spectrum := SignalToSpectrum(signal, Hinted.RangeHint(freqRangeHint, sampleRate), hann, fft, sqrt);
      var paddedLen := fftSpace.space.Length;
      r := LegacyPitch.Detect(startBin, spectrum, Hinted.HannedMapper(sampleRate, paddedLen), fit);
    }
  }
}
