/** The iterator-based `AutocorrelationDetector` of src/frequency/autocorrelation.rs,
    over the unpadded workspace of src/fft_space.rs: the autocorrelation
    (forward FFT, `z * conj(z)`, inverse FFT) normalised by lag 0, the first
    slide down from lag 0 skipped, the rest cut into positive runs, and the
    run of greatest fitted amplitude reported as `sample_rate / mu`. */
module FrequencyAutocorrelation {
  import opened Outcomes
  import opened Numerics
  import opened Core
  import opened FftWorkspace
  import opened LegacyFftWorkspace
  import opened AutocorrelationPeaks
  import LegacyAutocorrelation
  import LegacyCepstrum

  datatype AutocorrelationDetector = AutocorrelationDetector

  /** Entries above this level at the start of the lag spectrum belong to the
      slide down from the peak at lag 0. */
  const FIRST_SLIDE: real := 0.001

  /** `spectrum(fft_space, (lower, upper))`: each slot of `lower .. upper` that
      the workspace has, paired with its index and its real part divided by
      the real part of slot 0. */
  function LagEntries(space: seq<Complex>, lower: nat, upper: nat): (r: seq<Entry>)
    requires lower <= upper
    ensures |r| == |Window(space, lower, upper - lower)|
    ensures forall k :: 0 <= k < |r| ==> lower + k < |space| && r[k] == (lower + k, Div(space[lower + k].re, space[0].re))
  {
    var lags := Window(space, lower, upper - lower);
    seq(|lags|, k requires 0 <= k < |lags| => (lower + k, Div(lags[k].re, space[0].re)))
  }

  /** The indices are absolute slot indices: exactly the slots of the window
      `[lower, upper)` that the workspace holds, in order. */
  lemma LagEntriesIndices(space: seq<Complex>, lower: nat, upper: nat)
    requires lower <= upper
    ensures |LagEntries(space, lower, upper)| == if lower >= |space| then 0 else Min(upper, |space|) - lower
    ensures forall e :: e in LagEntries(space, lower, upper) ==> lower <= e.0 < upper && e.0 < |space|
    ensures forall i :: lower <= i < Min(upper, |space|) ==>
      LagEntries(space, lower, upper)[i - lower] == (i, Div(space[i].re, space[0].re))
  {
    var r := LagEntries(space, lower, upper);
    forall e | e in r
      ensures lower <= e.0 < upper && e.0 < |space|
    {
      var k :| 0 <= k < |r| && r[k] == e;
    }
  }

  /** `detect_unscaled_freq` after `process_fft`: the strongest point the run
      iterator yields once the first slide is skipped. */
  function UnscaledPeak(space: seq<Complex>, lower: nat, upper: nat, fit: Fit): Option<FftPoint>
    requires lower <= upper
  {
    Strongest(Peaks(SkipAbove(LagEntries(space, lower, upper), FIRST_SLIDE), fit))
  }

  /** The points the iterator yields over the lag window of a sample rate. */
  function RunPeaks(space: seq<Complex>, sampleRate: real, fit: Fit): seq<FftPoint> {
    var range := LegacyCepstrum.LagRange(sampleRate);
    Peaks(SkipAbove(LagEntries(space, range.0, range.1), FIRST_SLIDE), fit)
  }

  /** What `detect_frequency_with_fft_space` reports for a transformed
      workspace: `sample_rate / partial.x`, with no offset, because the
      indices are already absolute. */
  function Pitch(space: seq<Complex>, sampleRate: real, fit: Fit): (r: Option<real>)
    ensures var range := LegacyCepstrum.LagRange(sampleRate);
      var peak := UnscaledPeak(space, range.0, range.1, fit);
      (r.None? <==> peak.None?) && (r.Some? ==> r.value == Div(sampleRate, peak.value.x))
  {
    var range := LegacyCepstrum.LagRange(sampleRate);
    match UnscaledPeak(space, range.0, range.1, fit)
    case None => None
    case Some(partial) => Some(Div(sampleRate, partial.x))
  }

  /** A frequency read off the strongest of `peaks` exists exactly when there
      is a peak, and comes from the earliest peak of greatest amplitude. */
  lemma FrequencyOfStrongest(peaks: seq<FftPoint>, sampleRate: real, r: Option<real>)
    requires r.None? <==> Strongest(peaks).None?
    requires r.Some? ==> r.value == Div(sampleRate, Strongest(peaks).value.x)
    ensures r.Some? <==> |peaks| > 0
    ensures r.Some? ==>
      exists i :: (0 <= i < |peaks| && r.value == Div(sampleRate, peaks[i].x)
        && (forall j :: 0 <= j < i ==> peaks[j].y < peaks[i].y)
        && (forall j :: 0 <= j < |peaks| ==> peaks[j].y <= peaks[i].y))
  {
    var best := Strongest(peaks);
    if best.Some? {
      var i :| 0 <= i < |peaks| && peaks[i] == best.value && (forall j :: 0 <= j < i ==> peaks[j].y < best.value.y);
      assert r.value == Div(sampleRate, peaks[i].x);
    }
  }

  /** The reported frequency comes from the earliest run of greatest fitted
      amplitude; there is one exactly when a run was fitted. */
  lemma PitchOfStrongestRun(space: seq<Complex>, sampleRate: real, fit: Fit)
    ensures Pitch(space, sampleRate, fit).Some? <==> |RunPeaks(space, sampleRate, fit)| > 0
    ensures Pitch(space, sampleRate, fit).Some? ==>
      exists i :: (0 <= i < |RunPeaks(space, sampleRate, fit)|
        && Pitch(space, sampleRate, fit).value == Div(sampleRate, RunPeaks(space, sampleRate, fit)[i].x)
        && (forall j :: 0 <= j < i ==> RunPeaks(space, sampleRate, fit)[j].y < RunPeaks(space, sampleRate, fit)[i].y)
        && (forall j :: 0 <= j < |RunPeaks(space, sampleRate, fit)| ==>
              RunPeaks(space, sampleRate, fit)[j].y <= RunPeaks(space, sampleRate, fit)[i].y))
  {
    var range := LegacyCepstrum.LagRange(sampleRate);
    assert UnscaledPeak(space, range.0, range.1, fit) == Strongest(RunPeaks(space, sampleRate, fit));
    FrequencyOfStrongest(RunPeaks(space, sampleRate, fit), sampleRate, Pitch(space, sampleRate, fit));
  }

  /** A lag spectrum that never rises above 0 gives no frequency. */
  lemma NoPositiveLagNoPitch(space: seq<Complex>, sampleRate: real, fit: Fit)
    requires var range := LegacyCepstrum.LagRange(sampleRate);
      forall e :: e in LagEntries(space, range.0, range.1) ==> e.1 <= 0.0
    ensures Pitch(space, sampleRate, fit) == None
  {
    var range := LegacyCepstrum.LagRange(sampleRate);
    NonPositiveStreamNoPeaks(LagEntries(space, range.0, range.1), FIRST_SLIDE, fit);
  }

  /** `process_fft(signal, fft_space)`: load the signal, transform, replace
      every slot by its power, transform back. */
  method ProcessFft(signal: seq<real>, fftSpace: UnpaddedFftSpace, fft: Transform, ifft: Transform)
    requires fftSpace.Valid() && |signal| <= fftSpace.space.Length
    requires LengthPreserving(fft) && LengthPreserving(ifft)
    modifies fftSpace.space
    ensures fftSpace.space[..] ==
      ifft(LegacyAutocorrelation.PowerProducts(fft(Loaded(signal, fftSpace.space.Length))))
  {
    fftSpace.InitFftSpace(signal);
    fftSpace.Process(fft);
    ghost var transformed := fftSpace.space[..];
    fftSpace.Map(LegacyAutocorrelation.ConjugateProduct);
    assert fftSpace.space[..] == LegacyAutocorrelation.PowerProducts(transformed);
    fftSpace.Process(ifft);
  }

  /** `detect_unscaled_freq(signal, fft_range, fft_space)`. */
  method DetectUnscaledFreq(signal: seq<real>, lower: nat, upper: nat, fftSpace: UnpaddedFftSpace,
                            fft: Transform, ifft: Transform, fit: Fit)
    returns (r: Option<FftPoint>)
    requires lower <= upper
    requires fftSpace.Valid() && |signal| <= fftSpace.space.Length
    requires LengthPreserving(fft) && LengthPreserving(ifft)
    modifies fftSpace.space
    ensures fftSpace.space[..] ==
      ifft(LegacyAutocorrelation.PowerProducts(fft(Loaded(signal, fftSpace.space.Length))))
    ensures r == UnscaledPeak(fftSpace.space[..], lower, upper, fit)
  {
    ProcessFft(signal, fftSpace, fft, ifft);
    var entries := SkipAbove(LagEntries(fftSpace.space[..], lower, upper), FIRST_SLIDE);
    var peaks := new AutocorrelationPeakIter(entries);
    r := peaks.Reduce(fit);
  }

  /** `detect_frequency_with_fft_space(signal, sample_rate, fft_space)`. */
  method DetectWithFftSpace(detector: AutocorrelationDetector, signal: seq<real>, sampleRate: real,
                            fftSpace: UnpaddedFftSpace, fft: Transform, ifft: Transform, fit: Fit)
    returns (r: Option<real>)
    requires fftSpace.Valid() && |signal| <= fftSpace.space.Length
    requires LengthPreserving(fft) && LengthPreserving(ifft)
    modifies fftSpace.space
    ensures fftSpace.space[..] ==
      ifft(LegacyAutocorrelation.PowerProducts(fft(Loaded(signal, fftSpace.space.Length))))
    ensures r == Pitch(fftSpace.space[..], sampleRate, fit)
  {
    var range := LegacyCepstrum.LagRange(sampleRate);
    var partial := DetectUnscaledFreq(signal, range.0, range.1, fftSpace, fft, ifft, fit);
    r := match partial
      case None => None
      case Some(p) => Some(Div(sampleRate, p.x));
  }
}
