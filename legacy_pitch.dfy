/** The default `PitchDetector::detect` of the root crate's src/pitch.rs and
    the `detect_unscaled_freq` step its detectors share: the first maximum of
    the spectrum, its interpolated summit (the `Result` of
    `interpolated_peak_at` turned into an `Option`), and the mapping of that
    summit's bin to a frequency. */
module LegacyPitch {
  import opened Outcomes
  import opened Numerics
  import opened Core
  import opened Interpolation
  import opened Selection

  /** The `reduce(...)?` to the first maximum, then `interpolated_peak_at(...)`. */
  function UnscaledPeak(spectrum: seq<real>, fit: Fit): (r: Option<FftPoint>)
    ensures r.None? <==> |spectrum| == 0 || Interpolate(spectrum, FirstMax(spectrum), fit).Err?
    ensures r.None? && |spectrum| > 0 ==> PeakEnd(spectrum, FirstMax(spectrum)) >= PeakBegin(spectrum, FirstMax(spectrum)) + 2
    ensures r.Some? ==> r == Interpolate(spectrum, FirstMax(spectrum), fit).ToOption()
  {
    if |spectrum| == 0 then None
    else
      InterpolateErrors(spectrum, FirstMax(spectrum), fit);
      Interpolate(spectrum, FirstMax(spectrum), fit).ToOption()
  }

  /** A strictly greatest slot whose neighbours are not positive (a lone
      spike) is the unscaled peak, at its own index. */
  lemma UnscaledPeakOfLoneSpike(spectrum: seq<real>, fit: Fit, i: nat)
    requires i < |spectrum|
    requires forall j :: 0 <= j < |spectrum| && j != i ==> spectrum[j] < spectrum[i]
    requires i > 0 ==> spectrum[i - 1] <= 0.0
    requires i < |spectrum| - 1 ==> spectrum[i + 1] <= 0.0
    ensures UnscaledPeak(spectrum, fit) == Some(FftPoint(i as real, spectrum[i]))
  {
    FirstMaxUnique(spectrum, i);
    IsolatedPeak(spectrum, i, fit);
  }

  /** Without a Gaussian fit (a run of at most two slots around the maximum)
      the peak is found and lies inside the spectrum. */
  lemma UnscaledPeakWithoutFit(spectrum: seq<real>, fit: Fit)
    requires |spectrum| > 0
    requires PeakEnd(spectrum, FirstMax(spectrum)) <= PeakBegin(spectrum, FirstMax(spectrum)) + 1
    ensures UnscaledPeak(spectrum, fit).Some?
    ensures 0.0 <= UnscaledPeak(spectrum, fit).value.x <= (|spectrum| - 1) as real
  {
    var i := FirstMax(spectrum);
    var b, e := PeakBegin(spectrum, i), PeakEnd(spectrum, i);
    var summit := Summit(spectrum, b, e, fit);
    assert summit == Interpolate(spectrum, i, fit);
    assert summit.Ok? && b as real <= summit.value.x <= e as real by {
      if e == b {
      } else if spectrum[b] > spectrum[e] {
      } else {
      }
    }
  }

  /** `PitchDetector::detect` after `signal_to_spectrum`: the unscaled peak's
      bin, offset by the range's first bin, through the detector's `bin_to_freq`. */
  function Detect(startBin: nat, spectrum: seq<real>, binToFreq: real -> real, fit: Fit): (r: Option<real>)
    ensures r.None? <==> UnscaledPeak(spectrum, fit).None?
  {
    match UnscaledPeak(spectrum, fit)
    case None => None
    case Some(p) => Some(binToFreq(p.x + startBin as real))
  }

  /** A lone spike at slot `i` of the spectrum is reported at the frequency of
      bin `startBin + i`. */
  lemma DetectLoneSpike(startBin: nat, spectrum: seq<real>, binToFreq: real -> real, fit: Fit, i: nat)
    requires i < |spectrum|
    requires forall j :: 0 <= j < |spectrum| && j != i ==> spectrum[j] < spectrum[i]
    requires i > 0 ==> spectrum[i - 1] <= 0.0
    requires i < |spectrum| - 1 ==> spectrum[i + 1] <= 0.0
    ensures Detect(startBin, spectrum, binToFreq, fit) == Some(binToFreq((startBin + i) as real))
  {
    UnscaledPeakOfLoneSpike(spectrum, fit, i);
    assert i as real + startBin as real == (startBin + i) as real;
  }
}
