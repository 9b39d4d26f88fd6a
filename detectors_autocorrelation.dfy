/** The `AutocorrelationDetector` of src/detectors/autocorrelation.rs: the same
    analysis as src/frequency/autocorrelation.rs at the fixed `SAMPLE_RATE`
    and frequency limits of src/constants.rs, on a workspace the detector
    owns. Its iterator yields `Partial { freq: SAMPLE_RATE / mu, intensity:
    amplitude }` where the other yields `(mu, amplitude)`; the model runs the
    shared run iterator and proves that mapping its strongest point gives the
    strongest partial. */
module DetectorsAutocorrelation {
  import opened Outcomes
  import opened Numerics
  import opened Core
  import opened LegacyConstants
  import opened FftWorkspace
  import opened LegacyFftWorkspace
  import opened AutocorrelationPeaks
  import LegacyAutocorrelation
  import FrequencyAutocorrelation

  /** `Partial` of src/lib.rs. */
  datatype Partial = Partial(freq: real, intensity: real)

  /** What `next()` yields for a fitted `(mu, amplitude)`. */
  function PartialOf(p: FftPoint): Partial {
    Partial(Div(DETECTOR_SAMPLE_RATE, p.x), p.y)
  }

  function Partials(points: seq<FftPoint>): (r: seq<Partial>)
    ensures |r| == |points| && forall i :: 0 <= i < |points| ==> r[i] == PartialOf(points[i])
  {
    seq(|points|, i requires 0 <= i < |points| => PartialOf(points[i]))
  }

  /** `reduce(|accum, partial| if partial.intensity > accum.intensity { partial } else { accum })`
      over the first `n` partials. */
  function StrongestPartialUpTo(partials: seq<Partial>, n: nat): (r: Option<Partial>)
    requires n <= |partials|
    ensures r.None? <==> n == 0
    ensures r.Some? ==> exists i :: (0 <= i < n && partials[i] == r.value
      && (forall j :: 0 <= j < i ==> partials[j].intensity < r.value.intensity))
    ensures r.Some? ==> forall j :: 0 <= j < n ==> partials[j].intensity <= r.value.intensity
  {
    if n == 0 then None
    else
      var best := StrongestPartialUpTo(partials, n - 1);
      var last := partials[n - 1];
      if best.None? || last.intensity > best.value.intensity then Some(last) else best
  }

  /** The reduction over all the partials. */
  function StrongestPartial(partials: seq<Partial>): (r: Option<Partial>)
    ensures r.None? <==> |partials| == 0
    ensures r.Some? ==> exists i :: (0 <= i < |partials| && partials[i] == r.value
      && (forall j :: 0 <= j < i ==> partials[j].intensity < r.value.intensity))
    ensures r.Some? ==> forall j :: 0 <= j < |partials| ==> partials[j].intensity <= r.value.intensity
  {
    StrongestPartialUpTo(partials, |partials|)
  }

  /** Over every prefix, reducing the partials by intensity picks the partial
      of the point that reducing the points by amplitude picks. */
  lemma {:induction false} StrongestPartialUpToPoints(points: seq<FftPoint>, n: nat)
    requires n <= |points|
    ensures StrongestPartialUpTo(Partials(points), n) ==
      match StrongestUpTo(points, n)
      case None => None
      case Some(p) => Some(PartialOf(p))
  {
    if n > 0 {
      StrongestPartialUpToPoints(points, n - 1);
    }
  }

  /** Reducing the partials by intensity picks the partial of the point that
      reducing the points by amplitude picks. */
  lemma StrongestPartialOfPoints(points: seq<FftPoint>)
    ensures StrongestPartial(Partials(points)) ==
      match Strongest(points)
      case None => None
      case Some(p) => Some(PartialOf(p))
  {
    StrongestPartialUpToPoints(points, |points|);
  }

  /** `spectrum()`'s window: the rounded lags of `MAX_FREQ` and `MIN_FREQ` at
      `SAMPLE_RATE`. 44000 / 4186 is about 10.51 and 44000 / 27.5 is 1600, so
      the window is lags 11 to 1599. */
  function LagRange(): (r: (nat, nat))
    ensures r == (11, 1600)
  {
    assert DETECTOR_SAMPLE_RATE / DETECTOR_MAX_FREQ + 0.5 == 22000.0 / 2093.0 + 0.5;
    assert 11.0 <= 22000.0 / 2093.0 + 0.5 < 12.0;
    assert DETECTOR_SAMPLE_RATE / DETECTOR_MIN_FREQ == 1600.0;
    (RoundToUsize(DETECTOR_SAMPLE_RATE / DETECTOR_MAX_FREQ), RoundToUsize(DETECTOR_SAMPLE_RATE / DETECTOR_MIN_FREQ))
  }

  /** What `detect_frequency` reports for a transformed workspace. */
  function Frequency(space: seq<Complex>, fit: Fit): Option<real> {
    var entries := FrequencyAutocorrelation.LagEntries(space, LagRange().0, LagRange().1);
    match StrongestPartial(Partials(Peaks(SkipAbove(entries, FrequencyAutocorrelation.FIRST_SLIDE), fit)))
    case None => None
    case Some(partial) => Some(partial.freq)
  }

  /** The reported frequency is `SAMPLE_RATE / mu` of the earliest run of
      greatest fitted amplitude, as the point-yielding iterator finds it. */
  lemma FrequencyOfStrongestPoint(space: seq<Complex>, fit: Fit)
    ensures var entries := FrequencyAutocorrelation.LagEntries(space, LagRange().0, LagRange().1);
      Frequency(space, fit) ==
        match Strongest(Peaks(SkipAbove(entries, FrequencyAutocorrelation.FIRST_SLIDE), fit))
        case None => None
        case Some(p) => Some(Div(DETECTOR_SAMPLE_RATE, p.x))
  {
    var entries := FrequencyAutocorrelation.LagEntries(space, LagRange().0, LagRange().1);
    StrongestPartialOfPoints(Peaks(SkipAbove(entries, FrequencyAutocorrelation.FIRST_SLIDE), fit));
  }

  /** The detector owns its workspace. */
  class AutocorrelationDetector {
    var fftSpace: UnpaddedFftSpace

    ghost predicate Valid()
      reads this, fftSpace
    {
      fftSpace.Valid()
    }

    /** `AutocorrelationDetector::new(fft_space_size)`: a zeroed workspace of
        exactly that many slots. */
    constructor(fftSpaceSize: nat)
      ensures Valid() && fresh(fftSpace) && fresh(fftSpace.space)
      ensures fftSpace.space.Length == fftSpaceSize
      ensures forall i :: 0 <= i < fftSpaceSize ==> fftSpace.space[i] == ZERO
    {
      fftSpace := new UnpaddedFftSpace(fftSpaceSize);
    }

    /** `spectrum()`: every entry is a slot of the workspace between lags 11
        and 1599, paired with its index. */
    function Spectrum(): (r: seq<Entry>)
      reads this, fftSpace, fftSpace.space
      ensures forall e :: e in r ==> 11 <= e.0 < 1600 && e.0 < fftSpace.space.Length
      ensures forall k :: 0 <= k < |r| ==> r[k].0 == 11 + k
    {
      FrequencyAutocorrelation.LagEntriesIndices(fftSpace.space[..], LagRange().0, LagRange().1);
      FrequencyAutocorrelation.LagEntries(fftSpace.space[..], LagRange().0, LagRange().1)
    }

    /** `detect_frequency(signal)`: rewrite the owned workspace with the
        autocorrelation of `signal`, then report the strongest partial. */
    method DetectFrequency(signal: seq<real>, fft: Transform, ifft: Transform, fit: Fit)
      returns (r: Option<real>)
      requires Valid() && |signal| <= fftSpace.space.Length
      requires LengthPreserving(fft) && LengthPreserving(ifft)
      modifies fftSpace.space
      ensures fftSpace.space[..] ==
        ifft(LegacyAutocorrelation.PowerProducts(fft(Loaded(signal, fftSpace.space.Length))))
      ensures r == Frequency(fftSpace.space[..], fit)
    {
      FrequencyAutocorrelation.ProcessFft(signal, fftSpace, fft, ifft);
      var entries := SkipAbove(Spectrum(), FrequencyAutocorrelation.FIRST_SLIDE);
      var peaks := new AutocorrelationPeakIter(entries);
      var best := peaks.Reduce(fit);
      StrongestPartialOfPoints(Peaks(entries, fit));
      r := match best
        case None => None
        case Some(p) => Some(PartialOf(p).freq);
    }
  }
}
