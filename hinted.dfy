/** `HintedNoteDetector::detect_note_with_hint_and_range` of
    pitch-detector/src/note/hinted/mod.rs and the older
    `HintedNoteDetector::detect_note_with_hint` of src/note/hinted.rs: among
    the peaks of a spectrum, the strongest one whose bin names the hinted
    note. The detector's `bin_to_freq` is a parameter (each implementor has
    its own); the Hann-windowed FFT detector is the instance modelled in full. */
module Hinted {
  import opened Outcomes
  import opened Numerics
  import opened Core
  import opened Selection
  import opened Interpolation
  import opened NoteDetections
  import opened Constants
  import opened FftWorkspace
  import opened FftBins
  import opened HannedFft

  /** `PeakFinderDetector::new(THRESHOLD)` of the hinted detector. */
  const HINT_SIGMAS: real := 6.0

  /** The `find` predicate: the frequency of the candidate's integer bin
      converts to a note, and that note is the hint; a conversion error counts
      as no match. */
  predicate NamesHint(hint: NoteName, c: FrequencyBin, startBin: nat, binToFreq: real -> real, log2: real -> real) {
    var freq := binToFreq((c.bin + startBin) as real);
    freq >= MIN_FREQ && NoteAt(Round(StepsFromA4(freq, log2))) == hint
  }

  /** `NamesHint` is the closure given to `find`: `try_from` succeeds and
      yields the hinted note name. */
  lemma NamesHintIsTryFrom(hint: NoteName, c: FrequencyBin, startBin: nat, binToFreq: real -> real,
                           log2: real -> real, pow2: real -> real)
    ensures var d := TryFrom(binToFreq((c.bin + startBin) as real), log2, pow2);
      NamesHint(hint, c, startBin, binToFreq, log2) <==> d.Ok? && d.value.noteName == hint
  {
    var freq := binToFreq((c.bin + startBin) as real);
    var d := TryFrom(freq, log2, pow2);
    if d.Ok? {
      var n := NoteAt(Round(StepsFromA4(freq, log2)));
      FromIndexOfIndex(n);
      FromIndexOfIndex(d.value.noteName);
    }
  }

  /** The `find` predicate as a value. */
  function HintMatcher(hint: NoteName, startBin: nat, binToFreq: real -> real, log2: real -> real)
    : FrequencyBin -> bool
  {
    c => NamesHint(hint, c, startBin, binToFreq, log2)
  }

  /** The sub-bin peak of the first candidate, in descending order of
      magnitude, that names the hint: `candidates.iter().find(..)` followed by
      `interpolated_peak_at`. */
  function HintedPeak(hint: NoteName, startBin: nat, spectrum: seq<real>, candidates: seq<FrequencyBin>,
                      binToFreq: real -> real, fit: Fit, log2: real -> real)
    : (r: Result<FftPoint>)
    requires forall k :: 0 <= k < |candidates| ==> candidates[k].bin < |spectrum|
    ensures r == Err(NoPitchDetected) <==>
      forall k :: 0 <= k < |candidates| ==> !NamesHint(hint, candidates[k], startBin, binToFreq, log2)
    ensures r.Err? ==> r.error in {NoPitchDetected, UnexpectedError}
  {
    var sorted := SortByMagnitudeDesc(candidates);
    var matcher := HintMatcher(hint, startBin, binToFreq, log2);
    SortedPeaksInSpectrum(candidates, |spectrum|);
    match FindFirst(sorted, matcher)
    case None =>
      FindFirstSortedNone(candidates, matcher);
      Err(NoPitchDetected)
    case Some(i) =>
      FindFirstSortedStrongest(candidates, matcher);
      assert matcher(sorted[i]);
      InterpolateErrors(spectrum, sorted[i].bin, fit);
      Interpolate(spectrum, sorted[i].bin, fit)
  }

  /** The peak found comes from a candidate that names the hint, none
      stronger of which does, and is the interpolation at that candidate's
      bin. */
  lemma HintedPeakStrongestMatch(hint: NoteName, startBin: nat, spectrum: seq<real>, candidates: seq<FrequencyBin>,
                                 binToFreq: real -> real, fit: Fit, log2: real -> real)
    requires forall k :: 0 <= k < |candidates| ==> candidates[k].bin < |spectrum|
    ensures var r := HintedPeak(hint, startBin, spectrum, candidates, binToFreq, fit, log2);
      r.Ok? ==> exists k :: (0 <= k < |candidates| && NamesHint(hint, candidates[k], startBin, binToFreq, log2) &&
        (forall j :: 0 <= j < |candidates| && candidates[j].magnitude > candidates[k].magnitude ==>
           !NamesHint(hint, candidates[j], startBin, binToFreq, log2)) &&
        r == Interpolate(spectrum, candidates[k].bin, fit))
  {
    var r := HintedPeak(hint, startBin, spectrum, candidates, binToFreq, fit, log2);
    var sorted := SortByMagnitudeDesc(candidates);
    var matcher := HintMatcher(hint, startBin, binToFreq, log2);
    if r.Ok? {
      SortedPeaksInSpectrum(candidates, |spectrum|);
      FindFirstSortedStrongest(candidates, matcher);
      var i := FindFirst(sorted, matcher).value;
      var k :| 0 <= k < |candidates| && candidates[k] == sorted[i];
      assert NamesHint(hint, candidates[k], startBin, binToFreq, log2) by { assert matcher(sorted[i]); }
      assert forall j :: 0 <= j < |candidates| && candidates[j].magnitude > candidates[k].magnitude ==>
        !matcher(candidates[j]);
    }
  }

  /** A stronger peak of another note does not hide a weaker peak of the
      hinted one: with a stronger candidate that does not name the hint and a
      weaker one that does, the weaker one is interpolated, in either order. */
  lemma HintSkipsStrongerOtherNote(hint: NoteName, startBin: nat, spectrum: seq<real>, strong: FrequencyBin,
                                   weak: FrequencyBin, candidates: seq<FrequencyBin>, binToFreq: real -> real,
                                   fit: Fit, log2: real -> real)
    requires strong.bin < |spectrum| && weak.bin < |spectrum|
    requires candidates == [strong, weak] || candidates == [weak, strong]
    requires strong.magnitude > weak.magnitude
    requires !NamesHint(hint, strong, startBin, binToFreq, log2) && NamesHint(hint, weak, startBin, binToFreq, log2)
    ensures HintedPeak(hint, startBin, spectrum, candidates, binToFreq, fit, log2) == Interpolate(spectrum, weak.bin, fit)
  {
    SortPair(strong, weak);
    var matcher := HintMatcher(hint, startBin, binToFreq, log2);
    assert !matcher(strong) && matcher(weak);
    assert FindFirst([strong, weak], matcher) == Some(1);
  }

  /** Two candidates of different magnitude sort stronger first, whatever
      their order. */
  lemma SortPair(strong: FrequencyBin, weak: FrequencyBin)
    requires strong.magnitude > weak.magnitude
    ensures SortByMagnitudeDesc([strong, weak]) == [strong, weak]
    ensures SortByMagnitudeDesc([weak, strong]) == [strong, weak]
  {
    SortOfPair(strong, weak);
    SortOfPair(weak, strong);
    InsertWeaker(weak, strong);
    InsertStronger(strong, weak);
  }

  lemma SortOfPair(a: FrequencyBin, b: FrequencyBin)
    ensures SortByMagnitudeDesc([a, b]) == InsertDesc(b, [a])
  {
    SortSingleton(a);
    assert [a, b][..1] == [a];
  }

  lemma InsertWeaker(weak: FrequencyBin, strong: FrequencyBin)
    requires strong.magnitude >= weak.magnitude
    ensures InsertDesc(weak, [strong]) == [strong, weak]
  {
    assert [strong][1..] == [];
  }

  lemma InsertStronger(strong: FrequencyBin, weak: FrequencyBin)
    requires strong.magnitude > weak.magnitude
    ensures InsertDesc(strong, [weak]) == [strong, weak]
  {
  }

  lemma SortSingleton(x: FrequencyBin)
    ensures SortByMagnitudeDesc([x]) == [x]
  {
    assert [x][..0] == [];
  }

  /** The body of `detect_note_with_hint_and_range` after the spectrum and
      its peaks are known: the hinted peak's frequency, converted to a note. */
  function NoteWithHint(hint: NoteName, startBin: nat, spectrum: seq<real>, candidates: seq<FrequencyBin>,
                        binToFreq: real -> real, fit: Fit, log2: real -> real, pow2: real -> real)
    : (r: Result<NoteDetection>)
    requires forall k :: 0 <= k < |candidates| ==> candidates[k].bin < |spectrum|
    ensures r == Err(NoPitchDetected) <==>
      forall k :: 0 <= k < |candidates| ==> !NamesHint(hint, candidates[k], startBin, binToFreq, log2)
  {
    var peak := HintedPeak(hint, startBin, spectrum, candidates, binToFreq, fit, log2);
    NoteOfPeak(peak, startBin, binToFreq, log2, pow2)
  }

  /** The frequency of a bin of the Hann-windowed FFT detector, its workspace
      being `paddedLen` long. */
  function HannedMapper(sampleRate: real, paddedLen: nat): real -> real
    requires paddedLen > 0
  {
    x => BinToFreq(x, sampleRate, paddedLen)
  }

  /** `detect_note_with_hint_and_range` for `HannedFftDetector`: sort, find,
      interpolate, convert. */
  method DetectNoteWithHintAndRange(detector: HannedFftDetector, hint: NoteName, signal: seq<real>, sampleRate: real,
                                    freqRangeHint: Option<FreqRange>, hann: nat -> seq<real>, fft: Transform,
                                    sqrt: real -> real, peaks: PeakFinder, fit: Fit,
                                    log2: real -> real, pow2: real -> real)
    returns (r: Result<NoteDetection>)
    requires detector.Valid() && LengthPreserving(fft) && PeaksInSpectrum(peaks)
    requires freqRangeHint.Some? ==> sampleRate > 0.0 && freqRangeHint.value.start <= freqRangeHint.value.end
    requires detector.fftSpace != null ==> |signal| <= detector.fftSpace.space.Length
    modifies detector.Repr
    ensures detector.Valid() && detector.fftSpace != null && fresh(detector.Repr - old(detector.Repr))
    ensures old(detector.fftSpace) != null ==>
      detector.fftSpace == old(detector.fftSpace) && detector.Repr == old(detector.Repr) &&
      detector.fftSpace.signalLen == old(detector.fftSpace.signalLen) &&
      detector.fftSpace.space == old(detector.fftSpace.space)
    ensures |signal| <= detector.fftSpace.space.Length
    ensures r == NoteWithHint(hint,
      HannedBinRange(RangeHint(freqRangeHint, sampleRate), detector.fftSpace.space.Length, |signal|).0,
      NormalizedSpectrum(detector.fftSpace.space[..],
        HannedBinRange(RangeHint(freqRangeHint, sampleRate), detector.fftSpace.space.Length, |signal|).0,
        HannedBinRange(RangeHint(freqRangeHint, sampleRate), detector.fftSpace.space.Length, |signal|).1, sqrt),
      peaks(NormalizedSpectrum(detector.fftSpace.space[..],
        HannedBinRange(RangeHint(freqRangeHint, sampleRate), detector.fftSpace.space.Length, |signal|).0,
        HannedBinRange(RangeHint(freqRangeHint, sampleRate), detector.fftSpace.space.Length, |signal|).1, sqrt),
        HINT_SIGMAS),
      HannedMapper(sampleRate, detector.fftSpace.space.Length), fit, log2, pow2)
  {
    var startBin, spectrum := detector.IntoFrequencyDomain(signal, RangeHint(freqRangeHint, sampleRate), hann, fft, sqrt);
    var paddedLen := detector.fftSpace.space.Length;
    r := NoteOfSpectrum(hint, startBin, spectrum, peaks, HannedMapper(sampleRate, paddedLen), fit, log2, pow2);
  }

  /** `freq_range_hint.map(|r| (r, sample_rate))`. */
  function RangeHint(freqRangeHint: Option<FreqRange>, sampleRate: real): (r: Option<(FreqRange, real)>)
    ensures r.None? <==> freqRangeHint.None?
    ensures r.Some? ==> r.value == (freqRangeHint.value, sampleRate)
  {
    match freqRangeHint
    case None => None
    case Some(range) => Some((range, sampleRate))
  }

  /** Sorting, `find` and `interpolated_peak_at`, step by step. */
  method FindHintedPeak(hint: NoteName, startBin: nat, spectrum: seq<real>, candidates: seq<FrequencyBin>,
                        binToFreq: real -> real, fit: Fit, log2: real -> real)
    returns (peak: Result<FftPoint>)
    requires forall k :: 0 <= k < |candidates| ==> candidates[k].bin < |spectrum|
    ensures peak == HintedPeak(hint, startBin, spectrum, candidates, binToFreq, fit, log2)
  {
    SortedPeaksInSpectrum(candidates, |spectrum|);
    var sorted := SortByMagnitudeDesc(candidates);
    var found := FindFirst(sorted, HintMatcher(hint, startBin, binToFreq, log2));
    if found.None? {
      return Err(NoPitchDetected);
    }
    peak := InterpolatedPeakAt(spectrum, sorted[found.value].bin, fit);
  }

  /** The last step: the frequency of the peak's position, converted. */
  function NoteOfPeak(peak: Result<FftPoint>, startBin: nat, binToFreq: real -> real,
                      log2: real -> real, pow2: real -> real): (r: Result<NoteDetection>)
    ensures peak.Err? ==> r == Err(peak.error)
    ensures peak.Ok? ==> r == TryFrom(binToFreq(peak.value.x + startBin as real), log2, pow2)
    ensures r == Err(NoPitchDetected) <==> peak == Err(NoPitchDetected)
  {
    match peak
    case Err(e) => Err(e)
    case Ok(p) => TryFrom(binToFreq(p.x + startBin as real), log2, pow2)
  }

  /** What `try_from` as written makes of the same peak: the note
      `NoteOfPeak` reports, with the as-written octave. */
  lemma NoteOfPeakAsWritten(peak: Result<FftPoint>, startBin: nat, binToFreq: real -> real,
                            log2: real -> real, pow2: real -> real)
    requires peak.Ok?
    ensures var freq := binToFreq(peak.value.x + startBin as real);
      var d := NoteOfPeak(peak, startBin, binToFreq, log2, pow2);
      (TryFromAsWritten(freq, log2, pow2).Ok? <==> d.Ok?) &&
      (d.Ok? ==> TryFromAsWritten(freq, log2, pow2).value ==
                 d.value.(octave := OctaveAsWritten(StepsFromA4(freq, log2))))
  {
    TryFromAsWrittenDiffersOnlyInOctave(binToFreq(peak.value.x + startBin as real), log2, pow2);
  }

  /** `detect_note_with_hint_and_range` once the spectrum is known. */
  method NoteOfSpectrum(hint: NoteName, startBin: nat, spectrum: seq<real>, peaks: PeakFinder,
                        binToFreq: real -> real, fit: Fit, log2: real -> real, pow2: real -> real)
    returns (r: Result<NoteDetection>)
    requires PeaksInSpectrum(peaks)
    ensures r == NoteWithHint(hint, startBin, spectrum, peaks(spectrum, HINT_SIGMAS), binToFreq, fit, log2, pow2)
  {
    var candidates := peaks(spectrum, HINT_SIGMAS);
    assert forall k :: 0 <= k < |candidates| ==> candidates[k].bin < |spectrum|;
    var peak := FindHintedPeak(hint, startBin, spectrum, candidates, binToFreq, fit, log2);
    r := NoteOfPeak(peak, startBin, binToFreq, log2, pow2);
    assert r == NoteWithHint(hint, startBin, spectrum, candidates, binToFreq, fit, log2, pow2);
  }

  /** `detect_note_with_hint(hint, signal, sample_rate)` is the ranged
      version without a range. */
  method DetectNoteWithHint(detector: HannedFftDetector, hint: NoteName, signal: seq<real>, sampleRate: real,
                            hann: nat -> seq<real>, fft: Transform, sqrt: real -> real,
                            peaks: PeakFinder, fit: Fit, log2: real -> real, pow2: real -> real)
    returns (r: Result<NoteDetection>)
    requires detector.Valid() && LengthPreserving(fft) && PeaksInSpectrum(peaks)
    requires detector.fftSpace != null ==> |signal| <= detector.fftSpace.space.Length
    modifies detector.Repr
    ensures detector.Valid() && detector.fftSpace != null && fresh(detector.Repr - old(detector.Repr))
    ensures old(detector.fftSpace) != null ==>
      detector.fftSpace == old(detector.fftSpace) && detector.Repr == old(detector.Repr) &&
      detector.fftSpace.signalLen == old(detector.fftSpace.signalLen) &&
      detector.fftSpace.space == old(detector.fftSpace.space)
    ensures r == NoteWithHint(hint, 0,
      NormalizedSpectrum(detector.fftSpace.space[..], 0, |signal| / 2, sqrt),
      peaks(NormalizedSpectrum(detector.fftSpace.space[..], 0, |signal| / 2, sqrt), HINT_SIGMAS),
      HannedMapper(sampleRate, detector.fftSpace.space.Length), fit, log2, pow2)
  {
    r := DetectNoteWithHintAndRange(detector, hint, signal, sampleRate, None, hann, fft, sqrt, peaks, fit, log2, pow2);
  }
}
