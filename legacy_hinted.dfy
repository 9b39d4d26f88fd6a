/** The older `HintedNoteDetector::detect_note_with_hint` of
    src/note/hinted.rs: the same hint search as the current crate, with the
    z-score peak classifier (foreign, `ZScoreDetector::new(40, 6.0, 0.0)`) and
    `Option` results. */
module LegacyHinted {
  import opened Outcomes
  import opened Numerics
  import opened Core
  import opened Selection
  import opened Interpolation
  import opened NoteDetections
  import opened Hinted
  import LegacyConstants

  /** `ZScoreDetector::new(LAG, THRESHOLD, INFLUENCE).detect_peaks(spectrum)`. */
  type ZScorePeaks = seq<real> -> seq<FrequencyBin>

  ghost predicate ZScorePeaksInSpectrum(peaks: ZScorePeaks) {
    forall spectrum: seq<real>, k: nat :: k < |peaks(spectrum)| ==> peaks(spectrum)[k].bin < |spectrum|
  }

  /** The root crate's `find` closure names the same candidates as the
      current crate's: its `try_from` has the same threshold, reference pitch
      and note table. */
  lemma LegacyNamesHint(hint: NoteName, c: FrequencyBin, startBin: nat, binToFreq: real -> real, log2: real -> real)
    ensures var d := LegacyTryFrom(binToFreq((c.bin + startBin) as real), log2);
      NamesHint(hint, c, startBin, binToFreq, log2) <==> d.Some? && d.value.noteName == hint
  {
    var freq := binToFreq((c.bin + startBin) as real);
    var d := LegacyTryFrom(freq, log2);
    if d.Some? {
      FromIndexOfIndex(d.value.noteName);
      FromIndexOfIndex(NoteAt(Round(StepsFromA4(freq, log2))));
    }
  }

  /** The end of the `Option` chain: `interpolated_peak_at` read as an
      option, then `try_from(..).ok()`. */
  function LegacyNoteOfPeak(peak: Result<FftPoint>, startBin: nat, binToFreq: real -> real, log2: real -> real)
    : (r: Option<NoteDetectionResult>)
    ensures r.Some? <==> peak.Ok? && binToFreq(peak.value.x + startBin as real) >= LegacyConstants.CORE_MIN_FREQ
    ensures r.Some? ==> r == LegacyTryFrom(binToFreq(peak.value.x + startBin as real), log2)
  {
    match peak.ToOption()
    case None => None
    case Some(p) => LegacyTryFrom(binToFreq(p.x + startBin as real), log2)
  }

  /** `detect_note_with_hint` once the spectrum and its peaks are known: the
      `Option` chain `find`, `interpolated_peak_at`, `try_from(..).ok()`. */
  function LegacyNoteWithHint(hint: NoteName, startBin: nat, spectrum: seq<real>, candidates: seq<FrequencyBin>,
                              binToFreq: real -> real, fit: Fit, log2: real -> real)
    : (r: Option<NoteDetectionResult>)
    requires forall k :: 0 <= k < |candidates| ==> candidates[k].bin < |spectrum|
    ensures (forall k :: 0 <= k < |candidates| ==> !NamesHint(hint, candidates[k], startBin, binToFreq, log2)) ==> r.None?
  {
    LegacyNoteOfPeak(HintedPeak(hint, startBin, spectrum, candidates, binToFreq, fit, log2), startBin, binToFreq, log2)
  }

  /** Whatever the root crate detects from a peak, the current crate detects
      too, with the same fields. */
  lemma LegacyNoteOfPeakAgrees(peak: Result<FftPoint>, startBin: nat, binToFreq: real -> real,
                              log2: real -> real, pow2: real -> real)
    ensures var l := LegacyNoteOfPeak(peak, startBin, binToFreq, log2);
      var d := NoteOfPeak(peak, startBin, binToFreq, log2, pow2);
      (l.Some? <==> d.Ok?) &&
      (l.Some? ==> l.value == NoteDetectionResult(d.value.actualFreq, d.value.noteName, d.value.octave,
        d.value.centsOffset, d.value.previousNoteName, d.value.nextNoteName, d.value.inTune))
  {
    if peak.Ok? {
      LegacyAgrees(binToFreq(peak.value.x + startBin as real), log2, pow2);
    }
  }

  /** What `try_from` as written makes of the same peak: the note
      `LegacyNoteOfPeak` reports, with the as-written octave. */
  lemma LegacyNoteOfPeakAsWritten(peak: Result<FftPoint>, startBin: nat, binToFreq: real -> real, log2: real -> real)
    requires peak.Ok?
    ensures var freq := binToFreq(peak.value.x + startBin as real);
      var l := LegacyNoteOfPeak(peak, startBin, binToFreq, log2);
      (LegacyTryFromAsWritten(freq, log2).Some? <==> l.Some?) &&
      (l.Some? ==> LegacyTryFromAsWritten(freq, log2).value ==
                   l.value.(octave := OctaveAsWritten(LegacyStepsFromA4(freq, log2))))
  {
  }

  /** `detect_note_with_hint` once the spectrum is known. */
  method LegacyNoteOfSpectrum(hint: NoteName, startBin: nat, spectrum: seq<real>, peaks: ZScorePeaks,
                              binToFreq: real -> real, fit: Fit, log2: real -> real)
    returns (r: Option<NoteDetectionResult>)
    requires ZScorePeaksInSpectrum(peaks)
    ensures r == LegacyNoteWithHint(hint, startBin, spectrum, peaks(spectrum), binToFreq, fit, log2)
  {
    var candidates := peaks(spectrum);
    assert forall k :: 0 <= k < |candidates| ==> candidates[k].bin < |spectrum|;
    var peak := FindHintedPeak(hint, startBin, spectrum, candidates, binToFreq, fit, log2);
    r := LegacyNoteOfPeak(peak, startBin, binToFreq, log2);
  }
}
