/** Conversion of a frequency into a note (`NoteDetection::try_from` of
    pitch-detector/src/note/note_detection_result.rs and
    `NoteDetectionResult::try_from` of src/note/note_detection_result.rs).
    `log2` and `pow2` (`f64::log2`, `2f64.powf`) are foreign. */
module NoteDetections {
  import opened Outcomes
  import opened Numerics
  import opened Core
  import opened Constants
  import LegacyConstants

  datatype NoteDetection = NoteDetection(
    actualFreq: real,
    noteName: NoteName,
    noteFreq: real,
    octave: int,
    centsOffset: real,
    previousNoteName: NoteName,
    nextNoteName: NoteName,
    inTune: bool)

  /** Semitones from A4, fractional: `(freq / A4_FREQ).log2() * 12.0`. */
  function StepsFromA4(freq: real, log2: real -> real): real {
    log2(freq / A4_FREQ) * 12.0
  }

  /** The note `k` semitones above A, cyclically. */
  function NoteAt(k: int): (n: NoteName)
    ensures Index(n) == k % 12
  {
    FromIndex(k % 12)
  }

  /** `NoteAt(k)` is `NOTES[(k as isize).rem_euclid(12) as usize].into()`:
      Dafny's `%` is Euclidean like `rem_euclid`, and the entry converts
      without panicking. */
  lemma NoteAtIsNotesEntry(k: int)
    ensures Parse(NOTES[k % 12]) == Some(NoteAt(k))
  {
    ParseNotes(k % 12);
  }

  /** The cyclic neighbours of a note position. */
  lemma NeighbourIndices(k: int)
    ensures (k - 1) % 12 == (k % 12 + 11) % 12
    ensures (k + 1) % 12 == (k % 12 + 1) % 12
  {
    var q, r := k / 12, k % 12;
    assert k == 12 * q + r;
    if r == 0 {
      assert k - 1 == 12 * (q - 1) + 11;
    } else {
      assert k - 1 == 12 * q + (r - 1);
    }
    if r == 11 {
      assert k + 1 == 12 * (q + 1);
    } else {
      assert k + 1 == 12 * q + (r + 1);
    }
  }

  /** Scientific pitch notation: the number of semitones from A4 of the note
      `name` in octave `octave` (octaves begin at C; C4 is 9 semitones below A4). */
  function SemitonesFromA4(name: NoteName, octave: int): int {
    12 * (octave - 4) + (Index(name) + 9) % 12 - 9
  }

  /** The octave as the source computes it: `5 + floor((steps - 2) / 12)`,
      from the unrounded steps. */
  function OctaveAsWritten(steps: real): int {
    5 + Floor((steps - 2.0) / 12.0)
  }

  /** The octave of the nearest note: octave 5 starts at C5, 3 semitones
      above A4. */
  function Octave(steps: real): (o: int)
    ensures SemitonesFromA4(NoteAt(Round(steps)), o) == Round(steps)
  {
    var n := Round(steps);
    var o := 5 + Floor((n - 3) as real / 12.0);
    assert 12 * (o - 5) <= n - 3 < 12 * (o - 5) + 12;
    o
  }

  /** The fields every variant shares, given the octave. */
  function Detection(freq: real, steps: real, pow2: real -> real, octave: int): (d: NoteDetection)
    ensures d.actualFreq == freq && d.octave == octave
    ensures Index(d.noteName) == Round(steps) % 12
    ensures Index(d.previousNoteName) == (Index(d.noteName) + 11) % 12
    ensures Index(d.nextNoteName) == (Index(d.noteName) + 1) % 12
    ensures -50.0 <= d.centsOffset <= 50.0
    ensures steps == Round(steps) as real + d.centsOffset / 100.0
    ensures d.inTune <==> -MAX_CENTS_OFFSET < d.centsOffset < MAX_CENTS_OFFSET
    ensures d.noteFreq == A4_FREQ * pow2(Round(steps) as real / 12.0)
  {
    var n := Round(steps);
    NeighbourIndices(n);
    var cents := (steps - n as real) * 100.0;
    NoteDetection(
      actualFreq := freq,
      noteName := NoteAt(n),
      noteFreq := A4_FREQ * pow2(n as real / 12.0),
      octave := octave,
      centsOffset := cents,
      previousNoteName := NoteAt(n - 1),
      nextNoteName := NoteAt(n + 1),
      inTune := (if cents < 0.0 then -cents else cents) < MAX_CENTS_OFFSET)
  }

  /** `NoteDetection::try_from` as written. */
  function TryFromAsWritten(freq: real, log2: real -> real, pow2: real -> real): Result<NoteDetection> {
    if freq < MIN_FREQ then Err(IncorrectParameters)
    else
      var steps := StepsFromA4(freq, log2);
      Ok(Detection(freq, steps, pow2, OctaveAsWritten(steps)))
  }

  /** `NoteDetection::try_from` with the octave taken from the nearest note. */
  function TryFrom(freq: real, log2: real -> real, pow2: real -> real): (r: Result<NoteDetection>)
    ensures r.Err? <==> freq < MIN_FREQ
    ensures r.Err? ==> r.error == IncorrectParameters
    ensures r.Ok? ==> r.value.actualFreq == freq
    ensures r.Ok? ==> Index(r.value.noteName) == Round(StepsFromA4(freq, log2)) % 12
    ensures r.Ok? ==> Index(r.value.previousNoteName) == (Index(r.value.noteName) + 11) % 12
    ensures r.Ok? ==> Index(r.value.nextNoteName) == (Index(r.value.noteName) + 1) % 12
    ensures r.Ok? ==> -50.0 <= r.value.centsOffset <= 50.0
    ensures r.Ok? ==> StepsFromA4(freq, log2) == Round(StepsFromA4(freq, log2)) as real + r.value.centsOffset / 100.0
    ensures r.Ok? ==> (r.value.inTune <==> -MAX_CENTS_OFFSET < r.value.centsOffset < MAX_CENTS_OFFSET)
    ensures r.Ok? ==> r.value.noteFreq == A4_FREQ * pow2(Round(StepsFromA4(freq, log2)) as real / 12.0)
    ensures r.Ok? ==> SemitonesFromA4(r.value.noteName, r.value.octave) == Round(StepsFromA4(freq, log2))
  {
    if freq < MIN_FREQ then Err(IncorrectParameters)
    else
      var steps := StepsFromA4(freq, log2);
      Ok(Detection(freq, steps, pow2, Octave(steps)))
  }

  /** Both versions agree on everything except the octave. */
  lemma TryFromAsWrittenDiffersOnlyInOctave(freq: real, log2: real -> real, pow2: real -> real)
    ensures TryFromAsWritten(freq, log2, pow2).Ok? <==> TryFrom(freq, log2, pow2).Ok?
    ensures TryFrom(freq, log2, pow2).Ok? ==>
      TryFromAsWritten(freq, log2, pow2).value == TryFrom(freq, log2, pow2).value.(octave := OctaveAsWritten(StepsFromA4(freq, log2)))
  {
  }

  /** At B4 itself (440·2^(2/12) ≈ 493.8833 Hz, two semitones above A4) the
      source reports octave 5: B5, 14 semitones above A4, an octave above
      the `note_freq` it reports alongside. */
  lemma OctaveAsWrittenAtB4(freq: real, log2: real -> real, pow2: real -> real)
    requires freq >= MIN_FREQ
    requires StepsFromA4(freq, log2) == 2.0
    ensures TryFromAsWritten(freq, log2, pow2).Ok?
    ensures TryFromAsWritten(freq, log2, pow2).value.noteName == B
    ensures TryFromAsWritten(freq, log2, pow2).value.octave == 5
    ensures SemitonesFromA4(B, 5) == 14
    ensures TryFrom(freq, log2, pow2).value.octave == 4
  {
  }

  /** The intended octave changes between B and C, not at B itself: every
      pitch from B4 (2 steps) to just below the B4/C5 midpoint lies in octave 4. */
  lemma OctaveBoundaryAtC(steps: real)
    requires 1.5 <= steps < 2.5
    ensures Octave(steps) == 4 && NoteAt(Round(steps)) == B
  {
  }

  /** Test `pitch_from_f64_works`, 440 Hz: A4 in tune, neighbours G# and A#. */
  lemma TryFromA4(log2: real -> real, pow2: real -> real)
    requires log2(1.0) == 0.0 && pow2(0.0) == 1.0
    ensures TryFrom(440.0, log2, pow2) == Ok(NoteDetection(440.0, A, 440.0, 4, 0.0, GSharp, ASharp, true))
  {
    assert StepsFromA4(440.0, log2) == 0.0;
  }

  /** Test `pitch_from_f64_works`, 880 Hz: A5. */
  lemma TryFromA5(log2: real -> real, pow2: real -> real)
    requires log2(2.0) == 1.0
    ensures TryFrom(880.0, log2, pow2).Ok? && TryFrom(880.0, log2, pow2).value.noteName == A
    ensures TryFrom(880.0, log2, pow2).value.octave == 5
  {
    assert StepsFromA4(880.0, log2) == 12.0;
  }

  /** Test `pitch_from_f64_works`, 220 Hz: A3. */
  lemma TryFromA3(log2: real -> real, pow2: real -> real)
    requires log2(0.5) == -1.0
    ensures TryFrom(220.0, log2, pow2).Ok? && TryFrom(220.0, log2, pow2).value.noteName == A
    ensures TryFrom(220.0, log2, pow2).value.octave == 3
  {
    assert StepsFromA4(220.0, log2) == -12.0;
  }

  /** Test `pitch_from_f64_works`, 523.25 Hz, whose steps lie just below 3:
      C5, on both versions. */
  lemma TryFromC5(log2: real -> real, pow2: real -> real)
    requires 2.99 < StepsFromA4(523.25, log2) < 3.0
    ensures TryFrom(523.25, log2, pow2).value.noteName == C
    ensures TryFrom(523.25, log2, pow2).value.octave == 5
    ensures TryFromAsWritten(523.25, log2, pow2).value.octave == 5
  {
  }

  /** Test `pitch_from_f64_works`, 493.88 Hz, whose steps lie just below 2:
      B4, on both versions. */
  lemma TryFromB4(log2: real -> real, pow2: real -> real)
    requires 1.99 < StepsFromA4(493.88, log2) < 2.0
    ensures TryFrom(493.88, log2, pow2).value.noteName == B
    ensures TryFrom(493.88, log2, pow2).value.octave == 4
    ensures TryFromAsWritten(493.88, log2, pow2).value.octave == 4
  {
  }

  /** Test `pitch_from_f64_works`, 448 Hz (about 31 cents sharp): still A4,
      reported with the frequency of A4, not in tune. */
  lemma TryFromSharpA(log2: real -> real, pow2: real -> real)
    requires 0.3 < StepsFromA4(448.0, log2) < 0.32 && pow2(0.0) == 1.0
    ensures TryFrom(448.0, log2, pow2).Ok?
    ensures TryFrom(448.0, log2, pow2).value.noteName == A
    ensures TryFrom(448.0, log2, pow2).value.noteFreq == 440.0
    ensures TryFrom(448.0, log2, pow2).value.octave == 4
    ensures !TryFrom(448.0, log2, pow2).value.inTune
    ensures 30.0 < TryFrom(448.0, log2, pow2).value.centsOffset < 32.0
  {
  }

  /** A pitch within one cent of the note `k` semitones from A4 is that note,
      in tune, with its two neighbours and the octave of `k`. */
  lemma TryFromNearNote(freq: real, k: int, log2: real -> real, pow2: real -> real)
    requires freq >= MIN_FREQ
    requires k as real - 0.01 < StepsFromA4(freq, log2) < k as real + 0.01
    ensures TryFrom(freq, log2, pow2).Ok?
    ensures var d := TryFrom(freq, log2, pow2).value;
      d.noteName == NoteAt(k) && d.previousNoteName == NoteAt(k - 1) && d.nextNoteName == NoteAt(k + 1) &&
      d.octave == 5 + Floor((k - 3) as real / 12.0) && -1.0 < d.centsOffset < 1.0 && d.inTune
  {
    var steps := StepsFromA4(freq, log2);
    assert Round(steps) == k;
    var d := TryFrom(freq, log2, pow2).value;
    FromIndexOfIndex(d.noteName);
    FromIndexOfIndex(NoteAt(k));
    FromIndexOfIndex(d.previousNoteName);
    FromIndexOfIndex(NoteAt(k - 1));
    NeighbourIndices(k);
    FromIndexOfIndex(d.nextNoteName);
    FromIndexOfIndex(NoteAt(k + 1));
  }

  /** Test `pitch_from_f64_works`, 311.13 Hz: D#4, between D and E, in tune. */
  lemma TryFromDSharp4(log2: real -> real, pow2: real -> real)
    requires -6.01 < StepsFromA4(311.13, log2) < -5.99
    ensures var d := TryFrom(311.13, log2, pow2).value;
      d.noteName == DSharp && d.octave == 4 && d.previousNoteName == D && d.nextNoteName == E && d.inTune
  {
    TryFromNearNote(311.13, -6, log2, pow2);
  }

  /** Test `pitch_from_f64_works`, 329.63 Hz: E4, between D# and F, in tune. */
  lemma TryFromE4(log2: real -> real, pow2: real -> real)
    requires -5.01 < StepsFromA4(329.63, log2) < -4.99
    ensures var d := TryFrom(329.63, log2, pow2).value;
      d.noteName == E && d.octave == 4 && d.previousNoteName == DSharp && d.nextNoteName == F && d.inTune
  {
    TryFromNearNote(329.63, -5, log2, pow2);
  }

  /** Test `pitch_from_f64_works`, 349.23 Hz: F4, between E and F#, in tune. */
  lemma TryFromF4(log2: real -> real, pow2: real -> real)
    requires -4.01 < StepsFromA4(349.23, log2) < -3.99
    ensures var d := TryFrom(349.23, log2, pow2).value;
      d.noteName == F && d.octave == 4 && d.previousNoteName == E && d.nextNoteName == FSharp && d.inTune
  {
    TryFromNearNote(349.23, -4, log2, pow2);
  }

  /** Test `pitch_from_f64_works`, 369.99 Hz: F#4, between F and G, in tune. */
  lemma TryFromFSharp4(log2: real -> real, pow2: real -> real)
    requires -3.01 < StepsFromA4(369.99, log2) < -2.99
    ensures var d := TryFrom(369.99, log2, pow2).value;
      d.noteName == FSharp && d.octave == 4 && d.previousNoteName == F && d.nextNoteName == G && d.inTune
  {
    TryFromNearNote(369.99, -3, log2, pow2);
  }

  /** Test `pitch_from_f64_works`, 392 Hz: G4, between F# and G#, in tune. */
  lemma TryFromG4(log2: real -> real, pow2: real -> real)
    requires -2.01 < StepsFromA4(392.0, log2) < -1.99
    ensures var d := TryFrom(392.0, log2, pow2).value;
      d.noteName == G && d.octave == 4 && d.previousNoteName == FSharp && d.nextNoteName == GSharp && d.inTune
  {
    TryFromNearNote(392.0, -2, log2, pow2);
  }

  /** Test `pitch_from_f64_works`, 0 Hz: an error. */
  lemma TryFromZero(log2: real -> real, pow2: real -> real)
    ensures TryFrom(0.0, log2, pow2) == Err(IncorrectParameters)
  {
  }

  /** The root crate's `NoteDetectionResult`: no `note_freq`. */
  datatype NoteDetectionResult = NoteDetectionResult(
    freq: real,
    noteName: NoteName,
    octave: int,
    centsOffset: real,
    previousNoteName: NoteName,
    nextNoteName: NoteName,
    inTune: bool)

  /** The fields of a `NoteDetectionResult`, given the octave. */
  function LegacyDetection(freq: real, steps: real, octave: int): (d: NoteDetectionResult)
    ensures d.octave == octave
  {
    var n := Round(steps);
    var cents := (steps - n as real) * 100.0;
    NoteDetectionResult(
      freq := freq,
      noteName := NoteAt(n),
      octave := octave,
      centsOffset := cents,
      previousNoteName := NoteAt(n - 1),
      nextNoteName := NoteAt(n + 1),
      inTune := (if cents < 0.0 then -cents else cents) < LegacyConstants.CORE_MAX_CENTS_OFFSET)
  }

  /** Semitones from A4 with the root crate's constant. */
  function LegacyStepsFromA4(freq: real, log2: real -> real): real {
    log2(freq / LegacyConstants.CORE_A4_FREQ) * 12.0
  }

  /** `NoteDetectionResult::try_from(f64)` as written; `None` is the `anyhow` error. */
  function LegacyTryFromAsWritten(freq: real, log2: real -> real): Option<NoteDetectionResult> {
    if freq < LegacyConstants.CORE_MIN_FREQ then None
    else
      var steps := LegacyStepsFromA4(freq, log2);
      Some(LegacyDetection(freq, steps, OctaveAsWritten(steps)))
  }

  /** `NoteDetectionResult::try_from(f64)` with the octave of the nearest note. */
  function LegacyTryFrom(freq: real, log2: real -> real): (r: Option<NoteDetectionResult>)
    ensures r.None? <==> freq < LegacyConstants.CORE_MIN_FREQ
    ensures r.Some? ==> SemitonesFromA4(r.value.noteName, r.value.octave) == Round(LegacyStepsFromA4(freq, log2))
  {
    if freq < LegacyConstants.CORE_MIN_FREQ then None
    else
      var steps := LegacyStepsFromA4(freq, log2);
      Some(LegacyDetection(freq, steps, Octave(steps)))
  }

  /** The two crates compute the same note: every field of the root crate's
      result equals the corresponding field of `NoteDetection`. */
  lemma LegacyAgrees(freq: real, log2: real -> real, pow2: real -> real)
    ensures LegacyTryFrom(freq, log2).Some? <==> TryFrom(freq, log2, pow2).Ok?
    ensures LegacyTryFrom(freq, log2).Some? ==>
      var l := LegacyTryFrom(freq, log2).value;
      var d := TryFrom(freq, log2, pow2).value;
      l == NoteDetectionResult(d.actualFreq, d.noteName, d.octave, d.centsOffset, d.previousNoteName, d.nextNoteName, d.inTune)
    ensures LegacyTryFromAsWritten(freq, log2).Some? ==>
      var l := LegacyTryFromAsWritten(freq, log2).value;
      var d := TryFromAsWritten(freq, log2, pow2).value;
      l == NoteDetectionResult(d.actualFreq, d.noteName, d.octave, d.centsOffset, d.previousNoteName, d.nextNoteName, d.inTune)
  {
  }

  /** The root crate's octave as written has the same B4 discrepancy. */
  lemma LegacyOctaveAsWrittenAtB4(freq: real, log2: real -> real)
    requires freq >= LegacyConstants.CORE_MIN_FREQ
    requires LegacyStepsFromA4(freq, log2) == 2.0
    ensures LegacyTryFromAsWritten(freq, log2).Some?
    ensures LegacyTryFromAsWritten(freq, log2).value.noteName == B
    ensures LegacyTryFromAsWritten(freq, log2).value.octave == 5
    ensures LegacyTryFrom(freq, log2).value.octave == 4
  {
  }

  /** `NoteDetectionResult::try_from(usize)`: the bin number taken as a
      frequency; it succeeds exactly from 33 on. */
  function LegacyTryFromBin(bin: nat, log2: real -> real): (r: Option<NoteDetectionResult>)
    ensures r.Some? <==> bin >= 33
    ensures r.Some? ==> r.value.freq == bin as real
    ensures r.Some? ==>
      LegacyTryFromAsWritten(bin as real, log2) == Some(r.value.(octave := OctaveAsWritten(LegacyStepsFromA4(bin as real, log2))))
  {
    LegacyTryFrom(bin as real, log2)
  }
}
