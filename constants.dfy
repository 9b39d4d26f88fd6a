/** Constants of the pitch-detector crate (pitch-detector/src/core/constants.rs). */
module Constants {
  const MAX_FREQ: real := 1046.50  // C6
  const MIN_FREQ: real := 32.7     // C1
  const MIN_ZERO_CROSSING_RATE: real := 350.0
  const A4_FREQ: real := 440.0
  /** Note names indexed by semitones above A, modulo 12. */
  const NOTES: seq<string> := ["A", "A#", "B", "C", "C#", "D", "D#", "E", "F", "F#", "G", "G#"]
  /** Noticeable pitch difference starts at around 10-25 cents. */
  const MAX_CENTS_OFFSET: real := 10.0
  const NUM_CENTS_BETWEEN_NOTES: real := 100.0
}

/** Constants of the older root crate: src/core/constants.rs (`CORE_…`) and
    src/constants.rs (`DETECTOR_…`, used by src/detectors/). The root crate's
    `NOTES` list is the same as `Constants.NOTES`. */
module LegacyConstants {
  const CORE_MAX_FREQ: real := 2093.0  // C7
  const CORE_MIN_FREQ: real := 32.7    // C1
  const CORE_MIN_ZERO_CROSSING_RATE: real := 0.003
  const CORE_A4_FREQ: real := 440.0
  const CORE_MAX_CENTS_OFFSET: real := 10.0
  const DETECTOR_SAMPLE_RATE: real := 44000.0
  const DETECTOR_MAX_FREQ: real := 4186.0
  const DETECTOR_MIN_FREQ: real := 27.5
}
