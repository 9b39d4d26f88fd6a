/** Value types shared by the detectors (pitch-detector/src/core/mod.rs, and the
    same `NoteName` in the root crate's src/core.rs). */
module Core {
  import opened Outcomes
  import Constants

  /** The twelve pitch classes, in the declaration order that the derived
      `PartialOrd` follows. */
  datatype NoteName = A | ASharp | B | C | CSharp | D | DSharp | E | F | FSharp | G | GSharp

  /** Position of a note in declaration order (semitones above A). */
  function Index(n: NoteName): (i: nat)
    ensures i < 12
  {
    match n
    case A => 0 case ASharp => 1 case B => 2 case C => 3
    case CSharp => 4 case D => 5 case DSharp => 6 case E => 7
    case F => 8 case FSharp => 9 case G => 10 case GSharp => 11
  }

  /** The note at a position of the declaration order. */
  function FromIndex(i: nat): (n: NoteName)
    requires i < 12
    ensures Index(n) == i
  {
    [A, ASharp, B, C, CSharp, D, DSharp, E, F, FSharp, G, GSharp][i]
  }

  lemma FromIndexOfIndex(n: NoteName)
    ensures FromIndex(Index(n)) == n
  {
  }

  /** The derived `PartialOrd`: notes compare by declaration order. */
  predicate Precedes(a: NoteName, b: NoteName) {
    Index(a) < Index(b)
  }

  /** `impl From<&str> for NoteName`; `None` stands for the panic on any
      other string. */
  function Parse(s: string): (r: Option<NoteName>)
    ensures r.Some? <==> s in Constants.NOTES
    ensures r.Some? ==> Constants.NOTES[Index(r.value)] == s
  {
    match s
    case "A" => Some(A)
    case "A#" => Some(ASharp)
    case "B" => Some(B)
    case "C" => Some(C)
    case "C#" => Some(CSharp)
    case "D" => Some(D)
    case "D#" => Some(DSharp)
    case "E" => Some(E)
    case "F" => Some(F)
    case "F#" => Some(FSharp)
    case "G" => Some(G)
    case "G#" => Some(GSharp)
    case _ => None
  }

  /** `impl Display for NoteName`. */
  function Display(n: NoteName): (s: string)
    ensures s == Constants.NOTES[Index(n)]
  {
    match n
    case A => "A" case ASharp => "A#" case B => "B" case C => "C"
    case CSharp => "C#" case D => "D" case DSharp => "D#" case E => "E"
    case F => "F" case FSharp => "F#" case G => "G" case GSharp => "G#"
  }

  /** Parsing what `Display` writes gives back the note. */
  lemma ParseDisplay(n: NoteName)
    ensures Parse(Display(n)) == Some(n)
  {
  }

  /** Entry `i` of `NOTES` converts to the note at position `i`: this is what
      makes `NOTES[i].into()` safe wherever `i < 12`. */
  lemma ParseNotes(i: nat)
    requires i < 12
    ensures Parse(Constants.NOTES[i]) == Some(FromIndex(i))
  {
    var n := Parse(Constants.NOTES[i]);
    assert n.Some?;
    NotesDistinct(Index(n.value), i);
  }

  lemma NotesDistinct(i: nat, j: nat)
    requires i < 12 && j < 12 && Constants.NOTES[i] == Constants.NOTES[j]
    ensures i == j
  {
  }

  /** The private `NoteName::base_freq` of src/core.rs as written: the lowest
      octave's frequency of each pitch class, A first. */
  function BaseFreqAsWritten(n: NoteName): real {
    match n
    case A => 25.50 case ASharp => 29.14 case B => 30.87 case C => 32.70
    case CSharp => 34.65 case D => 36.71 case DSharp => 38.89 case E => 41.20
    case F => 43.65 case FSharp => 46.25 case G => 49.00 case GSharp => 51.91
  }

  /** `BaseFreqAsWritten` with A0 at 27.50 Hz. */
  function BaseFreq(n: NoteName): (f: real)
    ensures n == A ==> f == 27.50
    ensures n != A ==> f == BaseFreqAsWritten(n)
  {
    if n == A then 27.50 else BaseFreqAsWritten(n)
  }

  /** Each entry is one equal-tempered semitone (a ratio of about 1.0595)
      above the previous one. */
  lemma BaseFreqSemitoneSteps(n: NoteName, m: NoteName)
    requires Index(m) == Index(n) + 1
    ensures 1.059 * BaseFreq(n) <= BaseFreq(m) <= 1.060 * BaseFreq(n)
  {
  }

  /** The entry for A as written is more than two semitones below A#. */
  lemma BaseFreqAsWrittenA()
    ensures BaseFreqAsWritten(ASharp) > 1.14 * BaseFreqAsWritten(A)
  {
  }

  /** The C entry is the lowest detectable frequency, C1. */
  lemma BaseFreqOfC()
    ensures BaseFreq(C) == Constants.MIN_FREQ
  {
  }

  /** A spectrum slot and its magnitude. */
  datatype FrequencyBin = FrequencyBin(bin: nat, magnitude: real)

  /** `FrequencyBin::default()`. */
  const DEFAULT_FREQUENCY_BIN: FrequencyBin := FrequencyBin(0, 0.0)

  datatype Ordering = Less | Equal | Greater

  /** `FrequencyBin::partial_cmp`: only the magnitudes are compared. */
  function PartialCmp(a: FrequencyBin, b: FrequencyBin): (o: Ordering)
    ensures o == Less <==> a.magnitude < b.magnitude
    ensures o == Equal <==> a.magnitude == b.magnitude
    ensures o == Greater <==> a.magnitude > b.magnitude
  {
    if a.magnitude < b.magnitude then Less
    else if a.magnitude > b.magnitude then Greater
    else Equal
  }

  /** Two different bins of equal magnitude compare `Equal` although the derived
      `PartialEq` tells them apart. */
  lemma EqualMagnitudeDifferentBins(a: FrequencyBin, b: FrequencyBin)
    requires a.bin != b.bin && a.magnitude == b.magnitude
    ensures PartialCmp(a, b) == Equal && a != b
  {
  }

  /** A point of a spectrum: abscissa (bin as a real) and value. */
  datatype FftPoint = FftPoint(x: real, y: real)

  /** `FftPoint::default()`. */
  const DEFAULT_FFT_POINT: FftPoint := FftPoint(0.0, 0.0)

  /** `impl From<FrequencyBin> for FftPoint`. */
  function FromFrequencyBin(b: FrequencyBin): (p: FftPoint)
    ensures p.x == b.bin as real && p.y == b.magnitude
  {
    FftPoint(b.bin as real, b.magnitude)
  }
}
