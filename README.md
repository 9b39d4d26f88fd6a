# pitch-detector in Dafny

A Dafny model of the bookkeeping around the numerics in the `pitch-detector` Rust crates. The repository estimates the fundamental frequency of an audio signal and names the nearest musical note. All of its numerics come from other crates: the FFT, the Hann window, logarithms, a Gaussian curve fit and statistical peak finders. What the repository does itself is wrap those calls:

- it sizes, loads, rewrites and reads FFT workspaces;
- it maps bins to frequencies and frequencies to bins;
- it chooses which peak of a spectrum, cepstrum or lag spectrum to report (an argmax, a prominence gate, a hint match, positive-run segmentation, threshold searches);
- it interpolates a peak to sub-bin precision;
- it converts a frequency into a note, with its octave, cents offset and neighbours.

The model covers both generations of code: the current crate under `pitch-detector/` and the older root crate under `src/`.

Foreign numerics are parameters of function type: `Transform` for the forward and inverse FFT, `nat -> seq<real>` for the Hann window, `real -> real` for `ln`, `log2`, `2^x` and `sqrt`, `Fit` for the Gaussian fit, and `PeakFinder`, `ZScorePeaks` and `Labeler` for the peak finders. A method that needs one of them to keep lengths or stay inside the spectrum says so through a ghost predicate (`LengthPreserving`, `PeaksInSpectrum`, `ZScorePeaksInSpectrum`, `LabelsEach`). `f64` is `real`. `x.round()` rounds half away from zero (`Numerics.Round`). `as usize` of a float saturates at 0 (`Numerics.RoundToUsize`).

Where the source changes things in place, the model does too:

- The workspaces are classes over arrays (`FftWorkspace.FftSpace`, `LegacyFftWorkspace.UnpaddedFftSpace`).
  The root crate's `src/pitch/cepstrum.rs`, `src/frequency/autocorrelation.rs` and `src/detectors/autocorrelation.rs` call `len()` and `init_fft_space`, which only the unpadded `src/fft_space.rs` workspace has, so those detectors run on `UnpaddedFftSpace`. The Hann-windowed, raw-FFT and current-crate detectors use the padded `src/core/fft_space.rs` one.
- The detectors create their workspace lazily (`HannedFft.HannedFftDetector`, `LegacyHannedFft.HannedFftDetector`, `Cepstrum.PowerCepstrum`) or own one (`DetectorsAutocorrelation.AutocorrelationDetector`).
- The consuming iterators are classes over the stream still to come (`AutocorrelationPeaks.AutocorrelationPeakIter`, `PeakIteration.PeakIter`).
- The loops of the autocorrelation, YIN and cepstrum-window detectors, of the peak-neighbourhood scan and of the FFT sizing are `while` loops. Each is proved against a function that states its result.

Modules, one per source file or concern:

| module | source |
|---|---|
| `Outcomes`, `Numerics`, `Constants`, `LegacyConstants` | `PitchError`, `Option`/`Result`, rounding, complex slots, the constants files |
| `Core` | `pitch-detector/src/core/mod.rs`, `src/core.rs` |
| `NoteDetections` | both `note_detection_result.rs` |
| `Pcm`, `FftSizing` | `audio_buffer_to_samples` in both crates, `calc_optimized_fft_space_size` |
| `FftWorkspace`, `LegacyFftWorkspace` | `src/core/fft_space.rs`, `src/fft_space.rs` |
| `Interpolation`, `Selection` | `interpolated_peak_at`; argmax, argmin, the stable descending sort and `find` |
| `FftBins`, `HannedFft`, `LegacyHannedFft` | the Hann-windowed FFT detectors of both crates |
| `Cepstrum`, `CepstrumPitch`, `LegacyCepstrum` | `pitch-detector/src/pitch/cepstrum.rs`, `cepstrum2.rs`, `src/pitch/cepstrum.rs` |
| `Autocorrelation`, `Yin`, `LegacyAutocorrelation` | `pitch-detector/src/pitch/autocorrelation.rs`, `autocorrelation2.rs`, `src/pitch/autocorrelation.rs` |
| `AutocorrelationPeaks`, `FrequencyAutocorrelation`, `DetectorsAutocorrelation` | the positive-run iterator of `src/frequency/autocorrelation.rs` and `src/detectors/autocorrelation.rs` |
| `PeakIteration` | `src/peak_iter.rs` |
| `LegacyPitch`, `RawFft`, `ZeroCrossing` | `src/pitch.rs`, `src/pitch/raw_fft.rs`, `src/pitch/core.rs` and `src/pitch/utils.rs` |
| `Hinted`, `LegacyHinted` | `pitch-detector/src/note/hinted/mod.rs`, `src/note/hinted.rs` |

## Model

| member | source | states |
|---|---|---|
| Outcomes.Result.ToOption | src/pitch.rs:32 | `Result::ok()`: `Some` exactly for `Ok`, and it carries the same value |
| Numerics.NormSqr | src/core/fft_space.rs:15-28 | `norm_sqr` is never negative and is 0 for the zero slot |
| Numerics.MulConjIsNormSqr | src/pitch/autocorrelation.rs:42 | `z * z.conj()` is the real number `re² + im²` with imaginary part 0 |
| Numerics.Round | pitch-detector/src/note/note_detection_result.rs:49-51 | `f64::round`: within 0.5 of its input, with halfway cases rounded away from zero |
| Numerics.Floor | pitch-detector/src/note/note_detection_result.rs:58 | `f64::floor` as an integer: the greatest integer not above its input |
| Numerics.RoundMonotone | pitch-detector/src/pitch/cepstrum.rs:111-120 | `round` never decreases as its input grows |
| Numerics.RoundToUsize | pitch-detector/src/pitch/hanned_fft.rs:71-78 | `round() as usize`: the rounded value when it is non-negative, 0 otherwise |
| Numerics.RoundToUsizeMonotone | pitch-detector/src/pitch/cepstrum.rs:111-120 | `round() as usize` is monotone, so a larger frequency or lag never gives a smaller bin |
| Numerics.Div | src/frequency/autocorrelation.rs:134 | a quotient times a nonzero divisor gives back the dividend |
| Numerics.RatioExceedsPositive | pitch-detector/src/pitch/cepstrum.rs:144-151 | for a positive divisor, `a / b > t` holds exactly when `a > t·b` |
| Numerics.Sign | src/pitch/core.rs:27-29 | `signum` is ±1, and +1 exactly for non-negative samples |
| Numerics.Window | src/pitch/cepstrum.rs:21-33 | `iter().skip(k).take(n)` keeps `min(n, len − k)` entries (none past the end), entry i being entry `k + i` of the source |
| Numerics.IndexRange | src/frequency/autocorrelation.rs:64-86 | `(lo..hi).map(as f64)` has `hi − lo` entries, entry i being `lo + i` |
| Core.Index | pitch-detector/src/core/mod.rs:12-26 | each variant's position in declaration order is below 12 |
| Core.FromIndex | pitch-detector/src/core/mod.rs:12-26 | the variant at position i of the declaration order has position i |
| Core.FromIndexOfIndex | pitch-detector/src/core/mod.rs:12-26 | positions identify variants: converting back gives the same note |
| Core.Parse | pitch-detector/src/core/mod.rs:28-46 | defined exactly on the 12 strings of `NOTES` (the panic is `None`), and the note found sits at that string's position in `NOTES` |
| Core.Display | pitch-detector/src/core/mod.rs:48-65 | each note prints as the `NOTES` entry at its position, so the derived order follows `NOTES` |
| Core.ParseDisplay | pitch-detector/src/core/mod.rs:28-65 | parsing what `Display` writes gives back the note |
| Core.ParseNotes | pitch-detector/src/core/constants.rs:5-7 | `NOTES[i].into()` never panics and gives the note at position i, so `Display(From(s)) == s` for each of the 12 strings |
| Core.NotesDistinct | src/core.rs:43-61 | the 12 note strings are pairwise different, so distinct strings parse to distinct variants |
| Core.BaseFreq | src/core.rs:25-40 | the `base_freq` table with A0 at 27.50 Hz; every other entry as written |
| Core.BaseFreqSemitoneSteps | src/core.rs:25-40 | each entry of the corrected table is one equal-tempered semitone (ratio 1.059 to 1.060) above the previous one, so the table is positive and strictly increasing |
| Core.BaseFreqAsWrittenA | src/core.rs:27 | the A entry as written lies more than two semitones below A# |
| Core.BaseFreqOfC | src/core.rs:30 | the C entry equals `MIN_FREQ` (C1, 32.7 Hz) |
| Core.PartialCmp | pitch-detector/src/core/mod.rs:82-86 | `FrequencyBin::partial_cmp` is Less, Equal or Greater exactly as the magnitudes compare |
| Core.EqualMagnitudeDifferentBins | pitch-detector/src/core/mod.rs:67-86 | two different bins of equal magnitude compare Equal, although the derived `PartialEq` tells them apart |
| Core.FromFrequencyBin | pitch-detector/src/core/mod.rs:100-107 | `FftPoint::from(bin)` has `x = bin` and `y = magnitude` |
| NoteDetections.NoteAt | pitch-detector/src/note/note_detection_result.rs:54-56 | the note k semitones above A sits at position `k rem_euclid 12` |
| NoteDetections.NoteAtIsNotesEntry | pitch-detector/src/note/note_detection_result.rs:54-65 | `NOTES[k.rem_euclid(12)].into()` never panics and gives that note |
| NoteDetections.NeighbourIndices | pitch-detector/src/note/note_detection_result.rs:60-65 | `(n − 1) rem 12` and `(n + 1) rem 12` are the cyclic neighbours of `n rem 12` |
| NoteDetections.Octave | pitch-detector/src/note/note_detection_result.rs:50-58 | the corrected octave: the nearest note in that octave is exactly `round(steps)` semitones from A4 |
| NoteDetections.Detection | pitch-detector/src/note/note_detection_result.rs:48-67 | note at `round(steps) mod 12`, cyclic neighbours, cents in [−50, 50] with `steps = n + cents/100`, in tune iff the absolute cents offset is below 10, `note_freq = 440·2^(n/12)`, and the input kept as `actual_freq` |
| NoteDetections.TryFrom | pitch-detector/src/note/note_detection_result.rs:39-69 | `IncorrectParameters` exactly below `MIN_FREQ`; otherwise every field as in `Detection`, and the octave is that of the nearest note |
| NoteDetections.TryFromAsWrittenDiffersOnlyInOctave | pitch-detector/src/note/note_detection_result.rs:50-58 | the code as written and the corrected version fail on the same inputs and agree on every field except `octave` |
| NoteDetections.OctaveAsWrittenAtB4 | pitch-detector/src/note/note_detection_result.rs:50-58 | at exactly two steps above A4 the code as written reports B in octave 5, where the corrected version reports B4 |
| NoteDetections.OctaveBoundaryAtC | pitch-detector/src/note/note_detection_result.rs:58 | every pitch that rounds to B4 lies in the corrected octave 4 |
| NoteDetections.TryFromA4 | pitch-detector/src/note/note_detection_result.rs:179-188 | 440 Hz gives A4 at 440 Hz, 0 cents, in tune, between G# and A# |
| NoteDetections.TryFromA5 | pitch-detector/src/note/note_detection_result.rs:209-218 | 880 Hz gives A in octave 5 |
| NoteDetections.TryFromA3 | pitch-detector/src/note/note_detection_result.rs:219-228 | 220 Hz gives A in octave 3 |
| NoteDetections.TryFromC5 | pitch-detector/src/note/note_detection_result.rs:199-208 | 523.25 Hz gives C5, in both the corrected version and the code as written |
| NoteDetections.TryFromB4 | pitch-detector/src/note/note_detection_result.rs:189-198 | 493.88 Hz (just below two steps) gives B4, in both versions |
| NoteDetections.TryFromSharpA | pitch-detector/src/note/note_detection_result.rs:229-238 | 448 Hz gives A4 reported at 440 Hz, between 30 and 32 cents sharp, and not in tune |
| NoteDetections.TryFromNearNote | pitch-detector/src/note/note_detection_result.rs:76-124 | a pitch within one cent of the note `k` semitones from A4 is that note with its two neighbours and its octave, in tune, with a cents offset inside (-1, 1) |
| NoteDetections.TryFromDSharp4 | pitch-detector/src/note/note_detection_result.rs:129-138 | 311.13 Hz is D#4 between D and E, in tune |
| NoteDetections.TryFromE4 | pitch-detector/src/note/note_detection_result.rs:139-148 | 329.63 Hz is E4 between D# and F, in tune |
| NoteDetections.TryFromF4 | pitch-detector/src/note/note_detection_result.rs:149-158 | 349.23 Hz is F4 between E and F#, in tune |
| NoteDetections.TryFromFSharp4 | pitch-detector/src/note/note_detection_result.rs:159-168 | 369.99 Hz is F#4 between F and G, in tune |
| NoteDetections.TryFromG4 | pitch-detector/src/note/note_detection_result.rs:169-178 | 392 Hz is G4 between F# and G#, in tune |
| NoteDetections.TryFromZero | pitch-detector/src/note/note_detection_result.rs:239-249 | 0 Hz is rejected with `IncorrectParameters` |
| NoteDetections.LegacyDetection | src/note/note_detection_result.rs:23-40 | the root crate's result carries the octave it is given |
| NoteDetections.LegacyTryFrom | src/note/note_detection_result.rs:17-42 | fails exactly below `MIN_FREQ`; the corrected octave and the note are `round(steps)` semitones from A4 |
| NoteDetections.LegacyAgrees | src/note/note_detection_result.rs:17-42 | the root crate's `NoteDetectionResult` equals the crate's `NoteDetection` field by field, both as written and corrected |
| NoteDetections.LegacyOctaveAsWrittenAtB4 | src/note/note_detection_result.rs:24-31 | the root crate as written has the same B4 octave discrepancy |
| NoteDetections.LegacyTryFromBin | src/note/note_detection_result.rs:44-49 | `try_from(usize)` succeeds exactly from bin 33 on and keeps the bin number as the frequency; the source's as-written result is this one with the as-written octave |
| Pcm.SampleFromBytes | pitch-detector/src/core/utils.rs:24 | `i16::from_ne_bytes` (little-endian): the sample is congruent to `lo + 256·hi` modulo 2^16, and is negative exactly when the high byte's top bit is set |
| Pcm.SampleToBytes | pitch-detector/src/core/utils.rs:24 | the two bytes, low first, whose value is the sample modulo 2^16 |
| Pcm.SampleBytesRoundTrip | pitch-detector/src/core/utils.rs:24 | decoding the bytes of a sample gives the sample back |
| Pcm.AudioBufferToSamples | pitch-detector/src/core/utils.rs:20-26 | ⌊n/2⌋ samples, sample k built from bytes 2k and 2k+1 |
| Pcm.AudioBufferToSignal | pitch-detector/src/core/utils.rs:27-29 | the same samples as reals, each in [−32768, 32768) |
| Pcm.SamplesToAudioBuffer | src/utils.rs:1-6 | the reference encoder, which has no counterpart in the source and exists so that `DecodeEncode` can state that the decoder at these lines inverts it; a sample sequence encodes to twice as many bytes |
| Pcm.DecodeEncode | src/utils.rs:1-6 | decoding the byte buffer of a sample sequence gives the sequence back |
| Pcm.TrailingByteIgnored | src/utils.rs:3 | `chunks_exact(2)` drops an odd trailing byte: appending one changes no sample |
| FftSizing.DoubleUntil | src/utils.rs:8-17 | the doubling loop from a power of two stops at a power of two that is at least 1024 and at least n, and whose half is below n unless it is 1024 |
| FftSizing.PaddedSize | src/core/fft_space.rs:42-50 | the padded length is a power of two, at least 1024 and at least n, and either 1024 or less than 2n |
| FftSizing.PaddedSizeLeast | src/utils.rs:8-17 | no power of two that is at least 1024 and at least n is smaller than the padded length |
| FftSizing.PowersOfTwoBetween | src/utils.rs:8-17 | no power of two lies strictly between two consecutive ones |
| FftSizing.CalcOptimizedFftSpaceSize | src/utils.rs:8-17 | `calc_optimized_fft_space_size` returns `PaddedSize(n)`, so it agrees with `FftSpace::new` |
| FftWorkspace.Powers | src/core/fft_space.rs:18 | every slot's `norm_sqr`, non-negative |
| FftWorkspace.FreqDomainValues | src/core/fft_space.rs:15-28 | one value per slot: `re² + im²`, or its square root when `square_rooted` |
| FftWorkspace.FreqDomainPairs | src/core/fft_space.rs:105-110 | exactly `padded_len` `(value, phase)` pairs in slot order, the phase being `arg` of the slot |
| FftWorkspace.Loaded | src/core/fft_space.rs:94-102 | slot i holds `(signal[i], 0)` for i below the signal length and zero after it |
| FftWorkspace.LoadedSignal | src/core/fft_space.rs:76-99 | the real parts of a loaded buffer's first slots are the signal again |
| FftWorkspace.Windowed | src/pitch/raw_fft.rs:39-41 | the first `min(len, window length)` real parts are multiplied by the window, and every imaginary part and later slot is kept |
| FftWorkspace.WindowedPaddingStaysZero | src/pitch/raw_fft.rs:39-41 | windowing a loaded buffer keeps its padding zero |
| FftWorkspace.FftSpace.constructor | src/core/fft_space.rs:42-56 | `new(size)`: `signal_len = size`, and `space` and `scratch` are zeroed and `PaddedSize(size)` long |
| FftWorkspace.FftSpace.Signal | src/core/fft_space.rs:76-78 | `signal()`: `signal_len` values, the real parts of the first slots |
| FftWorkspace.FftSpace.FreqDomain | src/core/fft_space.rs:105-110 | one value per slot of the buffer: the slot's `norm_sqr`, or its square root when `square_rooted` |
| FftWorkspace.FftSpace.Map | src/core/fft_space.rs:58-62 | each slot is replaced by the image of its old value, and the length is kept |
| FftWorkspace.FftSpace.InitWithSignal | src/core/fft_space.rs:84-103 | requires the signal to fit; the buffer becomes `Loaded(signal, padded_len)`, and only `space`'s elements change (not `signal_len`, not `scratch`) |
| FftWorkspace.FftSpace.ApplyWindow | src/pitch/raw_fft.rs:39-41 | the Hann multiply in place: the buffer becomes `Windowed(old buffer, window)` |
| FftWorkspace.FftSpace.Process | src/pitch/raw_fft.rs:42-44 | the buffer is replaced by its transform |
| LegacyFftWorkspace.UnpaddedFftSpace.constructor | src/fft_space.rs:41-46 | `new(size)`: both buffers are exactly `size` zero slots, with no padding |
| LegacyFftWorkspace.UnpaddedFftSpace.FreqDomain | src/fft_space.rs:87-92 | one value per slot of the buffer: the slot's `norm_sqr`, or its square root when `square_rooted` |
| LegacyFftWorkspace.UnpaddedFftSpace.Map | src/fft_space.rs:48-52 | each slot is replaced by the image of its old value, and the length is kept |
| LegacyFftWorkspace.UnpaddedFftSpace.InitFftSpace | src/fft_space.rs:66-85 | requires the signal to fit; the prefix becomes `(s[i], 0)` and the rest zero, and the length is kept |
| LegacyFftWorkspace.UnpaddedFftSpace.Process | src/frequency/autocorrelation.rs:95-101 | the buffer is replaced by its transform |
| FftBins.BinFreqRoundTrip | pitch-detector/src/pitch/hanned_fft.rs:82-95 | `freq_to_bin(bin_to_freq(b)) == b` and `bin_to_freq(freq_to_bin(f)) == f` |
| FftBins.BinToFreqMonotone | src/pitch/hanned_fft.rs:77-90 | for a positive sample rate, a higher bin maps to a higher frequency |
| FftBins.HannedBinRange | pitch-detector/src/pitch/hanned_fft.rs:71-78 | with a range, `(round(f_start·N/sr), round(f_end·N/sr))`, ordered; without one, `(0, signal.len()/2)` |
| FftBins.RangeBinWithinHalfBin | src/pitch/hanned_fft.rs:66-73 | the rounded bin of a frequency maps back within half a bin width of it |
| FftBins.BinOffset | src/pitch/hanned_fft.rs:77-90 | mapping a bin back misses the frequency by the bin's distance from `freq·N/sr`, times the bin width |
| RawFft.FftRange | src/pitch/raw_fft.rs:27-31 | `(round(MIN_FREQ·N/sr), round(MAX_FREQ·N/sr))`, an ordered pair |
| RawFft.FftRangeIsHannedRange | src/pitch/raw_fft.rs:27-31 | the raw detector's range is the Hann detector's range for `MIN_FREQ..MAX_FREQ` |
| RawFft.PeakFrequency | src/pitch/raw_fft.rs:68-72 | a frequency exists exactly when the interpolated first maximum does |
| RawFft.Pitch | src/pitch/raw_fft.rs:63-73 | a frequency is only reported when the crossing rate passes the gate |
| RawFft.PitchIsDefaultDetect | src/pitch/raw_fft.rs:45-73 | past the gate, the result is the default `detect` (earliest maximum, interpolated) over the raw range, reported as `(lower + x)·sr/N` |
| RawFft.DetectWithHannedMapper | src/pitch.rs:33 | `detect` with the FFT mapping reports bin `start + x` at `(start + x)·sr/N` |
| RawFft.OneSidedSignalRejected | src/pitch/raw_fft.rs:63-67 | a signal that never changes sign has rate 0 and gives `None` |
| RawFft.DetectWithFftSpace | src/pitch/raw_fft.rs:33-73 | a rejected rate returns `None` with the workspace untouched; otherwise the workspace becomes `fft(Hann-windowed buffer)` and the result is `Pitch` of it |
| LegacyPitch.UnscaledPeak | src/pitch.rs:19-32 | `None` exactly for an empty spectrum or a failed interpolation at the first maximum, and a failure needs at least three points to fit; otherwise the interpolated first maximum |
| LegacyPitch.UnscaledPeakOfLoneSpike | src/pitch/raw_fft.rs:50-58 | a strict maximum with non-positive neighbours is found at its own index and value |
| LegacyPitch.UnscaledPeakWithoutFit | src/pitch.rs:21-32 | when the maximum's neighbourhood has at most two points, a peak is found inside the spectrum |
| LegacyPitch.Detect | src/pitch.rs:13-34 | `None` exactly when the spectrum is empty or interpolation fails |
| LegacyPitch.DetectLoneSpike | src/pitch.rs:33 | a lone spike at slot i is reported at `bin_to_freq(start_bin + i)` |
| ZeroCrossing.PairTerm | src/pitch/core.rs:27 | the absolute difference of the signums of a pair, `as usize`, is 0 or 2 |
| ZeroCrossing.SignChangesLast | src/pitch/core.rs:26-28 | counting adjacent crossings from the back gives the same number as from the front |
| ZeroCrossing.TermSumCountsCrossings | src/pitch/core.rs:26-28 | the sum of the pair terms is twice the number of adjacent pairs that straddle zero |
| ZeroCrossing.CountIsSignChanges | src/pitch/core.rs:18-30 | `zero_crossing_count` is the number of adjacent sign changes (signum of 0.0 being +1), and 0 below two samples |
| ZeroCrossing.SignChangesBounded | src/pitch/utils.rs:11-14 | there are at most `n − 1` sign changes |
| ZeroCrossing.OneSidedNoCrossing | src/pitch/utils.rs:4-15 | a signal of constant sign has count 0 |
| ZeroCrossing.NoCrossingPairs | src/pitch/core.rs:18-30 | a signal of constant sign has no sign change |
| ZeroCrossing.AlternatingCrossesEverywhere | src/pitch/core.rs:18-30 | a signal that changes sign at every step reaches the bound `n − 1` |
| ZeroCrossing.AllPairsCross | src/pitch/core.rs:18-30 | a signal that crosses at every adjacent pair has `n − 1` sign changes |
| ZeroCrossing.ZeroCrossingRateBounded | src/pitch/core.rs:31-39 | `sample_rate / len · count` is non-negative and below the sample rate |
| ZeroCrossing.ZeroCrossingRateZero | src/pitch/utils.rs:16-22 | both rates (`sample_rate / len · count` and `count / sample_rate`) are 0 exactly when the signal never changes sign |
| ZeroCrossing.ScaledCountBounds | src/pitch/core.rs:38 | `rate / n · c` lies in `[0, rate)` for a count below n, and is zero only for a zero count |
| Interpolation.PeakBegin | pitch-detector/src/core/utils.rs:33-42 | the leftward scan stops at `begin ≤ x`; every slot from `begin` up to x is positive and not above its right neighbour; and the scan is maximal: `begin == 0`, or `s[begin] < s[begin−1]`, or `s[begin−1] ≤ 0` |
| Interpolation.PeakEnd | pitch-detector/src/core/utils.rs:43-52 | the mirror scan: `x ≤ end < len`, every slot after x up to `end` is positive and not above its left neighbour, and `end` is the last slot or the next slot is larger or not positive |
| Interpolation.Summit | pitch-detector/src/core/utils.rs:53-89 | one slot gives `(x, s[x])`; two slots give the strictly larger one, the right one on a tie; with three or more, the result is the fit's `(mu, a)`, and a fit failure becomes `UnexpectedError`, which has no other source |
| Interpolation.IsolatedPeak | pitch-detector/src/core/utils.rs:67-70 | a slot whose neighbours are larger or not positive is returned unchanged as `(x, s[x])` |
| Interpolation.InterpolateErrors | pitch-detector/src/core/utils.rs:63-66 | interpolation fails only with `UnexpectedError`, from a run of at least three slots; the `IncorrectParameters` arm is unreachable |
| Interpolation.ShortRunSummit | pitch-detector/src/core/utils.rs:67-83 | a run of one or two slots always succeeds, with its summit inside the run |
| Interpolation.PeakBeginStable | pitch-detector/src/core/utils.rs:33-42 | starting the leftward scan from any slot of the rising flank gives the same begin |
| Interpolation.ScanBegin | pitch-detector/src/core/utils.rs:33-42 | the first `loop` computes `PeakBegin` |
| Interpolation.ScanEnd | pitch-detector/src/core/utils.rs:43-52 | the second `loop` computes `PeakEnd` |
| Interpolation.InterpolatedPeakAt | pitch-detector/src/core/utils.rs:32-90 | requires `fft_point_x < len`; its result is the `Summit` of the run from `PeakBegin` to `PeakEnd` |
| Selection.FirstMaxUpTo | pitch-detector/src/pitch/hanned_fft.rs:107-110 | the strict-`>` `reduce` over a prefix keeps a greatest value, earlier than every other greatest one |
| Selection.FirstMax | src/pitch.rs:21-30 | the index kept by the `reduce` holds a greatest value, and every earlier value is strictly smaller (the earliest maximum) |
| Selection.FirstMinUpTo | pitch-detector/src/pitch/autocorrelation.rs:35-40 | the strict-`<` search over a prefix keeps a least value, earlier than every other least one |
| Selection.FirstMin | pitch-detector/src/pitch/autocorrelation.rs:35-40 | the earliest least value |
| Selection.FirstMaxUnique | src/pitch.rs:21-30 | the earliest maximum is the only index having both properties |
| Selection.InsertDesc | pitch-detector/src/pitch/cepstrum.rs:143 | inserting into a descending sequence adds exactly that element (multiset) |
| Selection.InsertDescBounded | pitch-detector/src/pitch/cepstrum.rs:143 | insertion introduces no magnitude above a common bound |
| Selection.InsertDescSorted | pitch-detector/src/pitch/cepstrum.rs:143 | insertion keeps the sequence sorted descending |
| Selection.SortByMagnitudeDesc | pitch-detector/src/note/hinted/mod.rs:52 | `sort_by` with `b.partial_cmp(a)`: sorted by descending magnitude and a permutation of the input |
| Selection.InsertDescAfterEqual | src/note/hinted.rs:28 | one insertion step of the sort puts the inserted element behind an element of equal magnitude already in place |
| Selection.InsertLevel | pitch-detector/src/note/hinted/mod.rs:52 | inserting into a sorted sequence appends the inserted element to the elements of its magnitude and leaves every other magnitude's elements as they were |
| Selection.SortStable | pitch-detector/src/note/hinted/mod.rs:52 | the sort is stable: for every magnitude, the elements of that magnitude come out in the order they had in the input |
| Selection.FindFrom | pitch-detector/src/note/hinted/mod.rs:53-63 | `find` from position i: the first index at or after i satisfying the predicate, or `None` when there is none |
| Selection.FindFirst | pitch-detector/src/note/hinted/mod.rs:53-63 | `find`: the first satisfying index, or `None` exactly when no element satisfies it |
| Selection.SortedPeaksInSpectrum | pitch-detector/src/pitch/cepstrum.rs:142-143 | sorting keeps every candidate bin inside the spectrum |
| Selection.NoneInPermutation | src/note/hinted.rs:29-39 | when no element of a permutation satisfies a predicate, no element of the original does |
| Selection.FindFirstSortedNone | pitch-detector/src/note/hinted/mod.rs:64-66 | no match among the sorted candidates means no candidate matches |
| Selection.StrongerComesFirst | pitch-detector/src/note/hinted/mod.rs:52-63 | in a descending permutation, every element strictly stronger than position i comes before i |
| Selection.FoundInPermutationStrongest | pitch-detector/src/note/hinted/mod.rs:52-63 | the first match in a descending permutation is an original element, and no strictly stronger element matches |
| Selection.FindFirstSortedStrongest | pitch-detector/src/note/hinted/mod.rs:52-63 | the candidate picked after sorting is a candidate, and no strictly stronger candidate matches |
| HannedFft.NormalizedSpectrum | pitch-detector/src/pitch/hanned_fft.rs:24-38 | `unscaled_spectrum`: the slots of `[lower, upper)` that the buffer holds, each `sqrt(re² + im²)·(1/√N)` |
| HannedFft.NormalizedSpectrumLength | pitch-detector/src/pitch/hanned_fft.rs:31-32 | the spectrum has `upper − lower` entries when `upper` is inside the buffer, and never runs past the buffer |
| HannedFft.SummitFrequency | pitch-detector/src/pitch/hanned_fft.rs:115-116 | an interpolated summit x becomes `bin_to_freq(x + start_bin)`, and its error is propagated unchanged |
| HannedFft.SummitFrequencyWithin | pitch-detector/src/pitch/hanned_fft.rs:82-88 | a summit inside the range maps to a frequency between those of the range's first and last bins |
| HannedFft.PitchOfSpectrum | pitch-detector/src/pitch/hanned_fft.rs:105-117 | `IncorrectParameters` exactly for an empty spectrum; any other error is the fit's `UnexpectedError`; otherwise the frequency of the interpolated summit at the earliest maximum, offset by `start_bin` |
| HannedFft.PitchOfLoneSpike | pitch-detector/src/pitch/hanned_fft.rs:107-116 | a strict maximum with non-positive neighbours is reported at the frequency of bin `start_bin + i` |
| HannedFft.PitchWithinRangeWithoutFit | pitch-detector/src/pitch/hanned_fft.rs:105-117 | without a Gaussian fit (the maximum's run has at most two slots), the pitch is found and lies between the frequencies of the first and last analysed bins |
| HannedFft.PeakFrequency | pitch-detector/src/pitch/hanned_fft.rs:107-116 | the `reduce`, `interpolated_peak_at` and `bin_to_freq` steps compute `PitchOfSpectrum` |
| HannedFft.HannedFftDetector.constructor | pitch-detector/src/pitch/hanned_fft.rs:17-21 | `default()`: no workspace yet |
| HannedFft.HannedFftDetector.EnsureFftSpace | pitch-detector/src/pitch/hanned_fft.rs:63-65 | the workspace is created, sized for this signal, only when there is none; an existing one is kept |
| HannedFft.HannedFftDetector.ProcessFft | pitch-detector/src/pitch/hanned_fft.rs:40-54 | the buffer becomes `fft` of itself with the first `signal_len` real parts Hann-windowed |
| HannedFft.HannedFftDetector.IntoFrequencyDomain | pitch-detector/src/pitch/hanned_fft.rs:57-80 | on the first call the workspace is created for that signal's length; on later calls the same workspace object, its `signal_len` and its buffer are kept; the buffer holds the transformed windowed signal; the start bin is the range's lower bin and the spectrum is `NormalizedSpectrum` of that range |
| HannedFft.HannedFftDetector.DetectPitchInRange | pitch-detector/src/pitch/hanned_fft.rs:98-117 | the workspace is created or kept as in `IntoFrequencyDomain`; the result is `PitchOfSpectrum` of the spectrum of the rounded bin range `(round(f_start·N/sr), round(f_end·N/sr))` |
| LegacyHannedFft.UnscaledSpectrum | src/pitch/hanned_fft.rs:23-36 | the square-rooted powers of the slots of `[lower, upper)` that the buffer holds, unnormalised; `upper − lower` of them when `upper` is inside the buffer |
| LegacyHannedFft.HannedFftDetector.constructor | src/pitch/hanned_fft.rs:16-20 | `default()`: no workspace yet |
| LegacyHannedFft.HannedFftDetector.EnsureFftSpace | src/pitch/hanned_fft.rs:61-63 | the workspace is created once, sized for the first signal, and kept afterwards |
| LegacyHannedFft.HannedFftDetector.ProcessFft | src/pitch/hanned_fft.rs:38-52 | the buffer becomes `fft` of itself with the first `signal_len` real parts Hann-windowed |
| LegacyHannedFft.HannedFftDetector.SignalToSpectrum | src/pitch/hanned_fft.rs:55-75 | on the first call the workspace is created for that signal's length; on later calls the same workspace object, its `signal_len` and its buffer are kept; the start bin is the rounded lower bin of the range, or 0 with no range; the spectrum is `UnscaledSpectrum` of `[lower, upper)`, or of `[0, len/2)` without a range |
| LegacyHannedFft.HannedFftDetector.Detect | src/pitch.rs:13-34 | the workspace is created or kept as in `SignalToSpectrum`; the default `detect`: `LegacyPitch.Detect` over this detector's spectrum with `bin_to_freq = bin·sr/N`, the sample rate forwarded with the range hint |
| Hinted.NamesHintIsTryFrom | pitch-detector/src/note/hinted/mod.rs:55-63 | the `find` predicate holds exactly when `NoteDetection::try_from` of the candidate bin's frequency succeeds with the hinted note name |
| Hinted.HintedPeak | pitch-detector/src/note/hinted/mod.rs:51-67 | `NoPitchDetected` exactly when no candidate names the hint; any other error is the interpolation's |
| Hinted.HintedPeakStrongestMatch | pitch-detector/src/note/hinted/mod.rs:52-67 | an accepted peak is the interpolation at a candidate that names the hint, and no stronger candidate names it |
| Hinted.HintSkipsStrongerOtherNote | pitch-detector/src/note/hinted/mod.rs:52-67 | a stronger peak of another note does not hide a weaker peak of the hinted one, whichever order the peak finder gives them |
| Hinted.SortPair | pitch-detector/src/note/hinted/mod.rs:52 | two candidates of different magnitude sort stronger first in either input order |
| Hinted.NoteWithHint | pitch-detector/src/note/hinted/mod.rs:47-69 | `NoPitchDetected` exactly when no candidate names the hint; the note carries the corrected octave |
| Hinted.RangeHint | pitch-detector/src/note/hinted/mod.rs:48 | `freq_range_hint.map` pairing the range with `sample_rate`: present exactly when the hint is, paired with the sample rate |
| Hinted.NoteOfPeak | pitch-detector/src/note/hinted/mod.rs:67-69 | an interpolation error passes through unchanged; otherwise the result is the corrected `TryFrom` of the peak position's frequency, `start_bin` added back |
| Hinted.NoteOfPeakAsWritten | pitch-detector/src/note/hinted/mod.rs:67-69 | the as-written `try_from` the source calls on the same peak succeeds exactly when `NoteOfPeak` does, and gives the same note with the as-written octave |
| Hinted.FindHintedPeak | pitch-detector/src/note/hinted/mod.rs:51-67 | sorting, `find` and `interpolated_peak_at` step by step compute `HintedPeak` |
| Hinted.NoteOfSpectrum | pitch-detector/src/note/hinted/mod.rs:49-69 | with a spectrum in hand, computes `NoteWithHint` (corrected octave) over the peaks found at 6 sigmas |
| Hinted.DetectNoteWithHintAndRange | pitch-detector/src/note/hinted/mod.rs:40-70 | for the Hann-windowed FFT detector: the workspace is created if missing, and when present the same object is kept with its `signal_len` and buffer; the result is `NoteWithHint` (corrected octave) over its normalised spectrum in the hinted bin range |
| Hinted.DetectNoteWithHint | pitch-detector/src/note/hinted/mod.rs:18-25 | the ranged detection with no range: bins `0 .. len/2` and a start bin of 0, the workspace kept as in the ranged version |
| LegacyHinted.LegacyNamesHint | src/note/hinted.rs:31-39 | the root crate's `find` closure accepts exactly the candidates the current crate's accepts |
| LegacyHinted.LegacyNoteOfPeak | src/note/hinted.rs:40-44 | a note exactly when the interpolation succeeded and its frequency is at least the root crate's `MIN_FREQ`; it is that frequency's corrected `LegacyTryFrom` |
| LegacyHinted.LegacyNoteOfPeakAsWritten | src/note/hinted.rs:40-44 | the as-written `try_from` the source calls on the same peak gives a note exactly when `LegacyNoteOfPeak` does, the same note with the as-written octave |
| LegacyHinted.LegacyNoteWithHint | src/note/hinted.rs:27-44 | no candidate naming the hint gives `None`; a note found carries the corrected octave |
| LegacyHinted.LegacyNoteOfPeakAgrees | src/note/hinted.rs:40-44 | the root crate detects a note from a peak exactly when the current crate does, with the same fields |
| LegacyHinted.LegacyNoteOfSpectrum | src/note/hinted.rs:21-45 | with a spectrum in hand, computes `LegacyNoteWithHint` (corrected octave) over the z-score peaks |
| Cepstrum.QuefrencyRoundTrip | pitch-detector/src/pitch/cepstrum.rs:124-129 | `bin_to_freq` and `freq_to_bin` are both `sr/x`, so each inverts the other for nonzero x |
| Cepstrum.QuefrencyAntitone | pitch-detector/src/pitch/cepstrum.rs:111-115 | a higher frequency gives a lower quefrency |
| Cepstrum.BinRange | pitch-detector/src/pitch/cepstrum.rs:111-120 | `(round(sr/range.end), round(sr/range.start))`, ordered, so the upper frequency gives the lower bin; `(3, signal.len())` without a range |
| Cepstrum.Spectrum | pitch-detector/src/pitch/cepstrum.rs:66-78 | the `norm_sqr` of each slot of the bin range that the buffer holds |
| Cepstrum.LogPower | pitch-detector/src/pitch/cepstrum.rs:87 | each slot becomes `(ln(re² + im²), 0)` |
| Cepstrum.SortedPeaksHead | pitch-detector/src/pitch/cepstrum.rs:142-145 | after sorting, the first candidate is a candidate of greatest magnitude and the second is the greatest of the rest |
| Cepstrum.PitchOfCandidates | pitch-detector/src/pitch/cepstrum.rs:144-160 | `IncorrectParameters` exactly for no candidate; `NoPitchDetected` exactly when there are two or more and `top/second` does not exceed the threshold; a single candidate skips the gate; an accepted result is `sr/(x + start_bin)` at the interpolated top candidate |
| Cepstrum.PitchOfSpectrum | pitch-detector/src/pitch/cepstrum.rs:139-160 | `IncorrectParameters` exactly when the peak finder reports no peak |
| Cepstrum.ProminenceTest | pitch-detector/src/pitch/cepstrum.rs:146 | for a positive runner-up, the gate passes exactly when `top > threshold·second` |
| Cepstrum.PitchOfSpectrumStrongest | pitch-detector/src/pitch/cepstrum.rs:141-148 | an accepted pitch is `sr/(x + start_bin)` at the interpolated position of a strongest reported peak |
| Cepstrum.SelectPitch | pitch-detector/src/pitch/cepstrum.rs:144-160 | the `match` on the first two candidates computes `PitchOfCandidates` |
| Cepstrum.SpectrumPitch | pitch-detector/src/pitch/cepstrum.rs:141-143 | the candidates are sorted by descending magnitude before the gate: the result is `PitchOfSpectrum` |
| Cepstrum.PowerCepstrum.Default | pitch-detector/src/pitch/cepstrum.rs:55-63 | `default()`: no workspace, `sigmas` 0 and threshold 0 |
| Cepstrum.PowerCepstrum.NewWithDefaults | pitch-detector/src/pitch/cepstrum.rs:27-33 | `new_with_defaults()`: no workspace, `sigmas` 6 and threshold 1.25 |
| Cepstrum.PowerCepstrum.constructor | pitch-detector/src/pitch/cepstrum.rs:35-41 | `new(sigmas, threshold)` stores both, with no workspace |
| Cepstrum.PowerCepstrum.WithSigmas | pitch-detector/src/pitch/cepstrum.rs:43-45 | `with_sigmas` changes only `sigmas` |
| Cepstrum.PowerCepstrum.WithProminenceThreshold | pitch-detector/src/pitch/cepstrum.rs:47-52 | `with_promince_threshold` changes only `prominence_threshold` |
| Cepstrum.PowerCepstrum.EnsureFftSpace | pitch-detector/src/pitch/cepstrum.rs:103-105 | the workspace is created once, sized for the first signal; the parameters are untouched |
| Cepstrum.PowerCepstrum.ProcessFft | pitch-detector/src/pitch/cepstrum.rs:80-94 | the buffer becomes `ifft(LogPower(fft(buffer)))` |
| Cepstrum.PowerCepstrum.IntoFrequencyDomain | pitch-detector/src/pitch/cepstrum.rs:97-122 | on the first call the workspace is created for that signal's length; on later calls the same workspace object, its `signal_len` and its buffer are kept, and `sigmas` and the threshold are unchanged; the buffer holds the cepstrum of the loaded signal; the start bin and spectrum are those of `BinRange` |
| Cepstrum.PowerCepstrum.DetectPitchInRange | pitch-detector/src/pitch/cepstrum.rs:132-161 | the workspace is created or kept as in `IntoFrequencyDomain` and the parameters are unchanged; the result is `PitchOfSpectrum` of the cepstrum's spectrum over the range, with the detector's `sigmas` and threshold |
| CepstrumPitch.AsComplex | pitch-detector/src/pitch/cepstrum2.rs:57-58 | each sample becomes `(x, 0)`, and the length is kept |
| CepstrumPitch.LogSpectrum | pitch-detector/src/pitch/cepstrum2.rs:32-39 | `power_spectrum` then `log_spectrum` keep the length and map bin i to `ln(re² + im² + 1e-10)` |
| CepstrumPitch.CepstrumOf | pitch-detector/src/pitch/cepstrum2.rs:47-59 | the cepstrum is as long as the signal |
| CepstrumPitch.StrongestFrom | pitch-detector/src/pitch/cepstrum2.rs:67-81 | the chosen index is `start` or lies in `[start, hi)`; its value is at least every value of the window; every earlier window value is strictly smaller (ties go to the earliest) |
| CepstrumPitch.PitchOfQuefrency | pitch-detector/src/pitch/cepstrum2.rs:83-89 | index 0 gives `NoPitchDetected`; a positive index gives `1/(idx/sr) = sr/idx` |
| CepstrumPitch.Pitch | pitch-detector/src/pitch/cepstrum2.rs:42-90 | requires the window's start index to lie inside the cepstrum (the source indexes it); the only error is `NoPitchDetected` |
| CepstrumPitch.PitchIsStrongestQuefrency | pitch-detector/src/pitch/cepstrum2.rs:64-89 | an accepted pitch is `sr/q` for the strongest, earliest quefrency q of `[round(sr/end), min(round(sr/start), len))`; with a positive start the pitch is accepted and is at most `sr/start` |
| CepstrumPitch.DivideByLarger | pitch-detector/src/pitch/cepstrum2.rs:84-86 | a larger quefrency index gives a lower pitch |
| CepstrumPitch.FindStrongest | pitch-detector/src/pitch/cepstrum2.rs:67-81 | the `for` over `enumerate().take(end).skip(start)` computes `StrongestFrom` of the powers |
| CepstrumPitch.CepstrumPitch | pitch-detector/src/pitch/cepstrum2.rs:42-90 | `cepstrum_pitch` step by step computes `Pitch` |
| CepstrumPitch.DetectPitchInRange | pitch-detector/src/pitch/cepstrum2.rs:94-103 | `Cepstrum2` delegates to `cepstrum_pitch` |
| Autocorrelation.MinTau | pitch-detector/src/pitch/autocorrelation.rs:34-40 | the lag is at least 1, below the length when there are two or more entries, of least normalised difference among lags `1..n`, and the first such lag |
| Autocorrelation.LagProductZeroNonNegative | pitch-detector/src/pitch/autocorrelation.rs:18-20 | the lag-0 autocorrelation, the signal's energy, is never negative |
| Autocorrelation.SilentLagProduct | pitch-detector/src/pitch/autocorrelation.rs:18-20 | a silent signal has a zero autocorrelation at every lag |
| Autocorrelation.SilentSignalPitch | pitch-detector/src/pitch/autocorrelation.rs:12-51 | a silent signal is reported at the sample rate: no normalised difference is below lag 1's, so `min_tau` stays 1 (in the source they are all NaN, here all 0) |
| Autocorrelation.AutocorrelationPitchBounded | pitch-detector/src/pitch/autocorrelation.rs:42-51 | with a positive sample rate the reported frequency lies in `(0, sample_rate]`, so the `min_tau == 0` error is unreachable |
| Autocorrelation.LagDivision | pitch-detector/src/pitch/autocorrelation.rs:50 | a positive rate divided by a lag of at least 1 stays in `(0, rate]` |
| Autocorrelation.CorrelationStep | pitch-detector/src/pitch/autocorrelation.rs:17-20 | the loop fills `r[tau]` with `Σ signal[i]·signal[i+tau]` for every lag |
| Autocorrelation.DifferenceStep | pitch-detector/src/pitch/autocorrelation.rs:22-25 | the loop fills `d[tau] = r[0] - r[tau]` for `tau ≥ 1` and leaves `d[0] = 0` |
| Autocorrelation.NormalizeStep | pitch-detector/src/pitch/autocorrelation.rs:27-32 | with the running `cumulative_mean`, each `d_normalized[tau]` is `d[tau]` over the mean of `d[1..tau]` |
| Autocorrelation.MinTauStep | pitch-detector/src/pitch/autocorrelation.rs:34-40 | the scan from `min_tau = 1` over `2..n` computes `MinTau` |
| Autocorrelation.DetectPitchInRange | pitch-detector/src/pitch/autocorrelation.rs:6-52 | always `Ok(sample_rate / min_tau)` of the four steps; the range is not consulted |
| Yin.DipFrom | pitch-detector/src/pitch/autocorrelation2.rs:40-47 | the found lag is a dip (under the threshold and below its successor) and no earlier lag from `from` on is one; none is found only when no lag dips |
| Yin.PitchPeriod | pitch-detector/src/pitch/autocorrelation2.rs:39-51 | `Ok(tau)` exactly for the smallest dipping lag `tau ≥ 1`; `NoPitchDetected` exactly when no lag dips |
| Yin.Yin | pitch-detector/src/pitch/autocorrelation2.rs:54-74 | requires `1 ≤ max_lag ≤ len + 1` (below it `cmnd[0]` is out of bounds, above it `signal.len() - tau` underflows); the only error is `NoPitchDetected` |
| Yin.SquaredDifferenceSumNonNegative | pitch-detector/src/pitch/autocorrelation2.rs:12-19 | each difference-function entry, a sum of squares, is non-negative |
| Yin.PeriodicDifferenceZero | pitch-detector/src/pitch/autocorrelation2.rs:12-19 | a signal that repeats after `tau` samples has no difference at lag `tau` |
| Yin.RunningSumNonNegative | pitch-detector/src/pitch/autocorrelation2.rs:29-33 | non-negative differences keep `running_sum` non-negative |
| Yin.NormalizedDifferenceNonNegative | pitch-detector/src/pitch/autocorrelation2.rs:9-36 | every entry of the difference function and of its cumulative mean normalised form is non-negative |
| Yin.PeriodicLagVanishes | pitch-detector/src/pitch/autocorrelation2.rs:9-22 | the difference function is 0 at a period of the signal |
| Yin.ZeroDifferenceDetected | pitch-detector/src/pitch/autocorrelation2.rs:25-51 | a lag with zero difference where the normalised curve then rises is a dip for every positive threshold, so the period found is that lag or an earlier one |
| Yin.PeriodicSignalDetected | pitch-detector/src/pitch/autocorrelation2.rs:54-71 | a signal that repeats exactly after `tau` samples, with the normalised curve rising after `tau`, has a pitch period found at or before `tau` |
| Yin.DifferenceStep | pitch-detector/src/pitch/autocorrelation2.rs:9-22 | the nested loops compute `DifferenceFunction` |
| Yin.NormalizeStep | pitch-detector/src/pitch/autocorrelation2.rs:25-36 | the loop with `running_sum` computes `NormalizedDifference` |
| Yin.FindPitchPeriod | pitch-detector/src/pitch/autocorrelation2.rs:39-51 | the early-return loop computes `PitchPeriod` |
| Yin.YinPitch | pitch-detector/src/pitch/autocorrelation2.rs:54-74 | `yin_pitch` step by step computes `Yin` |
| Yin.DetectPitchInRange | pitch-detector/src/pitch/autocorrelation2.rs:106-116 | runs `yin_pitch` with the detector's threshold and `max_lag = (sample_rate / freq_range.start).round() as usize` |
| LegacyCepstrum.LagOrder | src/pitch/cepstrum.rs:12-19 | the lag of `MAX_FREQ` never exceeds the lag of `MIN_FREQ`, so `upper_limit - lower_limit` cannot underflow |
| LegacyCepstrum.LagRange | src/pitch/cepstrum.rs:12-19 | `((sample_rate / MAX_FREQ).round() as usize, (sample_rate / MIN_FREQ).round() as usize)`, ordered |
| LegacyCepstrum.LagPitch | src/pitch/cepstrum.rs:51-87 | a pitch exactly when the lag spectrum yields an interpolated first maximum |
| LegacyCepstrum.LagPitchOfLoneSpike | src/pitch/cepstrum.rs:51-87 | a lone spike at slot i, with no positive neighbour, is reported as `sample_rate / (lower + i)`, inside `(sample_rate/upper, sample_rate/lower]` |
| LegacyCepstrum.ReciprocalOrder | src/pitch/cepstrum.rs:87 | dividing a positive rate by a larger lag gives a smaller frequency |
| LegacyCepstrum.LagSpectrum | src/pitch/cepstrum.rs:21-33 | `freq_domain(false).skip(lower).take(upper - lower)`: at most `upper - lower` entries, each the power of the workspace slot at its lag |
| LegacyCepstrum.Pitch | src/pitch/cepstrum.rs:76-88 | a pitch exactly when the lag window of the sample rate yields a peak |
| LegacyCepstrum.ProcessFft | src/pitch/cepstrum.rs:35-49 | the workspace ends as the inverse transform of `ln(re² + im²)` of the forward transform of the loaded signal |
| LegacyCepstrum.DetectWithFftSpace | src/pitch/cepstrum.rs:51-88 | processes the workspace as above and reports `Pitch` of it |
| LegacyAutocorrelation.ConjugateProduct | src/pitch/autocorrelation.rs:42 | `f * f.conj()` is the slot's power, a non-negative real |
| LegacyAutocorrelation.PowerProducts | src/pitch/autocorrelation.rs:42 | the map keeps the length and replaces every slot by its conjugate product |
| LegacyAutocorrelation.NormalizedLags | src/pitch/autocorrelation.rs:20-33 | at most `upper - lower` entries, each the real part of its lag over the real part of lag 0 |
| LegacyAutocorrelation.NormalizedLagZero | src/pitch/autocorrelation.rs:31 | a window starting at lag 0 starts with 1 when lag 0 is non-zero |
| LegacyAutocorrelation.Pitch | src/pitch/autocorrelation.rs:48-73 | a pitch exactly when the normalised lag window yields a peak |
| LegacyAutocorrelation.ProcessFft | src/pitch/autocorrelation.rs:35-46 | the workspace ends as the inverse transform of the conjugate products of the forward transform of what it held |
| LegacyAutocorrelation.DetectWithFftSpace | src/pitch/autocorrelation.rs:48-73 | processes the workspace as above and reports `Pitch` of it |
| AutocorrelationPeaks.SkipNonPositive | src/frequency/autocorrelation.rs:40 | stops at the first positive entry from `i` on, or at the end; everything skipped is non-positive |
| AutocorrelationPeaks.TakeNonNegative | src/frequency/autocorrelation.rs:41 | stops at the first negative entry from `i` on, or at the end; everything taken is non-negative |
| AutocorrelationPeaks.NextRun | src/frequency/autocorrelation.rs:37-43 | the run is empty exactly when no entry is positive; the stream left is never longer, and strictly shorter after a non-empty run |
| AutocorrelationPeaks.NextRunIsSplit | src/frequency/autocorrelation.rs:37-43 | one `next()` skips the leading non-positive entries, takes the following non-negative ones, and consumes the entry that ends them |
| AutocorrelationPeaks.RunStartUnique | src/frequency/autocorrelation.rs:40 | only one position can start the run |
| AutocorrelationPeaks.RunEndUnique | src/frequency/autocorrelation.rs:41 | only one length can end the run |
| AutocorrelationPeaks.RunSplitUnique | src/frequency/autocorrelation.rs:37-43 | the stream determines the split completely: no other start, run or remainder fits the description |
| AutocorrelationPeaks.Indices | src/frequency/autocorrelation.rs:42-43 | `x_vals` holds each run entry's index as `f64` |
| AutocorrelationPeaks.Intensities | src/frequency/autocorrelation.rs:42-43 | `y_vals` holds each run entry's intensity |
| AutocorrelationPeaks.PeakOfRun | src/frequency/autocorrelation.rs:45-57 | a point exactly when the run is non-empty and the Gaussian fit succeeds; it is `(mu, amplitude)` of the fit |
| AutocorrelationPeaks.PeaksUnfold | src/frequency/autocorrelation.rs:36-58 | a `next()` that yields nothing ends the points; one that yields a point puts it before the points of the rest |
| AutocorrelationPeaks.PeaksStep | src/frequency/autocorrelation.rs:36-58 | one yielded point moves from the points still to come to those the reduction has seen, and leaves the final remainder unchanged |
| AutocorrelationPeaks.NoPositiveNoPeaks | src/frequency/autocorrelation.rs:40-47 | a stream without a positive intensity yields no point |
| AutocorrelationPeaks.NonPositiveStreamNoPeaks | src/frequency/autocorrelation.rs:105-119 | the same holds after the first slide is skipped |
| AutocorrelationPeaks.FailedFitEndsPeaks | src/frequency/autocorrelation.rs:50-57 | a failed fit ends the iteration after the entry that ends its run, with no point |
| AutocorrelationPeaks.StrongestUpTo | src/frequency/autocorrelation.rs:118 | over the first n points: nothing exactly when n = 0; otherwise the earliest point of greatest amplitude |
| AutocorrelationPeaks.Strongest | src/frequency/autocorrelation.rs:118 | the reduction over all points: nothing exactly for no points; otherwise the earliest point of greatest amplitude |
| AutocorrelationPeaks.StrongestUpToPrefix | src/frequency/autocorrelation.rs:118 | the reduction over a prefix looks only at that prefix |
| AutocorrelationPeaks.StrongestAppend | src/frequency/autocorrelation.rs:118 | one more point replaces the best so far exactly when its amplitude is strictly greater |
| AutocorrelationPeaks.SkipAboveFrom | src/frequency/autocorrelation.rs:116 | stops at the first entry from `i` on not above the threshold |
| AutocorrelationPeaks.SkipAbove | src/frequency/autocorrelation.rs:116 | `skip_while(> threshold)` leaves a suffix; everything dropped is above the threshold and what is left starts at or below it |
| AutocorrelationPeaks.AutocorrelationPeakIter.constructor | src/frequency/autocorrelation.rs:25-27 | the iterator starts over the whole stream |
| AutocorrelationPeaks.AutocorrelationPeakIter.Next | src/frequency/autocorrelation.rs:36-58 | yields `PeakOfRun` of the run and leaves the stream `NextRun` leaves |
| AutocorrelationPeaks.AutocorrelationPeakIter.Reduce | src/frequency/autocorrelation.rs:114-118 | calling `next()` until it yields nothing gives the strongest of `Peaks` and leaves `Remainder` |
| FrequencyAutocorrelation.LagEntries | src/frequency/autocorrelation.rs:72-86 | each entry is the absolute lag `lower + k` paired with its real part over the real part of lag 0 |
| FrequencyAutocorrelation.LagEntriesIndices | src/frequency/autocorrelation.rs:72-86 | the entries are exactly the slots of `[lower, upper)` that the workspace holds, in order, indexed absolutely |
| FrequencyAutocorrelation.Pitch | src/frequency/autocorrelation.rs:122-135 | a frequency exactly when a peak was found; it is `sample_rate / mu` with no lag offset added |
| FrequencyAutocorrelation.FrequencyOfStrongest | src/frequency/autocorrelation.rs:118-134 | a frequency exists exactly when there is a point, and it comes from the earliest point of greatest amplitude |
| FrequencyAutocorrelation.PitchOfStrongestRun | src/frequency/autocorrelation.rs:105-135 | the reported frequency is `sample_rate / mu` of the earliest fitted run of greatest amplitude, and exists exactly when some run was fitted |
| FrequencyAutocorrelation.NoPositiveLagNoPitch | src/frequency/autocorrelation.rs:105-135 | a lag spectrum that never rises above 0 gives no frequency |
| FrequencyAutocorrelation.ProcessFft | src/frequency/autocorrelation.rs:88-103 | the workspace ends as the inverse transform of the conjugate products of the forward transform of the loaded signal |
| FrequencyAutocorrelation.DetectUnscaledFreq | src/frequency/autocorrelation.rs:105-119 | processes the workspace and returns the strongest run point after the first slide |
| FrequencyAutocorrelation.DetectWithFftSpace | src/frequency/autocorrelation.rs:122-135 | processes the workspace and reports `Pitch` of it |
| DetectorsAutocorrelation.Partials | src/detectors/autocorrelation.rs:49-53 | each fitted point becomes `Partial { freq: SAMPLE_RATE / mu, intensity: amplitude }` |
| DetectorsAutocorrelation.StrongestPartialUpTo | src/detectors/autocorrelation.rs:85-91 | over the first n partials: nothing exactly when n = 0; otherwise the earliest partial of greatest intensity |
| DetectorsAutocorrelation.StrongestPartial | src/detectors/autocorrelation.rs:85-91 | the reduction over all partials: nothing exactly for no partials; otherwise the earliest partial of greatest intensity |
| DetectorsAutocorrelation.StrongestPartialUpToPoints | src/detectors/autocorrelation.rs:85-91 | on every prefix, reducing partials by intensity picks the partial of the point that reducing points by amplitude picks |
| DetectorsAutocorrelation.StrongestPartialOfPoints | src/detectors/autocorrelation.rs:85-91 | the same for the whole sequence |
| DetectorsAutocorrelation.LagRange | src/detectors/autocorrelation.rs:99-100 | the window of `spectrum()` is lags 11 to 1599: the rounded lags of `MAX_FREQ` (44000 / 4186, about 10.51) and `MIN_FREQ` (44000 / 27.5 = 1600) at `SAMPLE_RATE` |
| DetectorsAutocorrelation.FrequencyOfStrongestPoint | src/detectors/autocorrelation.rs:81-92 | the reported frequency is `SAMPLE_RATE / mu` of the earliest run of greatest fitted amplitude |
| DetectorsAutocorrelation.AutocorrelationDetector.constructor | src/detectors/autocorrelation.rs:117-122 | a zeroed workspace of exactly `fft_space_size` slots |
| DetectorsAutocorrelation.AutocorrelationDetector.Spectrum | src/detectors/autocorrelation.rs:95-109 | every entry is a workspace slot between lags 11 and 1599, paired with its absolute index, in order |
| DetectorsAutocorrelation.AutocorrelationDetector.DetectFrequency | src/detectors/autocorrelation.rs:65-93 | the owned workspace ends as the autocorrelation of the loaded signal, and the result is `Frequency` of it |
| PeakIteration.SkipQuiet | src/peak_iter.rs:42 | stops at the first label that is not `Peak::None`, from `i` on |
| PeakIteration.TakeHigh | src/peak_iter.rs:43 | stops at the first label that is not `Peak::High`, from `k` on |
| PeakIteration.HighRun | src/peak_iter.rs:38-45 | the stream left is never longer, and strictly shorter after a non-empty run |
| PeakIteration.HighRunSplit | src/peak_iter.rs:38-45 | the run is the first stretch of `High` labels after the leading `None` ones; the stream resumes after the entry that ends it |
| PeakIteration.LowBeforeHighEnds | src/peak_iter.rs:42-50 | a `Low` label before any `High` gives an empty run, and so `None` |
| PeakIteration.PointOfRun | src/peak_iter.rs:49-67 | nothing exactly for an empty run; the `assert!(false)` panic exactly for three or more points whose fit fails; otherwise `(mu, a)` of the fit for three or more points |
| PeakIteration.ShortRunGivesLargest | src/peak_iter.rs:51-58 | a run of one or two entries yields its own entry of greatest intensity, the later one on a tie |
| PeakIteration.StepConsumes | src/peak_iter.rs:37-68 | `next()` only consumes: it leaves a suffix, a strictly shorter one whenever it yields a point |
| PeakIteration.PeakIter.constructor | src/peak_iter.rs:21-27 | `fft_peaks(lag, threshold)` keeps the stream and both settings |
| PeakIteration.PeakIter.Next | src/peak_iter.rs:37-68 | yields and leaves exactly what `Step` gives for the stream it held |

## Left out

- Foreign numerics are parameters and are not modelled: `rustfft`, `apodize`, `ln`/`log2`/`powf`/`sqrt`/`arg`/`sin`, `fitting::gaussian::fit`, `peak_finder` and `smoothed_z_score`. The only facts assumed about them are the shape predicates named above. So nothing is proved about frequency accuracy, and the tests over recorded WAV/JSON signals are not modelled.
- What the foreign transform leaves in the `scratch` buffer is not modelled; `scratch` is kept for its size only.
- IEEE-754 detail is not modelled: NaN, infinities and −0.0. The NaN panic of `partial_cmp(..).unwrap()` in the sorts is not modelled either.
- Division by a divisor computed from foreign output is modelled by `Numerics.Div`, which gives 0 where IEEE gives ±inf or NaN. Such divisors are a fitted `mu`, a lag-0 autocorrelation, a runner-up magnitude and a running mean. The prominence gate compares through `RatioExceeds`, which agrees with IEEE for a zero runner-up.
- Divisors taken from caller inputs (sample rate, range start) are required to be nonzero, or positive where an ordering is stated.
- Panics on misuse become `requires`: index out of bounds, `usize` underflow, and a workspace smaller than the signal. One exception: the `From<&str>` panic is `None`, so that its domain can be stated.
- Integer widths: `usize` and `isize` values above their maximum are not modelled. `as usize` of a float only saturates at 0. `i16::from_ne_bytes` is fixed to little-endian.
- Error and `Display` message strings are not modelled, including `name()` ("rawfft" in `src/pitch/hanned_fft.rs:92-94`) and the algorithm-name constants.
- The hanned `bin_to_freq`/`freq_to_bin` panic while no workspace exists (`pitch-detector/src/pitch/hanned_fft.rs:83-94`, `src/pitch/hanned_fft.rs:77-90`). This is not modelled. The mappers are pure functions of `padded_len`, and every caller uses them after the workspace is created.
- Hinted.NoteOfPeak, Hinted.NoteWithHint, Hinted.NoteOfSpectrum, Hinted.DetectNoteWithHintAndRange and Hinted.DetectNoteWithHint report the corrected octave of `NoteDetections.TryFrom`, where the source calls the as-written `try_from` (`pitch-detector/src/note/hinted/mod.rs:57-69`). They differ from the source exactly at pitches at or above a B that still round to that B, where the source reports the next octave. `Hinted.NoteOfPeakAsWritten` states what the source reports instead.
- LegacyHinted.LegacyNoteOfPeak, LegacyHinted.LegacyNoteWithHint and LegacyHinted.LegacyNoteOfSpectrum report the corrected octave of `NoteDetections.LegacyTryFrom` in the same way (`src/note/hinted.rs:33-43`). `LegacyHinted.LegacyNoteOfPeakAsWritten` states what the source reports instead.
- NoteDetections.LegacyTryFromBin: computes the corrected octave; its ensures also states the as-written result of `src/note/note_detection_result.rs:44-49`.
- LegacyHinted: `src/note/hinted.rs` sorts `crate::core::FftBin`, a type `src/core.rs` does not define. The model sorts `Core.FrequencyBin` instead, whose ordering compares magnitudes only.
- The definitions below model source code but carry no ensures of their own, so they have no row in the table; each is specified by the members named after it.
- ZeroCrossing.ZeroCrossingCount, ZeroCrossing.TermSum, ZeroCrossing.SignChanges, ZeroCrossing.ZeroCrossingRate and ZeroCrossing.CrossingsOverSampleRate: by `CountIsSignChanges`, `TermSumCountsCrossings`, `SignChangesBounded`, `ZeroCrossingRateBounded` and `ZeroCrossingRateZero`. `SignChanges` is the reference count, not source code.
- Autocorrelation.LagProduct, Autocorrelation.Correlation, Autocorrelation.Difference, Autocorrelation.CumulativeSum, Autocorrelation.NormalizedDifference and Autocorrelation.AutocorrelationPitch: by the loop methods `CorrelationStep`, `DifferenceStep`, `NormalizeStep` and `MinTauStep`, by `DetectPitchInRange`, and by `AutocorrelationPitchBounded` and `SilentSignalPitch`.
- Yin.SquaredDifferenceSum, Yin.DifferenceFunction, Yin.RunningSum, Yin.NormalizedDifference and Yin.MaxLag: by `DifferenceStep`, `NormalizeStep`, `DetectPitchInRange`, the non-negativity lemmas and `PeriodicLagVanishes`.
- FftBins.BinToFreq, FftBins.FreqToBin, Cepstrum.QuefrencyToFreq, CepstrumPitch.LagIndex and Hinted.HannedMapper: the bin, frequency and lag mappers. They are specified by `BinFreqRoundTrip`, `BinToFreqMonotone`, `RangeBinWithinHalfBin`, `BinOffset`, `QuefrencyRoundTrip`, `QuefrencyAntitone` and `CepstrumPitch.Pitch`.
- Hinted.HintMatcher: the `find` closure, specified by `NamesHintIsTryFrom` and `HintedPeak`.
- NoteDetections.TryFromAsWritten, NoteDetections.LegacyTryFromAsWritten, NoteDetections.OctaveAsWritten, NoteDetections.StepsFromA4, NoteDetections.LegacyStepsFromA4, NoteDetections.SemitonesFromA4 and Core.BaseFreqAsWritten: the as-written halves of the Findings and their arithmetic. They are specified by `TryFromAsWrittenDiffersOnlyInOctave`, `OctaveAsWrittenAtB4`, `LegacyAgrees`, `LegacyOctaveAsWrittenAtB4`, `BaseFreqAsWrittenA` and the `TryFrom` contract.
- AutocorrelationPeaks.Peaks, AutocorrelationPeaks.Remainder and PeakIteration.Step: the iterators' unfolding. They are specified by `PeaksUnfold`, `PeaksStep`, `AutocorrelationPeakIter.Reduce`, `StepConsumes` and `PeakIter.Next`.
- DetectorsAutocorrelation.Frequency, DetectorsAutocorrelation.PartialOf, FrequencyAutocorrelation.RunPeaks and FrequencyAutocorrelation.UnscaledPeak: by `FrequencyOfStrongestPoint`, `AutocorrelationDetector.DetectFrequency`, `DetectUnscaledFreq`, `PitchOfStrongestRun` and `NoPositiveLagNoPitch`.
- FftWorkspace.FftSpace.PaddedLen, LegacyFftWorkspace.UnpaddedFftSpace.Len, Numerics.Conj and Numerics.Mul: `len()` and complex arithmetic, used by the contracts above.
- Hinted.DetectNoteWithHintAndRange: `pitch-detector/src/note/hinted/mod.rs:38,48` calls `ToFrequencyDomain::to_frequency_domain`, but `pitch-detector/src/core/into_frequency_domain.rs` defines only `IntoFrequencyDomain::into_frequency_domain`. The model takes the two to be the same operation, the detector's `IntoFrequencyDomain`.
- Interpolation.Interpolate: the `interpolated_peak_at` value used inside functions carries no ensures of its own. Its contract is stated by `Summit`, `InterpolateErrors`, `IsolatedPeak` and the method `InterpolatedPeakAt`.
- Interpolation.Summit: the zero-point `IncorrectParameters` arm cannot be reached (the window always holds the peak), so it is not modelled as a branch.
- PeakIteration: the z-score labeler is assumed to label every entry it is given (`LabelsEach`). The `assert!(false)` of a failed fit is the outcome `FitPanic`.
- DetectorsAutocorrelation: `next()` yields `Partial`s where the frequency version yields points. The model runs the shared run iterator and proves that mapping its strongest point gives the strongest partial, instead of duplicating the iterator.
- Yin.DetectPitchInRange: requires `1 ≤ max_lag ≤ len + 1`, because outside it `cmnd[0]` is out of bounds or `signal.len() - tau` underflows. It also requires `freq_range.start != 0`.
- HannedFft.HannedFftDetector.DetectPitchInRange: it requires a positive sample rate and `start <= end`. The code needs only the two rounded bins to be ordered, because `take(upper_limit - lower_limit)` underflows otherwise (`pitch-detector/src/pitch/hanned_fft.rs:31,73-76`), so a range whose ends round to the same bin but are given in reverse order is left out.
- HannedFft.NormalizedSpectrum and Cepstrum.Spectrum: `pitch-detector/src/pitch/hanned_fft.rs:30` and `pitch-detector/src/pitch/cepstrum.rs:71` call `FftSpace::freq_domain_iter`, but the current crate's `core/fft_space.rs` is not part of this model. Both are modelled with the root crate's `freq_domain` (`src/core/fft_space.rs:105`), taking the first component of each pair that `freq_domain_iter` yields, the only one the `map` that follows keeps, to be the amplitude `freq_domain` yields.
- Cepstrum.PowerCepstrum.DetectPitchInRange: it requires a positive, ordered range (`start <= end`, so the bin window does not underflow). Without a range it requires at least 3 samples, because the default window starts at bin 3 (`usize` underflow otherwise).
- The root crate's cepstrum and autocorrelation modules import `interpolated_peak_at` from a file that does not define it. The calls are modelled with the current crate's version, read as an `Option` (`Outcomes.Result.ToOption`).
- The thin wrappers over the peak-finding crates (the `peak_detector.rs` files and `pitch-detector/src/note/hinted/peak_iter.rs`) are not modelled beyond the `PeakFinder` and `ZScorePeaks` parameters.
- The FFT plus `fft_peaks` pipelines of `src/frequency/` and `src/detectors/` (raw FFT and cepstrum), `src/cepstrum.rs` and `src/raw_fft.rs` are not modelled. They contain nothing but a range formula and a max-reduce over foreign output, which the other detectors cover.
- `src/hinted.rs` does not compile, and it is not part of this model.
- I/O, the test utilities and the UI are not part of this model: WAV and JSON loading, `src/analyzer.rs`, the tuner, the spectrum plot, the examples and the benches.
- Glue with no behaviour of its own is not modelled: module and trait declarations, re-exports, `error.rs` formatting, and the sine-wave generator.
- There is no concurrency in the source.

## Findings

| source | as written | input that shows it | evidently intended | confidence | as-written member | corrected member |
|---|---|---|---|---|---|---|
| src/core.rs:27 | `NoteName::A => 25.50` | `base_freq(A)` is 25.50, more than two semitones below `base_freq(A#)` = 29.14 | A0 = 27.50 Hz, one semitone below A#0, so that the table rises by semitones | not executed | Core.BaseFreqAsWritten, Core.BaseFreqAsWrittenA | Core.BaseFreq, Core.BaseFreqSemitoneSteps |
| pitch-detector/src/note/note_detection_result.rs:50,58 | `octave = 5 + floor((steps_from_a4 - 2) / 12)` from the unrounded steps | a frequency at exactly two steps above A4 (B4, 493.8833 Hz) is reported as B in octave 5 | the octave of the nearest note: B4, with the octave changing at C, three semitones above A | not executed | NoteDetections.TryFromAsWritten, NoteDetections.OctaveAsWrittenAtB4 | NoteDetections.TryFrom, NoteDetections.OctaveBoundaryAtC |
| src/note/note_detection_result.rs:24,31 | the same octave formula in the root crate | the same B4 input gives octave 5 | the octave of the nearest note | not executed | NoteDetections.LegacyTryFromAsWritten, NoteDetections.LegacyOctaveAsWrittenAtB4 | NoteDetections.LegacyTryFrom, NoteDetections.LegacyAgrees |
