/** The stand-alone power cepstrum `cepstrum_pitch` of
    pitch-detector/src/pitch/cepstrum2.rs: FFT, log power, inverse FFT, then
    the strongest quefrency in the lag window the frequency range gives. */
module CepstrumPitch {
  import opened Outcomes
  import opened Numerics
  import FftWorkspace

  /** The floor added before the logarithm so that `ln(0)` is never taken. */
  const LOG_FLOOR: real := 0.0000000001

  /** The samples as complex numbers with zero imaginary parts. */
  function AsComplex(s: seq<real>): (r: seq<Complex>)
    ensures |r| == |s| && forall i :: 0 <= i < |s| ==> r[i] == Complex(s[i], 0.0)
  {
    seq(|s|, i requires 0 <= i < |s| => Complex(s[i], 0.0))
  }

  /** `log_spectrum(power_spectrum(spectrum))`: `ln(|z|² + 1e-10)` per bin. */
  function LogSpectrum(spectrum: seq<Complex>, ln: real -> real): (r: seq<real>)
    ensures |r| == |spectrum|
    ensures forall i :: 0 <= i < |r| ==> r[i] == ln(NormSqr(spectrum[i]) + LOG_FLOOR)
  {
    var power := FftWorkspace.Powers(spectrum);
    seq(|power|, i requires 0 <= i < |power| => ln(power[i] + LOG_FLOOR))
  }

  /** Steps 1 to 4: the cepstrum of the signal. */
  function CepstrumOf(signal: seq<real>, fft: Transform, ifft: Transform, ln: real -> real): (r: seq<Complex>)
    requires LengthPreserving(fft) && LengthPreserving(ifft)
    ensures |r| == |signal|
  {
    ifft(AsComplex(LogSpectrum(fft(AsComplex(signal)), ln)))
  }

  /** The index the scan over `start..end` ends on: the scan keeps the first
      index whose value beats every value before it, starting from `start`. */
  function StrongestFrom(values: seq<real>, start: nat, hi: nat): (r: nat)
    requires start < |values| && hi <= |values|
    ensures start <= r && (r == start || r < hi)
    ensures forall j :: start <= j < hi ==> values[j] <= values[r]
    ensures forall j :: start <= j < r ==> values[j] < values[r]
    decreases hi
  {
    if hi <= start + 1 then start
    else
      var best := StrongestFrom(values, start, hi - 1);
      if values[hi - 1] > values[best] then hi - 1 else best
  }

  /** `(x / sample_rate).round() as usize` for the start and end of the lag window. */
  function LagIndex(sampleRate: real, freq: real): nat
    requires freq != 0.0
  {
    RoundToUsize(sampleRate / freq)
  }

  /** Step 6: a quefrency of `index / sample_rate` seconds and its reciprocal. */
  function PitchOfQuefrency(index: nat, sampleRate: real): (r: Result<real>)
    requires sampleRate > 0.0
    ensures r.Ok? <==> index > 0
    ensures r.Ok? ==> r.value == sampleRate / index as real
    ensures r.Err? ==> r.error == NoPitchDetected
  {
    var quefrency := index as real / sampleRate;
    if quefrency > 0.0 then Ok(1.0 / quefrency) else Err(NoPitchDetected)
  }

  /** `cepstrum_pitch(signal, sample_rate, freq_range)`. Indexing the cepstrum
      at the start of the window panics when the window starts past its end. */
  function Pitch(signal: seq<real>, sampleRate: real, freqRange: FreqRange, fft: Transform, ifft: Transform, ln: real -> real): (r: Result<real>)
    requires LengthPreserving(fft) && LengthPreserving(ifft)
    requires sampleRate > 0.0 && freqRange.start != 0.0 && freqRange.end != 0.0
    requires LagIndex(sampleRate, freqRange.end) < |signal|
    ensures r.Err? ==> r.error == NoPitchDetected
  {
    var cepstrum := CepstrumOf(signal, fft, ifft, ln);
    var start := LagIndex(sampleRate, freqRange.end);
    var hi := Min(LagIndex(sampleRate, freqRange.start), |cepstrum|);
    PitchOfQuefrency(StrongestFrom(FftWorkspace.Powers(cepstrum), start, hi), sampleRate)
  }

  /** The detected pitch is the sample rate over the strongest quefrency
      index of the window (the first of equally strong ones), and lies
      between the limits that window sets. */
  lemma PitchIsStrongestQuefrency(signal: seq<real>, sampleRate: real, freqRange: FreqRange, fft: Transform, ifft: Transform, ln: real -> real)
    requires LengthPreserving(fft) && LengthPreserving(ifft)
    requires sampleRate > 0.0 && freqRange.start != 0.0 && freqRange.end != 0.0
    requires LagIndex(sampleRate, freqRange.end) < |signal|
    ensures var power := FftWorkspace.Powers(CepstrumOf(signal, fft, ifft, ln));
      var start := LagIndex(sampleRate, freqRange.end);
      var hi := Min(LagIndex(sampleRate, freqRange.start), |signal|);
      var r := Pitch(signal, sampleRate, freqRange, fft, ifft, ln);
      (r.Ok? ==> (exists q :: (start <= q && (q == start || q < hi) && q > 0 && r.value == sampleRate / q as real
        && (forall j :: start <= j < hi ==> power[j] <= power[q])
        && (forall j :: start <= j < q ==> power[j] < power[q]))))
      && (start > 0 ==> r.Ok? && r.value <= sampleRate / start as real)
  {
    var power := FftWorkspace.Powers(CepstrumOf(signal, fft, ifft, ln));
    var start := LagIndex(sampleRate, freqRange.end);
    var hi := Min(LagIndex(sampleRate, freqRange.start), |signal|);
    var q := StrongestFrom(power, start, hi);
    if start > 0 {
      assert start as real <= q as real;
      DivideByLarger(sampleRate, start as real, q as real);
    }
  }

  /** Dividing by a larger positive number gives a smaller quotient. */
  lemma DivideByLarger(a: real, b: real, c: real)
    requires a > 0.0 && 0.0 < b <= c
    ensures a / c <= a / b
  {
    assert a / c * c == a == a / b * b;
  }

  /** The loop of lines 70-81: the strongest value, first of equals, over
      `enumerate().take(end).skip(start)`. */
  method FindStrongest(cepstrum: seq<Complex>, start: nat, end: nat) returns (index: nat)
    requires start < |cepstrum|
    ensures index == StrongestFrom(FftWorkspace.Powers(cepstrum), start, Min(end, |cepstrum|))
  {
    ghost var power := FftWorkspace.Powers(cepstrum);
    var hi := Min(end, |cepstrum|);
    index := start;
    var maxValue := NormSqr(cepstrum[start]);
    var i := start;
    while i < hi
      invariant start <= i <= Max(hi, start)
      invariant index == StrongestFrom(power, start, if i <= start then start + 1 else i)
      invariant maxValue == power[index]
    {
      var value := NormSqr(cepstrum[i]);
      if value > maxValue {
        maxValue := value;
        index := i;
      }
      i := i + 1;
    }
    if hi <= start {
      assert index == StrongestFrom(power, start, hi);
    }
  }

  /** `cepstrum_pitch`, step by step. */
  method CepstrumPitch(signal: seq<real>, sampleRate: real, freqRange: FreqRange, fft: Transform, ifft: Transform, ln: real -> real)
    returns (r: Result<real>)
    requires LengthPreserving(fft) && LengthPreserving(ifft)
    requires sampleRate > 0.0 && freqRange.start != 0.0 && freqRange.end != 0.0
    requires LagIndex(sampleRate, freqRange.end) < |signal|
    ensures r == Pitch(signal, sampleRate, freqRange, fft, ifft, ln)
  {
    var spectrum := fft(AsComplex(signal));
    var logSpectrum := LogSpectrum(spectrum, ln);
    var cepstrum := ifft(AsComplex(logSpectrum));
    var startIndex := RoundToUsize(sampleRate / freqRange.end);
    var endIndex := RoundToUsize(sampleRate / freqRange.start);
    var index := FindStrongest(cepstrum, startIndex, endIndex);
    var quefrency := index as real / sampleRate;
    if quefrency > 0.0 {
      r := Ok(1.0 / quefrency);
    } else {
      r := Err(NoPitchDetected);
    }
  }

  /** `Cepstrum2`, a detector without state. */
  datatype Cepstrum2 = Cepstrum2

  /** `Cepstrum2::detect_pitch_in_range`. */
  method DetectPitchInRange(detector: Cepstrum2, signal: seq<real>, sampleRate: real, freqRange: FreqRange, fft: Transform, ifft: Transform, ln: real -> real)
    returns (r: Result<real>)
    requires LengthPreserving(fft) && LengthPreserving(ifft)
    requires sampleRate > 0.0 && freqRange.start != 0.0 && freqRange.end != 0.0
    requires LagIndex(sampleRate, freqRange.end) < |signal|
    ensures r == Pitch(signal, sampleRate, freqRange, fft, ifft, ln)
  {
    r := CepstrumPitch(signal, sampleRate, freqRange, fft, ifft, ln);
  }
}
