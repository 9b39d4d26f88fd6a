/** `Autocorrelation::detect_pitch_in_range` of
    pitch-detector/src/pitch/autocorrelation.rs: autocorrelation, difference
    function, cumulative mean normalised difference, and the first lag that
    minimises it. The frequency range is not consulted. */
module Autocorrelation {
  import opened Outcomes
  import opened Numerics
  import opened Selection

  /** `Σ_{i<m} s[i]·s[i+tau]`. */
  function LagProduct(s: seq<real>, tau: nat, m: nat): real
    requires tau + m <= |s|
  {
    if m == 0 then 0.0 else LagProduct(s, tau, m - 1) + s[m - 1] * s[m - 1 + tau]
  }

  /** Step 1, `r`: the lag product over the whole overlap, for every lag. */
  function Correlation(s: seq<real>): seq<real> {
    seq(|s|, tau requires 0 <= tau < |s| => LagProduct(s, tau, |s| - tau))
  }

  /** Step 2, `d`: `r[0] - r[tau]`, and 0 at lag 0 (the slot is never written). */
  function Difference(r: seq<real>): seq<real> {
    seq(|r|, tau requires 0 <= tau < |r| => if tau == 0 then 0.0 else r[0] - r[tau])
  }

  /** `Σ_{k=1..t} d[k]`, the running `cumulative_mean` before it is divided. */
  function CumulativeSum(d: seq<real>, t: nat): real
    requires t < |d|
  {
    if t == 0 then 0.0 else CumulativeSum(d, t - 1) + d[t]
  }

  /** Step 3, `d_normalized`: each difference over the mean of the differences
      up to its lag; 0 at lag 0. A zero mean divides to 0 (see `Div`). */
  function NormalizedDifference(d: seq<real>): seq<real> {
    seq(|d|, tau requires 0 <= tau < |d| =>
      if tau == 0 then 0.0 else Div(d[tau], CumulativeSum(d, tau) / tau as real))
  }

  /** Step 4, `min_tau`: the first lag in `[1, n)` of least normalised
      difference; 1 when there is no such lag to compare. */
  function MinTau(dn: seq<real>): (tau: nat)
    ensures tau >= 1
    ensures |dn| <= 1 ==> tau == 1
    ensures |dn| >= 2 ==> tau < |dn|
    ensures forall t :: 1 <= t < |dn| ==> dn[tau] <= dn[t]
    ensures forall t :: 1 <= t < tau ==> dn[tau] < dn[t]
  {
    if |dn| <= 1 then 1
    else
      var tail := dn[1..];
      assert forall t :: 1 <= t < |dn| ==> dn[t] == tail[t - 1];
      1 + FirstMin(tail)
  }

  /** The zero-lag autocorrelation is the signal's energy, never negative. */
  lemma {:induction false} LagProductZeroNonNegative(s: seq<real>, m: nat)
    requires m <= |s|
    ensures LagProduct(s, 0, m) >= 0.0
  {
    if m > 0 {
      LagProductZeroNonNegative(s, m - 1);
      assert s[m - 1] * s[m - 1] >= 0.0;
    }
  }

  /** A signal that is silent gives a zero autocorrelation at every lag. */
  lemma {:induction false} SilentLagProduct(s: seq<real>, tau: nat, m: nat)
    requires tau + m <= |s|
    requires forall i :: 0 <= i < |s| ==> s[i] == 0.0
    ensures LagProduct(s, tau, m) == 0.0
  {
    if m > 0 {
      SilentLagProduct(s, tau, m - 1);
    }
  }

  /** The frequency the detector reports. */
  function AutocorrelationPitch(s: seq<real>, sampleRate: real): real {
    sampleRate / MinTau(NormalizedDifference(Difference(Correlation(s)))) as real
  }

  /** The detector never fails: the lag is at least 1, so the `min_tau == 0`
      error branch is unreachable, and the frequency is at most the sample rate
      when the sample rate is positive. */
  lemma AutocorrelationPitchBounded(s: seq<real>, sampleRate: real)
    requires sampleRate > 0.0
    ensures 0.0 < AutocorrelationPitch(s, sampleRate) <= sampleRate
  {
    LagDivision(sampleRate, MinTau(NormalizedDifference(Difference(Correlation(s)))));
  }

  /** A silent signal is reported at the sample rate. In the source every
      normalised difference is `0.0 / 0.0`, NaN, against which no `<` holds;
      here every one is 0 (a zero mean divides to 0), against which no `<`
      holds either. Either way `min_tau` stays 1. */
  lemma SilentSignalPitch(s: seq<real>, sampleRate: real)
    requires forall i :: 0 <= i < |s| ==> s[i] == 0.0
    ensures AutocorrelationPitch(s, sampleRate) == sampleRate
  {
    var d := Difference(Correlation(s));
    SilentDifference(s);
    ZeroNormalized(d);
    ZeroMinTau(NormalizedDifference(d));
  }

  /** Silence leaves every difference at 0. */
  lemma SilentDifference(s: seq<real>)
    requires forall i :: 0 <= i < |s| ==> s[i] == 0.0
    ensures forall tau :: 0 <= tau < |s| ==> Difference(Correlation(s))[tau] == 0.0
  {
    var r := Correlation(s);
    forall tau | 0 <= tau < |s|
      ensures r[tau] == 0.0
    {
      SilentLagProduct(s, tau, |s| - tau);
    }
  }

  /** Zero differences normalise to zero. */
  lemma ZeroNormalized(d: seq<real>)
    requires forall t :: 0 <= t < |d| ==> d[t] == 0.0
    ensures forall t :: 0 <= t < |d| ==> NormalizedDifference(d)[t] == 0.0
  {
    forall t | 0 <= t < |d|
      ensures NormalizedDifference(d)[t] == 0.0
    {
      if t > 0 {
        ZeroDiv(CumulativeSum(d, t) / t as real);
      }
    }
  }

  /** Zero over anything is 0, a zero divisor included. */
  lemma ZeroDiv(b: real)
    ensures Div(0.0, b) == 0.0
  {
  }

  /** On a flat curve nothing beats lag 1. */
  lemma ZeroMinTau(dn: seq<real>)
    requires forall t :: 0 <= t < |dn| ==> dn[t] == 0.0
    ensures MinTau(dn) == 1
  {
    if |dn| >= 2 {
      assert dn[1] == 0.0 && dn[MinTau(dn)] == 0.0;
    }
  }

  /** A rate divided by a lag of at least 1. */
  lemma LagDivision(sampleRate: real, tau: nat)
    requires sampleRate > 0.0 && tau >= 1
    ensures 0.0 < sampleRate / tau as real <= sampleRate
  {
    assert sampleRate / tau as real * tau as real == sampleRate;
  }

  /** Step 1: `r[tau] = Σ signal[i]·signal[i + tau]` for every lag. */
  method CorrelationStep(signal: seq<real>) returns (r: array<real>)
    ensures fresh(r) && r[..] == Correlation(signal)
  {
    var n := |signal|;
    r := new real[n](_ => 0.0);
    var tau := 0;
    while tau < n
      invariant 0 <= tau <= n
      invariant forall t :: 0 <= t < tau ==> r[t] == LagProduct(signal, t, n - t)
    {
      r[tau] := LagProduct(signal, tau, n - tau);
      tau := tau + 1;
    }
  }

  /** Step 2: `d[tau] = r[0] - r[tau]` for `tau` in `1..n`. */
  method DifferenceStep(r: array<real>) returns (d: array<real>)
    ensures fresh(d) && d[..] == Difference(r[..])
  {
    var n := r.Length;
    d := new real[n](_ => 0.0);
    var tau := 1;
    while tau < n
      invariant 1 <= tau && (n > 0 ==> tau <= n)
      invariant forall t :: 0 <= t < n ==> d[t] == if 1 <= t < tau then r[0] - r[t] else 0.0
    {
      d[tau] := r[0] - r[tau];
      tau := tau + 1;
    }
  }

  /** Step 3: the running `cumulative_mean` and `d_normalized`. */
  method NormalizeStep(d: array<real>) returns (dNormalized: array<real>)
    ensures fresh(dNormalized) && dNormalized[..] == NormalizedDifference(d[..])
  {
    var n := d.Length;
    dNormalized := new real[n](_ => 0.0);
    ghost var normalized := NormalizedDifference(d[..]);
    var cumulativeMean := 0.0;
    var tau := 1;
    while tau < n
      invariant 1 <= tau && (n > 0 ==> tau <= n)
      invariant n > 0 ==> cumulativeMean == CumulativeSum(d[..], tau - 1)
      invariant forall t :: 0 <= t < n ==> dNormalized[t] == if t < tau then normalized[t] else 0.0
    {
      cumulativeMean := cumulativeMean + d[tau];
      dNormalized[tau] := Div(d[tau], cumulativeMean / tau as real);
      tau := tau + 1;
    }
  }

  /** Step 4: the first lag of least normalised difference. */
  method MinTauStep(dNormalized: array<real>) returns (minTau: nat)
    ensures minTau == MinTau(dNormalized[..])
  {
    var n := dNormalized.Length;
    minTau := 1;
    var tau := 2;
    while tau < n
      invariant 2 <= tau && (n >= 2 ==> tau <= n)
      invariant n < 2 ==> minTau == 1
      invariant n >= 2 ==> minTau == 1 + FirstMin(dNormalized[1..tau])
    {
      ghost var prefix := dNormalized[1..tau + 1];
      assert prefix[..|prefix| - 1] == dNormalized[1..tau];
      if dNormalized[tau] < dNormalized[minTau] {
        minTau := tau;
      }
      tau := tau + 1;
    }
    if n >= 2 {
      assert dNormalized[1..n] == dNormalized[..][1..];
    }
  }

  /** `detect_pitch_in_range`: the four steps, then `sample_rate / min_tau`. */
  method DetectPitchInRange(signal: seq<real>, sampleRate: real, freqRange: FreqRange)
    returns (result: Result<real>)
    ensures result == Ok(AutocorrelationPitch(signal, sampleRate))
  {
    var r := CorrelationStep(signal);
    var d := DifferenceStep(r);
    var dNormalized := NormalizeStep(d);
    var minTau := MinTauStep(dNormalized);
    result := Ok(sampleRate / minTau as real);
  }
}
