/** The YIN-style detector of pitch-detector/src/pitch/autocorrelation2.rs:
    the difference function, its cumulative mean normalised form, and the
    first lag that dips under a threshold. */
module Yin {
  import opened Outcomes
  import opened Numerics

  /** `Σ_{i<m} (s[i] - s[i+tau])²`. */
  function SquaredDifferenceSum(s: seq<real>, tau: nat, m: nat): real
    requires tau + m <= |s|
  {
    if m == 0 then 0.0
    else
      var delta := s[m - 1] - s[m - 1 + tau];
      SquaredDifferenceSum(s, tau, m - 1) + delta * delta
  }

  /** `difference_function(signal, max_lag)`: `max_lag` entries, 0 at lag 0.
      A lag beyond the signal would underflow `signal.len() - tau`. */
  function DifferenceFunction(s: seq<real>, maxLag: nat): seq<real>
    requires maxLag <= |s| + 1
  {
    seq(maxLag, tau requires 0 <= tau < maxLag => if tau == 0 then 0.0 else SquaredDifferenceSum(s, tau, |s| - tau))
  }

  /** `Σ_{k=1..t} diff[k]`, the `running_sum`. */
  function RunningSum(diff: seq<real>, t: nat): real
    requires t < |diff|
  {
    if t == 0 then 0.0 else RunningSum(diff, t - 1) + diff[t]
  }

  /** `cumulative_mean_normalized_difference(diff)`: 1 at lag 0, then each
      difference over the mean of the differences up to its lag. A zero mean
      divides to 0 (see `Div`). */
  function NormalizedDifference(diff: seq<real>): seq<real>
    requires |diff| > 0
  {
    seq(|diff|, tau requires 0 <= tau < |diff| =>
      if tau == 0 then 1.0 else Div(diff[tau], RunningSum(diff, tau) / tau as real))
  }

  /** The test `find_pitch_period` applies at lag `tau`: under the threshold
      and below the next entry. */
  predicate IsDip(cmnd: seq<real>, threshold: real, tau: nat) {
    1 <= tau && tau + 1 < |cmnd| && cmnd[tau] < threshold && cmnd[tau] < cmnd[tau + 1]
  }

  /** The first dip from lag `from` on. */
  function DipFrom(cmnd: seq<real>, threshold: real, from: nat): (r: Option<nat>)
    requires from >= 1
    ensures r.Some? ==> from <= r.value && IsDip(cmnd, threshold, r.value)
    ensures r.Some? ==> forall t :: from <= t < r.value ==> !IsDip(cmnd, threshold, t)
    ensures r.None? ==> forall t :: from <= t ==> !IsDip(cmnd, threshold, t)
    decreases |cmnd| - from
  {
    if from + 1 >= |cmnd| then None
    else if IsDip(cmnd, threshold, from) then Some(from)
    else DipFrom(cmnd, threshold, from + 1)
  }

  /** `find_pitch_period(cmnd, threshold)`: the smallest dipping lag, or
      `NoPitchDetected`. */
  function PitchPeriod(cmnd: seq<real>, threshold: real): (r: Result<nat>)
    ensures r.Ok? ==> IsDip(cmnd, threshold, r.value) && forall t: nat :: t < r.value ==> !IsDip(cmnd, threshold, t)
    ensures r.Err? ==> r.error == NoPitchDetected && forall t: nat :: !IsDip(cmnd, threshold, t)
  {
    match DipFrom(cmnd, threshold, 1)
    case None => Err(NoPitchDetected)
    case Some(tau) => Ok(tau)
  }

  /** `yin_pitch(signal, sample_rate, threshold, max_lag)`. */
  function Yin(s: seq<real>, sampleRate: real, threshold: real, maxLag: nat): (r: Result<real>)
    requires 1 <= maxLag <= |s| + 1
    ensures r.Err? ==> r.error == NoPitchDetected
  {
    match PitchPeriod(NormalizedDifference(DifferenceFunction(s, maxLag)), threshold)
    case Err(_) => Err(NoPitchDetected)
    case Ok(tau) => Ok(sampleRate / tau as real)
  }

  /** The difference function is a sum of squares. */
  lemma {:induction false} SquaredDifferenceSumNonNegative(s: seq<real>, tau: nat, m: nat)
    requires tau + m <= |s|
    ensures SquaredDifferenceSum(s, tau, m) >= 0.0
  {
    if m > 0 {
      SquaredDifferenceSumNonNegative(s, tau, m - 1);
      var delta := s[m - 1] - s[m - 1 + tau];
      assert delta * delta >= 0.0;
    }
  }

  /** Sample `i` recurs `tau` samples later. */
  predicate Recurs(s: seq<real>, tau: nat, i: nat)
    requires i + tau < |s|
  {
    s[i] == s[i + tau]
  }

  /** A signal that repeats after `tau` samples has no difference at lag `tau`. */
  lemma {:induction false} PeriodicDifferenceZero(s: seq<real>, tau: nat, m: nat)
    requires tau + m <= |s|
    requires forall i :: 0 <= i < m ==> Recurs(s, tau, i)
    ensures SquaredDifferenceSum(s, tau, m) == 0.0
  {
    if m > 0 {
      PeriodicDifferenceZero(s, tau, m - 1);
      assert Recurs(s, tau, m - 1);
    }
  }

  /** Non-negative differences have a non-negative running sum. */
  lemma {:induction false} RunningSumNonNegative(diff: seq<real>, t: nat)
    requires t < |diff|
    requires forall k :: 0 <= k < |diff| ==> diff[k] >= 0.0
    ensures RunningSum(diff, t) >= 0.0
  {
    if t > 0 {
      RunningSumNonNegative(diff, t - 1);
    }
  }

  /** Every entry of the difference function is non-negative, and so is every
      entry of its normalised form. */
  lemma NormalizedDifferenceNonNegative(s: seq<real>, maxLag: nat)
    requires 1 <= maxLag <= |s| + 1
    ensures forall tau :: 0 <= tau < maxLag ==> DifferenceFunction(s, maxLag)[tau] >= 0.0
    ensures forall tau :: 0 <= tau < maxLag ==> NormalizedDifference(DifferenceFunction(s, maxLag))[tau] >= 0.0
  {
    var diff := DifferenceFunction(s, maxLag);
    forall tau | 1 <= tau < maxLag ensures diff[tau] >= 0.0 {
      SquaredDifferenceSumNonNegative(s, tau, |s| - tau);
    }
    forall tau | 1 <= tau < maxLag ensures NormalizedDifference(diff)[tau] >= 0.0 {
      RunningSumNonNegative(diff, tau);
      var mean := RunningSum(diff, tau) / tau as real;
      assert mean >= 0.0;
      if mean != 0.0 {
        assert diff[tau] / mean >= 0.0;
      }
    }
  }

  /** The difference function vanishes at a period of the signal. */
  lemma PeriodicLagVanishes(s: seq<real>, maxLag: nat, tau: nat)
    requires 1 <= tau < maxLag <= |s| + 1
    requires forall i :: 0 <= i < |s| - tau ==> Recurs(s, tau, i)
    ensures DifferenceFunction(s, maxLag)[tau] == 0.0
  {
    PeriodicDifferenceZero(s, tau, |s| - tau);
  }

  /** A lag with no difference at all dips under any positive threshold, so
      the pitch period is found there or earlier. */
  lemma ZeroDifferenceDetected(diff: seq<real>, threshold: real, tau: nat)
    requires 1 <= tau && tau + 1 < |diff| && threshold > 0.0 && diff[tau] == 0.0
    requires NormalizedDifference(diff)[tau] < NormalizedDifference(diff)[tau + 1]
    ensures PitchPeriod(NormalizedDifference(diff), threshold).Ok?
    ensures PitchPeriod(NormalizedDifference(diff), threshold).value <= tau
  {
    var cmnd := NormalizedDifference(diff);
    assert cmnd[tau] == Div(diff[tau], RunningSum(diff, tau) / tau as real) == 0.0;
    assert IsDip(cmnd, threshold, tau);
  }

  /** A signal that repeats exactly after `tau` samples, where the normalised
      difference rises right after `tau`, has its pitch found at lag `tau` or
      earlier, for any positive threshold. */
  lemma PeriodicSignalDetected(s: seq<real>, maxLag: nat, threshold: real, tau: nat)
    requires 1 <= maxLag <= |s| + 1
    requires 1 <= tau && tau + 1 < maxLag && threshold > 0.0
    requires forall i :: 0 <= i < |s| - tau ==> Recurs(s, tau, i)
    requires NormalizedDifference(DifferenceFunction(s, maxLag))[tau] < NormalizedDifference(DifferenceFunction(s, maxLag))[tau + 1]
    ensures PitchPeriod(NormalizedDifference(DifferenceFunction(s, maxLag)), threshold).Ok?
    ensures PitchPeriod(NormalizedDifference(DifferenceFunction(s, maxLag)), threshold).value <= tau
  {
    PeriodicLagVanishes(s, maxLag, tau);
    ZeroDifferenceDetected(DifferenceFunction(s, maxLag), threshold, tau);
  }

  /** `difference_function`: the nested loops accumulating `sum`. */
  method DifferenceStep(signal: seq<real>, maxLag: nat) returns (diff: array<real>)
    requires maxLag <= |signal| + 1
    ensures fresh(diff) && diff[..] == DifferenceFunction(signal, maxLag)
  {
    diff := new real[maxLag](_ => 0.0);
    var tau := 1;
    while tau < maxLag
      invariant 1 <= tau && (maxLag > 0 ==> tau <= maxLag)
      invariant forall t :: 0 <= t < maxLag ==>
        diff[t] == if 1 <= t < tau then SquaredDifferenceSum(signal, t, |signal| - t) else 0.0
    {
      var sum := 0.0;
      var i := 0;
      while i < |signal| - tau
        invariant 0 <= i <= |signal| - tau
        invariant sum == SquaredDifferenceSum(signal, tau, i)
      {
        var delta := signal[i] - signal[i + tau];
        sum := sum + delta * delta;
        i := i + 1;
      }
      diff[tau] := sum;
      tau := tau + 1;
    }
  }

  /** `cumulative_mean_normalized_difference`: the loop keeping `running_sum`.
      `cmnd[0] = 1.0` panics on an empty difference function. */
  method NormalizeStep(diff: array<real>) returns (cmnd: array<real>)
    requires diff.Length > 0
    ensures fresh(cmnd) && cmnd[..] == NormalizedDifference(diff[..])
  {
    var n := diff.Length;
    cmnd := new real[n](_ => 0.0);
    cmnd[0] := 1.0;
    ghost var normalized := NormalizedDifference(diff[..]);
    var runningSum := 0.0;
    var tau := 1;
    while tau < n
      invariant 1 <= tau <= n
      invariant runningSum == RunningSum(diff[..], tau - 1)
      invariant forall t :: 0 <= t < n ==> cmnd[t] == if t < tau then normalized[t] else 0.0
    {
      runningSum := runningSum + diff[tau];
      cmnd[tau] := Div(diff[tau], runningSum / tau as real);
      tau := tau + 1;
    }
  }

  /** `find_pitch_period`: the loop that returns at the first dip. */
  method FindPitchPeriod(cmnd: array<real>, threshold: real) returns (r: Result<nat>)
    ensures r == PitchPeriod(cmnd[..], threshold)
  {
    var tau := 1;
    while tau < cmnd.Length
      invariant 1 <= tau
      invariant DipFrom(cmnd[..], threshold, 1) == DipFrom(cmnd[..], threshold, tau)
    {
      if cmnd[tau] < threshold {
        if tau + 1 < cmnd.Length && cmnd[tau] < cmnd[tau + 1] {
          return Ok(tau);
        }
      }
      tau := tau + 1;
    }
    return Err(NoPitchDetected);
  }

  /** `yin_pitch`, step by step. */
  method YinPitch(signal: seq<real>, sampleRate: real, threshold: real, maxLag: nat) returns (r: Result<real>)
    requires 1 <= maxLag <= |signal| + 1
    ensures r == Yin(signal, sampleRate, threshold, maxLag)
  {
    var diff := DifferenceStep(signal, maxLag);
    var cmnd := NormalizeStep(diff);
    var period := FindPitchPeriod(cmnd, threshold);
    if period.Ok? {
      return Ok(sampleRate / period.value as real);
    }
    return Err(NoPitchDetected);
  }

  /** `Autocorrelation2`: only a threshold (around 0.1 is typical). */
  datatype Autocorrelation2 = Autocorrelation2(threshold: real)

  /** The largest lag examined: the period of the lowest frequency of the
      range, `(sample_rate / freq_range.start).round() as usize`; the end of the
      range is not consulted. */
  function MaxLag(sampleRate: real, freqRange: FreqRange): nat
    requires freqRange.start != 0.0
  {
    RoundToUsize(sampleRate / freqRange.start)
  }

  /** `Autocorrelation2::detect_pitch_in_range`. */
  method DetectPitchInRange(detector: Autocorrelation2, signal: seq<real>, sampleRate: real, freqRange: FreqRange)
    returns (r: Result<real>)
    requires freqRange.start != 0.0
    requires 1 <= MaxLag(sampleRate, freqRange) <= |signal| + 1
    ensures r == Yin(signal, sampleRate, detector.threshold, MaxLag(sampleRate, freqRange))
  {
    var maxLag := RoundToUsize(sampleRate / freqRange.start);
    r := YinPitch(signal, sampleRate, detector.threshold, maxLag);
  }
}
