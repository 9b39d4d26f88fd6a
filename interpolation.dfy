/** `interpolated_peak_at` (pitch-detector/src/core/utils.rs): widen a spectrum
    slot to the run of positive values falling away on both sides, then locate
    the summit of that run. */
module Interpolation {
  import opened Outcomes
  import opened Numerics
  import opened Core

  /** Slot `k` lies on a rising flank: it is positive and not above slot `k + 1`. */
  predicate RisingAt(s: seq<real>, k: nat)
    requires k + 1 < |s|
  {
    s[k] > 0.0 && s[k] <= s[k + 1]
  }

  /** Slot `k` lies on a falling flank: it is positive and not above slot `k - 1`. */
  predicate FallingAt(s: seq<real>, k: nat)
    requires 0 < k < |s|
  {
    s[k] > 0.0 && s[k] <= s[k - 1]
  }

  /** Where the leftward scan from `i` stops: it moves left, down the flank,
      while the left neighbour is positive and not larger. */
  function PeakBegin(s: seq<real>, i: nat): (b: nat)
    requires i < |s|
    ensures b <= i
    ensures forall k :: b <= k < i ==> RisingAt(s, k)
    ensures b == 0 || s[b] < s[b - 1] || s[b - 1] <= 0.0
    decreases i
  {
    if i == 0 then 0
    else if s[i] < s[i - 1] || s[i - 1] <= 0.0 then i
    else PeakBegin(s, i - 1)
  }

  /** Where the rightward scan from `i` stops: it moves right, down the flank,
      while the right neighbour is positive and not larger. */
  function PeakEnd(s: seq<real>, i: nat): (e: nat)
    requires i < |s|
    ensures i <= e < |s|
    ensures forall k :: i < k <= e ==> FallingAt(s, k)
    ensures e == |s| - 1 || s[e] < s[e + 1] || s[e + 1] <= 0.0
    decreases |s| - i
  {
    if i == |s| - 1 then i
    else if s[i] < s[i + 1] || s[i + 1] <= 0.0 then i
    else PeakEnd(s, i + 1)
  }

  /** The summit of the run `s[b..e]` (both ends included): the point itself
      for one slot, the strictly larger one of two slots (the right one on a
      tie), the Gaussian fit's `(mu, a)` for three or more. The run holds
      `e - b + 1` slots, so the `0` arm of the length match is never taken. */
  function Summit(s: seq<real>, b: nat, e: nat, fit: Fit): (r: Result<FftPoint>)
    requires b <= e < |s|
    ensures r.Err? ==> r.error == UnexpectedError && e >= b + 2
    ensures e == b ==> r == Ok(FftPoint(b as real, s[b]))
    ensures e == b + 1 && s[b] > s[e] ==> r == Ok(FftPoint(b as real, s[b]))
    ensures e == b + 1 && s[b] <= s[e] ==> r == Ok(FftPoint(e as real, s[e]))
    ensures e >= b + 2 ==>
      (r.Ok? <==> fit(IndexRange(b, e + 1), s[b..e + 1]).Some?)
    ensures e >= b + 2 && r.Ok? ==>
      r.value == FftPoint(fit(IndexRange(b, e + 1), s[b..e + 1]).value.mu, fit(IndexRange(b, e + 1), s[b..e + 1]).value.a)
  {
    if e == b then Ok(FftPoint(b as real, s[b]))
    else if e == b + 1 then
      if s[b] > s[e] then Ok(FftPoint(b as real, s[b])) else Ok(FftPoint(e as real, s[e]))
    else
      match fit(IndexRange(b, e + 1), s[b..e + 1])
      case None => Err(UnexpectedError)
      case Some(g) => Ok(FftPoint(g.mu, g.a))
  }

  /** The peak point the curve through slot `x` rises to. */
  function Interpolate(s: seq<real>, x: nat, fit: Fit): Result<FftPoint>
    requires x < |s|
  {
    Summit(s, PeakBegin(s, x), PeakEnd(s, x), fit)
  }

  /** A slot whose neighbours are both larger, or not positive, is a run of
      its own and is returned as it is. */
  lemma IsolatedPeak(s: seq<real>, x: nat, fit: Fit)
    requires x < |s|
    requires x == 0 || s[x] < s[x - 1] || s[x - 1] <= 0.0
    requires x == |s| - 1 || s[x] < s[x + 1] || s[x + 1] <= 0.0
    ensures Interpolate(s, x, fit) == Ok(FftPoint(x as real, s[x]))
  {
  }

  /** Interpolation only fails when the Gaussian fit does; it never reports
      `IncorrectParameters`, because the run always holds slot `x`. */
  lemma InterpolateErrors(s: seq<real>, x: nat, fit: Fit)
    requires x < |s|
    ensures Interpolate(s, x, fit).Err? ==> Interpolate(s, x, fit).error == UnexpectedError
    ensures Interpolate(s, x, fit).Err? ==> PeakEnd(s, x) >= PeakBegin(s, x) + 2
  {
  }

  /** A run of one or two slots is summarised by one of its own slots. */
  lemma ShortRunSummit(s: seq<real>, b: nat, e: nat, fit: Fit)
    requires b <= e < |s| && e <= b + 1
    ensures Summit(s, b, e, fit).Ok?
    ensures b as real <= Summit(s, b, e, fit).value.x <= e as real
  {
  }

  /** The run is the same from any slot inside it whose scans meet there. */
  lemma {:induction false} PeakBeginStable(s: seq<real>, i: nat, j: nat)
    requires j <= i < |s|
    requires PeakBegin(s, i) <= j
    ensures PeakBegin(s, j) == PeakBegin(s, i)
    decreases i - j
  {
    if i > j {
      assert !(s[i] < s[i - 1] || s[i - 1] <= 0.0);
      PeakBeginStable(s, i - 1, j);
    }
  }

  /** The backward scanning loop of `interpolated_peak_at`. */
  method ScanBegin(spectrum: seq<real>, fftPointX: nat) returns (peakBegin: nat)
    requires fftPointX < |spectrum|
    ensures peakBegin == PeakBegin(spectrum, fftPointX)
  {
    var idx: nat := fftPointX;
    while true
      invariant idx <= fftPointX
      invariant PeakBegin(spectrum, idx) == PeakBegin(spectrum, fftPointX)
      decreases idx
    {
      if idx == 0 {
        return idx;
      }
      if spectrum[idx] < spectrum[idx - 1] || spectrum[idx - 1] <= 0.0 {
        return idx;
      }
      idx := idx - 1;
    }
  }

  /** The forward scanning loop of `interpolated_peak_at`. */
  method ScanEnd(spectrum: seq<real>, fftPointX: nat) returns (peakEnd: nat)
    requires fftPointX < |spectrum|
    ensures peakEnd == PeakEnd(spectrum, fftPointX)
  {
    var idx: nat := fftPointX;
    while true
      invariant fftPointX <= idx < |spectrum|
      invariant PeakEnd(spectrum, idx) == PeakEnd(spectrum, fftPointX)
      decreases |spectrum| - idx
    {
      if idx == |spectrum| - 1 {
        return idx;
      }
      if spectrum[idx] < spectrum[idx + 1] || spectrum[idx + 1] <= 0.0 {
        return idx;
      }
      idx := idx + 1;
    }
  }

  /** `interpolated_peak_at`: both scans, then the summit of the run. */
  method InterpolatedPeakAt(spectrum: seq<real>, fftPointX: nat, fit: Fit) returns (r: Result<FftPoint>)
    requires fftPointX < |spectrum|
    ensures r == Interpolate(spectrum, fftPointX, fit)
  {
    var peakBegin := ScanBegin(spectrum, fftPointX);
    var peakEnd := ScanEnd(spectrum, fftPointX);
    r := Summit(spectrum, peakBegin, peakEnd, fit);
  }
}
