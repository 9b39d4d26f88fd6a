/** `AutocorrelationPeakIter` (the same in src/frequency/autocorrelation.rs and
    src/detectors/autocorrelation.rs): it cuts a stream of `(index, intensity)`
    entries into runs that start at a positive intensity and continue through
    non-negative ones, and yields the Gaussian fit of each run. */
module AutocorrelationPeaks {
  import opened Outcomes
  import opened Numerics
  import opened Core

  /** An `(index, intensity)` entry of the lag spectrum. */
  type Entry = (nat, real)

  /** Where `skip_while(|e| e.1 <= 0.0)` started at `i` stops. */
  function SkipNonPositive(s: seq<Entry>, i: nat): (k: nat)
    requires i <= |s|
    ensures i <= k <= |s|
    ensures forall j :: i <= j < k ==> s[j].1 <= 0.0
    ensures k < |s| ==> s[k].1 > 0.0
    decreases |s| - i
  {
    if i == |s| || s[i].1 > 0.0 then i else SkipNonPositive(s, i + 1)
  }

  /** Where `take_while(|e| e.1 >= 0.0)` started at `i` stops. */
  function TakeNonNegative(s: seq<Entry>, i: nat): (j: nat)
    requires i <= |s|
    ensures i <= j <= |s|
    ensures forall m :: i <= m < j ==> s[m].1 >= 0.0
    ensures j < |s| ==> s[j].1 < 0.0
    decreases |s| - i
  {
    if i == |s| || s[i].1 < 0.0 then i else TakeNonNegative(s, i + 1)
  }

  /** `run` is what one `next()` collects from `s` when the run begins at `k`,
      and `rest` what the stream still holds afterwards: the entries before `k`
      are not positive, the run starts positive and continues through
      non-negative entries, and the negative entry that ends it is consumed. */
  predicate IsRunSplit(s: seq<Entry>, k: nat, run: seq<Entry>, rest: seq<Entry>) {
    k + |run| <= |s| &&
    (forall j :: 0 <= j < k ==> s[j].1 <= 0.0) &&
    (k < |s| ==> s[k].1 > 0.0) &&
    run == s[k..k + |run|] &&
    (forall m :: 0 <= m < |run| ==> run[m].1 >= 0.0) &&
    (k + |run| < |s| ==> s[k + |run|].1 < 0.0 && rest == s[k + |run| + 1..]) &&
    (k + |run| == |s| ==> rest == [])
  }

  /** The run one `next()` collects, and the stream left behind. */
  function NextRun(s: seq<Entry>): (r: (seq<Entry>, seq<Entry>))
    ensures |r.1| <= |s| && (|r.0| > 0 ==> |r.1| < |s|)
    ensures |r.0| == 0 <==> forall j :: 0 <= j < |s| ==> s[j].1 <= 0.0
  {
    var k := SkipNonPositive(s, 0);
    var j := TakeNonNegative(s, k);
    (s[k..j], if j < |s| then s[j + 1..] else [])
  }

  /** `NextRun` cuts the stream as `IsRunSplit` describes. */
  lemma NextRunIsSplit(s: seq<Entry>)
    ensures IsRunSplit(s, SkipNonPositive(s, 0), NextRun(s).0, NextRun(s).1)
  {
  }

  /** Only one place fits as the start of the run. */
  lemma RunStartUnique(s: seq<Entry>, k: nat)
    requires k <= |s|
    requires forall j :: 0 <= j < k ==> s[j].1 <= 0.0
    requires k < |s| ==> s[k].1 > 0.0
    ensures k == SkipNonPositive(s, 0)
  {
    var k0 := SkipNonPositive(s, 0);
    assert k0 < |s| ==> s[k0].1 > 0.0;
    assert k < |s| ==> s[k].1 > 0.0;
  }

  /** Only one length fits as the length of the run. */
  lemma RunEndUnique(s: seq<Entry>, k: nat, run: seq<Entry>)
    requires k + |run| <= |s| && run == s[k..k + |run|]
    requires forall m :: 0 <= m < |run| ==> run[m].1 >= 0.0
    requires k + |run| < |s| ==> s[k + |run|].1 < 0.0
    ensures k + |run| == TakeNonNegative(s, k)
  {
    var j := TakeNonNegative(s, k);
    assert k + |run| < |s| ==> s[k + |run|].1 < 0.0;
    assert forall m :: k <= m < k + |run| ==> s[m].1 >= 0.0 by {
      forall m | k <= m < k + |run| ensures s[m].1 >= 0.0 {
        assert s[m] == run[m - k];
      }
    }
    assert j < |s| ==> s[j].1 < 0.0;
  }

  /** The split is determined by the stream: no other run start, run or
      remainder fits the description. */
  lemma RunSplitUnique(s: seq<Entry>, k: nat, run: seq<Entry>, rest: seq<Entry>)
    requires IsRunSplit(s, k, run, rest)
    ensures k == SkipNonPositive(s, 0) && (run, rest) == NextRun(s)
  {
    RunStartUnique(s, k);
    RunEndUnique(s, k, run);
  }

  /** The `x_vals` and `y_vals` of a run. */
  function Indices(run: seq<Entry>): (xs: seq<real>)
    ensures |xs| == |run| && forall m :: 0 <= m < |run| ==> xs[m] == run[m].0 as real
  {
    seq(|run|, m requires 0 <= m < |run| => run[m].0 as real)
  }

  function Intensities(run: seq<Entry>): (ys: seq<real>)
    ensures |ys| == |run| && forall m :: 0 <= m < |run| ==> ys[m] == run[m].1
  {
    seq(|run|, m requires 0 <= m < |run| => run[m].1)
  }

  /** What `next()` yields for the run it collected: nothing for an empty run
      or a failed fit, otherwise the fitted `(mu, amplitude)`. */
  function PeakOfRun(run: seq<Entry>, fit: Fit): (p: Option<FftPoint>)
    ensures p.Some? <==> |run| > 0 && fit(Indices(run), Intensities(run)).Some?
    ensures p.Some? ==> p.value == FftPoint(fit(Indices(run), Intensities(run)).value.mu, fit(Indices(run), Intensities(run)).value.a)
  {
    if |run| == 0 then None
    else
      match fit(Indices(run), Intensities(run))
      case None => None
      case Some(g) => Some(FftPoint(g.mu, g.a))
  }

  /** The points the iterator yields before its first `None`; a `reduce` sees
      exactly these. */
  function Peaks(s: seq<Entry>, fit: Fit): seq<FftPoint>
    decreases |s|
  {
    var r := NextRun(s);
    match PeakOfRun(r.0, fit)
    case None => []
    case Some(p) => [p] + Peaks(r.1, fit)
  }

  /** What the stream holds after that first `None`. */
  function Remainder(s: seq<Entry>, fit: Fit): seq<Entry>
    decreases |s|
  {
    var r := NextRun(s);
    match PeakOfRun(r.0, fit)
    case None => r.1
    case Some(_) => Remainder(r.1, fit)
  }

  /** One `next()` peels the first point off `Peaks` when it yields one, and
      ends the reduction when it yields none. */
  lemma PeaksUnfold(s: seq<Entry>, fit: Fit)
    ensures PeakOfRun(NextRun(s).0, fit).None? ==>
      Peaks(s, fit) == [] && Remainder(s, fit) == NextRun(s).1
    ensures PeakOfRun(NextRun(s).0, fit).Some? ==>
      Peaks(s, fit) == [PeakOfRun(NextRun(s).0, fit).value] + Peaks(NextRun(s).1, fit) &&
      Remainder(s, fit) == Remainder(NextRun(s).1, fit)
  {
  }

  /** The bookkeeping of one step of a reduction that has seen `seen` so far
      and now consumes a run of `s` that fits to a point. */
  lemma PeaksStep(seen: seq<FftPoint>, s: seq<Entry>, fit: Fit)
    requires PeakOfRun(NextRun(s).0, fit).Some?
    ensures seen + Peaks(s, fit) ==
      (seen + [PeakOfRun(NextRun(s).0, fit).value]) + Peaks(NextRun(s).1, fit)
    ensures Remainder(s, fit) == Remainder(NextRun(s).1, fit)
  {
    PeaksUnfold(s, fit);
    var p := PeakOfRun(NextRun(s).0, fit).value;
    var tail := Peaks(NextRun(s).1, fit);
    assert seen + ([p] + tail) == (seen + [p]) + tail;
  }

  /** A stream without a positive intensity yields nothing. */
  lemma NoPositiveNoPeaks(s: seq<Entry>, fit: Fit)
    requires forall j :: 0 <= j < |s| ==> s[j].1 <= 0.0
    ensures Peaks(s, fit) == []
  {
  }

  /** Skipping a prefix of a stream without a positive intensity still leaves
      nothing to yield. */
  lemma NonPositiveStreamNoPeaks(s: seq<Entry>, threshold: real, fit: Fit)
    requires forall e :: e in s ==> e.1 <= 0.0
    ensures Peaks(SkipAbove(s, threshold), fit) == []
  {
    var rest := SkipAbove(s, threshold);
    forall j | 0 <= j < |rest|
      ensures rest[j].1 <= 0.0
    {
      assert rest[j] == s[|s| - |rest| + j];
      assert s[|s| - |rest| + j] in s;
    }
    NoPositiveNoPeaks(rest, fit);
  }

  /** A failed fit ends the iteration: the runs after it are never looked at. */
  lemma FailedFitEndsPeaks(s: seq<Entry>, fit: Fit)
    requires |NextRun(s).0| > 0 && fit(Indices(NextRun(s).0), Intensities(NextRun(s).0)).None?
    ensures Peaks(s, fit) == [] && Remainder(s, fit) == NextRun(s).1
  {
  }

  /** `reduce(|accum, point| if point.y > accum.y { point } else { accum })`
      over the first `n` points: a point of greatest amplitude, the first of
      equally great ones. */
  function StrongestUpTo(points: seq<FftPoint>, n: nat): (r: Option<FftPoint>)
    requires n <= |points|
    ensures r.None? <==> n == 0
    ensures r.Some? ==> exists i :: (0 <= i < n && points[i] == r.value
      && (forall j :: 0 <= j < i ==> points[j].y < r.value.y))
    ensures r.Some? ==> forall j :: 0 <= j < n ==> points[j].y <= r.value.y
  {
    if n == 0 then None
    else
      var best := StrongestUpTo(points, n - 1);
      var last := points[n - 1];
      if best.None? || last.y > best.value.y then Some(last) else best
  }

  /** The reduction over all the points. */
  function Strongest(points: seq<FftPoint>): (r: Option<FftPoint>)
    ensures r.None? <==> |points| == 0
    ensures r.Some? ==> exists i :: (0 <= i < |points| && points[i] == r.value
      && (forall j :: 0 <= j < i ==> points[j].y < r.value.y))
    ensures r.Some? ==> forall j :: 0 <= j < |points| ==> points[j].y <= r.value.y
  {
    StrongestUpTo(points, |points|)
  }

  /** The reduction over a prefix only looks at that prefix. */
  lemma {:induction false} StrongestUpToPrefix(a: seq<FftPoint>, b: seq<FftPoint>, n: nat)
    requires n <= |a| && n <= |b|
    requires forall i :: 0 <= i < n ==> a[i] == b[i]
    ensures StrongestUpTo(a, n) == StrongestUpTo(b, n)
  {
    if n > 0 {
      StrongestUpToPrefix(a, b, n - 1);
      assert a[n - 1] == b[n - 1];
    }
  }

  /** The reduction over one more point. */
  lemma StrongestAppend(points: seq<FftPoint>, p: FftPoint)
    ensures Strongest(points + [p]) ==
      if Strongest(points).None? || p.y > Strongest(points).value.y then Some(p) else Strongest(points)
  {
    StrongestUpToPrefix(points + [p], points, |points|);
  }

  /** Where `skip_while(|e| e.1 > threshold)` started at `i` stops. */
  function SkipAboveFrom(s: seq<Entry>, threshold: real, i: nat): (k: nat)
    requires i <= |s|
    ensures i <= k <= |s|
    ensures forall j :: i <= j < k ==> s[j].1 > threshold
    ensures k < |s| ==> s[k].1 <= threshold
    decreases |s| - i
  {
    if i == |s| || s[i].1 <= threshold then i else SkipAboveFrom(s, threshold, i + 1)
  }

  /** `skip_while(|e| e.1 > threshold)`: the stream from its first entry not
      above `threshold` (the "first slide" down from lag 0). */
  function SkipAbove(s: seq<Entry>, threshold: real): (r: seq<Entry>)
    ensures |r| <= |s| && r == s[|s| - |r|..]
    ensures forall j :: 0 <= j < |s| - |r| ==> s[j].1 > threshold
    ensures |r| > 0 ==> r[0].1 <= threshold
  {
    s[SkipAboveFrom(s, threshold, 0)..]
  }

  /** The iterator, over the part of the stream not yet consumed. */
  class AutocorrelationPeakIter {
    var signal: seq<Entry>

    /** `autocorrelation_peaks()`. */
    constructor(signal: seq<Entry>)
      ensures this.signal == signal
    {
      this.signal := signal;
    }

    /** `next()`: collect one run, consuming it and the entry that ends it,
        and fit it. */
    method Next(fit: Fit) returns (r: Option<FftPoint>)
      modifies this
      ensures r == PeakOfRun(NextRun(old(signal)).0, fit)
      ensures signal == NextRun(old(signal)).1
      ensures r.Some? ==> |signal| < |old(signal)|
      ensures |signal| <= |old(signal)|
    {
      var k := 0;
      while k < |signal| && signal[k].1 <= 0.0
        invariant 0 <= k <= |signal|
        invariant SkipNonPositive(signal, 0) == SkipNonPositive(signal, k)
      {
        k := k + 1;
      }
      var j := k;
      while j < |signal| && signal[j].1 >= 0.0
        invariant k <= j <= |signal|
        invariant TakeNonNegative(signal, k) == TakeNonNegative(signal, j)
      {
        j := j + 1;
      }
      var run := signal[k..j];
      signal := if j < |signal| then signal[j + 1..] else [];
      r := PeakOfRun(run, fit);
    }

    /** `.reduce(...)` over the iterator: call `next()` until it yields
        nothing, keeping the strongest point. */
    method Reduce(fit: Fit) returns (r: Option<FftPoint>)
      modifies this
      ensures r == Strongest(Peaks(old(signal), fit))
      ensures signal == Remainder(old(signal), fit)
    {
      ghost var left := Remainder(signal, fit);
      ghost var total := Peaks(signal, fit);
      ghost var seen: seq<FftPoint> := [];
      r := None;
      var done := false;
      while !done
        invariant !done ==> left == Remainder(signal, fit)
        invariant done ==> signal == left
        invariant !done ==> total == seen + Peaks(signal, fit)
        invariant done ==> total == seen
        invariant r == Strongest(seen)
        decreases |signal| + (if done then 0 else 1)
      {
        ghost var before := signal;
        var point := Next(fit);
        match point {
          case None =>
            PeaksUnfold(before, fit);
            done := true;
          case Some(p) =>
            PeaksStep(seen, before, fit);
            StrongestAppend(seen, p);
            seen := seen + [p];
            if r.None? || p.y > r.value.y {
              r := Some(p);
            }
        }
      }
    }
  }
}
