/** `PeakIter` of src/peak_iter.rs: each `next()` labels the rest of the stream
    with a fresh smoothed z-score detector, skips the entries labelled
    `Peak::None`, collects the run labelled `Peak::High`, and turns the run
    into one point. */
module PeakIteration {
  import opened Outcomes
  import opened Numerics
  import opened AutocorrelationPeaks

  /** `smoothed_z_score::Peak`; `NoPeak` is `Peak::None`. */
  datatype PeakLabel = NoPeak | High | Low

  /** The z-score detector of the `smoothed_z_score` crate, run over a stream
      with a given lag, threshold and influence: a label for each entry. The
      entries of its warm-up window come out as `NoPeak`; since every
      `next()` starts a fresh detector, they always fall in the skipped
      prefix. */
  type Labeler = (seq<Entry>, nat, real, real) -> seq<PeakLabel>

  /** The detector labels every entry of the stream it is given. */
  ghost predicate LabelsEach(labeler: Labeler) {
    forall s, lag, threshold, influence :: |labeler(s, lag, threshold, influence)| == |s|
  }

  /** `PeaksDetector::new(self.lag, self.threshold, 0.0)`. */
  const INFLUENCE: real := 0.0

  /** What one `next()` produces. `FitPanic` is the `assert!(false)` taken when
      the Gaussian fit of a run of three or more points fails. */
  datatype Yield = Exhausted | Point(x: real, y: real) | FitPanic

  /** Where `skip_while(|(_, peak)| *peak == Peak::None)` from `i` stops. */
  function SkipQuiet(labels: seq<PeakLabel>, i: nat): (k: nat)
    requires i <= |labels|
    ensures i <= k <= |labels|
    ensures forall j :: i <= j < k ==> labels[j] == NoPeak
    ensures k < |labels| ==> labels[k] != NoPeak
    decreases |labels| - i
  {
    if i == |labels| || labels[i] != NoPeak then i else SkipQuiet(labels, i + 1)
  }

  /** Where `take_while(|(_, peak)| *peak == Peak::High)` from `k` stops. */
  function TakeHigh(labels: seq<PeakLabel>, k: nat): (j: nat)
    requires k <= |labels|
    ensures k <= j <= |labels|
    ensures forall m :: k <= m < j ==> labels[m] == High
    ensures j < |labels| ==> labels[j] != High
    decreases |labels| - k
  {
    if k == |labels| || labels[k] != High then k else TakeHigh(labels, k + 1)
  }

  /** The run one `next()` collects from `s` labelled `labels`, and what the
      stream still holds: the entry that ends the run is consumed. */
  function HighRun(s: seq<Entry>, labels: seq<PeakLabel>): (r: (seq<Entry>, seq<Entry>))
    requires |labels| == |s|
    ensures |r.1| <= |s| && (|r.0| > 0 ==> |r.1| < |s|)
  {
    var k := SkipQuiet(labels, 0);
    var j := TakeHigh(labels, k);
    (s[k..j], if j < |s| then s[j + 1..] else [])
  }

  /** The run is the first stretch of `High` entries after the leading
      `NoPeak` ones, and the stream resumes after the entry that ends it. */
  lemma HighRunSplit(s: seq<Entry>, labels: seq<PeakLabel>)
    requires |labels| == |s|
    ensures var k := SkipQuiet(labels, 0);
      var r := HighRun(s, labels);
      k + |r.0| <= |s| && r.0 == s[k..k + |r.0|] &&
      (forall j :: 0 <= j < k ==> labels[j] == NoPeak) &&
      (forall m :: k <= m < k + |r.0| ==> labels[m] == High) &&
      (k + |r.0| < |s| ==> labels[k + |r.0|] != High && r.1 == s[k + |r.0| + 1..]) &&
      (k + |r.0| == |s| ==> r.1 == [])
  {
  }

  /** A `Peak::Low` label before any `Peak::High` one gives an empty run, so
      the iteration ends there. */
  lemma LowBeforeHighEnds(s: seq<Entry>, labels: seq<PeakLabel>, i: nat)
    requires |labels| == |s| && i < |s| && labels[i] == Low
    requires forall j :: 0 <= j < i ==> labels[j] == NoPeak
    ensures HighRun(s, labels).0 == [] && HighRun(s, labels).1 == s[i + 1..]
  {
    assert i < |labels| ==> labels[i] != NoPeak;
    assert SkipQuiet(labels, 0) == i by {
      var k := SkipQuiet(labels, 0);
      assert k < |labels| ==> labels[k] != NoPeak;
    }
  }

  /** The `match x_vals.len()` of `next()`. */
  function PointOfRun(run: seq<Entry>, fit: Fit): (r: Yield)
    ensures r == Exhausted <==> |run| == 0
    ensures r == FitPanic <==> |run| >= 3 && fit(Indices(run), Intensities(run)).None?
    ensures |run| >= 3 && r.Point? ==>
      r == Point(fit(Indices(run), Intensities(run)).value.mu, fit(Indices(run), Intensities(run)).value.a)
  {
    if |run| == 0 then Exhausted
    else if |run| == 1 then Point(run[0].0 as real, run[0].1)
    else if |run| == 2 then
      if run[0].1 > run[1].1 then Point(run[0].0 as real, run[0].1) else Point(run[1].0 as real, run[1].1)
    else
      match fit(Indices(run), Intensities(run))
      case None => FitPanic
      case Some(g) => Point(g.mu, g.a)
  }

  /** A run of one or two entries gives one of its own entries, the one of
      greatest intensity, the later one on a tie. */
  lemma ShortRunGivesLargest(run: seq<Entry>, fit: Fit)
    requires 1 <= |run| <= 2
    ensures exists i :: (0 <= i < |run| && PointOfRun(run, fit) == Point(run[i].0 as real, run[i].1)
      && (forall j :: 0 <= j < |run| ==> run[j].1 <= run[i].1)
      && (forall j :: i < j < |run| ==> run[j].1 < run[i].1))
  {
    if |run| == 1 {
      assert PointOfRun(run, fit) == Point(run[0].0 as real, run[0].1);
    } else if run[0].1 > run[1].1 {
      assert PointOfRun(run, fit) == Point(run[0].0 as real, run[0].1);
    } else {
      assert PointOfRun(run, fit) == Point(run[1].0 as real, run[1].1);
    }
  }

  /** What `next()` yields from the stream `s`, and what is left of it. */
  function Step(s: seq<Entry>, lag: nat, threshold: real, labeler: Labeler, fit: Fit): (r: (Yield, seq<Entry>))
    requires LabelsEach(labeler)
  {
    var run := HighRun(s, labeler(s, lag, threshold, INFLUENCE));
    (PointOfRun(run.0, fit), run.1)
  }

  /** `next()` only consumes: the stream it leaves is a suffix of the one it
      was given, a strictly shorter one whenever it yields a point. */
  lemma StepConsumes(s: seq<Entry>, lag: nat, threshold: real, labeler: Labeler, fit: Fit)
    requires LabelsEach(labeler)
    ensures var r := Step(s, lag, threshold, labeler, fit);
      |r.1| <= |s| && r.1 == s[|s| - |r.1|..] && (r.0.Point? ==> |r.1| < |s|)
  {
    var labels := labeler(s, lag, threshold, INFLUENCE);
    HighRunSplit(s, labels);
  }

  class PeakIter {
    var signal: seq<Entry>
    const lag: nat
    const threshold: real

    /** `fft_peaks(lag, threshold)`. */
    constructor(signal: seq<Entry>, lag: nat, threshold: real)
      ensures this.signal == signal && this.lag == lag && this.threshold == threshold
    {
      this.signal := signal;
      this.lag := lag;
      this.threshold := threshold;
    }

    /** `next()`: label what is left with a fresh detector, collect the first
        `High` run, consume it and the entry after it, and reduce the run to
        a point. */
    method Next(labeler: Labeler, fit: Fit) returns (r: Yield)
      requires LabelsEach(labeler)
      modifies this
      ensures (r, signal) == Step(old(signal), lag, threshold, labeler, fit)
    {
      var labels := labeler(signal, lag, threshold, INFLUENCE);
      var k := 0;
      while k < |labels| && labels[k] == NoPeak
        invariant 0 <= k <= |labels|
        invariant SkipQuiet(labels, 0) == SkipQuiet(labels, k)
      {
        k := k + 1;
      }
      var j := k;
      while j < |labels| && labels[j] == High
        invariant k <= j <= |labels|
        invariant TakeHigh(labels, k) == TakeHigh(labels, j)
      {
        j := j + 1;
      }
      var run := signal[k..j];
      signal := if j < |signal| then signal[j + 1..] else [];
      r := PointOfRun(run, fit);
    }
  }
}
