/** The zero-crossing statistics of the root crate: `zero_crossing_count`
    (identical in src/pitch/core.rs and src/pitch/utils.rs), and the two
    `zero_crossing_rate`s built on it. */
module ZeroCrossing {
  import opened Numerics

  /** `(signum(a) - signum(b)).abs() as usize` for one adjacent pair. */
  function PairTerm(a: real, b: real): (t: nat)
    ensures t == 0 || t == 2
  {
    var d := Sign(a) - Sign(b);
    var m := if d < 0.0 then -d else d;
    m.Floor
  }

  /** The `sum::<usize>()` of the pair terms over `tuple_windows()`. */
  function TermSum(s: seq<real>): nat
    decreases |s|
  {
    if |s| < 2 then 0
    else TermSum(s[..|s| - 1]) + PairTerm(s[|s| - 2], s[|s| - 1])
  }

  /** `zero_crossing_count(signal)`: the term sum halved. */
  function ZeroCrossingCount(s: seq<real>): nat {
    TermSum(s) / 2
  }

  /** Whether two adjacent samples lie on opposite sides of zero (zero itself
      counting as positive, as `signum(0.0) == 1.0`). */
  predicate Crosses(a: real, b: real) {
    (a >= 0.0) != (b >= 0.0)
  }

  /** Reference count: the adjacent pairs that cross zero, counted from the front. */
  function SignChanges(s: seq<real>): nat
    decreases |s|
  {
    if |s| < 2 then 0
    else (if Crosses(s[0], s[1]) then 1 else 0) + SignChanges(s[1..])
  }

  /** Counting the sign changes from the back gives the same number. */
  lemma {:induction false} SignChangesLast(s: seq<real>)
    requires |s| >= 2
    ensures SignChanges(s) == SignChanges(s[..|s| - 1]) + (if Crosses(s[|s| - 2], s[|s| - 1]) then 1 else 0)
    decreases |s|
  {
    if |s| > 2 {
      SignChangesLast(s[1..]);
      assert s[1..][..|s[1..]| - 1] == s[..|s| - 1][1..];
      assert s[..|s| - 1][0] == s[0] && s[..|s| - 1][1] == s[1];
    }
  }

  /** Each pair term is 2 exactly for a crossing pair, so the term sum is twice
      the number of crossings. */
  lemma {:induction false} TermSumCountsCrossings(s: seq<real>)
    ensures TermSum(s) == 2 * SignChanges(s)
    decreases |s|
  {
    if |s| >= 2 {
      TermSumCountsCrossings(s[..|s| - 1]);
      SignChangesLast(s);
      assert PairTerm(s[|s| - 2], s[|s| - 1]) == if Crosses(s[|s| - 2], s[|s| - 1]) then 2 else 0;
    }
  }

  /** The count is the number of adjacent pairs that straddle zero. */
  lemma CountIsSignChanges(s: seq<real>)
    ensures ZeroCrossingCount(s) == SignChanges(s)
  {
    TermSumCountsCrossings(s);
  }

  /** There is at most one crossing per adjacent pair. */
  lemma {:induction false} SignChangesBounded(s: seq<real>)
    ensures SignChanges(s) <= if |s| == 0 then 0 else |s| - 1
    decreases |s|
  {
    if |s| >= 2 {
      SignChangesBounded(s[1..]);
    }
  }

  /** A signal that stays on one side of zero has no crossing. */
  lemma {:induction false} OneSidedNoCrossing(s: seq<real>)
    requires (forall i :: 0 <= i < |s| ==> s[i] >= 0.0) || (forall i :: 0 <= i < |s| ==> s[i] < 0.0)
    ensures ZeroCrossingCount(s) == 0
  {
    CountIsSignChanges(s);
    NoCrossingPairs(s);
  }

  lemma {:induction false} NoCrossingPairs(s: seq<real>)
    requires (forall i :: 0 <= i < |s| ==> s[i] >= 0.0) || (forall i :: 0 <= i < |s| ==> s[i] < 0.0)
    ensures SignChanges(s) == 0
    decreases |s|
  {
    if |s| >= 2 {
      assert !Crosses(s[0], s[1]);
      NoCrossingPairs(s[1..]);
    }
  }

  /** A signal whose every adjacent pair straddles zero crosses at every step. */
  lemma {:induction false} AlternatingCrossesEverywhere(s: seq<real>)
    requires |s| >= 1
    requires forall i :: 0 <= i < |s| - 1 ==> Crosses(s[i], s[i + 1])
    ensures ZeroCrossingCount(s) == |s| - 1
  {
    CountIsSignChanges(s);
    AllPairsCross(s);
  }

  lemma {:induction false} AllPairsCross(s: seq<real>)
    requires |s| >= 1
    requires forall i :: 0 <= i < |s| - 1 ==> Crosses(s[i], s[i + 1])
    ensures SignChanges(s) == |s| - 1
    decreases |s|
  {
    if |s| >= 2 {
      assert Crosses(s[0], s[1]);
      var t := s[1..];
      forall i | 0 <= i < |t| - 1 ensures Crosses(t[i], t[i + 1]) {
        assert t[i] == s[i + 1] && t[i + 1] == s[i + 2];
      }
      AllPairsCross(t);
    }
  }

  /** `zero_crossing_rate` of src/pitch/core.rs: crossings per second,
      `sample_rate / len * count`. An empty signal would divide by zero. */
  function ZeroCrossingRate(s: seq<real>, sampleRate: real): real
    requires |s| > 0
  {
    sampleRate / |s| as real * ZeroCrossingCount(s) as real
  }

  /** `zero_crossing_rate` of src/pitch/utils.rs: `count / sample_rate`. */
  function CrossingsOverSampleRate(s: seq<real>, sampleRate: real): real
    requires sampleRate != 0.0
  {
    ZeroCrossingCount(s) as real / sampleRate
  }

  /** The crossings-per-second rate is non-negative and below the sample rate. */
  lemma ZeroCrossingRateBounded(s: seq<real>, sampleRate: real)
    requires |s| > 0 && sampleRate > 0.0
    ensures 0.0 <= ZeroCrossingRate(s, sampleRate) < sampleRate
  {
    var count := ZeroCrossingCount(s);
    CountIsSignChanges(s);
    SignChangesBounded(s);
    ScaledCountBounds(sampleRate, |s| as real, count as real);
  }

  /** Both rates are zero exactly when the signal never changes sign. */
  lemma ZeroCrossingRateZero(s: seq<real>, sampleRate: real)
    requires |s| > 0 && sampleRate > 0.0
    ensures ZeroCrossingRate(s, sampleRate) == 0.0 <==> SignChanges(s) == 0
    ensures CrossingsOverSampleRate(s, sampleRate) == 0.0 <==> SignChanges(s) == 0
  {
    var count := ZeroCrossingCount(s);
    CountIsSignChanges(s);
    SignChangesBounded(s);
    ScaledCountBounds(sampleRate, |s| as real, count as real);
  }

  /** `rate / n * c` for a count `c` below `n`. */
  lemma ScaledCountBounds(rate: real, n: real, c: real)
    requires rate > 0.0 && 0.0 <= c < n
    ensures 0.0 <= rate / n * c < rate
    ensures rate / n * c == 0.0 <==> c == 0.0
    ensures c / rate == 0.0 <==> c == 0.0
  {
    var w := rate / n;
    assert w > 0.0;
    assert w * c < w * n;
    assert w * n == rate;
    if c != 0.0 {
      assert w * c > 0.0;
      assert c / rate > 0.0;
    }
  }
}
