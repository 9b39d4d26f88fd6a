/** The selection idioms the detectors use on spectra: the `reduce` that keeps
    the first maximum (or minimum), the stable descending `sort_by` on
    magnitudes, and `find`. */
module Selection {
  import opened Outcomes
  import opened Core

  /** Index kept by `enumerate().reduce(|acc, item| if item.1 > acc.1 { item } else { acc })`
      over the first `n` values: a greatest value, and the first of several
      equal greatest ones. */
  function FirstMaxUpTo(s: seq<real>, n: nat): (i: nat)
    requires 0 < n <= |s|
    ensures i < n
    ensures forall j :: 0 <= j < n ==> s[j] <= s[i]
    ensures forall j :: 0 <= j < i ==> s[j] < s[i]
  {
    if n == 1 then 0
    else
      var j := FirstMaxUpTo(s, n - 1);
      if s[n - 1] > s[j] then n - 1 else j
  }

  /** The reduction over the whole sequence. */
  function FirstMax(s: seq<real>): (i: nat)
    requires |s| > 0
    ensures i < |s|
    ensures forall j :: 0 <= j < |s| ==> s[j] <= s[i]
    ensures forall j :: 0 <= j < i ==> s[j] < s[i]
  {
    FirstMaxUpTo(s, |s|)
  }

  /** The same reduction keeping the strictly smaller value over the first
      `n` values: a least value, the first of several equal least ones. */
  function FirstMinUpTo(s: seq<real>, n: nat): (i: nat)
    requires 0 < n <= |s|
    ensures i < n
    ensures forall j :: 0 <= j < n ==> s[i] <= s[j]
    ensures forall j :: 0 <= j < i ==> s[i] < s[j]
  {
    if n == 1 then 0
    else
      var j := FirstMinUpTo(s, n - 1);
      if s[n - 1] < s[j] then n - 1 else j
  }

  /** The least-value reduction over the whole sequence. */
  function FirstMin(s: seq<real>): (i: nat)
    requires |s| > 0
    ensures i < |s|
    ensures forall j :: 0 <= j < |s| ==> s[i] <= s[j]
    ensures forall j :: 0 <= j < i ==> s[i] < s[j]
  {
    FirstMinUpTo(s, |s|)
  }

  /** The first-maximum index is the only index satisfying both of its
      postconditions. */
  lemma FirstMaxUnique(s: seq<real>, i: nat)
    requires i < |s|
    requires forall j :: 0 <= j < |s| ==> s[j] <= s[i]
    requires forall j :: 0 <= j < i ==> s[j] < s[i]
    ensures FirstMax(s) == i
  {
  }

  predicate SortedByMagnitudeDesc(s: seq<FrequencyBin>) {
    forall i, j :: 0 <= i < j < |s| ==> s[i].magnitude >= s[j].magnitude
  }

  /** Inserts `x` into a descending sequence after every element of magnitude at
      least its own. */
  function InsertDesc(x: FrequencyBin, s: seq<FrequencyBin>): (r: seq<FrequencyBin>)
    ensures multiset(r) == multiset(s) + multiset{x}
    ensures |r| == |s| + 1
    decreases |s|
  {
    if |s| == 0 then [x]
    else if s[0].magnitude >= x.magnitude then
      assert s == [s[0]] + s[1..];
      [s[0]] + InsertDesc(x, s[1..])
    else [x] + s
  }

  /** Every element of the insertion result is bounded by a bound of `x` and `s`. */
  lemma {:induction false} InsertDescBounded(x: FrequencyBin, s: seq<FrequencyBin>, m: real)
    requires x.magnitude <= m
    requires forall k :: 0 <= k < |s| ==> s[k].magnitude <= m
    ensures forall k :: 0 <= k < |InsertDesc(x, s)| ==> InsertDesc(x, s)[k].magnitude <= m
    decreases |s|
  {
    if |s| > 0 && s[0].magnitude >= x.magnitude {
      InsertDescBounded(x, s[1..], m);
    }
  }

  /** Insertion keeps a sequence sorted descending. */
  lemma {:induction false} InsertDescSorted(x: FrequencyBin, s: seq<FrequencyBin>)
    requires SortedByMagnitudeDesc(s)
    ensures SortedByMagnitudeDesc(InsertDesc(x, s))
    decreases |s|
  {
    if |s| > 0 && s[0].magnitude >= x.magnitude {
      InsertDescSorted(x, s[1..]);
      InsertDescBounded(x, s[1..], s[0].magnitude);
    }
  }

  /** `bins.sort_by(|a, b| b.partial_cmp(a).unwrap())`: descending by
      magnitude; the sort is stable, so equal magnitudes keep their order
      (`SortStable`). */
  function SortByMagnitudeDesc(s: seq<FrequencyBin>): (r: seq<FrequencyBin>)
    ensures SortedByMagnitudeDesc(r)
    ensures multiset(r) == multiset(s)
    ensures |r| == |s|
    decreases |s|
  {
    if |s| == 0 then []
    else
      var init := s[..|s| - 1];
      assert s == init + [s[|s| - 1]];
      InsertDescSorted(s[|s| - 1], SortByMagnitudeDesc(init));
      InsertDesc(s[|s| - 1], SortByMagnitudeDesc(init))
  }

  /** Inserting an element behind all elements of equal magnitude keeps the
      relative order of those elements: `x` comes after each of them. */
  lemma {:induction false} InsertDescAfterEqual(x: FrequencyBin, s: seq<FrequencyBin>, y: FrequencyBin)
    requires SortedByMagnitudeDesc(s)
    requires y in s && y.magnitude == x.magnitude && y != x
    ensures exists i, j :: 0 <= i < j < |InsertDesc(x, s)| && InsertDesc(x, s)[i] == y && InsertDesc(x, s)[j] == x
    decreases |s|
  {
    var r := InsertDesc(x, s);
    if s[0] == y {
      assert s[0].magnitude >= x.magnitude;
      var t := InsertDesc(x, s[1..]);
      assert x in multiset(t);
      var j :| 0 <= j < |t| && t[j] == x;
      assert r[0] == y && r[j + 1] == x;
    } else {
      assert y in s[1..];
      assert s[0].magnitude >= y.magnitude;
      InsertDescAfterEqual(x, s[1..], y);
      var t := InsertDesc(x, s[1..]);
      var i, j :| 0 <= i < j < |t| && t[i] == y && t[j] == x;
      assert r[i + 1] == y && r[j + 1] == x;
    }
  }

  /** The elements of `s` of magnitude `m`, in their order in `s`. */
  function Level(m: real, s: seq<FrequencyBin>): seq<FrequencyBin>
    decreases |s|
  {
    if |s| == 0 then []
    else (if s[0].magnitude == m then [s[0]] else []) + Level(m, s[1..])
  }

  lemma {:induction false} LevelAppend(m: real, a: seq<FrequencyBin>, b: seq<FrequencyBin>)
    ensures Level(m, a + b) == Level(m, a) + Level(m, b)
    decreases |a|
  {
    if |a| == 0 {
      assert a + b == b;
    } else {
      assert (a + b)[0] == a[0] && (a + b)[1..] == a[1..] + b;
      LevelAppend(m, a[1..], b);
    }
  }

  lemma {:induction false} LevelBelow(m: real, s: seq<FrequencyBin>)
    requires forall k :: 0 <= k < |s| ==> s[k].magnitude < m
    ensures Level(m, s) == []
    decreases |s|
  {
    if |s| > 0 {
      LevelBelow(m, s[1..]);
    }
  }

  /** Putting `x` ahead of elements all smaller than it keeps it behind
      every element of its magnitude, there being none. */
  lemma {:induction false} PrependLevel(m: real, x: FrequencyBin, s: seq<FrequencyBin>)
    requires forall k :: 0 <= k < |s| ==> s[k].magnitude < x.magnitude
    ensures Level(m, [x] + s) == Level(m, s) + Level(m, [x])
  {
    LevelAppend(m, [x], s);
    if x.magnitude == m {
      LevelBelow(m, s);
    } else {
      assert Level(m, [x]) == [];
    }
  }

  /** In a sorted sequence every element is at most the first. */
  lemma SortedBelowHead(s: seq<FrequencyBin>, v: real)
    requires SortedByMagnitudeDesc(s) && |s| > 0 && s[0].magnitude < v
    ensures forall k :: 0 <= k < |s| ==> s[k].magnitude < v
  {
    forall k | 0 <= k < |s| ensures s[k].magnitude < v {
      assert k == 0 || s[0].magnitude >= s[k].magnitude;
    }
  }

  lemma ConsLevel(m: real, y: FrequencyBin, t: seq<FrequencyBin>, u: seq<FrequencyBin>, w: seq<FrequencyBin>)
    requires Level(m, u) == Level(m, t) + Level(m, w)
    ensures Level(m, [y] + u) == Level(m, [y] + t) + Level(m, w)
  {
    LevelAppend(m, [y], u);
    LevelAppend(m, [y], t);
  }

  /** Insertion puts `x` behind every element of its magnitude. */
  lemma {:induction false} InsertLevel(m: real, x: FrequencyBin, s: seq<FrequencyBin>)
    requires SortedByMagnitudeDesc(s)
    ensures Level(m, InsertDesc(x, s)) == Level(m, s) + Level(m, [x])
    decreases |s|
  {
    if |s| == 0 {
      assert InsertDesc(x, s) == [x];
    } else if s[0].magnitude >= x.magnitude {
      var t := s[1..];
      assert s == [s[0]] + t;
      assert InsertDesc(x, s) == [s[0]] + InsertDesc(x, t);
      assert SortedByMagnitudeDesc(t);
      InsertLevel(m, x, t);
      ConsLevel(m, s[0], t, InsertDesc(x, t), [x]);
    } else {
      assert InsertDesc(x, s) == [x] + s;
      SortedBelowHead(s, x.magnitude);
      PrependLevel(m, x, s);
    }
  }

  /** The sort is stable: the elements of each magnitude come out in the
      order they went in. */
  lemma {:induction false} SortStable(m: real, s: seq<FrequencyBin>)
    ensures Level(m, SortByMagnitudeDesc(s)) == Level(m, s)
    decreases |s|
  {
    if |s| > 0 {
      var init, last := s[..|s| - 1], s[|s| - 1];
      assert s == init + [last];
      SortStable(m, init);
      InsertLevel(m, last, SortByMagnitudeDesc(init));
      LevelAppend(m, init, [last]);
    }
  }

  /** `iter().find(p)` from position `i` on, returning the index of the
      element found. */
  function FindFrom<T>(s: seq<T>, p: T -> bool, i: nat): (r: Option<nat>)
    requires i <= |s|
    ensures r.Some? ==> i <= r.value < |s| && p(s[r.value])
    ensures r.Some? ==> forall j :: i <= j < r.value ==> !p(s[j])
    ensures r.None? ==> forall j :: i <= j < |s| ==> !p(s[j])
    decreases |s| - i
  {
    if i == |s| then None
    else if p(s[i]) then Some(i)
    else FindFrom(s, p, i + 1)
  }

  /** `iter().find(p)` returning the index of the element found. */
  function FindFirst<T>(s: seq<T>, p: T -> bool): (r: Option<nat>)
    ensures r.Some? ==> r.value < |s| && p(s[r.value])
    ensures r.Some? ==> forall j :: 0 <= j < r.value ==> !p(s[j])
    ensures r.None? ==> forall j :: 0 <= j < |s| ==> !p(s[j])
  {
    FindFrom(s, p, 0)
  }

  /** `PeakFinderDetector::new(sigmas).detect_peaks(spectrum)`: the foreign
      `find_peaks_over_stddev`, its peaks read as frequency bins. */
  type PeakFinder = (seq<real>, real) -> seq<FrequencyBin>

  /** The peak finder reports slots of the spectrum it is given (indexing the
      spectrum with a reported bin would otherwise panic). */
  ghost predicate PeaksInSpectrum(peaks: PeakFinder) {
    forall spectrum: seq<real>, sigmas: real, k: nat :: k < |peaks(spectrum, sigmas)| ==>
      peaks(spectrum, sigmas)[k].bin < |spectrum|
  }

  /** After sorting, the bins still lie in the spectrum. */
  lemma SortedPeaksInSpectrum(candidates: seq<FrequencyBin>, n: nat)
    requires forall k :: 0 <= k < |candidates| ==> candidates[k].bin < n
    ensures forall k :: 0 <= k < |SortByMagnitudeDesc(candidates)| ==> SortByMagnitudeDesc(candidates)[k].bin < n
  {
    var sorted := SortByMagnitudeDesc(candidates);
    forall k | 0 <= k < |sorted| ensures sorted[k].bin < n {
      assert sorted[k] in multiset(sorted);
      assert sorted[k] in multiset(candidates);
      var j :| 0 <= j < |candidates| && candidates[j] == sorted[k];
    }
  }

  /** No element of a permutation of `s` satisfies `p` exactly when no
      element of `s` does; this is the direction needed. */
  lemma NoneInPermutation(s: seq<FrequencyBin>, perm: seq<FrequencyBin>, p: FrequencyBin -> bool)
    requires multiset(perm) == multiset(s)
    requires forall j :: 0 <= j < |perm| ==> !p(perm[j])
    ensures forall k :: 0 <= k < |s| ==> !p(s[k])
  {
    forall k | 0 <= k < |s| ensures !p(s[k]) {
      assert s[k] in multiset(perm);
      var j :| 0 <= j < |perm| && perm[j] == s[k];
    }
  }

  /** Sorting keeps the candidates: when none of the sorted ones satisfies
      `p`, none of the original ones does. */
  lemma FindFirstSortedNone(candidates: seq<FrequencyBin>, p: FrequencyBin -> bool)
    requires FindFirst(SortByMagnitudeDesc(candidates), p).None?
    ensures forall k :: 0 <= k < |candidates| ==> !p(candidates[k])
  {
    NoneInPermutation(candidates, SortByMagnitudeDesc(candidates), p);
  }

  /** In a descending order, an element strictly stronger than the one at `i`
      comes before `i`; a permutation holds the same elements. */
  lemma StrongerComesFirst(s: seq<FrequencyBin>, sorted: seq<FrequencyBin>, i: nat, p: FrequencyBin -> bool)
    requires multiset(sorted) == multiset(s) && SortedByMagnitudeDesc(sorted)
    requires i < |sorted| && forall j :: 0 <= j < i ==> !p(sorted[j])
    ensures exists k :: 0 <= k < |s| && s[k] == sorted[i]
    ensures forall k :: 0 <= k < |s| && s[k].magnitude > sorted[i].magnitude ==> !p(s[k])
  {
    assert sorted[i] in multiset(s) by { assert sorted[i] in multiset(sorted); }
    forall k | 0 <= k < |s| && s[k].magnitude > sorted[i].magnitude
      ensures !p(s[k])
    {
      assert s[k] in multiset(sorted);
      var m :| 0 <= m < |sorted| && sorted[m] == s[k];
      if i < m {
        assert sorted[m].magnitude <= sorted[i].magnitude;
      }
    }
  }

  /** In a descending permutation of `s`, the first element satisfying `p` is
      an element of `s`, and no strictly stronger element of `s` satisfies `p`. */
  lemma FoundInPermutationStrongest(s: seq<FrequencyBin>, sorted: seq<FrequencyBin>, p: FrequencyBin -> bool)
    requires multiset(sorted) == multiset(s) && SortedByMagnitudeDesc(sorted)
    requires FindFirst(sorted, p).Some?
    ensures var c := sorted[FindFirst(sorted, p).value];
      exists k :: 0 <= k < |s| && s[k] == c
    ensures var c := sorted[FindFirst(sorted, p).value];
      forall j :: 0 <= j < |s| && s[j].magnitude > c.magnitude ==> !p(s[j])
  {
    StrongerComesFirst(s, sorted, FindFirst(sorted, p).value, p);
  }

  /** The first sorted candidate satisfying `p` is an original candidate, and
      no strictly stronger candidate satisfies `p`. */
  lemma FindFirstSortedStrongest(candidates: seq<FrequencyBin>, p: FrequencyBin -> bool)
    requires FindFirst(SortByMagnitudeDesc(candidates), p).Some?
    ensures var c := SortByMagnitudeDesc(candidates)[FindFirst(SortByMagnitudeDesc(candidates), p).value];
      exists k :: 0 <= k < |candidates| && candidates[k] == c
    ensures var c := SortByMagnitudeDesc(candidates)[FindFirst(SortByMagnitudeDesc(candidates), p).value];
      forall j :: 0 <= j < |candidates| && candidates[j].magnitude > c.magnitude ==> !p(candidates[j])
  {
    FoundInPermutationStrongest(candidates, SortByMagnitudeDesc(candidates), p);
  }
}
