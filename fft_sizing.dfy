/** FFT buffer sizing: `calc_optimized_fft_space_size` (src/utils.rs) and the
    same doubling loop inside `FftSpace::new` (src/core/fft_space.rs). */
module FftSizing {
  const MIN_PADDED_SIZE: nat := 1024  // 2usize.pow(10)

  predicate IsPowerOfTwo(n: nat)
    decreases n
  {
    if n == 1 then true
    else if n == 0 || n % 2 == 1 then false
    else IsPowerOfTwo(n / 2)
  }

  /** The size the doubling loop stops at when it is at `p`. */
  function DoubleUntil(p: nat, n: nat): (r: nat)
    requires IsPowerOfTwo(p) && p >= MIN_PADDED_SIZE
    requires p == MIN_PADDED_SIZE || p / 2 < n
    ensures IsPowerOfTwo(r) && r >= MIN_PADDED_SIZE && r >= n && r >= p
    ensures r == MIN_PADDED_SIZE || r / 2 < n
    decreases n - p
  {
    if p < n then DoubleUntil(2 * p, n) else p
  }

  /** The padded length for `n` samples: the least power of two that is at least
      `n` and at least 1024. */
  function PaddedSize(n: nat): (r: nat)
    ensures IsPowerOfTwo(r) && r >= MIN_PADDED_SIZE && r >= n
    ensures r == MIN_PADDED_SIZE || r / 2 < n
  {
    DoubleUntil(MIN_PADDED_SIZE, n)
  }

  /** A power of two at least 1024 and at least `n` is no smaller than the padded size. */
  lemma {:induction false} PaddedSizeLeast(n: nat, m: nat)
    requires IsPowerOfTwo(m) && m >= MIN_PADDED_SIZE && m >= n
    ensures PaddedSize(n) <= m
  {
    var r := PaddedSize(n);
    if r > MIN_PADDED_SIZE {
      PowersOfTwoBetween(r / 2, m);
    }
  }

  /** No power of two lies strictly between `h` and `2 * h` when `h` is one. */
  lemma {:induction false} PowersOfTwoBetween(h: nat, m: nat)
    requires h >= 1 && IsPowerOfTwo(2 * h) && IsPowerOfTwo(m) && m > h
    ensures m >= 2 * h
    decreases h
  {
    assert (2 * h) / 2 == h;
    if h > 1 {
      assert m != 1 && m % 2 == 0;
      assert IsPowerOfTwo(h);
      PowersOfTwoBetween(h / 2, m / 2);
    }
  }

  /** Doubling 2^10 until it reaches `numSamples`. */
  method CalcOptimizedFftSpaceSize(numSamples: nat) returns (size: nat)
    ensures size == PaddedSize(numSamples)
  {
    size := MIN_PADDED_SIZE;
    while true
      invariant IsPowerOfTwo(size) && size >= MIN_PADDED_SIZE
      invariant size == MIN_PADDED_SIZE || size / 2 < numSamples
      invariant DoubleUntil(size, numSamples) == PaddedSize(numSamples)
      decreases numSamples - size
    {
      if size < numSamples {
        size := size * 2;
      } else {
        break;
      }
    }
  }
}
