/** The zero-padded FFT workspace `FftSpace` of src/core/fft_space.rs, which
    the pitch-detector crate's detectors use through the same interface, and
    its `FreqDomainIter`. */
module FftWorkspace {
  import opened Numerics
  import FftSizing

  /** `norm_sqr` of every slot: the power spectrum. */
  function Powers(space: seq<Complex>): (r: seq<real>)
    ensures |r| == |space|
    ensures forall i :: 0 <= i < |r| ==> r[i] == NormSqr(space[i]) && r[i] >= 0.0
  {
    seq(|space|, i requires 0 <= i < |space| => NormSqr(space[i]))
  }

  /** The `value` half of each `(value, phase)` pair `FreqDomainIter` yields:
      the power, or its square root when `squareRooted`. */
  function FreqDomainValues(space: seq<Complex>, squareRooted: bool, sqrt: real -> real): (r: seq<real>)
    ensures |r| == |space|
    ensures !squareRooted ==> r == Powers(space)
    ensures squareRooted ==> forall i :: 0 <= i < |r| ==> r[i] == sqrt(NormSqr(space[i]))
  {
    var powers := Powers(space);
    if squareRooted then seq(|powers|, i requires 0 <= i < |powers| => sqrt(powers[i]))
    else powers
  }

  /** `FreqDomainIter`: one `(value, phase)` pair per slot, `phase` being the
      foreign `Complex::arg`. */
  function FreqDomainPairs(space: seq<Complex>, squareRooted: bool, sqrt: real -> real, arg: Complex -> real): (r: seq<(real, real)>)
    ensures |r| == |space|
    ensures forall i :: 0 <= i < |r| ==>
      r[i].0 == FreqDomainValues(space, squareRooted, sqrt)[i] && r[i].1 == arg(space[i])
  {
    var values := FreqDomainValues(space, squareRooted, sqrt);
    seq(|space|, i requires 0 <= i < |space| => (values[i], arg(space[i])))
  }

  /** The buffer after `init_with_signal(signal)`: the samples as real parts,
      zeros after them. */
  function Loaded(signal: seq<real>, n: nat): (r: seq<Complex>)
    requires |signal| <= n
    ensures |r| == n
    ensures forall i :: 0 <= i < |signal| ==> r[i] == Complex(signal[i], 0.0)
    ensures forall i :: |signal| <= i < n ==> r[i] == ZERO
  {
    seq(n, i requires 0 <= i < n => if i < |signal| then Complex(signal[i], 0.0) else ZERO)
  }

  /** The real parts of the first `|signal|` slots of a loaded buffer are the
      signal again. */
  lemma LoadedSignal(signal: seq<real>, n: nat, i: nat)
    requires |signal| <= n && i < |signal|
    ensures Loaded(signal, n)[i].re == signal[i]
  {
  }

  /** `space.iter_mut().zip(window).for_each(|(s, h)| s.re *= h)`: the first
      `min(|space|, |window|)` real parts are scaled, everything else is kept. */
  function Windowed(space: seq<Complex>, window: seq<real>): (r: seq<Complex>)
    ensures |r| == |space|
    ensures forall i :: 0 <= i < |r| && i < |window| ==> r[i] == Complex(space[i].re * window[i], space[i].im)
    ensures forall i :: |window| <= i < |r| ==> r[i] == space[i]
  {
    seq(|space|, i requires 0 <= i < |space| =>
      if i < |window| then Complex(space[i].re * window[i], space[i].im) else space[i])
  }

  /** Windowing a loaded buffer touches only the signal part: padding stays zero. */
  lemma WindowedPaddingStaysZero(signal: seq<real>, n: nat, window: seq<real>, i: nat)
    requires |signal| <= n && |signal| <= i < n
    ensures Windowed(Loaded(signal, n), window)[i] == ZERO
  {
  }

  class FftSpace {
    var signalLen: nat
    var space: array<Complex>
    var scratch: array<Complex>

    /** The buffers are distinct, equally long, and padded for `signalLen`. */
    ghost predicate Valid()
      reads this
    {
      space != scratch && space.Length == scratch.Length &&
      space.Length == FftSizing.PaddedSize(signalLen)
    }

    /** `FftSpace::new(size)`: buffers padded to `PaddedSize(size)`, zeroed. */
    constructor(size: nat)
      ensures Valid() && fresh(space) && fresh(scratch)
      ensures signalLen == size && space.Length == FftSizing.PaddedSize(size)
      ensures forall i :: 0 <= i < space.Length ==> space[i] == ZERO && scratch[i] == ZERO
    {
      var paddedSize := FftSizing.CalcOptimizedFftSpaceSize(size);
      signalLen := size;
      space := new Complex[paddedSize](_ => ZERO);
      scratch := new Complex[paddedSize](_ => ZERO);
    }

    /** `padded_len()`. */
    function PaddedLen(): nat
      reads this
    {
      space.Length
    }

    /** `signal()`: the real parts of the first `signal_len` slots. */
    function Signal(): (s: seq<real>)
      reads this, space
      requires Valid()
      ensures |s| == signalLen
      ensures forall i :: 0 <= i < |s| ==> s[i] == space[i].re
    {
      var prefix := space[..signalLen];
      seq(|prefix|, i requires 0 <= i < |prefix| => prefix[i].re)
    }

    /** `freq_domain(square_rooted)`, values only. */
    function FreqDomain(squareRooted: bool, sqrt: real -> real): (r: seq<real>)
      reads this, space
      ensures |r| == space.Length
      ensures forall i :: 0 <= i < |r| ==>
        r[i] == if squareRooted then sqrt(NormSqr(space[i])) else NormSqr(space[i])
    {
      FreqDomainValues(space[..], squareRooted, sqrt)
    }

    /** `map(f)`: every slot replaced by its image. */
    method Map(f: Complex -> Complex)
      requires Valid()
      modifies space
      ensures |old(space[..])| == space.Length
      ensures forall i :: 0 <= i < space.Length ==> space[i] == f(old(space[i]))
    {
      var i := 0;
      while i < space.Length
        invariant 0 <= i <= space.Length
        invariant forall k :: 0 <= k < i ==> space[k] == f(old(space[k]))
        invariant forall k :: i <= k < space.Length ==> space[k] == old(space[k])
      {
        space[i] := f(space[i]);
        i := i + 1;
      }
    }

    /** `init_with_signal(signal)`; the signal must fit in the padded buffer. */
    method InitWithSignal(signal: seq<real>)
      requires Valid() && |signal| <= space.Length
      modifies space
      ensures space[..] == Loaded(signal, space.Length)
    {
      var i := 0;
      while i < |signal|
        invariant 0 <= i <= |signal|
        invariant forall k :: 0 <= k < i ==> space[k] == Complex(signal[k], 0.0)
      {
        space[i] := Complex(signal[i], 0.0);
        i := i + 1;
      }
      while i < space.Length
        invariant |signal| <= i <= space.Length
        invariant forall k :: 0 <= k < |signal| ==> space[k] == Complex(signal[k], 0.0)
        invariant forall k :: |signal| <= k < i ==> space[k] == ZERO
      {
        space[i] := ZERO;
        i := i + 1;
      }
    }

    /** The window loop of `process_fft`: `s.re *= h` over the zipped slots. */
    method ApplyWindow(window: seq<real>)
      requires Valid()
      modifies space
      ensures space[..] == Windowed(old(space[..]), window)
    {
      ghost var before := space[..];
      var i := 0;
      while i < space.Length && i < |window|
        invariant 0 <= i <= space.Length && i <= |window|
        invariant forall k :: 0 <= k < i ==> space[k] == Complex(before[k].re * window[k], before[k].im)
        invariant forall k :: i <= k < space.Length ==> space[k] == before[k]
      {
        space[i] := Complex(space[i].re * window[i], space[i].im);
        i := i + 1;
      }
      ghost var w := Windowed(before, window);
      forall k | 0 <= k < space.Length ensures space[k] == w[k] {
      }
      assert space[..] == w;
    }

    /** `fft.process_with_scratch(space, scratch)`: the buffer replaced by its
        transform. What the foreign transform leaves in `scratch` is not modelled. */
    method Process(transform: Transform)
      requires Valid() && LengthPreserving(transform)
      modifies space
      ensures space[..] == transform(old(space[..]))
    {
      var r := transform(space[..]);
      assert |r| == space.Length;
      forall i | 0 <= i < space.Length {
        space[i] := r[i];
      }
    }
  }
}
