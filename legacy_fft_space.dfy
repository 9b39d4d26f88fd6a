/** The unpadded FFT workspace of src/fft_space.rs: buffers of exactly the
    requested size. Its `FreqDomainIter` is the same as the padded one's. */
module LegacyFftWorkspace {
  import opened Numerics
  import opened FftWorkspace

  class UnpaddedFftSpace {
    var space: array<Complex>
    var scratch: array<Complex>

    ghost predicate Valid()
      reads this
    {
      space != scratch && space.Length == scratch.Length
    }

    /** `FftSpace::new(size)`: zeroed buffers of length `size`. */
    constructor(size: nat)
      ensures Valid() && fresh(space) && fresh(scratch)
      ensures space.Length == size
      ensures forall i :: 0 <= i < space.Length ==> space[i] == ZERO && scratch[i] == ZERO
    {
      space := new Complex[size](_ => ZERO);
      scratch := new Complex[size](_ => ZERO);
    }

    /** `len()`. */
    function Len(): nat
      reads this
    {
      space.Length
    }

    /** `freq_domain(square_rooted)`, values only. */
    function FreqDomain(squareRooted: bool, sqrt: real -> real): (r: seq<real>)
      reads this, space
      ensures |r| == space.Length
      ensures forall i :: 0 <= i < |r| ==>
        r[i] == if squareRooted then sqrt(NormSqr(space[i])) else NormSqr(space[i])
    {
      FreqDomainValues(space[..], squareRooted, sqrt)
    }

    /** `map(f)`: every slot replaced by its image. */
    method Map(f: Complex -> Complex)
      requires Valid()
      modifies space
      ensures |old(space[..])| == space.Length
      ensures forall i :: 0 <= i < space.Length ==> space[i] == f(old(space[i]))
    {
      var i := 0;
      while i < space.Length
        invariant 0 <= i <= space.Length
        invariant forall k :: 0 <= k < i ==> space[k] == f(old(space[k]))
        invariant forall k :: i <= k < space.Length ==> space[k] == old(space[k])
      {
        space[i] := f(space[i]);
        i := i + 1;
      }
    }

    /** `init_fft_space(signal)`; the signal must fit in the buffer. */
    method InitFftSpace(signal: seq<real>)
      requires Valid() && |signal| <= space.Length
      modifies space
      ensures space[..] == Loaded(signal, space.Length)
    {
      var i := 0;
      while i < |signal|
        invariant 0 <= i <= |signal|
        invariant forall k :: 0 <= k < i ==> space[k] == Complex(signal[k], 0.0)
      {
        space[i] := Complex(signal[i], 0.0);
        i := i + 1;
      }
      while i < space.Length
        invariant |signal| <= i <= space.Length
        invariant forall k :: 0 <= k < |signal| ==> space[k] == Complex(signal[k], 0.0)
        invariant forall k :: |signal| <= k < i ==> space[k] == ZERO
      {
        space[i] := ZERO;
        i := i + 1;
      }
    }

    /** `fft.process_with_scratch(space, scratch)`. What the foreign transform
        leaves in `scratch` is not modelled. */
    method Process(transform: Transform)
      requires Valid() && LengthPreserving(transform)
      modifies space
      ensures space[..] == transform(old(space[..]))
    {
      var r := transform(space[..]);
      assert |r| == space.Length;
      forall i | 0 <= i < space.Length {
        space[i] := r[i];
      }
    }
  }
}
