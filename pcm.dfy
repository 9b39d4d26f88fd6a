/** Conversion of a raw audio byte buffer to samples (`audio_buffer_to_samples`
    and `audio_buffer_to_signal`). `i16::from_ne_bytes` uses the machine's byte
    order; the model fixes it to little-endian. */
module Pcm {
  newtype byte = x: int | 0 <= x < 256
  newtype i16 = x: int | -32768 <= x < 32768

  /** The 16-bit two's-complement sample whose low byte is `lo` and high byte `hi`. */
  function SampleFromBytes(lo: byte, hi: byte): (x: i16)
    ensures (x as int) % 65536 == lo as int + 256 * hi as int
    ensures x < 0 <==> hi >= 128
  {
    var u := lo as int + 256 * hi as int;
    (if u >= 32768 then u - 65536 else u) as i16
  }

  /** The two bytes, low first, of a sample. */
  function SampleToBytes(x: i16): (b: (byte, byte))
    ensures b.0 as int + 256 * b.1 as int == (x as int) % 65536
  {
    var u := (x as int) % 65536;
    ((u % 256) as byte, (u / 256) as byte)
  }

  lemma SampleBytesRoundTrip(x: i16)
    ensures SampleFromBytes(SampleToBytes(x).0, SampleToBytes(x).1) == x
  {
  }

  /** `byte_buffer.chunks_exact(2).map(from_ne_bytes)`: one sample per whole
      pair of bytes; a trailing odd byte is dropped. */
  function AudioBufferToSamples(buffer: seq<byte>): (samples: seq<i16>)
    ensures |samples| == |buffer| / 2
    ensures forall k :: 0 <= k < |samples| ==>
      samples[k] == SampleFromBytes(buffer[2 * k], buffer[2 * k + 1])
    decreases |buffer|
  {
    if |buffer| < 2 then []
    else [SampleFromBytes(buffer[0], buffer[1])] + AudioBufferToSamples(buffer[2..])
  }

  /** `audio_buffer_to_signal`: the samples as reals. */
  function AudioBufferToSignal(buffer: seq<byte>): (signal: seq<real>)
    ensures |signal| == |buffer| / 2
    ensures forall k :: 0 <= k < |signal| ==>
      -32768.0 <= signal[k] < 32768.0 &&
      signal[k] == SampleFromBytes(buffer[2 * k], buffer[2 * k + 1]) as real
  {
    var samples := AudioBufferToSamples(buffer);
    seq(|samples|, k requires 0 <= k < |samples| => samples[k] as real)
  }

  /** The little-endian byte buffer of a sample sequence. */
  function SamplesToAudioBuffer(samples: seq<i16>): (buffer: seq<byte>)
    ensures |buffer| == 2 * |samples|
  {
    if |samples| == 0 then []
    else [SampleToBytes(samples[0]).0, SampleToBytes(samples[0]).1] + SamplesToAudioBuffer(samples[1..])
  }

  /** Decoding an encoded sample sequence gives it back. */
  lemma {:induction false} DecodeEncode(samples: seq<i16>)
    ensures AudioBufferToSamples(SamplesToAudioBuffer(samples)) == samples
    decreases |samples|
  {
    if |samples| > 0 {
      var buffer := SamplesToAudioBuffer(samples);
      assert buffer[2..] == SamplesToAudioBuffer(samples[1..]);
      DecodeEncode(samples[1..]);
      SampleBytesRoundTrip(samples[0]);
    }
  }

  /** An odd trailing byte does not change the samples. */
  lemma TrailingByteIgnored(buffer: seq<byte>, b: byte)
    requires |buffer| % 2 == 0
    ensures AudioBufferToSamples(buffer + [b]) == AudioBufferToSamples(buffer)
  {
    var s1 := AudioBufferToSamples(buffer + [b]);
    var s0 := AudioBufferToSamples(buffer);
    assert |s1| == |s0|;
    forall k | 0 <= k < |s1| ensures s1[k] == s0[k] {
      assert (buffer + [b])[2 * k] == buffer[2 * k];
      assert (buffer + [b])[2 * k + 1] == buffer[2 * k + 1];
    }
  }
}
