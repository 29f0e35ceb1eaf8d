/** The sample format shared by the sender and the receiver: interleaved
    signed 16-bit PCM with two channels (CHANNELS = 2, FORMAT = 'int16'),
    carried over the wire as raw little-endian bytes with no header. */
module Pcm {
  import opened Wrappers

  type Byte = x: int | 0 <= x < 256
  type Int16 = x: int | -32768 <= x < 32768
  type Bytes = seq<Byte>

  const Channels: nat := 2
  const BytesPerSample: nat := 2

  /** Size in bytes of one frame of `chunk` samples per channel:
      chunk_size * CHANNELS * 2. */
  function FrameBytes(chunk: nat): nat {
    chunk * Channels * BytesPerSample
  }

  /** One sample in two's complement, low byte first. */
  function EncodeSample(v: Int16): (b: Bytes)
    ensures |b| == 2
  {
    var u := if v < 0 then v + 65536 else v;
    [u % 256, u / 256]
  }

  function DecodeSample(lo: Byte, hi: Byte): Int16 {
    var u := lo + 256 * hi;
    if u >= 32768 then u - 65536 else u
  }

  /** `ndarray.tobytes()` of an int16 buffer: two bytes per sample, in order. */
  function EncodeSamples(s: seq<Int16>): (b: Bytes)
    ensures |b| == BytesPerSample * |s|
  {
    if s == [] then [] else EncodeSample(s[0]) + EncodeSamples(s[1..])
  }

  /** Sample-by-sample reading of an even-length byte string. */
  function DecodePairs(b: Bytes): (s: seq<Int16>)
    requires |b| % 2 == 0
    ensures |s| == |b| / 2
    decreases |b|
  {
    if b == [] then [] else [DecodeSample(b[0], b[1])] + DecodePairs(b[2..])
  }

  /** `np.frombuffer(b, dtype=np.int16)`: fails (ValueError) when the byte
      count is not a multiple of the sample size. */
  function DecodeSamples(b: Bytes): (r: Option<seq<Int16>>)
    ensures r.Some? <==> |b| % BytesPerSample == 0
    ensures r.Some? ==> BytesPerSample * |r.value| == |b|
  {
    if |b| % 2 != 0 then None else Some(DecodePairs(b))
  }

  /** Decoding what was encoded gives back the captured samples. */
  lemma {:induction false} DecodeEncode(s: seq<Int16>)
    ensures DecodeSamples(EncodeSamples(s)) == Some(s)
  {
    if s != [] {
      DecodeEncode(s[1..]);
      var b := EncodeSamples(s);
      assert b[2..] == EncodeSamples(s[1..]);
      assert DecodePairs(b[2..]) == s[1..];
      assert DecodeSample(b[0], b[1]) == s[0];
      assert DecodePairs(b) == [s[0]] + s[1..] == s;
      assert |b| % 2 == 0;
    }
  }

  /** Every even-length byte string is the encoding of its decoding, so the
      two functions are inverse bijections. */
  lemma {:induction false} EncodeDecode(b: Bytes)
    requires |b| % 2 == 0
    ensures EncodeSamples(DecodePairs(b)) == b
    decreases |b|
  {
    if b != [] {
      EncodeDecode(b[2..]);
      var s := DecodePairs(b);
      assert s[1..] == DecodePairs(b[2..]);
      assert EncodeSample(s[0]) == b[..2];
      assert b == b[..2] + b[2..];
    }
  }
}
