/** The integer side of the live session's audio helpers in `App.tsx`: the
    byte loops of `decode` and `encode` around `atob`/`btoa`, the 16-bit
    little-endian view `new Int16Array(data.buffer)`, and the de-interleaving
    loop of `decodeAudioData`. Scaling samples to floating point is left out. */
module Pcm {
  import opened Wrappers

  newtype byte = x: int | 0 <= x < 256

  // ---------------------------------------------------------------------------
  // decode / encode byte loops
  // ---------------------------------------------------------------------------

  /** The bytes a `Uint8Array` holds after storing each character code of
      `binary`: the code modulo 256. */
  function CharCodes(binary: string): (bytes: seq<byte>)
    ensures |bytes| == |binary|
  {
    seq(|binary|, i requires 0 <= i < |binary| => (binary[i] as int % 256) as byte)
  }

  /** The string built by `String.fromCharCode` on each byte. */
  function ByteString(bytes: seq<byte>): (binary: string)
    ensures |binary| == |bytes|
  {
    seq(|bytes|, i requires 0 <= i < |bytes| => (bytes[i] as int) as char)
  }

  /** A binary string: one character per byte, every code below 256, as
      `atob` produces and `btoa` accepts. */
  predicate IsBinaryString(s: string) {
    forall i :: 0 <= i < |s| ==> s[i] as int < 256
  }

  /** The loop of `decode`: one byte per character of `atob`'s output. */
  method DecodeLoop(binary: string) returns (bytes: array<byte>)
    ensures bytes[..] == CharCodes(binary)
  {
    bytes := new byte[|binary|];
    var i := 0;
    while i < |binary|
      invariant 0 <= i <= |binary|
      invariant forall j :: 0 <= j < i ==> bytes[j] == (binary[j] as int % 256) as byte
    {
      bytes[i] := (binary[i] as int % 256) as byte;
      i := i + 1;
    }
  }

  /** The loop of `encode`: the string `btoa` is given. */
  method EncodeLoop(bytes: array<byte>) returns (binary: string)
    ensures binary == ByteString(bytes[..])
  {
    binary := "";
    var i := 0;
    while i < bytes.Length
      invariant 0 <= i <= bytes.Length
      invariant binary == ByteString(bytes[..i])
    {
      binary := binary + [(bytes[i] as int) as char];
      i := i + 1;
    }
    assert bytes[..bytes.Length] == bytes[..];
  }

  /** `encode`'s string is a binary string, and `decode`'s loop gives back
      exactly the bytes that went in. */
  lemma BytesRoundTrip(bytes: seq<byte>)
    ensures IsBinaryString(ByteString(bytes))
    ensures CharCodes(ByteString(bytes)) == bytes
  {
  }

  /** On a binary string the two loops are inverse the other way too. */
  lemma BinaryRoundTrip(binary: string)
    requires IsBinaryString(binary)
    ensures ByteString(CharCodes(binary)) == binary
  {
  }

  // ---------------------------------------------------------------------------
  // Int16Array view and decodeAudioData
  // ---------------------------------------------------------------------------

  /** The signed 16-bit sample stored little-endian in bytes `lo`, `hi`. */
  function Int16(lo: byte, hi: byte): (v: int)
    ensures -32768 <= v < 32768
  {
    var u := lo as int + 256 * hi as int;
    if u >= 32768 then u - 65536 else u
  }

  /** `new Int16Array(data.buffer)` on an even number of bytes. */
  function Int16Samples(data: seq<byte>): (samples: seq<int>)
    requires |data| % 2 == 0
    ensures |samples| == |data| / 2
  {
    seq(|data| / 2, k requires 0 <= k < |data| / 2 => Int16(data[2 * k], data[2 * k + 1]))
  }

  /** The bytes of one sample, low byte first. */
  function Int16Bytes(v: int): (b: seq<byte>)
    requires -32768 <= v < 32768
    ensures |b| == 2
  {
    var u := if v < 0 then v + 65536 else v;
    [(u % 256) as byte, (u / 256) as byte]
  }

  /** Reading a sample back from its two bytes gives the sample. */
  lemma Int16RoundTrip(v: int)
    requires -32768 <= v < 32768
    ensures Int16(Int16Bytes(v)[0], Int16Bytes(v)[1]) == v
  {
  }

  /** Sample `i` of channel `c` sits at `i * channels + c` of the interleaved
      data, which lies inside whole frames. */
  lemma FrameIndexInBounds(i: nat, c: nat, channels: nat, frames: nat)
    requires c < channels && i < frames
    ensures i * channels + c < frames * channels
  {
    assert (i + 1) * channels <= frames * channels by {
      assert i + 1 <= frames;
    }
  }

  /** Channel `c` of interleaved samples: `samples[i * channels + c]` for each
      whole frame `i`. */
  function Channel(samples: seq<int>, channels: nat, c: nat): (data: seq<int>)
    requires c < channels
    ensures |data| == |samples| / channels
  {
    var frames := |samples| / channels;
    seq(frames, i requires 0 <= i < frames =>
      FrameIndexInBounds(i, c, channels, frames);
      samples[i * channels + c])
  }

  /** Every sample of a whole frame lands in exactly one channel slot: sample
      `k` is frame `k / channels` of channel `k % channels`. */
  lemma ChannelCoversSample(samples: seq<int>, channels: nat, k: nat)
    requires channels >= 1 && k < (|samples| / channels) * channels
    ensures k / channels < |samples| / channels
    ensures Channel(samples, channels, k % channels)[k / channels] == samples[k]
  {
    assert k == (k / channels) * channels + k % channels;
  }

  /** No two channel slots read the same sample. */
  lemma FrameIndexInjective(i: nat, c: nat, j: nat, d: nat, channels: nat)
    requires c < channels && d < channels
    requires i * channels + c == j * channels + d
    ensures i == j && c == d
  {
    if i < j {
      MulStep(i, j, channels);
    } else if j < i {
      MulStep(j, i, channels);
    }
  }

  lemma {:induction false} MulStep(a: nat, b: nat, n: nat)
    requires a < b
    ensures a * n + n <= b * n
    decreases b - a
  {
    assert b * n == (b - 1) * n + n;
    if a + 1 < b {
      MulStep(a, b - 1, n);
    }
  }

  /** `decodeAudioData(data, ctx, sampleRate, numChannels)`: an odd byte
      count (the `Int16Array` view throws) or no whole frame (`createBuffer`
      rejects length 0) gives `None`; otherwise an `numChannels` x `frames`
      buffer whose row `c` is channel `c` of the samples. */
  method DecodeAudioData(data: seq<byte>, numChannels: nat) returns (buffer: Option<array2<int>>)
    requires numChannels >= 1
    ensures buffer.None? <==> |data| % 2 != 0 || |data| / 2 / numChannels == 0
    ensures buffer.Some? ==>
      var samples := Int16Samples(data);
      && buffer.value.Length0 == numChannels
      && buffer.value.Length1 == |samples| / numChannels
      && forall c, i :: 0 <= c < numChannels && 0 <= i < buffer.value.Length1 ==>
           buffer.value[c, i] == Channel(samples, numChannels, c)[i]
  {
    if |data| % 2 != 0 {
      return None;
    }
    var samples := Int16Samples(data);
    var frameCount := |samples| / numChannels;
    if frameCount == 0 {
      return None;
    }
    var out := new int[numChannels, frameCount];
    var channel := 0;
    while channel < numChannels
      invariant 0 <= channel <= numChannels
      invariant forall c, i :: 0 <= c < channel && 0 <= i < frameCount ==>
        out[c, i] == Channel(samples, numChannels, c)[i]
    {
      var i := 0;
      while i < frameCount
        invariant 0 <= i <= frameCount
        invariant forall c, j :: 0 <= c < channel && 0 <= j < frameCount ==>
          out[c, j] == Channel(samples, numChannels, c)[j]
        invariant forall j :: 0 <= j < i ==> out[channel, j] == Channel(samples, numChannels, channel)[j]
      {
        FrameIndexInBounds(i, channel, numChannels, frameCount);
        out[channel, i] := samples[i * numChannels + channel];
        i := i + 1;
      }
      channel := channel + 1;
    }
    buffer := Some(out);
  }
}
