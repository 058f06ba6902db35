/** The audio sample codec of the voice chat: float samples to 16-bit PCM and
    back, 16-bit PCM to base64 transport text and back, the Catmull-Rom
    resampler, and the 4096-sample chunker that runs in the audio worklet.
    Samples are exact reals; a typed array's element type becomes the array's
    element type (`Int16` for `Int16Array`, `Byte` for `Uint8Array`). */
module AudioUtils {
  import opened Wrappers
  import JsNumber
  import Base64

  type Byte = Base64.Byte
  type Int16 = x: int | -32768 <= x <= 32767

  // ---------------------------------------------------------------------
  // Float samples to 16-bit PCM

  /** `Math.max(-1, Math.min(1, x))`. */
  function Clamp(x: real): (c: real)
    ensures -1.0 <= c <= 1.0
    ensures -1.0 <= x <= 1.0 ==> c == x
    ensures x < -1.0 ==> c == -1.0
    ensures 1.0 < x ==> c == 1.0
  {
    if x < -1.0 then -1.0 else if 1.0 < x then 1.0 else x
  }

  /** One PCM sample: the clamped value scaled by 0x8000 when negative and by
      0x7fff otherwise, truncated toward zero by the store into the
      `Int16Array` (in range, so no wrap-around happens). */
  function PcmSample(x: real): (v: Int16)
    ensures x <= -1.0 ==> v == -32768
    ensures 1.0 <= x ==> v == 32767
    ensures x < 0.0 ==> v <= 0
    ensures 0.0 <= x ==> 0 <= v
  {
    var c := Clamp(x);
    JsNumber.Trunc(if c < 0.0 then c * 32768.0 else c * 32767.0)
  }

  /** Silence stays silence. */
  lemma PcmZero()
    ensures PcmSample(0.0) == 0
  {}

  /** Louder input never gives a smaller sample. */
  lemma PcmMonotone(x: real, y: real)
    requires x <= y
    ensures PcmSample(x) <= PcmSample(y)
  {
    var c, d := Clamp(x), Clamp(y);
    assert c <= d;
    if c < 0.0 && d < 0.0 {
      TruncMonotone(c * 32768.0, d * 32768.0);
    } else if 0.0 <= c && 0.0 <= d {
      TruncMonotone(c * 32767.0, d * 32767.0);
    }
  }

  lemma TruncMonotone(x: real, y: real)
    requires x <= y
    ensures JsNumber.Trunc(x) <= JsNumber.Trunc(y)
  {}

  /** The sample is within one step of the scaled, clamped input. */
  lemma PcmQuantisation(x: real)
    ensures var c := Clamp(x);
      var scaled := if c < 0.0 then c * 32768.0 else c * 32767.0;
      scaled - 1.0 < PcmSample(x) as real < scaled + 1.0
  {}

  /** `float32To16BitPCM`: a new array of the same length holding the PCM
      sample of every input sample. */
  method Float32To16BitPcm(samples: array<real>) returns (pcm: array<Int16>)
    ensures pcm.Length == samples.Length
    ensures forall i :: 0 <= i < pcm.Length ==> pcm[i] == PcmSample(samples[i])
  {
    pcm := new Int16[samples.Length];
    var i := 0;
    while i < samples.Length
      invariant 0 <= i <= samples.Length
      invariant forall j :: 0 <= j < i ==> pcm[j] == PcmSample(samples[j])
    {
      pcm[i] := PcmSample(samples[i]);
      i := i + 1;
    }
  }

  // ---------------------------------------------------------------------
  // 16-bit PCM to float samples

  /** `v / 0x8000`. */
  function ToFloat(v: Int16): (f: real)
    ensures -1.0 <= f < 1.0
    ensures f < 0.0 <==> v < 0
    ensures f == 0.0 <==> v == 0
  {
    v as real / 32768.0
  }

  /** `int16ToFloat32`: a new array of the same length, every sample divided
      by 0x8000 and so in [-1, 1). */
  method Int16ToFloat32(pcm: array<Int16>) returns (samples: array<real>)
    ensures samples.Length == pcm.Length
    ensures forall i :: 0 <= i < samples.Length ==> samples[i] == ToFloat(pcm[i])
    ensures forall i :: 0 <= i < samples.Length ==> -1.0 <= samples[i] < 1.0
  {
    samples := new real[pcm.Length];
    var i := 0;
    while i < pcm.Length
      invariant 0 <= i <= pcm.Length
      invariant forall j :: 0 <= j < i ==> samples[j] == ToFloat(pcm[j])
    {
      samples[i] := ToFloat(pcm[i]);
      i := i + 1;
    }
  }

  /** The two conversions are not inverse: a negative sample or zero comes
      back unchanged, but a positive one comes back one lower, because the
      way out divides by 0x8000 and the way in multiplies by 0x7fff. */
  lemma PcmOfFloat(v: Int16)
    ensures PcmSample(ToFloat(v)) == if v > 0 then v - 1 else v
  {
    var f := ToFloat(v);
    if v > 0 {
      var y := f * 32767.0;
      assert y == v as real - f;
      assert (v - 1) as real <= y < v as real;
    } else {
      assert f * 32768.0 == v as real;
    }
  }

  // ---------------------------------------------------------------------
  // 16-bit PCM to bytes (the little-endian byte view of the buffer)

  function LowByte(v: Int16): Byte { (v % 65536) % 256 }

  function HighByte(v: Int16): Byte { (v % 65536) / 256 }

  /** The sample a little-endian byte pair stands for (two's complement). */
  function FromBytes(lo: Byte, hi: Byte): Int16
  {
    var u := lo + 256 * hi;
    if u >= 32768 then u - 65536 else u
  }

  lemma ByteRoundTrip(v: Int16)
    ensures FromBytes(LowByte(v), HighByte(v)) == v
  {
    var u := v % 65536;
    assert LowByte(v) + 256 * HighByte(v) == u;
  }

  /** The bytes of `new Uint8Array(int16Array.buffer)`. */
  function SampleBytes(xs: seq<Int16>): (bs: seq<Byte>)
    ensures |bs| == 2 * |xs|
    ensures forall k :: 0 <= k < |xs| ==> bs[2 * k] == LowByte(xs[k]) && bs[2 * k + 1] == HighByte(xs[k])
  {
    if xs == [] then []
    else
      var rest := SampleBytes(xs[1..]);
      ConsPairs(xs, rest);
      [LowByte(xs[0]), HighByte(xs[0])] + rest
  }

  /** The bytes of the first sample in front of the bytes of the others. */
  lemma ConsPairs(xs: seq<Int16>, rest: seq<Byte>)
    requires |xs| > 0 && |rest| == 2 * (|xs| - 1)
    requires forall k :: 0 <= k < |xs| - 1 ==>
      rest[2 * k] == LowByte(xs[1..][k]) && rest[2 * k + 1] == HighByte(xs[1..][k])
    ensures var bs := [LowByte(xs[0]), HighByte(xs[0])] + rest;
      forall k :: 0 <= k < |xs| ==> bs[2 * k] == LowByte(xs[k]) && bs[2 * k + 1] == HighByte(xs[k])
  {
    var bs := [LowByte(xs[0]), HighByte(xs[0])] + rest;
    forall k | 0 <= k < |xs| ensures bs[2 * k] == LowByte(xs[k]) && bs[2 * k + 1] == HighByte(xs[k]) {
      if k > 0 {
        assert xs[k] == xs[1..][k - 1];
        assert bs[2 * k] == rest[2 * (k - 1)];
        assert bs[2 * k + 1] == rest[2 * (k - 1) + 1];
      }
    }
  }

  /** The samples of `new Int16Array(bytes.buffer)` for an even byte count. */
  function SamplesFromBytes(bs: seq<Byte>): (xs: seq<Int16>)
    requires |bs| % 2 == 0
    ensures |xs| == |bs| / 2
    ensures forall k :: 0 <= k < |xs| ==> xs[k] == FromBytes(bs[2 * k], bs[2 * k + 1])
  {
    if bs == [] then []
    else
      var rest := SamplesFromBytes(bs[2..]);
      var xs := [FromBytes(bs[0], bs[1])] + rest;
      assert forall k :: 1 <= k < |xs| ==> xs[k] == rest[k - 1] && bs[2 * k] == bs[2..][2 * (k - 1)];
      xs
  }

  lemma {:induction false} BytesRoundTrip(xs: seq<Int16>)
    ensures SamplesFromBytes(SampleBytes(xs)) == xs
  {
    var ys := SamplesFromBytes(SampleBytes(xs));
    forall k | 0 <= k < |xs| ensures ys[k] == xs[k] {
      ByteRoundTrip(xs[k]);
    }
  }

  // ---------------------------------------------------------------------
  // Binary strings, btoa and atob

  /** A binary string: one character per byte. */
  function Latin1(bs: seq<Byte>): (s: string)
    ensures |s| == |bs|
    ensures forall i :: 0 <= i < |s| ==> s[i] as int == bs[i]
  {
    seq(|bs|, i requires 0 <= i < |bs| => bs[i] as char)
  }

  predicate IsBinary(s: string)
  {
    forall i :: 0 <= i < |s| ==> s[i] as int < 256
  }

  /** The byte of every character of a binary string (`charCodeAt`). */
  function Codes(s: string): (bs: seq<Byte>)
    requires IsBinary(s)
    ensures |bs| == |s|
    ensures forall i :: 0 <= i < |s| ==> bs[i] == s[i] as int
  {
    seq(|s|, i requires 0 <= i < |s| => s[i] as int)
  }

  /** `btoa`: `None` where it throws, on a character above U+00FF. */
  function Btoa(s: string): (r: Option<string>)
    ensures r.Some? <==> IsBinary(s)
  {
    if IsBinary(s) then Some(Base64.Encode(Codes(s))) else None
  }

  /** `atob`: `None` where it throws, on text that is not base64. */
  function Atob(s: string): (r: Option<string>)
    ensures r.Some? <==> Base64.Decode(s).Some?
    ensures r.Some? ==> IsBinary(r.value) && Codes(r.value) == Base64.Decode(s).value
  {
    match Base64.Decode(s)
    case None => None
    case Some(bs) => Some(Latin1(bs))
  }

  /** The transport text of a PCM buffer. */
  function EncodeSamples(xs: seq<Int16>): string
  {
    Base64.Encode(SampleBytes(xs))
  }

  /** The PCM buffer of a transport text; `None` where `atob` throws or where
      the `Int16Array` constructor throws because the byte count is odd. */
  function DecodeSamples(s: string): Option<seq<Int16>>
  {
    match Base64.Decode(s)
    case None => None
    case Some(bs) => if |bs| % 2 != 0 then None else Some(SamplesFromBytes(bs))
  }

  /** Decoding the transport text gives back the very samples. */
  lemma SamplesRoundTrip(xs: seq<Int16>)
    ensures DecodeSamples(EncodeSamples(xs)) == Some(xs)
  {
    Base64.RoundTrip(SampleBytes(xs));
    BytesRoundTrip(xs);
  }

  /** `int16ArrayToBase64`: the bytes of the buffer as a binary string, then
      `btoa`, which cannot throw here. */
  method Int16ArrayToBase64(pcm: array<Int16>) returns (text: string)
    ensures text == EncodeSamples(pcm[..])
  {
    ghost var bytes := SampleBytes(pcm[..]);
    var binary := "";
    var len := 2 * pcm.Length;
    var i := 0;
    while i < len
      invariant 0 <= i <= len
      invariant |binary| == i
      invariant forall j :: 0 <= j < i ==> binary[j] as int == bytes[j]
    {
      var k := i / 2;
      var b := if i % 2 == 0 then LowByte(pcm[k]) else HighByte(pcm[k]);
      assert i == 2 * k || i == 2 * k + 1;
      binary := binary + [b as char];
      i := i + 1;
    }
    assert IsBinary(binary);
    assert Codes(binary) == bytes;
    text := Btoa(binary).value;
  }

  /** `base64ToInt16Array`: `None` where it throws (text that is not base64,
      or an odd number of bytes), otherwise a new array of the decoded
      samples. */
  method Base64ToInt16Array(text: string) returns (r: Option<array<Int16>>)
    ensures r.Some? <==> DecodeSamples(text).Some?
    ensures r.Some? ==> r.value[..] == DecodeSamples(text).value
  {
    var decoded := Atob(text);
    if decoded.None? {
      return None;
    }
    var bytes := CopyCodes(decoded.value);
    if bytes.Length % 2 != 0 {
      return None;
    }
    var pcm := PcmOfBytes(bytes);
    return Some(pcm);
  }

  /** The `Uint8Array` filled with `charCodeAt` of every character. */
  method CopyCodes(binary: string) returns (bytes: array<Byte>)
    requires IsBinary(binary)
    ensures fresh(bytes)
    ensures bytes[..] == Codes(binary)
  {
    var len := |binary|;
    bytes := new Byte[len];
    var i := 0;
    while i < len
      invariant 0 <= i <= len
      invariant forall j :: 0 <= j < i ==> bytes[j] == binary[j] as int
    {
      bytes[i] := binary[i] as int;
      i := i + 1;
    }
  }

  /** `new Int16Array(bytes.buffer)` for an even byte count. */
  method PcmOfBytes(bytes: array<Byte>) returns (pcm: array<Int16>)
    requires bytes.Length % 2 == 0
    ensures pcm[..] == SamplesFromBytes(bytes[..])
  {
    pcm := new Int16[bytes.Length / 2];
    var k := 0;
    while k < bytes.Length / 2
      invariant 0 <= k <= bytes.Length / 2
      invariant forall j :: 0 <= j < k ==> pcm[j] == FromBytes(bytes[2 * j], bytes[2 * j + 1])
    {
      pcm[k] := FromBytes(bytes[2 * k], bytes[2 * k + 1]);
      k := k + 1;
    }
    ghost var expected := SamplesFromBytes(bytes[..]);
    assert forall j :: 0 <= j < bytes.Length / 2 ==> pcm[j] == expected[j];
  }

  // ---------------------------------------------------------------------
  // Resampling

  /** `audioData[k] || 0`: an index outside the array reads as 0. */
  function At(s: seq<real>, k: int): real
  {
    if 0 <= k < |s| then s[k] else 0.0
  }

  /** The Catmull-Rom cubic through `y1` (at t = 0) and `y2` (at t = 1) with
      outer neighbours `y0` and `y3`. */
  function CatmullRom(y0: real, y1: real, y2: real, y3: real, t: real): real
  {
    var a0 := -0.5 * y0 + 1.5 * y1 - 1.5 * y2 + 0.5 * y3;
    var a1 := y0 - 2.5 * y1 + 2.0 * y2 - 0.5 * y3;
    var a2 := -0.5 * y0 + 0.5 * y2;
    var a3 := y1;
    a0 * (t * t * t) + a1 * (t * t) + a2 * t + a3
  }

  /** The spline interpolates: it passes through its two middle points. */
  lemma CatmullRomEnds(y0: real, y1: real, y2: real, y3: real)
    ensures CatmullRom(y0, y1, y2, y3, 0.0) == y1
    ensures CatmullRom(y0, y1, y2, y3, 1.0) == y2
  {}

  function Max(a: int, b: int): int { if a < b then b else a }

  function Min(a: int, b: int): int { if a < b then a else b }

  /** The indices read around a sampling position whose integral part is
      `index`: one before (clamped at 0), the index itself, and two after
      (clamped at the last sample). */
  function Neighbours(len: nat, index: int): seq<int>
  {
    [Max(0, index - 1), index, Min(len - 1, index + 1), Min(len - 1, index + 2)]
  }

  /** The interpolated value at a sampling position of the source. */
  function Interpolate(s: seq<real>, position: real): real
    requires 0.0 <= position
  {
    var index := position.Floor;
    var n := Neighbours(|s|, index);
    CatmullRom(At(s, n[0]), At(s, n[1]), At(s, n[2]), At(s, n[3]), position - index as real)
  }

  /** On a sample position the result is that sample. */
  lemma InterpolateAtSample(s: seq<real>, k: nat)
    requires k < |s|
    ensures Interpolate(s, k as real) == s[k]
  {
    assert (k as real).Floor == k;
    CatmullRomEnds(At(s, Max(0, k - 1)), s[k], At(s, Min(|s| - 1, k + 1)), At(s, Min(|s| - 1, k + 2)));
  }

  /** `Math.round(length / ratio)`. */
  function ResampledLength(len: nat, ratio: real): nat
    requires 0.0 < ratio
  {
    var x := len as real / ratio;
    assert 0.0 <= x;
    JsNumber.RoundHalfUp(x)
  }

  /** The source position of output sample `i`: `i * ratio`. */
  function Position(i: nat, ratio: real): (p: real)
    requires 0.0 < ratio
    ensures 0.0 <= p
  {
    assert 0.0 <= i as real * ratio;
    i as real * ratio
  }

  /** The resampled signal for a ratio of source rate to target rate. */
  function Resampled(s: seq<real>, ratio: real): (r: seq<real>)
    requires 0.0 < ratio
    ensures |r| == ResampledLength(|s|, ratio)
    ensures forall i :: 0 <= i < |r| ==> r[i] == Interpolate(s, Position(i, ratio))
  {
    seq(ResampledLength(|s|, ratio), i requires 0 <= i => Interpolate(s, Position(i, ratio)))
  }

  /** Every output position lies inside the input, so all four neighbour
      indices are in [0, len - 1] and the `|| 0` default never applies. */
  lemma PositionInRange(len: nat, ratio: real, i: nat)
    requires 0.0 < ratio && i < ResampledLength(len, ratio)
    ensures Position(i, ratio).Floor < len
    ensures var n := Neighbours(len, Position(i, ratio).Floor); forall j :: 0 <= j < 4 ==> 0 <= n[j] < len
  {
    var x := len as real / ratio;
    var m := ResampledLength(len, ratio);
    assert (i + 1) as real <= m as real <= x + 0.5;
    assert i as real + 0.5 <= x;
    assert (i as real + 0.5) * ratio <= x * ratio;
    assert x * ratio == len as real;
    assert i as real * ratio < len as real;
  }

  /** Downsampling 48 kHz to 16 kHz keeps every third sample. */
  lemma DownsampleByThree(s: seq<real>, i: nat)
    requires i < |Resampled(s, 48000.0 / 16000.0)|
    ensures 3 * i < |s| && Resampled(s, 48000.0 / 16000.0)[i] == s[3 * i]
  {
    var ratio := 48000.0 / 16000.0;
    assert ratio == 3.0;
    assert Position(i, ratio) == (3 * i) as real;
    PositionInRange(|s|, ratio, i);
    InterpolateAtSample(s, 3 * i);
  }

  /** `resampleAudio`: the same array when the two rates are equal, otherwise
      a new array of `Math.round(length / ratio)` interpolated samples. */
  method ResampleAudio(data: array<real>, sourceRate: real, targetRate: real) returns (result: array<real>)
    requires 0.0 < sourceRate && 0.0 < targetRate
    ensures sourceRate == targetRate ==> result == data
    ensures sourceRate != targetRate ==> result[..] == Resampled(data[..], sourceRate / targetRate)
  {
    if sourceRate == targetRate {
      return data;
    }
    var ratio := sourceRate / targetRate;
    var source := data[..];
    var newLength := ResampledLength(data.Length, ratio);
    result := new real[newLength];
    var i := 0;
    while i < newLength
      invariant 0 <= i <= newLength
      invariant data[..] == source
      invariant forall j :: 0 <= j < i ==> result[j] == Interpolate(source, Position(j, ratio))
    {
      var position := Position(i, ratio);
      var index := position.Floor;
      var fraction := position - index as real;
      var y0 := At(source, Max(0, index - 1));
      var y1 := At(source, index);
      var y2 := At(source, Min(data.Length - 1, index + 1));
      var y3 := At(source, Min(data.Length - 1, index + 2));
      result[i] := CatmullRom(y0, y1, y2, y3, fraction);
      assert result[i] == Interpolate(source, position);
      i := i + 1;
    }
    ResampledFrom(source, ratio, result[..]);
  }

  lemma ResampledFrom(s: seq<real>, ratio: real, r: seq<real>)
    requires 0.0 < ratio && |r| == ResampledLength(|s|, ratio)
    requires forall j :: 0 <= j < |r| ==> r[j] == Interpolate(s, Position(j, ratio))
    ensures r == Resampled(s, ratio)
  {
    var expected := Resampled(s, ratio);
    assert forall j :: 0 <= j < |r| ==> r[j] == expected[j];
  }

  // ---------------------------------------------------------------------
  // The worklet's chunker

  const BufferSize: nat := 4096

  /** The complete frames in a stream of samples: consecutive, in order and
      without overlap. */
  function Frames(s: seq<real>): (frames: seq<seq<real>>)
    ensures forall f | f in frames :: |f| == BufferSize
    decreases |s|
  {
    if |s| < BufferSize then [] else [s[..BufferSize]] + Frames(s[BufferSize..])
  }

  /** The samples after the last complete frame. */
  function Leftover(s: seq<real>): (rest: seq<real>)
    ensures |rest| < BufferSize
    decreases |s|
  {
    if |s| < BufferSize then s else Leftover(s[BufferSize..])
  }

  function Concat(frames: seq<seq<real>>): seq<real>
  {
    if frames == [] then [] else frames[0] + Concat(frames[1..])
  }

  /** Frames and leftover split the stream: nothing is lost, duplicated or
      reordered. */
  lemma {:induction false} FramesSplit(s: seq<real>)
    ensures Concat(Frames(s)) + Leftover(s) == s
    ensures |Frames(s)| == |s| / BufferSize && |Leftover(s)| == |s| % BufferSize
    decreases |s|
  {
    if |s| >= BufferSize {
      var rest := s[BufferSize..];
      FramesSplit(rest);
      assert Frames(s)[1..] == Frames(rest);
      assert s == s[..BufferSize] + rest;
      var n := |rest|;
      assert |s| == n + BufferSize;
      assert (n + 4096) / 4096 == n / 4096 + 1 && (n + 4096) % 4096 == n % 4096;
    }
  }

  /** One more sample either extends the leftover or completes a frame. */
  lemma {:induction false} FramesSnoc(s: seq<real>, x: real)
    ensures |Leftover(s)| + 1 < BufferSize ==>
      Frames(s + [x]) == Frames(s) && Leftover(s + [x]) == Leftover(s) + [x]
    ensures |Leftover(s)| + 1 == BufferSize ==>
      Frames(s + [x]) == Frames(s) + [Leftover(s) + [x]] && Leftover(s + [x]) == []
    decreases |s|
  {
    if |s| >= BufferSize {
      var rest := s[BufferSize..];
      FramesSnoc(rest, x);
      assert (s + [x])[..BufferSize] == s[..BufferSize];
      assert (s + [x])[BufferSize..] == rest + [x];
    } else if |s| + 1 == BufferSize {
      assert (s + [x])[BufferSize..] == [];
      assert (s + [x])[..BufferSize] == s + [x];
    }
  }

  /** The stream after one more sample of `c` is the stream up to it. */
  lemma AppendNext<T>(a: seq<T>, c: seq<T>, i: nat)
    requires i < |c|
    ensures a + c[..i] + [c[i]] == a + c[..i + 1]
  {
    assert c[..i + 1] == c[..i] + [c[i]];
  }

  lemma AppendAssoc<T>(a: seq<T>, b: seq<T>, c: seq<T>)
    ensures a + b + c == a + (b + c)
  {}

  /** The `AudioProcessor` of the worklet source: it copies every input
      sample into a 4096-sample buffer and posts a copy of the buffer each
      time it fills. */
  class AudioProcessor {
    var buffer: array<real>
    var bufferIndex: nat
    /** Every sample received on the mono channel so far. */
    ghost var received: seq<real>
    /** Every frame posted so far. */
    ghost var posted: seq<seq<real>>

    ghost predicate Valid()
      reads this, buffer
    {
      buffer.Length == BufferSize
      && bufferIndex < BufferSize
      && buffer[..bufferIndex] == Leftover(received)
      && posted == Frames(received)
    }

    constructor ()
      ensures Valid() && fresh(buffer)
      ensures received == [] && posted == []
    {
      buffer := new real[BufferSize];
      bufferIndex := 0;
      received := [];
      posted := [];
    }

    /** The body of the copy loop for one sample: store it, and when the
        buffer is full post a copy of it and start over. */
    method Push(x: real) returns (message: seq<seq<real>>)
      requires Valid()
      modifies this, buffer
      ensures Valid() && buffer == old(buffer)
      ensures received == old(received) + [x]
      ensures posted == old(posted) + message
    {
      ghost var before := received;
      FramesSnoc(before, x);
      buffer[bufferIndex] := x;
      assert buffer[..bufferIndex + 1] == Leftover(before) + [x];
      bufferIndex := bufferIndex + 1;
      received := before + [x];
      message := [];
      if bufferIndex >= BufferSize {
        assert buffer[..] == Leftover(before) + [x];
        message := [buffer[..]];
        posted := posted + message;
        bufferIndex := 0;
      }
    }

    /** The copy loop of `process` over one channel: every sample in turn. */
    method PushAll(channel: seq<real>) returns (messages: seq<seq<real>>)
      requires Valid()
      modifies this, buffer
      ensures Valid() && buffer == old(buffer)
      ensures received == old(received) + channel
      ensures posted == old(posted) + messages
    {
      ghost var received0, posted0 := received, posted;
      messages := [];
      var i := 0;
      while i < |channel|
        invariant 0 <= i <= |channel|
        invariant Valid() && buffer == old(buffer)
        invariant received == received0 + channel[..i]
        invariant posted == posted0 + messages
      {
        AppendNext(received0, channel, i);
        var message := Push(channel[i]);
        AppendAssoc(posted0, messages, message);
        messages := messages + message;
        i := i + 1;
      }
      assert channel[..|channel|] == channel;
    }

    /** `process(inputs)`: the first channel of the first input, if any, is
        appended to the stream; the frames it completes are returned in
        order; the processor always asks to be kept alive. */
    method Process(inputs: seq<seq<seq<real>>>) returns (keepAlive: bool, messages: seq<seq<real>>)
      requires Valid()
      requires |inputs| > 0
      modifies this, buffer
      ensures Valid() && buffer == old(buffer)
      ensures keepAlive
      ensures received == old(received) + (if |inputs[0]| > 0 then inputs[0][0] else [])
      ensures posted == old(posted) + messages
    {
      keepAlive := true;
      messages := [];
      var input := inputs[0];
      if |input| > 0 {
        messages := PushAll(input[0]);
      } else {
        assert received == old(received) + [];
      }
    }
  }
}
