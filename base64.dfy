/** Base64 as the browser's `btoa` and `atob` apply it: `btoa` encodes a
    binary string (one character per byte, codes 0..255) with the alphabet and
    `=` padding of section 4 of RFC 4648; `atob` is the "forgiving-base64
    decode" of the WHATWG Infra standard (ASCII whitespace ignored, padding
    optional, leftover bits discarded). */
module Base64 {
  import opened Wrappers

  type Byte = x: int | 0 <= x < 256
  type Sextet = x: int | 0 <= x < 64

  /** The character of a 6-bit value in the base64 alphabet. */
  function EncodeSextet(v: Sextet): (c: char)
    ensures c != '='
  {
    if v < 26 then (('A' as int) + v) as char
    else if v < 52 then (('a' as int) + v - 26) as char
    else if v < 62 then (('0' as int) + v - 52) as char
    else if v == 62 then '+'
    else '/'
  }

  predicate IsAlphabet(c: char)
  {
    'A' <= c <= 'Z' || 'a' <= c <= 'z' || '0' <= c <= '9' || c == '+' || c == '/'
  }

  predicate AllAlphabet(s: string)
  {
    forall c | c in s :: IsAlphabet(c)
  }

  /** The 6-bit value of an alphabet character. */
  function DecodeSextet(c: char): (v: Sextet)
    requires IsAlphabet(c)
    ensures EncodeSextet(v) == c
  {
    if 'A' <= c <= 'Z' then c as int - 'A' as int
    else if 'a' <= c <= 'z' then c as int - 'a' as int + 26
    else if '0' <= c <= '9' then c as int - '0' as int + 52
    else if c == '+' then 62
    else 63
  }

  lemma SextetRoundTrip(v: Sextet)
    ensures IsAlphabet(EncodeSextet(v)) && DecodeSextet(EncodeSextet(v)) == v
  {}

  /** A three-byte group as four alphabet characters. */
  function EncodeGroup(b0: Byte, b1: Byte, b2: Byte): (s: string)
    ensures |s| == 4 && AllAlphabet(s)
  {
    var c0: Sextet, c1: Sextet := b0 / 4, (b0 % 4) * 16 + b1 / 16;
    var c2: Sextet, c3: Sextet := (b1 % 16) * 4 + b2 / 64, b2 % 64;
    SextetRoundTrip(c0); SextetRoundTrip(c1); SextetRoundTrip(c2); SextetRoundTrip(c3);
    [EncodeSextet(c0), EncodeSextet(c1), EncodeSextet(c2), EncodeSextet(c3)]
  }

  /** A trailing pair of bytes as three characters (the last carries two zero bits). */
  function EncodePair(b0: Byte, b1: Byte): (s: string)
    ensures |s| == 3 && AllAlphabet(s)
  {
    var c0: Sextet, c1: Sextet, c2: Sextet := b0 / 4, (b0 % 4) * 16 + b1 / 16, (b1 % 16) * 4;
    SextetRoundTrip(c0); SextetRoundTrip(c1); SextetRoundTrip(c2);
    [EncodeSextet(c0), EncodeSextet(c1), EncodeSextet(c2)]
  }

  /** A trailing single byte as two characters (the last carries four zero bits). */
  function EncodeSingle(b0: Byte): (s: string)
    ensures |s| == 2 && AllAlphabet(s)
  {
    var c0: Sextet, c1: Sextet := b0 / 4, (b0 % 4) * 16;
    SextetRoundTrip(c0); SextetRoundTrip(c1);
    [EncodeSextet(c0), EncodeSextet(c1)]
  }

  /** The alphabet characters of `bytes`, three bytes to four characters,
      a trailing pair to three and a trailing single byte to two. */
  function EncodeBody(bytes: seq<Byte>): (s: string)
    ensures |s| % 4 != 1
    ensures AllAlphabet(s)
    decreases |bytes|
  {
    if |bytes| == 0 then ""
    else if |bytes| == 1 then EncodeSingle(bytes[0])
    else if |bytes| == 2 then EncodePair(bytes[0], bytes[1])
    else EncodeGroup(bytes[0], bytes[1], bytes[2]) + EncodeBody(bytes[3..])
  }

  /** Four characters per complete group, two or three for the tail. */
  lemma {:induction false} BodyLength(bytes: seq<Byte>)
    ensures |bytes| % 3 == 0 ==> |EncodeBody(bytes)| % 4 == 0
    ensures |bytes| % 3 == 1 ==> |EncodeBody(bytes)| % 4 == 2
    ensures |bytes| % 3 == 2 ==> |EncodeBody(bytes)| % 4 == 3
    decreases |bytes|
  {
    if |bytes| == 1 {
      assert |EncodeBody(bytes)| == |EncodeSingle(bytes[0])| == 2;
    } else if |bytes| == 2 {
      assert |EncodeBody(bytes)| == |EncodePair(bytes[0], bytes[1])| == 3;
    } else if |bytes| >= 3 {
      var rest := bytes[3..];
      BodyLength(rest);
      var m, n := |EncodeBody(rest)|, |rest|;
      assert |EncodeBody(bytes)| == m + 4;
      assert |bytes| == n + 3;
      ModStep(m, n);
    }
  }

  lemma ModStep(m: int, n: int)
    ensures (m + 4) % 4 == m % 4 && (n + 3) % 3 == n % 3
  {}

  function Padding(n: nat): (p: string)
    ensures |p| == [0, 2, 1][n % 3]
  {
    if n % 3 == 1 then "==" else if n % 3 == 2 then "=" else ""
  }

  lemma PaddedLength(m: nat, n: nat)
    requires n % 3 == 0 ==> m % 4 == 0
    requires n % 3 == 1 ==> m % 4 == 2
    requires n % 3 == 2 ==> m % 4 == 3
    ensures (m + |Padding(n)|) % 4 == 0
  {}

  /** Base64 encoding of section 4 of RFC 4648, with padding. */
  function Encode(bytes: seq<Byte>): (s: string)
    ensures |s| % 4 == 0
  {
    BodyLength(bytes);
    PaddedLength(|EncodeBody(bytes)|, |bytes|);
    EncodeBody(bytes) + Padding(|bytes|)
  }

  /** Four alphabet characters as three bytes. */
  function DecodeGroup(c0: Sextet, c1: Sextet, c2: Sextet, c3: Sextet): seq<Byte>
  {
    [c0 * 4 + c1 / 16, (c1 % 16) * 16 + c2 / 4, (c2 % 4) * 64 + c3]
  }

  /** Decodes alphabet characters: four to three bytes, a trailing three to
      two bytes and a trailing two to one byte, the bits left over dropped. */
  function DecodeBody(s: string): (bytes: seq<Byte>)
    requires |s| % 4 != 1
    requires AllAlphabet(s)
    decreases |s|
  {
    if |s| == 0 then []
    else if |s| == 2 then
      var c0, c1 := DecodeSextet(s[0]), DecodeSextet(s[1]);
      [c0 * 4 + c1 / 16]
    else if |s| == 3 then
      var c0, c1, c2 := DecodeSextet(s[0]), DecodeSextet(s[1]), DecodeSextet(s[2]);
      [c0 * 4 + c1 / 16, (c1 % 16) * 16 + c2 / 4]
    else
      DecodeGroup(DecodeSextet(s[0]), DecodeSextet(s[1]), DecodeSextet(s[2]), DecodeSextet(s[3]))
      + DecodeBody(s[4..])
  }

  /** ASCII whitespace as the Infra standard defines it. */
  predicate IsAsciiWhitespace(c: char)
  {
    c == '\t' || c == '\n' || c == '\U{000C}' || c == '\r' || c == ' '
  }

  function RemoveWhitespace(s: string): (r: string)
    ensures |r| <= |s|
    ensures forall i :: 0 <= i < |r| ==> !IsAsciiWhitespace(r[i])
    ensures (forall i :: 0 <= i < |s| ==> !IsAsciiWhitespace(s[i])) ==> r == s
  {
    if |s| == 0 then ""
    else if IsAsciiWhitespace(s[0]) then RemoveWhitespace(s[1..])
    else [s[0]] + RemoveWhitespace(s[1..])
  }

  /** Strips one or two trailing `=` from a string whose length is a
      multiple of four. */
  function StripPadding(d: string): string
  {
    if |d| % 4 == 0 && |d| >= 2 && d[|d| - 2..] == "==" then d[..|d| - 2]
    else if |d| % 4 == 0 && |d| >= 1 && d[|d| - 1] == '=' then d[..|d| - 1]
    else d
  }

  /** Forgiving-base64 decode; `None` is failure (`atob` then throws). */
  function Decode(s: string): (r: Option<seq<Byte>>)
  {
    var d := StripPadding(RemoveWhitespace(s));
    if |d| % 4 == 1 then None
    else if exists i :: 0 <= i < |d| && !IsAlphabet(d[i]) then None
    else Some(DecodeBody(d))
  }

  /** Decoding undoes the bit regrouping of one three-byte group. */
  lemma GroupRoundTrip(b0: Byte, b1: Byte, b2: Byte)
    ensures DecodeGroup(DecodeSextet(EncodeGroup(b0, b1, b2)[0]), DecodeSextet(EncodeGroup(b0, b1, b2)[1]),
                        DecodeSextet(EncodeGroup(b0, b1, b2)[2]), DecodeSextet(EncodeGroup(b0, b1, b2)[3]))
            == [b0, b1, b2]
  {
    var c0: Sextet, c1: Sextet := b0 / 4, (b0 % 4) * 16 + b1 / 16;
    var c2: Sextet, c3: Sextet := (b1 % 16) * 4 + b2 / 64, b2 % 64;
    var g := EncodeGroup(b0, b1, b2);
    assert g == [EncodeSextet(c0), EncodeSextet(c1), EncodeSextet(c2), EncodeSextet(c3)];
    SextetRoundTrip(c0); SextetRoundTrip(c1); SextetRoundTrip(c2); SextetRoundTrip(c3);
    GroupArith(b0, b1, b2);
  }

  /** The bit arithmetic of a group: the four 6-bit values of three bytes
      put back together. */
  lemma GroupArith(b0: Byte, b1: Byte, b2: Byte)
    ensures DecodeGroup(b0 / 4, (b0 % 4) * 16 + b1 / 16, (b1 % 16) * 4 + b2 / 64, b2 % 64) == [b0, b1, b2]
  {
    var c1 := (b0 % 4) * 16 + b1 / 16;
    var c2 := (b1 % 16) * 4 + b2 / 64;
    assert c1 / 16 == b0 % 4 && c1 % 16 == b1 / 16;
    assert c2 / 4 == b1 % 16 && c2 % 4 == b2 / 64;
  }

  /** The same for a trailing pair. */
  lemma PairRoundTrip(b0: Byte, b1: Byte)
    ensures DecodeBody(EncodePair(b0, b1)) == [b0, b1]
  {
    var c0: Sextet, c1: Sextet, c2: Sextet := b0 / 4, (b0 % 4) * 16 + b1 / 16, (b1 % 16) * 4;
    SextetRoundTrip(c0); SextetRoundTrip(c1); SextetRoundTrip(c2);
    assert c1 / 16 == b0 % 4 && c1 % 16 == b1 / 16;
  }

  /** The same for a trailing single byte. */
  lemma SingleRoundTrip(b0: Byte)
    ensures DecodeBody(EncodeSingle(b0)) == [b0]
  {
    var c0: Sextet, c1: Sextet := b0 / 4, (b0 % 4) * 16;
    SextetRoundTrip(c0); SextetRoundTrip(c1);
  }

  /** Decoding the alphabet part of an encoding gives the bytes back. */
  lemma {:induction false} BodyRoundTrip(bytes: seq<Byte>)
    ensures DecodeBody(EncodeBody(bytes)) == bytes
    decreases |bytes|
  {
    if |bytes| == 0 {
    } else if |bytes| == 1 {
      SingleRoundTrip(bytes[0]);
    } else if |bytes| == 2 {
      PairRoundTrip(bytes[0], bytes[1]);
    } else {
      GroupStep(bytes);
      BodyRoundTrip(bytes[3..]);
      assert bytes == bytes[..3] + bytes[3..];
    }
  }

  /** The inductive step: the first four characters decode to the first
      three bytes and the rest decodes on its own. */
  lemma GroupStep(bytes: seq<Byte>)
    requires |bytes| >= 3
    ensures DecodeBody(EncodeBody(bytes)) == bytes[..3] + DecodeBody(EncodeBody(bytes[3..]))
  {
    var b0, b1, b2 := bytes[0], bytes[1], bytes[2];
    var g := EncodeGroup(b0, b1, b2);
    var rest := EncodeBody(bytes[3..]);
    assert EncodeBody(bytes) == g + rest;
    DecodeCons(g, rest);
    HeadDecodes(bytes);
  }

  lemma HeadDecodes(bytes: seq<Byte>)
    requires |bytes| >= 3
    ensures var g := EncodeGroup(bytes[0], bytes[1], bytes[2]);
      DecodeGroup(DecodeSextet(g[0]), DecodeSextet(g[1]), DecodeSextet(g[2]), DecodeSextet(g[3])) == bytes[..3]
  {
    GroupRoundTrip(bytes[0], bytes[1], bytes[2]);
    assert bytes[..3] == [bytes[0], bytes[1], bytes[2]];
  }

  lemma DecodeCons(g: string, rest: string)
    requires |g| == 4 && |rest| % 4 != 1
    requires AllAlphabet(g) && AllAlphabet(rest)
    ensures |g + rest| % 4 != 1 && AllAlphabet(g + rest)
    ensures DecodeBody(g + rest)
      == DecodeGroup(DecodeSextet(g[0]), DecodeSextet(g[1]), DecodeSextet(g[2]), DecodeSextet(g[3])) + DecodeBody(rest)
  {
    var s := g + rest;
    assert s[4..] == rest;
  }

  /** `atob(btoa(x)) == x` at the byte level. */
  lemma RoundTrip(bytes: seq<Byte>)
    ensures Decode(Encode(bytes)) == Some(bytes)
  {
    var body := EncodeBody(bytes);
    var s := Encode(bytes);
    EncodedHasNoWhitespace(bytes);
    StripEncoded(bytes);
    assert forall i :: 0 <= i < |body| ==> IsAlphabet(body[i]) by {
      forall i | 0 <= i < |body| ensures IsAlphabet(body[i]) {
        assert body[i] in body;
      }
    }
    BodyLength(bytes);
    BodyRoundTrip(bytes);
  }

  /** An encoding holds no whitespace, so `atob` keeps it whole. */
  lemma EncodedHasNoWhitespace(bytes: seq<Byte>)
    ensures RemoveWhitespace(Encode(bytes)) == Encode(bytes)
  {
    var body := EncodeBody(bytes);
    var s := Encode(bytes);
    assert s == body + Padding(|bytes|);
    forall i | 0 <= i < |s| ensures !IsAsciiWhitespace(s[i]) {
      if i < |body| {
        assert body[i] in body;
      }
    }
  }

  /** Stripping the padding of an encoding leaves its alphabet part. */
  lemma StripEncoded(bytes: seq<Byte>)
    ensures StripPadding(Encode(bytes)) == EncodeBody(bytes)
  {
    BodyLength(bytes);
    StripBodyPadding(EncodeBody(bytes), |bytes|);
  }

  /** Stripping the padding for `n` bytes from alphabet text of the length
      those bytes encode to. */
  lemma StripBodyPadding(body: string, n: nat)
    requires AllAlphabet(body)
    requires n % 3 == 0 ==> |body| % 4 == 0
    requires n % 3 == 1 ==> |body| % 4 == 2
    requires n % 3 == 2 ==> |body| % 4 == 3
    ensures StripPadding(body + Padding(n)) == body
  {
    if n % 3 == 0 {
      StripPad(body, "");
    } else if n % 3 == 1 {
      StripPad(body, "==");
    } else {
      StripPad(body, "=");
    }
  }

  /** `StripPadding` removes exactly the padding put after alphabet text. */
  lemma StripPad(body: string, pad: string)
    requires AllAlphabet(body)
    requires pad == "" || pad == "=" || pad == "=="
    requires (|body| + |pad|) % 4 == 0
    requires pad != "" ==> |body| > 0
    ensures StripPadding(body + pad) == body
  {
    var s := body + pad;
    if pad == "" {
      assert s == body;
      if |body| > 0 {
        assert s[|s| - 1] == body[|body| - 1];
        assert body[|body| - 1] in body;
      }
    } else if pad == "==" {
      assert s[|s| - 2..] == "==";
      assert s[..|s| - 2] == body;
    } else {
      assert s[|s| - 2] == body[|body| - 1];
      assert body[|body| - 1] in body;
      assert s[|s| - 2..] != "==";
      assert s[|s| - 1] == '=';
      assert s[..|s| - 1] == body;
    }
  }
}
