/**
 * The buffer/text codec of src/modules/utils.js.
 *
 * `bufferToString(buffer, encoding)` calls `buffer.toString(encoding)` and
 * `stringToBuffer(string, encoding)` calls `Buffer.from(string, encoding)`;
 * both default to base64. Base64 follows section 4 of RFC 4648; hex is
 * Node's two lower-case digits per byte.
 */
module Codec {

  type byte = x: int | 0 <= x < 256
  type Bytes = seq<byte>

  /** The value of one base64 digit. */
  type Sextet = x: int | 0 <= x < 64

  datatype Encoding = Base64 | Hex

  /** The encoding both codec functions use when the caller omits it. */
  const DefaultEncoding: Encoding := Base64

  /** A JavaScript value that is either a string or a Buffer. */
  datatype StringOrBuffer = Str(text: string) | Buf(bytes: Bytes)

  /**
   * `bufferToString`: `value.toString(encoding)`. A Buffer is encoded; a
   * string's own `toString` ignores the encoding and returns the string.
   */
  function BufferToString(value: StringOrBuffer, encoding: Encoding := DefaultEncoding): string
  {
    match value
    case Str(s) => s
    case Buf(b) =>
      match encoding
      case Base64 => Base64Encode(b)
      case Hex => HexEncode(b)
  }

  /** `stringToBuffer`: `Buffer.from(s, encoding)`, which never throws. */
  function StringToBuffer(s: string, encoding: Encoding := DefaultEncoding): Bytes
  {
    match encoding
    case Base64 => Base64Decode(s)
    case Hex => HexDecode(s)
  }

  // ---------------------------------------------------------------------
  // Base64, RFC 4648 section 4

  const Pad: char := '='

  /** The 64 characters of Table 1 of RFC 4648 section 4. */
  predicate IsBase64Digit(c: char)
  {
    'A' <= c <= 'Z' || 'a' <= c <= 'z' || '0' <= c <= '9' || c == '+' || c == '/'
  }

  /** Table 1: the character that encodes the value `v`. */
  function Digit(v: Sextet): (c: char)
    ensures IsBase64Digit(c)
  {
    if v < 26 then ('A' as int + v) as char
    else if v < 52 then ('a' as int + (v - 26)) as char
    else if v < 62 then ('0' as int + (v - 52)) as char
    else if v == 62 then '+'
    else '/'
  }

  /**
   * Characters the decoder gives a value: Table 1, and also `-` and `_` of
   * the URL-safe alphabet of section 5, which Node accepts when decoding.
   */
  predicate IsDecodable(c: char)
  {
    IsBase64Digit(c) || c == '-' || c == '_'
  }

  function SextetOf(c: char): Sextet
    requires IsDecodable(c)
  {
    if 'A' <= c <= 'Z' then c as int - 'A' as int
    else if 'a' <= c <= 'z' then c as int - 'a' as int + 26
    else if '0' <= c <= '9' then c as int - '0' as int + 52
    else if c == '+' || c == '-' then 62
    else 63
  }

  /** The four sextets of the 24 bits `b0 b1 b2`, most significant first. */
  function Sextet0(b0: byte): Sextet { b0 / 4 }
  function Sextet1(b0: byte, b1: byte): Sextet { b0 % 4 * 16 + b1 / 16 }
  function Sextet2(b1: byte, b2: byte): Sextet { b1 % 16 * 4 + b2 / 64 }
  function Sextet3(b2: byte): Sextet { b2 % 64 }

  /** The three bytes of the 24 bits `v0 v1 v2 v3`. */
  function Byte0(v0: Sextet, v1: Sextet): byte { v0 * 4 + v1 / 16 }
  function Byte1(v1: Sextet, v2: Sextet): byte { v1 % 16 * 16 + v2 / 4 }
  function Byte2(v2: Sextet, v3: Sextet): byte { v2 % 4 * 64 + v3 }

  /**
   * One quantum: one to three bytes become four characters; missing bytes
   * count as zero bits and the characters they alone would fill are `=`.
   */
  function EncodeQuantum(g: Bytes): (q: string)
    requires 1 <= |g| <= 3
    ensures |q| == 4
  {
    var b0 := g[0];
    var b1 := if |g| > 1 then g[1] else 0;
    var b2 := if |g| > 2 then g[2] else 0;
    [ Digit(Sextet0(b0)),
      Digit(Sextet1(b0, b1)),
      if |g| > 1 then Digit(Sextet2(b1, b2)) else Pad,
      if |g| > 2 then Digit(Sextet3(b2)) else Pad ]
  }

  function Base64Encode(b: Bytes): string
    decreases |b|
  {
    if |b| == 0 then ""
    else if |b| <= 3 then EncodeQuantum(b)
    else EncodeQuantum(b[..3]) + Base64Encode(b[3..])
  }

  /**
   * The values of the decodable characters of `s` before its first `=`;
   * other characters (white space, for one) are skipped.
   */
  function Sextets(s: string): seq<Sextet>
  {
    if |s| == 0 || s[0] == Pad then []
    else if IsDecodable(s[0]) then [SextetOf(s[0])] + Sextets(s[1..])
    else Sextets(s[1..])
  }

  /** Four sextets give three bytes; a final two or three give one or two. */
  function DecodeSextets(d: seq<Sextet>): Bytes
    decreases |d|
  {
    if |d| < 2 then []
    else if |d| == 2 then [Byte0(d[0], d[1])]
    else if |d| == 3 then [Byte0(d[0], d[1]), Byte1(d[1], d[2])]
    else [Byte0(d[0], d[1]), Byte1(d[1], d[2]), Byte2(d[2], d[3])] + DecodeSextets(d[4..])
  }

  function Base64Decode(s: string): Bytes
  {
    DecodeSextets(Sextets(s))
  }

  /** The number of `=` that end the encoding of `n` bytes. */
  function PadCount(n: nat): nat
  {
    (3 - n % 3) % 3
  }

  // ---------------------------------------------------------------------
  // Hex

  function HexDigit(v: int): char
    requires 0 <= v < 16
  {
    if v < 10 then ('0' as int + v) as char else ('a' as int + (v - 10)) as char
  }

  predicate IsHexDigit(c: char)
  {
    '0' <= c <= '9' || 'a' <= c <= 'f' || 'A' <= c <= 'F'
  }

  function HexValue(c: char): (v: int)
    requires IsHexDigit(c)
    ensures 0 <= v < 16
  {
    if '0' <= c <= '9' then c as int - '0' as int
    else if 'a' <= c <= 'f' then c as int - 'a' as int + 10
    else c as int - 'A' as int + 10
  }

  function HexEncode(b: Bytes): string
  {
    if |b| == 0 then "" else [HexDigit(b[0] / 16), HexDigit(b[0] % 16)] + HexEncode(b[1..])
  }

  /** Pairs of hex digits; decoding stops at the first pair that is not one. */
  function HexDecode(s: string): Bytes
  {
    if |s| < 2 || !IsHexDigit(s[0]) || !IsHexDigit(s[1]) then []
    else [HexValue(s[0]) * 16 + HexValue(s[1])] + HexDecode(s[2..])
  }

  // ---------------------------------------------------------------------
  // Properties

  /** A string passes through `bufferToString` unchanged, whatever the encoding. */
  lemma BufferToStringOfString(s: string, encoding: Encoding)
    ensures BufferToString(Str(s), encoding) == s
  {
  }

  /** Decoding a digit gives back the value it encodes. */
  lemma DigitRoundTrip(v: Sextet)
    ensures IsDecodable(Digit(v)) && SextetOf(Digit(v)) == v
  {
  }

  /** The sextets of a string that starts with a digit. */
  lemma SextetsCons(c: char, t: string)
    requires IsDecodable(c) && c != Pad
    ensures Sextets([c] + t) == [SextetOf(c)] + Sextets(t)
  {
    assert ([c] + t)[1..] == t;
  }

  /** Splitting three bytes into sextets and joining them again loses nothing. */
  lemma JoinSplit(b0: byte, b1: byte, b2: byte)
    ensures Byte0(Sextet0(b0), Sextet1(b0, b1)) == b0
    ensures Byte1(Sextet1(b0, b1), Sextet2(b1, b2)) == b1
    ensures Byte2(Sextet2(b1, b2), Sextet3(b2)) == b2
  {
  }

  /** The four digits of a full quantum, followed by anything. */
  lemma FullQuantumSextets(g: Bytes, t: string)
    requires |g| == 3
    ensures Sextets(EncodeQuantum(g) + t)
            == [Sextet0(g[0]), Sextet1(g[0], g[1]), Sextet2(g[1], g[2]), Sextet3(g[2])] + Sextets(t)
  {
    var q := EncodeQuantum(g);
    DigitRoundTrip(Sextet0(g[0]));
    DigitRoundTrip(Sextet1(g[0], g[1]));
    DigitRoundTrip(Sextet2(g[1], g[2]));
    DigitRoundTrip(Sextet3(g[2]));
    assert q + t == [q[0]] + ([q[1]] + ([q[2]] + ([q[3]] + t)));
    SextetsCons(q[3], t);
    SextetsCons(q[2], [q[3]] + t);
    SextetsCons(q[1], [q[2]] + ([q[3]] + t));
    SextetsCons(q[0], [q[1]] + ([q[2]] + ([q[3]] + t)));
  }

  /** A padded quantum of one byte decodes to that byte. */
  lemma OneByteQuantum(g: Bytes)
    requires |g| == 1
    ensures Base64Decode(EncodeQuantum(g)) == g
  {
    var q := EncodeQuantum(g);
    var v0, v1 := Sextet0(g[0]), Sextet1(g[0], 0);
    assert q == [Digit(v0), Digit(v1), Pad, Pad];
    DigitRoundTrip(v0);
    DigitRoundTrip(v1);
    assert q == [Digit(v0)] + ([Digit(v1)] + "==");
    SextetsCons(Digit(v1), "==");
    SextetsCons(Digit(v0), [Digit(v1)] + "==");
    assert Sextets(q) == [v0, v1];
    assert Byte0(v0, v1) == g[0];
  }

  /** A padded quantum of two bytes decodes to those bytes. */
  lemma TwoByteQuantum(g: Bytes)
    requires |g| == 2
    ensures Base64Decode(EncodeQuantum(g)) == g
  {
    var q := EncodeQuantum(g);
    var v0, v1, v2 := Sextet0(g[0]), Sextet1(g[0], g[1]), Sextet2(g[1], 0);
    JoinSplit(g[0], g[1], 0);
    DigitRoundTrip(v0);
    DigitRoundTrip(v1);
    DigitRoundTrip(v2);
    assert q == [Digit(v0)] + ([Digit(v1)] + ([Digit(v2)] + "="));
    SextetsCons(Digit(v2), "=");
    SextetsCons(Digit(v1), [Digit(v2)] + "=");
    SextetsCons(Digit(v0), [Digit(v1)] + ([Digit(v2)] + "="));
    assert Sextets(q) == [v0, v1, v2];
  }

  /** A full quantum decodes to its three bytes. */
  lemma ThreeByteQuantum(g: Bytes)
    requires |g| == 3
    ensures Base64Decode(EncodeQuantum(g)) == g
  {
    var q := EncodeQuantum(g);
    var d := [Sextet0(g[0]), Sextet1(g[0], g[1]), Sextet2(g[1], g[2]), Sextet3(g[2])];
    FullQuantumSextets(g, "");
    JoinSplit(g[0], g[1], g[2]);
    assert q + "" == q;
    assert Sextets("") == [];
    assert d + [] == d;
    assert d[4..] == [];
    assert DecodeSextets(d) == [Byte0(d[0], d[1]), Byte1(d[1], d[2]), Byte2(d[2], d[3])] + DecodeSextets([]);
  }

  /** A full quantum decodes to its three bytes, whatever follows it. */
  lemma FullQuantumDecodes(g: Bytes, t: string)
    requires |g| == 3
    ensures Base64Decode(EncodeQuantum(g) + t) == g + Base64Decode(t)
  {
    FullQuantumSextets(g, t);
    JoinSplit(g[0], g[1], g[2]);
    var d := Sextets(EncodeQuantum(g) + t);
    assert d[4..] == Sextets(t);
  }

  /** Base64 decoding inverts base64 encoding, for every byte sequence. */
  lemma {:induction false} Base64RoundTrip(b: Bytes)
    ensures Base64Decode(Base64Encode(b)) == b
    decreases |b|
  {
    if |b| == 0 {
    } else if |b| == 1 {
      OneByteQuantum(b);
    } else if |b| == 2 {
      TwoByteQuantum(b);
    } else if |b| == 3 {
      ThreeByteQuantum(b);
    } else {
      var g, rest := b[..3], b[3..];
      assert Base64Encode(b) == EncodeQuantum(g) + Base64Encode(rest);
      FullQuantumDecodes(g, Base64Encode(rest));
      Base64RoundTrip(rest);
      assert g + rest == b;
    }
  }

  /** The encoding of `n` bytes has `4 * ceil(n / 3)` characters. */
  lemma {:induction false} Base64Length(b: Bytes)
    ensures |Base64Encode(b)| == 4 * ((|b| + 2) / 3)
    decreases |b|
  {
    if |b| > 3 {
      Base64Length(b[3..]);
      assert Base64Encode(b) == EncodeQuantum(b[..3]) + Base64Encode(b[3..]);
      assert (|b| + 2) / 3 == (|b[3..]| + 2) / 3 + 1;
    }
  }

  /** Three more bytes need as many pads. */
  lemma PadCountStep(n: nat)
    ensures PadCount(n + 3) == PadCount(n)
  {
  }

  /** `r` is Table 1 digits followed by exactly `pads` characters `=`. */
  ghost predicate PaddedDigits(r: string, pads: nat)
  {
    pads <= |r| &&
    (forall i :: 0 <= i < |r| - pads ==> IsBase64Digit(r[i])) &&
    (forall i :: |r| - pads <= i < |r| ==> r[i] == Pad)
  }

  /** A quantum of `n` bytes is digits followed by `PadCount(n)` pads. */
  lemma QuantumPadded(g: Bytes)
    requires 1 <= |g| <= 3
    ensures PaddedDigits(EncodeQuantum(g), PadCount(|g|))
  {
  }

  /** Digits followed by well-padded text are well padded. */
  lemma DigitsThenPadded(q: string, t: string, pads: nat)
    requires PaddedDigits(q, 0) && PaddedDigits(t, pads)
    ensures PaddedDigits(q + t, pads)
  {
    assert forall i :: |q| <= i < |q + t| ==> (q + t)[i] == t[i - |q|];
  }

  /**
   * Every character of an encoding is a Table 1 digit except the last
   * `PadCount(|b|)`, which are `=`.
   */
  lemma {:induction false} Base64Alphabet(b: Bytes)
    ensures PaddedDigits(Base64Encode(b), PadCount(|b|))
    decreases |b|
  {
    if |b| == 0 {
    } else if |b| <= 3 {
      assert Base64Encode(b) == EncodeQuantum(b);
      QuantumPadded(b);
    } else {
      var g, rest := b[..3], b[3..];
      assert Base64Encode(b) == EncodeQuantum(g) + Base64Encode(rest);
      Base64Alphabet(rest);
      QuantumPadded(g);
      PadCountStep(|rest|);
      DigitsThenPadded(EncodeQuantum(g), Base64Encode(rest), PadCount(|rest|));
    }
  }

  /**
   * The test vectors of section 10 of RFC 4648 for "f", "fo" and "foobar":
   * the encoder uses the standard mapping of Table 1, not merely some
   * alphabet of 64 digits.
   */
  lemma Base64TestVectors()
    ensures Base64Encode([102]) == "Zg=="
    ensures Base64Encode([102, 111]) == "Zm8="
    ensures Base64Encode([102, 111, 111, 98, 97, 114]) == "Zm9vYmFy"
  {
    assert EncodeQuantum([102]) == "Zg==";
    assert EncodeQuantum([102, 111]) == "Zm8=";
    var foobar: Bytes := [102, 111, 111, 98, 97, 114];
    assert foobar[..3] == [102, 111, 111] && foobar[3..] == [98, 97, 114];
    assert EncodeQuantum([102, 111, 111]) == "Zm9v";
    assert EncodeQuantum([98, 97, 114]) == "YmFy";
  }

  /** Distinct byte sequences have distinct base64 encodings. */
  lemma Base64Injective(a: Bytes, b: Bytes)
    requires Base64Encode(a) == Base64Encode(b)
    ensures a == b
  {
    Base64RoundTrip(a);
    Base64RoundTrip(b);
  }

  /** Hex decoding inverts hex encoding. */
  lemma {:induction false} HexRoundTrip(b: Bytes)
    ensures HexDecode(HexEncode(b)) == b
  {
    if |b| > 0 {
      var s := HexEncode(b);
      assert s[2..] == HexEncode(b[1..]);
      HexRoundTrip(b[1..]);
      assert [b[0]] + b[1..] == b;
    }
  }

  /** Under either encoding, `stringToBuffer` inverts `bufferToString`. */
  lemma RoundTrip(b: Bytes, encoding: Encoding)
    ensures StringToBuffer(BufferToString(Buf(b), encoding), encoding) == b
  {
    match encoding
    case Base64 => Base64RoundTrip(b);
    case Hex => HexRoundTrip(b);
  }

  /** A producer and a consumer that both omit the encoding agree. */
  lemma DefaultRoundTrip(b: Bytes)
    ensures StringToBuffer(BufferToString(Buf(b))) == b
  {
    RoundTrip(b, DefaultEncoding);
  }

  /** A consumer that decodes with another encoding than the producer's gets other bytes. */
  lemma MismatchedEncodings()
    ensures BufferToString(Buf([0]), Base64) == "AA=="
    ensures StringToBuffer("AA==", Hex) == [170]
  {
    assert EncodeQuantum([0]) == "AA==";
    assert HexDecode("AA==") == [170] + HexDecode("==");
  }
}
