/** The base64 encoding of section 4 of RFC 4648 (standard alphabet, `=`
    padding), as used for audio data at both speech endpoints. */
module Base64 {
  import opened Wrappers

  type Byte = b: int | 0 <= b < 256

  /** A 6-bit value. */
  type Sextet = v: int | 0 <= v < 64

  /** The character of the alphabet for value v (Table 1 of RFC 4648). */
  function EncodeChar(v: Sextet): (c: char)
    ensures IsAlphabetChar(c)
    ensures CharValue(c) == v
  {
    if v < 26 then (v + 'A' as int) as char
    else if v < 52 then (v - 26 + 'a' as int) as char
    else if v < 62 then (v - 52 + '0' as int) as char
    else if v == 62 then '+'
    else '/'
  }

  predicate IsAlphabetChar(c: char) {
    'A' <= c <= 'Z' || 'a' <= c <= 'z' || '0' <= c <= '9' || c == '+' || c == '/'
  }

  /** The value of an alphabet character. */
  function CharValue(c: char): Sextet
    requires IsAlphabetChar(c)
  {
    if 'A' <= c <= 'Z' then c as int - 'A' as int
    else if 'a' <= c <= 'z' then c as int - 'a' as int + 26
    else if '0' <= c <= '9' then c as int - '0' as int + 52
    else if c == '+' then 62
    else 63
  }

  /** Distinct values are written as distinct characters. */
  lemma EncodeCharInjective(v: Sextet, w: Sextet)
    requires EncodeChar(v) == EncodeChar(w)
    ensures v == w
  {
    assert CharValue(EncodeChar(v)) == v;
  }

  /** Three bytes become four characters. */
  function EncodeGroup(b0: Byte, b1: Byte, b2: Byte): (r: string)
    ensures |r| == 4
  {
    [EncodeChar(b0 / 4), EncodeChar((b0 % 4) * 16 + b1 / 16),
     EncodeChar((b1 % 16) * 4 + b2 / 64), EncodeChar(b2 % 64)]
  }

  /** The input length is not a multiple of three: the last one or two bytes
      are written with zero-filled bits and padded with `=` (section 4, cases 2 and 3). */
  function EncodeTail(bytes: seq<Byte>): (r: string)
    requires |bytes| < 3
    ensures |r| == if bytes == [] then 0 else 4
  {
    if |bytes| == 0 then []
    else if |bytes| == 1 then [EncodeChar(bytes[0] / 4), EncodeChar((bytes[0] % 4) * 16), '=', '=']
    else [EncodeChar(bytes[0] / 4), EncodeChar((bytes[0] % 4) * 16 + bytes[1] / 16),
          EncodeChar((bytes[1] % 16) * 4), '=']
  }

  /** `base64.b64encode`. */
  function Encode(bytes: seq<Byte>): (r: string)
    ensures |r| % 4 == 0
    ensures |r| == 4 * ((|bytes| + 2) / 3)
  {
    if |bytes| < 3 then EncodeTail(bytes)
    else EncodeGroup(bytes[0], bytes[1], bytes[2]) + Encode(bytes[3..])
  }

  /** Four alphabet characters become three bytes. */
  function DecodeGroup(c0: char, c1: char, c2: char, c3: char): seq<Byte>
    requires IsAlphabetChar(c0) && IsAlphabetChar(c1) && IsAlphabetChar(c2) && IsAlphabetChar(c3)
  {
    var v0, v1, v2, v3 := CharValue(c0), CharValue(c1), CharValue(c2), CharValue(c3);
    [v0 * 4 + v1 / 16, (v1 % 16) * 16 + v2 / 4, (v2 % 4) * 64 + v3]
  }

  /** The last quantum: four characters, of which the last one or two may be padding. */
  function DecodeLast(c0: char, c1: char, c2: char, c3: char): Option<seq<Byte>> {
    if !IsAlphabetChar(c0) || !IsAlphabetChar(c1) then None
    else if c2 == '=' && c3 == '=' then
      Some([CharValue(c0) * 4 + CharValue(c1) / 16])
    else if IsAlphabetChar(c2) && c3 == '=' then
      Some([CharValue(c0) * 4 + CharValue(c1) / 16, (CharValue(c1) % 16) * 16 + CharValue(c2) / 4])
    else if IsAlphabetChar(c2) && IsAlphabetChar(c3) then
      Some(DecodeGroup(c0, c1, c2, c3))
    else None
  }

  /** `base64.b64decode` on well-formed input: a whole number of four-character
      quanta, padding only at the end. Anything else is rejected. */
  function Decode(s: string): Option<seq<Byte>>
    decreases |s|
  {
    if s == [] then Some([])
    else if |s| < 4 || |s| % 4 != 0 then None
    else if |s| == 4 then DecodeLast(s[0], s[1], s[2], s[3])
    else if IsAlphabetChar(s[0]) && IsAlphabetChar(s[1]) && IsAlphabetChar(s[2]) && IsAlphabetChar(s[3]) then
      match Decode(s[4..])
      case None => None
      case Some(rest) => Some(DecodeGroup(s[0], s[1], s[2], s[3]) + rest)
    else None
  }

  lemma GroupRoundTrip(b0: Byte, b1: Byte, b2: Byte)
    ensures var e := EncodeGroup(b0, b1, b2);
      && IsAlphabetChar(e[0]) && IsAlphabetChar(e[1]) && IsAlphabetChar(e[2]) && IsAlphabetChar(e[3])
      && DecodeGroup(e[0], e[1], e[2], e[3]) == [b0, b1, b2]
  {
    var v1 := (b0 % 4) * 16 + b1 / 16;
    var v2 := (b1 % 16) * 4 + b2 / 64;
    assert v1 / 16 == b0 % 4 && v1 % 16 == b1 / 16;
    assert v2 / 4 == b1 % 16 && v2 % 4 == b2 / 64;
  }

  lemma TailRoundTrip(bytes: seq<Byte>)
    requires 0 < |bytes| < 3
    ensures var e := EncodeTail(bytes); DecodeLast(e[0], e[1], e[2], e[3]) == Some(bytes)
  {
    var v1 := (bytes[0] % 4) * 16;
    assert v1 / 16 == bytes[0] % 4;
    if |bytes| == 2 {
      var w1 := (bytes[0] % 4) * 16 + bytes[1] / 16;
      var w2 := (bytes[1] % 16) * 4;
      assert w1 / 16 == bytes[0] % 4 && w1 % 16 == bytes[1] / 16;
      assert w2 / 4 == bytes[1] % 16;
      assert bytes == [bytes[0], bytes[1]];
    } else {
      assert bytes == [bytes[0]];
    }
  }

  /** Decoding what was encoded gives back the original bytes. */
  lemma {:induction false} DecodeEncode(bytes: seq<Byte>)
    ensures Decode(Encode(bytes)) == Some(bytes)
    decreases |bytes|
  {
    if |bytes| == 0 {
    } else if |bytes| < 3 {
      TailRoundTrip(bytes);
    } else {
      var e := Encode(bytes);
      var head := EncodeGroup(bytes[0], bytes[1], bytes[2]);
      var rest := bytes[3..];
      DecodeEncode(rest);
      GroupRoundTrip(bytes[0], bytes[1], bytes[2]);
      assert e == head + Encode(rest);
      assert e[4..] == Encode(rest);
      assert e[0] == head[0] && e[1] == head[1] && e[2] == head[2] && e[3] == head[3];
      assert bytes == [bytes[0], bytes[1], bytes[2]] + rest;
      if rest == [] {
        assert e == head;
        assert Decode(e) == DecodeLast(e[0], e[1], e[2], e[3]);
        assert e[2] != '=' && e[3] != '=';
        assert bytes == [bytes[0], bytes[1], bytes[2]];
      } else {
        assert |e| > 4;
      }
    }
  }

  /** The short encoding examples of section 10 of RFC 4648, which pin the
      standard alphabet and both kinds of padding. */
  lemma StandardVectors()
    ensures Encode([102]) == "Zg=="
    ensures Encode([102, 111]) == "Zm8="
    ensures Encode([102, 111, 111]) == "Zm9v"
  {
    assert EncodeChar(25) == 'Z' && EncodeChar(32) == 'g' && EncodeChar(38) == 'm';
    assert EncodeChar(60) == '8' && EncodeChar(61) == '9' && EncodeChar(47) == 'v';
  }

  /** The six-byte example of section 10 of RFC 4648: groups are encoded in order. */
  lemma FoobarVector()
    ensures Encode([102, 111, 111, 98, 97, 114]) == "Zm9vYmFy"
  {
    StandardVectors();
    assert EncodeChar(24) == 'Y' && EncodeChar(38) == 'm' && EncodeChar(5) == 'F' && EncodeChar(50) == 'y';
    assert EncodeGroup(98, 97, 114) == "YmFy";
    var foobar: seq<Byte> := [102, 111, 111, 98, 97, 114];
    assert foobar[3..] == [98, 97, 114];
    assert foobar[..3] == [102, 111, 111];
  }

  /** The last two characters of the alphabet are `+` and `/`. */
  lemma HighValueVector()
    ensures Encode([251, 255]) == "+/8="
  {
    assert EncodeChar(62) == '+' && EncodeChar(63) == '/' && EncodeChar(60) == '8';
  }

  /** Every character of an encoding is from the alphabet or the padding character. */
  lemma EncodeAlphabet(bytes: seq<Byte>)
    ensures forall k :: 0 <= k < |Encode(bytes)| ==> IsAlphabetChar(Encode(bytes)[k]) || Encode(bytes)[k] == '='
  {
  }
}
