/** `btoa`: the base64 encoding of section 4 of RFC 4648, applied to a string
    whose characters are Latin-1 bytes, and its inverse. */
module Base64 {
  import opened Wrappers

  /** `btoa` throws `InvalidCharacterError` for any character above U+00FF. */
  predicate IsLatin1(s: string) {
    forall i :: 0 <= i < |s| ==> s[i] as int < 256
  }

  /** The character of one 6-bit value in the base64 alphabet. */
  function SextetChar(v: nat): (c: char)
    requires v < 64
  {
    if v < 26 then (v + 'A' as int) as char
    else if v < 52 then (v - 26 + 'a' as int) as char
    else if v < 62 then (v - 52 + '0' as int) as char
    else if v == 62 then '+'
    else '/'
  }

  predicate IsSextetChar(c: char) {
    'A' <= c <= 'Z' || 'a' <= c <= 'z' || '0' <= c <= '9' || c == '+' || c == '/'
  }

  function SextetValue(c: char): (v: nat)
    requires IsSextetChar(c)
    ensures v < 64
  {
    if 'A' <= c <= 'Z' then c as int - 'A' as int
    else if 'a' <= c <= 'z' then c as int - 'a' as int + 26
    else if '0' <= c <= '9' then c as int - '0' as int + 52
    else if c == '+' then 62
    else 63
  }

  lemma SextetRoundTrip(v: nat)
    requires v < 64
    ensures IsSextetChar(SextetChar(v)) && SextetValue(SextetChar(v)) == v
  {
  }

  function Byte(c: char): (b: nat)
    requires c as int < 256
    ensures b < 256
  {
    c as int
  }

  /** Encodes groups of three bytes as four characters; a final group of one or
      two bytes is padded with `==` or `=`. */
  function Encode(s: string): (r: string)
    requires IsLatin1(s)
    ensures |r| % 4 == 0
  {
    if s == [] then []
    else if |s| == 1 then
      [SextetChar(Byte(s[0]) / 4), SextetChar(Byte(s[0]) % 4 * 16)] + "=="
    else if |s| == 2 then
      [SextetChar(Byte(s[0]) / 4), SextetChar(Byte(s[0]) % 4 * 16 + Byte(s[1]) / 16),
       SextetChar(Byte(s[1]) % 16 * 4)] + "="
    else
      [SextetChar(Byte(s[0]) / 4), SextetChar(Byte(s[0]) % 4 * 16 + Byte(s[1]) / 16),
       SextetChar(Byte(s[1]) % 16 * 4 + Byte(s[2]) / 64), SextetChar(Byte(s[2]) % 64)]
      + Encode(s[3..])
  }

  /** `btoa(s)`; None stands for the exception thrown on a non-Latin-1 character. */
  function Btoa(s: string): (r: Option<string>)
    ensures r.Some? <==> IsLatin1(s)
  {
    if IsLatin1(s) then Some(Encode(s)) else None
  }

  /** The three bytes a group of four characters carries. */
  function FirstByte(c0: char, c1: char): (b: char)
    requires IsSextetChar(c0) && IsSextetChar(c1)
    ensures b as int < 256
  {
    (SextetValue(c0) * 4 + SextetValue(c1) / 16) as char
  }

  function SecondByte(c1: char, c2: char): (b: char)
    requires IsSextetChar(c1) && IsSextetChar(c2)
    ensures b as int < 256
  {
    (SextetValue(c1) % 16 * 16 + SextetValue(c2) / 4) as char
  }

  function ThirdByte(c2: char, c3: char): (b: char)
    requires IsSextetChar(c2) && IsSextetChar(c3)
    ensures b as int < 256
  {
    (SextetValue(c2) % 4 * 64 + SextetValue(c3)) as char
  }

  /** Strict decoding of padded base64 text; None for text that is not the
      encoding of any byte string. */
  function Decode(t: string): Option<string>
  {
    if t == [] then Some([])
    else if |t| < 4 || !IsSextetChar(t[0]) || !IsSextetChar(t[1]) then None
    else if |t| == 4 && t[2] == '=' && t[3] == '=' then
      Some([FirstByte(t[0], t[1])])
    else if !IsSextetChar(t[2]) then None
    else if |t| == 4 && t[3] == '=' then
      Some([FirstByte(t[0], t[1]), SecondByte(t[1], t[2])])
    else if !IsSextetChar(t[3]) then None
    else
      match Decode(t[4..])
      case None => None
      case Some(rest) =>
        Some([FirstByte(t[0], t[1]), SecondByte(t[1], t[2]),
              ThirdByte(t[2], t[3])] + rest)
  }

  lemma DivMod16(q: int, r: int)
    requires 0 <= r < 16
    ensures (q * 16 + r) / 16 == q && (q * 16 + r) % 16 == r
  {
  }

  lemma DivMod4(q: int, r: int)
    requires 0 <= r < 4
    ensures (q * 4 + r) / 4 == q && (q * 4 + r) % 4 == r
  {
  }

  lemma FirstByteRoundTrip(b0: nat, b1: nat)
    requires b0 < 256 && b1 < 256
    ensures IsSextetChar(SextetChar(b0 / 4)) && IsSextetChar(SextetChar(b0 % 4 * 16 + b1 / 16))
    ensures FirstByte(SextetChar(b0 / 4), SextetChar(b0 % 4 * 16 + b1 / 16)) as int == b0
  {
    var hi, lo := b0 / 4, b0 % 4 * 16 + b1 / 16;
    SextetRoundTrip(hi);
    SextetRoundTrip(lo);
    DivMod16(b0 % 4, b1 / 16);
  }

  lemma SecondByteRoundTrip(b0: nat, b1: nat, b2: nat)
    requires b0 < 256 && b1 < 256 && b2 < 256
    ensures IsSextetChar(SextetChar(b0 % 4 * 16 + b1 / 16)) && IsSextetChar(SextetChar(b1 % 16 * 4 + b2 / 64))
    ensures SecondByte(SextetChar(b0 % 4 * 16 + b1 / 16), SextetChar(b1 % 16 * 4 + b2 / 64)) as int == b1
  {
    var hi, lo := b0 % 4 * 16 + b1 / 16, b1 % 16 * 4 + b2 / 64;
    SextetRoundTrip(hi);
    SextetRoundTrip(lo);
    DivMod16(b0 % 4, b1 / 16);
    DivMod4(b1 % 16, b2 / 64);
  }

  lemma ThirdByteRoundTrip(b1: nat, b2: nat)
    requires b1 < 256 && b2 < 256
    ensures IsSextetChar(SextetChar(b1 % 16 * 4 + b2 / 64)) && IsSextetChar(SextetChar(b2 % 64))
    ensures ThirdByte(SextetChar(b1 % 16 * 4 + b2 / 64), SextetChar(b2 % 64)) as int == b2
  {
    var hi, lo := b1 % 16 * 4 + b2 / 64, b2 % 64;
    SextetRoundTrip(hi);
    SextetRoundTrip(lo);
    DivMod4(b1 % 16, b2 / 64);
  }

  lemma DecodeEncodeOne(s: string)
    requires IsLatin1(s) && |s| == 1
    ensures Decode(Encode(s)) == Some(s)
  {
    var b0 := Byte(s[0]);
    var c0, c1 := SextetChar(b0 / 4), SextetChar(b0 % 4 * 16);
    FirstByteRoundTrip(b0, 0);
    assert Encode(s) == [c0, c1, '=', '='];
    DecodePadded2(c0, c1);
    assert [FirstByte(c0, c1)] == s;
  }

  lemma DecodePadded2(c0: char, c1: char)
    requires IsSextetChar(c0) && IsSextetChar(c1)
    ensures Decode([c0, c1, '=', '=']) == Some([FirstByte(c0, c1)])
  {
  }

  lemma DecodeEncodeTwo(s: string)
    requires IsLatin1(s) && |s| == 2
    ensures Decode(Encode(s)) == Some(s)
  {
    var b0, b1 := Byte(s[0]), Byte(s[1]);
    var c0, c1, c2 := SextetChar(b0 / 4), SextetChar(b0 % 4 * 16 + b1 / 16), SextetChar(b1 % 16 * 4);
    FirstByteRoundTrip(b0, b1);
    SecondByteRoundTrip(b0, b1, 0);
    assert Encode(s) == [c0, c1, c2, '='];
    DecodePadded1(c0, c1, c2);
    assert [FirstByte(c0, c1), SecondByte(c1, c2)] == s;
  }

  lemma DecodePadded1(c0: char, c1: char, c2: char)
    requires IsSextetChar(c0) && IsSextetChar(c1) && IsSextetChar(c2)
    ensures Decode([c0, c1, c2, '=']) == Some([FirstByte(c0, c1), SecondByte(c1, c2)])
  {
  }

  lemma DecodeGroup(c0: char, c1: char, c2: char, c3: char, rest: string, bytes: string)
    requires IsSextetChar(c0) && IsSextetChar(c1) && IsSextetChar(c2) && IsSextetChar(c3)
    requires Decode(rest) == Some(bytes)
    ensures Decode([c0, c1, c2, c3] + rest) ==
      Some([FirstByte(c0, c1), SecondByte(c1, c2), ThirdByte(c2, c3)] + bytes)
  {
    var t := [c0, c1, c2, c3] + rest;
    assert t[4..] == rest;
  }

  /** The first four characters of an encoding of three or more bytes, and the
      bytes they decode to. */
  lemma EncodeGroup(s: string) returns (c0: char, c1: char, c2: char, c3: char)
    requires IsLatin1(s) && |s| >= 3
    ensures Encode(s) == [c0, c1, c2, c3] + Encode(s[3..])
    ensures IsSextetChar(c0) && IsSextetChar(c1) && IsSextetChar(c2) && IsSextetChar(c3)
    ensures FirstByte(c0, c1) == s[0] && SecondByte(c1, c2) == s[1] && ThirdByte(c2, c3) == s[2]
  {
    var b0, b1, b2 := Byte(s[0]), Byte(s[1]), Byte(s[2]);
    c0, c1 := SextetChar(b0 / 4), SextetChar(b0 % 4 * 16 + b1 / 16);
    c2, c3 := SextetChar(b1 % 16 * 4 + b2 / 64), SextetChar(b2 % 64);
    FirstByteRoundTrip(b0, b1);
    SecondByteRoundTrip(b0, b1, b2);
    ThirdByteRoundTrip(b1, b2);
  }

  /** One more group in front of a string that round-trips. */
  lemma DecodeEncodeGroup(s: string)
    requires IsLatin1(s) && |s| >= 3
    requires Decode(Encode(s[3..])) == Some(s[3..])
    ensures Decode(Encode(s)) == Some(s)
  {
    var c0, c1, c2, c3 := EncodeGroup(s);
    DecodeGroup(c0, c1, c2, c3, Encode(s[3..]), s[3..]);
    SplitThree(s);
  }

  lemma SplitThree(s: string)
    requires |s| >= 3
    ensures s == [s[0], s[1], s[2]] + s[3..]
  {
  }

  /** Decoding undoes encoding, so `btoa` is injective on the strings it accepts. */
  lemma {:induction false} DecodeEncode(s: string)
    requires IsLatin1(s)
    ensures Decode(Encode(s)) == Some(s)
  {
    if |s| == 1 {
      DecodeEncodeOne(s);
    } else if |s| == 2 {
      DecodeEncodeTwo(s);
    } else if |s| >= 3 {
      assert IsLatin1(s[3..]);
      DecodeEncode(s[3..]);
      DecodeEncodeGroup(s);
    }
  }

  lemma BtoaInjective(a: string, b: string)
    requires Btoa(a).Some? && Btoa(a) == Btoa(b)
    ensures a == b
  {
    DecodeEncode(a);
    DecodeEncode(b);
  }
}
