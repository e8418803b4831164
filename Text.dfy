/** The few JavaScript string operations the publisher relies on, with their
    ECMAScript meaning restricted as stated in each comment. */
module Text {
  import opened Wrappers

  /** The ECMAScript WhiteSpace and LineTerminator characters: the set matched by
      the regular expression class `\s` and removed by `String.prototype.trim`.
      Tested first against the printable ASCII range, where none of them lie. */
  predicate IsSpace(c: char) {
    if c <= ' ' then c == ' ' || '\t' <= c <= '\r'
    else if c < '\U{A0}' then false
    else
      c == '\U{A0}' || c == '\U{1680}' || ('\U{2000}' <= c <= '\U{200A}') ||
      c == '\U{2028}' || c == '\U{2029}' || c == '\U{202F}' || c == '\U{205F}' ||
      c == '\U{3000}' || c == '\U{FEFF}'
  }

  predicate NoSpace(s: string) {
    forall i :: 0 <= i < |s| ==> !IsSpace(s[i])
  }

  predicate AllSpace(s: string) {
    forall i :: 0 <= i < |s| ==> IsSpace(s[i])
  }

  /** `s.replace(/\s/g, '')` */
  function RemoveSpaces(s: string): string {
    if s == [] then []
    else if IsSpace(s[0]) then RemoveSpaces(s[1..])
    else [s[0]] + RemoveSpaces(s[1..])
  }

  /** Removal leaves no white space, keeps every other character (and no new
      one), and is the identity on a string without white space. */
  lemma {:induction false} RemoveSpacesShape(s: string)
    ensures NoSpace(RemoveSpaces(s))
    ensures |RemoveSpaces(s)| <= |s|
    ensures forall c :: c in RemoveSpaces(s) ==> c in s
    ensures NoSpace(s) ==> RemoveSpaces(s) == s
  {
    if s != [] {
      RemoveSpacesShape(s[1..]);
      if !IsSpace(s[0]) {
        var r := RemoveSpaces(s[1..]);
        assert RemoveSpaces(s) == [s[0]] + r;
        assert forall i :: 1 <= i < |r| + 1 ==> ([s[0]] + r)[i] == r[i - 1];
      }
    }
  }

  lemma {:induction false} RemoveSpacesAppend(a: string, b: string)
    ensures RemoveSpaces(a + b) == RemoveSpaces(a) + RemoveSpaces(b)
  {
    if a != [] {
      assert (a + b)[0] == a[0] && (a + b)[1..] == a[1..] + b;
      RemoveSpacesAppend(a[1..], b);
      if !IsSpace(a[0]) {
        assert [a[0]] + (RemoveSpaces(a[1..]) + RemoveSpaces(b)) == ([a[0]] + RemoveSpaces(a[1..])) + RemoveSpaces(b);
      }
    } else {
      assert a + b == b;
    }
  }

  /** `s.trimStart()`: drops the leading run of white space. */
  function TrimStart(s: string): (r: string)
    ensures |r| <= |s|
  {
    if s != [] && IsSpace(s[0]) then TrimStart(s[1..]) else s
  }

  /** What `trimStart` drops is white space, and what it keeps is a suffix
      that does not start with white space. */
  lemma {:induction false} TrimStartShape(s: string)
    ensures TrimStart(s) == s[|s| - |TrimStart(s)|..]
    ensures AllSpace(s[..|s| - |TrimStart(s)|])
    ensures TrimStart(s) == [] || !IsSpace(TrimStart(s)[0])
  {
    if s != [] && IsSpace(s[0]) {
      TrimStartShape(s[1..]);
      var k := |s| - |TrimStart(s)|;
      assert forall i :: 1 <= i < k ==> s[..k][i] == s[1..][..k - 1][i - 1];
    }
  }

  /** `s.trimEnd()`: drops the trailing run of white space. */
  function TrimEnd(s: string): (r: string)
    ensures |r| <= |s|
  {
    if s != [] && IsSpace(s[|s| - 1]) then TrimEnd(s[..|s| - 1]) else s
  }

  /** What `trimEnd` drops is white space, and what it keeps is a prefix that
      does not end with white space. */
  lemma {:induction false} TrimEndShape(s: string)
    ensures TrimEnd(s) == s[..|TrimEnd(s)|]
    ensures AllSpace(s[|TrimEnd(s)|..])
    ensures TrimEnd(s) == [] || !IsSpace(TrimEnd(s)[|TrimEnd(s)| - 1])
  {
    if s != [] && IsSpace(s[|s| - 1]) {
      var p := s[..|s| - 1];
      TrimEndShape(p);
      var k := |TrimEnd(s)|;
      assert forall i :: 0 <= i < |s| - k - 1 ==> s[k..][i] == p[k..][i];
    }
  }

  /** `s.trim()` */
  function Trim(s: string): string {
    TrimEnd(TrimStart(s))
  }

  lemma {:induction false} RemoveAllSpace(s: string)
    requires AllSpace(s)
    ensures RemoveSpaces(s) == []
  {
    if s != [] {
      RemoveAllSpace(s[1..]);
    }
  }

  lemma RemoveSpacesTrimStart(s: string)
    ensures RemoveSpaces(TrimStart(s)) == RemoveSpaces(s)
  {
    var t := TrimStart(s);
    var k := |s| - |t|;
    TrimStartShape(s);
    assert s == s[..k] + t;
    RemoveSpacesAppend(s[..k], t);
    RemoveAllSpace(s[..k]);
  }

  lemma RemoveSpacesTrimEnd(t: string)
    ensures RemoveSpaces(TrimEnd(t)) == RemoveSpaces(t)
  {
    var u := TrimEnd(t);
    TrimEndShape(t);
    assert t == u + t[|u|..];
    RemoveSpacesAppend(u, t[|u|..]);
    RemoveAllSpace(t[|u|..]);
  }

  /** Trimming before removing every white-space character changes nothing. */
  lemma TrimThenRemoveSpaces(s: string)
    ensures RemoveSpaces(Trim(s)) == RemoveSpaces(s)
  {
    RemoveSpacesTrimStart(s);
    RemoveSpacesTrimEnd(TrimStart(s));
  }

  predicate StartsWith(s: string, prefix: string) {
    |prefix| <= |s| && s[..|prefix|] == prefix
  }

  predicate EndsWith(s: string, suffix: string) {
    |suffix| <= |s| && s[|s| - |suffix|..] == suffix
  }

  /** ASCII `toLowerCase` of one character. */
  function LowerChar(c: char): (r: char)
    ensures 'A' <= c <= 'Z' ==> r as int == c as int + 32
    ensures !('A' <= c <= 'Z') ==> r == c
  {
    if 'A' <= c <= 'Z' then (c as int + 32) as char else c
  }

  /** `s.toLowerCase()`, restricted to the ASCII letters. */
  function Lower(s: string): (r: string)
    ensures |r| == |s|
  {
    if s == [] then [] else [LowerChar(s[0])] + Lower(s[1..])
  }

  /** Lower-casing works character by character. */
  lemma {:induction false} LowerPointwise(s: string)
    ensures forall i :: 0 <= i < |s| ==> Lower(s)[i] == LowerChar(s[i])
  {
    if s != [] {
      LowerPointwise(s[1..]);
      assert forall i :: 1 <= i < |s| ==> Lower(s)[i] == Lower(s[1..])[i - 1];
    }
  }

  lemma {:induction false} LowerIdempotent(s: string)
    ensures Lower(Lower(s)) == Lower(s)
  {
    if s != [] {
      var l := Lower(s);
      assert l[0] == LowerChar(s[0]) && l[1..] == Lower(s[1..]);
      LowerIdempotent(s[1..]);
    }
  }

  lemma {:induction false} LowerAppend(a: string, b: string)
    ensures Lower(a + b) == Lower(a) + Lower(b)
  {
    if a != [] {
      assert (a + b)[0] == a[0] && (a + b)[1..] == a[1..] + b;
      LowerAppend(a[1..], b);
    } else {
      assert a + b == b;
    }
  }

  /** `s.replace(/\s+/g, '-')`: every maximal run of white space becomes one hyphen. */
  function Hyphenate(s: string): string
    decreases |s|
  {
    if s == [] then []
    else if IsSpace(s[0]) then "-" + Hyphenate(TrimStart(s[1..]))
    else [s[0]] + Hyphenate(s[1..])
  }

  /** Hyphenation leaves no white space, never lengthens the string, and is
      the identity on a string without white space. */
  lemma {:induction false} HyphenateShape(s: string)
    ensures NoSpace(Hyphenate(s))
    ensures |Hyphenate(s)| <= |s|
    ensures NoSpace(s) ==> Hyphenate(s) == s
    decreases |s|
  {
    if s != [] {
      var r := Hyphenate(s);
      if IsSpace(s[0]) {
        var t := Hyphenate(TrimStart(s[1..]));
        HyphenateShape(TrimStart(s[1..]));
        assert r == "-" + t;
        assert forall i :: 1 <= i < |r| ==> r[i] == t[i - 1];
      } else {
        var t := Hyphenate(s[1..]);
        HyphenateShape(s[1..]);
        assert r == [s[0]] + t;
        assert forall i :: 1 <= i < |r| ==> r[i] == t[i - 1];
        if NoSpace(s) {
          assert NoSpace(s[1..]) by {
            assert forall i :: 0 <= i < |s| - 1 ==> s[1..][i] == s[i + 1];
          }
        }
      }
    }
  }

  lemma {:induction false} TrimStartRun(w: string, b: string)
    requires AllSpace(w)
    requires b == [] || !IsSpace(b[0])
    ensures TrimStart(w + b) == b
  {
    if w != [] {
      assert (w + b)[0] == w[0] && (w + b)[1..] == w[1..] + b;
      TrimStartRun(w[1..], b);
    }
  }

  /** A run of white space that starts the string becomes exactly one hyphen. */
  lemma HyphenateRun(w: string, b: string)
    requires w != [] && AllSpace(w)
    requires b == [] || !IsSpace(b[0])
    ensures Hyphenate(w + b) == "-" + Hyphenate(b)
  {
    assert (w + b)[0] == w[0] && (w + b)[1..] == w[1..] + b;
    TrimStartRun(w[1..], b);
  }

  /** Lower-casing and hyphenation commute, so the order in which the tag
      slug and the media file name apply them does not matter. */
  lemma {:induction false} HyphenateLower(s: string)
    ensures Hyphenate(Lower(s)) == Lower(Hyphenate(s))
    decreases |s|
  {
    if s != [] {
      var l := Lower(s);
      assert l[1..] == Lower(s[1..]);
      if IsSpace(s[0]) {
        var t := TrimStart(s[1..]);
        assert TrimStart(l[1..]) == Lower(t) by { TrimStartLower(s[1..]); }
        HyphenateLower(t);
        LowerAppend("-", Hyphenate(t));
      } else {
        HyphenateLower(s[1..]);
        LowerAppend([s[0]], Hyphenate(s[1..]));
      }
    }
  }

  lemma {:induction false} TrimStartLower(s: string)
    ensures TrimStart(Lower(s)) == Lower(TrimStart(s))
  {
    if s != [] && IsSpace(s[0]) {
      assert Lower(s)[1..] == Lower(s[1..]);
      TrimStartLower(s[1..]);
    }
  }

  /** `s.split(' ')[0]`: the text before the first space character (the whole
      string when there is none). */
  function FirstWord(s: string): (r: string)
    ensures StartsWith(s, r)
    ensures ' ' !in r
    ensures r == s || s[|r|] == ' '
  {
    if s == [] || s[0] == ' ' then [] else [s[0]] + FirstWord(s[1..])
  }

  predicate IsDigit(c: char) {
    '0' <= c <= '9'
  }

  predicate AllDigits(s: string) {
    forall i :: 0 <= i < |s| ==> IsDigit(s[i])
  }

  /** The digits `parseInt` accepts in base 10 and, after a `0x` prefix, in base 16. */
  predicate IsRadixDigit(c: char, hex: bool) {
    IsDigit(c) || (hex && ('a' <= c <= 'f' || 'A' <= c <= 'F'))
  }

  function DigitValue(c: char, hex: bool): (d: nat)
    requires IsRadixDigit(c, hex)
    ensures d < Radix(hex)
  {
    if IsDigit(c) then c as int - '0' as int
    else if 'a' <= c <= 'f' then c as int - 'a' as int + 10
    else c as int - 'A' as int + 10
  }

  function Radix(hex: bool): nat {
    if hex then 16 else 10
  }

  function DigitChar(d: nat): (c: char)
    requires d < 10
    ensures IsDigit(c) && DigitValue(c, false) == d
  {
    (d + '0' as int) as char
  }

  /** The decimal text of a number, as template literals and `String(n)` write
      a non-negative integer. */
  function NatToString(n: nat): (r: string)
    ensures r != [] && AllDigits(r)
  {
    if n < 10 then [DigitChar(n)] else NatToString(n / 10) + [DigitChar(n % 10)]
  }

  /** The value of a digit string, most significant digit first. */
  function DigitsValue(ds: string, hex: bool): nat
    requires forall i :: 0 <= i < |ds| ==> IsRadixDigit(ds[i], hex)
  {
    if ds == [] then 0
    else DigitsValue(ds[..|ds| - 1], hex) * Radix(hex) + DigitValue(ds[|ds| - 1], hex)
  }

  /** The longest prefix of `s` made of digits of the radix. */
  function DigitPrefix(s: string, hex: bool): (r: string)
    ensures StartsWith(s, r)
    ensures forall i :: 0 <= i < |r| ==> IsRadixDigit(r[i], hex)
    ensures r == s || !IsRadixDigit(s[|r|], hex)
  {
    if s == [] || !IsRadixDigit(s[0], hex) then [] else [s[0]] + DigitPrefix(s[1..], hex)
  }

  /** What `parseInt` reads its number from: `s` after its leading white space
      and one sign. */
  function Unsigned(s: string): string {
    var t := TrimStart(s);
    if t != [] && (t[0] == '-' || t[0] == '+') then t[1..] else t
  }

  /** A `0x`/`0X` prefix, which selects base 16. */
  predicate HexPrefix(u: string) {
    |u| >= 2 && u[0] == '0' && (u[1] == 'x' || u[1] == 'X')
  }

  /** `parseInt(s)` with no radix argument: leading white space is skipped, one
      sign is read, a `0x`/`0X` prefix selects base 16, and the longest run of
      digits that follows is the value; no digit at all gives `NaN` (None).
      Rounding of values beyond 2^53 is not modelled. */
  function ParseInt(s: string): Option<int> {
    var t := TrimStart(s);
    var negative := t != [] && t[0] == '-';
    var u := Unsigned(s);
    var hex := HexPrefix(u);
    var ds := DigitPrefix(if hex then u[2..] else u, hex);
    var magnitude: int := if ds == [] then 0 else DigitsValue(ds, hex);
    if ds == [] then None
    else if negative then Some(-magnitude)
    else Some(magnitude)
  }

  /** `parseInt` gives `NaN` exactly when no decimal digit follows the white
      space and the sign, or when `0x` is followed by no hexadecimal digit. */
  lemma ParseIntNaN(s: string)
    ensures var u := Unsigned(s);
      ParseInt(s).None? <==>
        u == [] || !IsDigit(u[0]) || (HexPrefix(u) && (|u| == 2 || !IsRadixDigit(u[2], true)))
  {
    var u := Unsigned(s);
    if HexPrefix(u) && |u| > 2 {
      assert u[2..][0] == u[2];
    }
  }

  lemma {:induction false} NatToStringValue(n: nat)
    ensures DigitsValue(NatToString(n), false) == n
  {
    var r := NatToString(n);
    if n >= 10 {
      NatToStringValue(n / 10);
      assert r[..|r| - 1] == NatToString(n / 10);
    }
  }

  /** `parseInt(String(n)) == n`: a numeric id written as text reads back as itself. */
  lemma ParseIntNatToString(n: nat)
    ensures ParseInt(NatToString(n)) == Some(n)
  {
    var r := NatToString(n);
    assert IsDigit(r[0]) && !IsSpace(r[0]);
    assert TrimStart(r) == r;
    assert r[0] != '-' && r[0] != '+';
    assert |r| >= 2 ==> IsDigit(r[1]);
    DigitPrefixAll(r);
    NatToStringValue(n);
  }

  lemma {:induction false} DigitPrefixAll(s: string)
    requires AllDigits(s)
    ensures DigitPrefix(s, false) == s
  {
    if s != [] {
      DigitPrefixAll(s[1..]);
    }
  }
}
