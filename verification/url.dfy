/** Percent-encoding as Go's `net/url` applies it to the UTF-8 bytes of a
    string, in its two flavours: query components, where a space is written
    `+` (`url.QueryEscape`), and URL user information, where `+` is an
    ordinary character and a space must be written `%20`. */
module Url {
  import opened Wrappers

  newtype byte = x: int | 0 <= x < 256

  const Space: byte := 0x20
  const Plus: byte := 0x2B

  const UpperHex: string := "0123456789ABCDEF"

  /** The characters every mode keeps as they are: letters, digits and `-_.~`. */
  predicate Unreserved(c: char) {
    || 'a' <= c <= 'z'
    || 'A' <= c <= 'Z'
    || '0' <= c <= '9'
    || c == '-' || c == '_' || c == '.' || c == '~'
  }

  /** The characters an escaped component is made of. */
  predicate EscapedChar(c: char) {
    Unreserved(c) || c == '%' || c == '+'
  }

  /** The UTF-8 encoding of one Unicode scalar value. */
  function Utf8(c: char): (bs: seq<byte>)
    ensures 1 <= |bs| <= 4
    ensures |bs| == 1 <==> c as int < 0x80
    ensures c as int < 0x80 ==> bs[0] as int == c as int
    ensures |bs| > 1 ==> forall k :: 0 <= k < |bs| ==> 0x80 <= bs[k]
  {
    var n := c as int;
    if n < 0x80 then [n as byte]
    else if n < 0x800 then [(0xC0 + n / 64) as byte, (0x80 + n % 64) as byte]
    else if n < 0x10000 then
      [(0xE0 + n / 4096) as byte, (0x80 + n / 64 % 64) as byte, (0x80 + n % 64) as byte]
    else
      [(0xF0 + n / 262144) as byte, (0x80 + n / 4096 % 64) as byte,
       (0x80 + n / 64 % 64) as byte, (0x80 + n % 64) as byte]
  }

  /** The UTF-8 encoding of a string: Go strings are these bytes. */
  function Utf8Encode(s: string): (bs: seq<byte>)
    ensures |bs| >= |s|
  {
    if |s| == 0 then [] else Utf8(s[0]) + Utf8Encode(s[1..])
  }

  /** Only the space character puts a space byte into UTF-8. */
  lemma {:induction false} SpaceInUtf8(s: string)
    ensures Space in Utf8Encode(s) <==> ' ' in s
  {
    if |s| > 0 {
      SpaceInUtf8(s[1..]);
      assert Utf8Encode(s) == Utf8(s[0]) + Utf8Encode(s[1..]);
      assert Space in Utf8(s[0]) <==> s[0] == ' ';
      assert s == [s[0]] + s[1..];
    }
  }

  /** The character of an ASCII byte. */
  function AsChar(b: byte): char
    requires b < 0x80
  {
    (b as int) as char
  }

  /** How one byte is written: unreserved ASCII as itself, the space as `+`
      when `plusForSpace`, anything else as `%` and two upper-case hex digits. */
  function EscapeByte(b: byte, plusForSpace: bool): (t: string)
    ensures forall k :: 0 <= k < |t| ==> EscapedChar(t[k])
    ensures '+' in t <==> plusForSpace && b == Space
  {
    if b < 0x80 && Unreserved(AsChar(b)) then [AsChar(b)]
    else if b == Space && plusForSpace then "+"
    else ['%', UpperHex[b as int / 16], UpperHex[b as int % 16]]
  }

  function EscapeBytes(bs: seq<byte>, plusForSpace: bool): (t: string)
    ensures forall k :: 0 <= k < |t| ==> EscapedChar(t[k])
  {
    if |bs| == 0 then ""
    else
      var head := EscapeByte(bs[0], plusForSpace);
      var tail := EscapeBytes(bs[1..], plusForSpace);
      assert forall k :: |head| <= k < |head| + |tail| ==> (head + tail)[k] == tail[k - |head|];
      head + tail
  }

  /** `url.QueryEscape`: the escaped form is made of unreserved characters,
      `%` and `+` only, so it holds none of the delimiters `:@/?&=` or a space. */
  function QueryEscape(s: string): (t: string)
    ensures forall k :: 0 <= k < |t| ==> EscapedChar(t[k])
    ensures ':' !in t && '@' !in t && '/' !in t && '?' !in t && '&' !in t && '=' !in t && ' ' !in t
  {
    EscapeBytes(Utf8Encode(s), true)
  }

  /** Escaping fit for the user-information part of a URL: like
      `QueryEscape`, except that a space is written `%20`. */
  function UserinfoEscape(s: string): (t: string)
    ensures forall k :: 0 <= k < |t| ==> EscapedChar(t[k])
    ensures ':' !in t && '@' !in t && '/' !in t && '?' !in t && '&' !in t && '=' !in t && ' ' !in t
  {
    EscapeBytes(Utf8Encode(s), false)
  }

  predicate IsHex(c: char) {
    '0' <= c <= '9' || 'a' <= c <= 'f' || 'A' <= c <= 'F'
  }

  function HexValue(c: char): (v: nat)
    requires IsHex(c)
    ensures v < 16
  {
    if '0' <= c <= '9' then c as int - '0' as int
    else if 'a' <= c <= 'f' then c as int - 'a' as int + 10
    else c as int - 'A' as int + 10
  }

  /** Prepends `bs` to a successful decoding. */
  function Prepend(bs: seq<byte>, r: Option<seq<byte>>): Option<seq<byte>> {
    match r
    case None => None
    case Some(rest) => Some(bs + rest)
  }

  /** Go's `url` unescaping: `%hh` is one byte, `+` is a space only when
      `plusIsSpace` (query components; in user information it stays `+`),
      any other character is its own UTF-8; a broken `%` escape is an error. */
  function Unescape(t: string, plusIsSpace: bool): Option<seq<byte>> {
    if |t| == 0 then Some([])
    else if t[0] == '%' then
      if |t| >= 3 && IsHex(t[1]) && IsHex(t[2]) then
        Prepend([(HexValue(t[1]) * 16 + HexValue(t[2])) as byte], Unescape(t[3..], plusIsSpace))
      else None
    else if t[0] == '+' && plusIsSpace then Prepend([Space], Unescape(t[1..], plusIsSpace))
    else Prepend(Utf8(t[0]), Unescape(t[1..], plusIsSpace))
  }

  /** Upper-case hex digits read back as their value. */
  lemma HexDigit(d: nat)
    requires d < 16
    ensures IsHex(UpperHex[d]) && HexValue(UpperHex[d]) == d
  {
    if d < 10 {
      assert UpperHex[d] as int == '0' as int + d;
    } else {
      assert UpperHex[d] as int == 'A' as int + d - 10;
    }
  }

  /** Decoding one escaped byte in front of any text yields that byte first,
      unless a space written `+` is read where `+` is not a space. */
  lemma UnescapeEscapedByte(b: byte, plusForSpace: bool, t: string, plusIsSpace: bool)
    requires plusForSpace && b == Space ==> plusIsSpace
    ensures Unescape(EscapeByte(b, plusForSpace) + t, plusIsSpace) == Prepend([b], Unescape(t, plusIsSpace))
  {
    var e := EscapeByte(b, plusForSpace);
    assert (e + t)[|e|..] == t;
    if b < 0x80 && Unreserved(AsChar(b)) {
      assert (e + t)[0] == AsChar(b);
    } else if b == Space && plusForSpace {
      assert (e + t)[0] == '+';
    } else {
      UnescapePercent(b, plusForSpace, t, plusIsSpace);
    }
  }

  lemma UnescapePercent(b: byte, plusForSpace: bool, t: string, plusIsSpace: bool)
    requires !(b < 0x80 && Unreserved(AsChar(b))) && !(b == Space && plusForSpace)
    ensures Unescape(EscapeByte(b, plusForSpace) + t, plusIsSpace) == Prepend([b], Unescape(t, plusIsSpace))
  {
    var hi, lo := b as int / 16, b as int % 16;
    var u := EscapeByte(b, plusForSpace) + t;
    assert u[0] == '%' && u[1] == UpperHex[hi] && u[2] == UpperHex[lo];
    assert u[3..] == t;
    HexDigit(hi);
    HexDigit(lo);
  }

  /** Decoding undoes encoding, for every byte string, as long as a space was
      not written `+` for a reader that keeps `+` as it is. */
  lemma {:induction false} UnescapeEscapeBytes(bs: seq<byte>, plusForSpace: bool, plusIsSpace: bool)
    requires plusForSpace && Space in bs ==> plusIsSpace
    ensures Unescape(EscapeBytes(bs, plusForSpace), plusIsSpace) == Some(bs)
  {
    if |bs| > 0 {
      assert bs == [bs[0]] + bs[1..];
      UnescapeEscapeBytes(bs[1..], plusForSpace, plusIsSpace);
      UnescapeEscapedByte(bs[0], plusForSpace, EscapeBytes(bs[1..], plusForSpace), plusIsSpace);
    }
  }

  /** `url.QueryEscape` loses nothing for a query-component reader: decoding
      gives back the UTF-8 bytes of the input. */
  lemma QueryEscapeRoundTrip(s: string)
    ensures Unescape(QueryEscape(s), true) == Some(Utf8Encode(s))
  {
    UnescapeEscapeBytes(Utf8Encode(s), true, true);
  }

  /** User-information escaping loses nothing for either reader. */
  lemma UserinfoEscapeRoundTrip(s: string, plusIsSpace: bool)
    ensures Unescape(UserinfoEscape(s), plusIsSpace) == Some(Utf8Encode(s))
  {
    UnescapeEscapeBytes(Utf8Encode(s), false, plusIsSpace);
  }

  /** A user-information reader gets back a `url.QueryEscape`d text intact
      exactly when it holds no space. */
  lemma QueryEscapeAsUserinfo(s: string)
    ensures Unescape(QueryEscape(s), false) == Some(Utf8Encode(s)) <==> ' ' !in s
  {
    SpaceInUtf8(s);
    if ' ' in s {
      NoSpaceAsUserinfo(Utf8Encode(s));
    } else {
      UnescapeEscapeBytes(Utf8Encode(s), true, false);
    }
  }

  /** A user-information reader of query-escaped bytes never produces a
      space: the space was written `+`, which it keeps. */
  lemma {:induction false} NoSpaceAsUserinfo(bs: seq<byte>)
    ensures Unescape(EscapeBytes(bs, true), false).Some?
    ensures Space !in Unescape(EscapeBytes(bs, true), false).value
  {
    if |bs| > 0 {
      var t := EscapeBytes(bs[1..], true);
      NoSpaceAsUserinfo(bs[1..]);
      if bs[0] == Space {
        var u := "+" + t;
        assert u[0] == '+' && u[1..] == t;
        assert Utf8('+') == [Plus];
      } else {
        UnescapeEscapedByte(bs[0], true, t, false);
      }
    }
  }

  /** ... and a space is where it goes wrong: it comes back as `+`. */
  lemma QueryEscapedSpaceAsUserinfo()
    ensures Unescape(QueryEscape(" "), false) == Some([Plus])
  {
    assert Utf8Encode(" ") == [Space];
    assert QueryEscape(" ") == "+";
    assert Utf8('+') == [Plus];
    assert "+"[1..] == "";
    assert Unescape("", false) == Some([]);
    assert Unescape("+", false) == Prepend(Utf8('+'), Unescape("", false));
    var empty: seq<byte> := [];
    assert [Plus] + empty == [Plus];
    assert Prepend([Plus], Some(empty)) == Some([Plus]);
  }

  /** Text without `%` (and without `+`, where that means a space) decodes
      to its own UTF-8. */
  lemma {:induction false} UnescapeLiteral(s: string, plusIsSpace: bool)
    requires '%' !in s && (plusIsSpace ==> '+' !in s)
    ensures Unescape(s, plusIsSpace) == Some(Utf8Encode(s))
  {
    if |s| > 0 {
      assert s == [s[0]] + s[1..];
      UnescapeLiteral(s[1..], plusIsSpace);
    }
  }

  /** A string of unreserved characters is its own escaped form. */
  lemma {:induction false} EscapeUnreserved(s: string, plusForSpace: bool)
    requires forall k :: 0 <= k < |s| ==> Unreserved(s[k])
    ensures EscapeBytes(Utf8Encode(s), plusForSpace) == s
  {
    if |s| > 0 {
      EscapeUnreserved(s[1..], plusForSpace);
      assert Utf8Encode(s) == Utf8(s[0]) + Utf8Encode(s[1..]);
      assert AsChar(Utf8(s[0])[0]) == s[0];
      assert EscapeBytes(Utf8Encode(s), plusForSpace)
          == EscapeByte(Utf8(s[0])[0], plusForSpace) + EscapeBytes(Utf8Encode(s[1..]), plusForSpace);
      assert [s[0]] + s[1..] == s;
    }
  }
}
