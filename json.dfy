/**
  The JSON text written for a transport failure: Python's
  `json.dumps({"error": msg}).encode()` with its default `ensure_ascii=True`.
  Quotes and backslashes get a backslash, the five control characters that have
  a short escape use it, every other character outside printable ASCII becomes
  `\uXXXX` in lower-case hex, and characters above U+FFFF become a UTF-16
  surrogate pair of two such escapes.  A decoder for that output is proved to be
  its left inverse, so distinct error messages give distinct bodies.
*/
module JsonText {
  import opened Common

  /** The lower-case hex digit for `d`. */
  function HexDigit(d: int): (c: char)
    requires 0 <= d < 16
    ensures Printable(c)
  {
    if d < 10 then (d + '0' as int) as char else (d - 10 + 'a' as int) as char
  }

  /** Two lower-case hex digits of `n`. */
  function Hex2(n: int): (r: string)
    requires 0 <= n < 256
    ensures |r| == 2 && Printable(r[0]) && Printable(r[1])
  {
    [HexDigit(n / 16), HexDigit(n % 16)]
  }

  /** Four lower-case hex digits of `n`, as `'{0:04x}'.format(n)` writes them. */
  function Hex4(n: int): (r: string)
    requires 0 <= n < 0x10000
    ensures |r| == 4
    ensures forall i | 0 <= i < 4 :: Printable(r[i])
  {
    Hex2(n / 256) + Hex2(n % 256)
  }

  function HexValue(c: char): Option<int> {
    if '0' <= c <= '9' then Some(c as int - '0' as int)
    else if 'a' <= c <= 'f' then Some(c as int - 'a' as int + 10)
    else None
  }

  function ParseHex2(s: string): (r: Option<int>)
    requires |s| == 2
    ensures r.Some? ==> 0 <= r.value < 256
  {
    match (HexValue(s[0]), HexValue(s[1]))
    case (Some(a), Some(b)) =>
      if 0 <= a < 16 && 0 <= b < 16 then Some(a * 16 + b) else None
    case _ => None
  }

  /** The number written by four hex digits, if they are hex digits. */
  function ParseHex4(s: string): (r: Option<int>)
    requires |s| == 4
    ensures r.Some? ==> 0 <= r.value < 0x10000
  {
    match (ParseHex2(s[..2]), ParseHex2(s[2..]))
    case (Some(a), Some(b)) => Some(a * 256 + b)
    case _ => None
  }

  lemma ParseHex2Hex2(n: int)
    requires 0 <= n < 256
    ensures ParseHex2(Hex2(n)) == Some(n)
  {
    assert HexValue(HexDigit(n / 16)) == Some(n / 16);
    assert HexValue(HexDigit(n % 16)) == Some(n % 16);
  }

  lemma ParseHex4Hex4(n: int)
    requires 0 <= n < 0x10000
    ensures ParseHex4(Hex4(n)) == Some(n)
  {
    var h := Hex4(n);
    ParseHex2Hex2(n / 256);
    ParseHex2Hex2(n % 256);
    assert h[..2] == Hex2(n / 256) && h[2..] == Hex2(n % 256);
  }

  /** A character `json.dumps` writes as itself: space to tilde. */
  predicate Printable(c: char) {
    32 <= c as int < 127
  }

  /** The letter of the two-character escape `json.dumps` uses for `c`, if any. */
  function ShortEscape(c: char): Option<char> {
    if c == '"' then Some('"')
    else if c == '\\' then Some('\\')
    else if c == '\n' then Some('n')
    else if c == '\r' then Some('r')
    else if c == '\t' then Some('t')
    else if c as int == 8 then Some('b')
    else if c as int == 12 then Some('f')
    else None
  }

  /** The character a two-character escape stands for. */
  function ShortUnescape(e: char): Option<char> {
    if e == '"' then Some('"')
    else if e == '\\' then Some('\\')
    else if e == 'n' then Some('\n')
    else if e == 'r' then Some('\r')
    else if e == 't' then Some('\t')
    else if e == 'b' then Some(8 as char)
    else if e == 'f' then Some(12 as char)
    else None
  }

  /** `\uXXXX` for one UTF-16 code unit. */
  function UnicodeEscape(n: int): (r: string)
    requires 0 <= n < 0x10000
    ensures |r| == 6 && r[0] == '\\' && r[1] == 'u'
    ensures forall i | 0 <= i < 6 :: Printable(r[i])
  {
    "\\u" + Hex4(n)
  }

  /** The escape `json.dumps` writes for one character. */
  function EscapeChar(c: char): (r: string)
    ensures 0 < |r|
    ensures forall i | 0 <= i < |r| :: Printable(r[i])
  {
    var n := c as int;
    match ShortEscape(c)
    case Some(e) => ['\\', e]
    case None =>
      if Printable(c) then [c]
      else if n < 0x10000 then UnicodeEscape(n)
      else
        var m := n - 0x10000;
        UnicodeEscape(0xD800 + m / 1024) + UnicodeEscape(0xDC00 + m % 1024)
  }

  /** The body of the JSON string literal that `json.dumps` writes for `s`. */
  function Escape(s: string): (r: string)
    ensures forall i | 0 <= i < |r| :: Printable(r[i])
  {
    if s == [] then [] else EscapeChar(s[0]) + Escape(s[1..])
  }

  /** Reads back the body of a JSON string literal; `None` when it is malformed. */
  function Unescape(t: string): Option<string>
    decreases |t|
  {
    if t == [] then Some([])
    else if t[0] != '\\' then Prepend(t[0], Unescape(t[1..]))
    else if |t| < 2 then None
    else if ShortUnescape(t[1]).Some? then Prepend(ShortUnescape(t[1]).value, Unescape(t[2..]))
    else if t[1] != 'u' || |t| < 6 then None
    else match ParseHex4(t[2..6])
      case None => None
      case Some(u) =>
        if u < 0xD800 || 0xE000 <= u then Prepend(u as char, Unescape(t[6..]))
        else if 0xDC00 <= u || |t| < 12 || t[6] != '\\' || t[7] != 'u' then None
        else match ParseHex4(t[8..12])
          case None => None
          case Some(v) =>
            if 0xDC00 <= v < 0xE000
            then Prepend((0x10000 + (u - 0xD800) * 1024 + (v - 0xDC00)) as char, Unescape(t[12..]))
            else None
  }

  function Prepend(c: char, rest: Option<string>): Option<string> {
    match rest
    case None => None
    case Some(s) => Some([c] + s)
  }

  lemma UnescapeShort(c: char, tail: string)
    requires ShortEscape(c).Some?
    ensures Unescape(EscapeChar(c) + tail) == Prepend(c, Unescape(tail))
  {
    var t := EscapeChar(c) + tail;
    assert ShortUnescape(ShortEscape(c).value) == Some(c);
    assert t[2..] == tail;
  }

  lemma UnescapeBmp(c: char, tail: string)
    requires ShortEscape(c).None? && !Printable(c) && c as int < 0x10000
    ensures Unescape(EscapeChar(c) + tail) == Prepend(c, Unescape(tail))
  {
    var n := c as int;
    var t := EscapeChar(c) + tail;
    ParseHex4Hex4(n);
    assert t[2..6] == Hex4(n);
    assert t[6..] == tail;
  }

  /** The surrogate pair of a code point above U+FFFF is in range and recombines to it. */
  lemma SurrogatePair(n: int)
    requires 0x10000 <= n < 0x110000
    ensures var m := n - 0x10000;
      var hi, lo := 0xD800 + m / 1024, 0xDC00 + m % 1024;
      && 0xD800 <= hi < 0xDC00 && 0xDC00 <= lo < 0xE000
      && 0x10000 + (hi - 0xD800) * 1024 + (lo - 0xDC00) == n
  {
  }

  /** A high and a low surrogate escape decode to the one character they encode. */
  lemma UnescapePair(hi: int, lo: int, tail: string)
    requires 0xD800 <= hi < 0xDC00 && 0xDC00 <= lo < 0xE000
    ensures Unescape(UnicodeEscape(hi) + UnicodeEscape(lo) + tail) ==
      Prepend((0x10000 + (hi - 0xD800) * 1024 + (lo - 0xDC00)) as char, Unescape(tail))
  {
    var t := UnicodeEscape(hi) + UnicodeEscape(lo) + tail;
    ParseHex4Hex4(hi);
    ParseHex4Hex4(lo);
    assert t[2..6] == Hex4(hi);
    assert t[6] == '\\' && t[7] == 'u';
    assert t[8..12] == Hex4(lo);
    assert t[12..] == tail;
  }

  lemma UnescapeAstral(c: char, tail: string)
    requires c as int >= 0x10000
    ensures Unescape(EscapeChar(c) + tail) == Prepend(c, Unescape(tail))
  {
    var n := c as int;
    var m := n - 0x10000;
    var hi, lo := 0xD800 + m / 1024, 0xDC00 + m % 1024;
    SurrogatePair(n);
    assert EscapeChar(c) == UnicodeEscape(hi) + UnicodeEscape(lo);
    UnescapePair(hi, lo, tail);
  }

  /** Decoding one escape followed by anything decodes that character first. */
  lemma UnescapeEscapeChar(c: char, tail: string)
    ensures Unescape(EscapeChar(c) + tail) == Prepend(c, Unescape(tail))
  {
    if ShortEscape(c).Some? {
      UnescapeShort(c, tail);
    } else if Printable(c) {
      assert (EscapeChar(c) + tail)[1..] == tail;
    } else if c as int < 0x10000 {
      UnescapeBmp(c, tail);
    } else {
      UnescapeAstral(c, tail);
    }
  }

  /** Decoding the escaped text gives back the original string. */
  lemma {:induction false} UnescapeEscape(s: string)
    ensures Unescape(Escape(s)) == Some(s)
  {
    if s != [] {
      UnescapeEscapeChar(s[0], Escape(s[1..]));
      UnescapeEscape(s[1..]);
      assert [s[0]] + s[1..] == s;
    }
  }

  const ErrorPrefix: string := "{\"error\": \""
  const ErrorSuffix: string := "\"}"

  /** The ASCII encoding of text made only of printable characters. */
  function AsciiBytes(s: string): (r: Bytes)
    requires forall i | 0 <= i < |s| :: Printable(s[i])
    ensures |r| == |s|
    ensures forall i | 0 <= i < |s| :: r[i] as int == s[i] as int
  {
    seq(|s|, i requires 0 <= i < |s| && Printable(s[i]) => s[i] as int as byte)
  }

  /** `json.dumps({"error": msg}).encode()`. */
  function ErrorBody(msg: string): (r: Bytes)
    ensures |r| >= |ErrorPrefix| + |ErrorSuffix|
    ensures forall i | 0 <= i < |r| :: 32 <= r[i] < 127
  {
    var text := ErrorPrefix + Escape(msg) + ErrorSuffix;
    assert forall i | 0 <= i < |text| :: Printable(text[i]) by {
      forall i | 0 <= i < |text| ensures Printable(text[i]) {
        if i >= |ErrorPrefix| && i < |ErrorPrefix| + |Escape(msg)| {
          assert text[i] == Escape(msg)[i - |ErrorPrefix|];
        }
      }
    }
    AsciiBytes(text)
  }

  /** Reads an error body back to its message, `None` if it is not one. */
  function ParseErrorBody(b: Bytes): Option<string> {
    if |b| < |ErrorPrefix| + |ErrorSuffix| then None
    else
      var text := seq(|b|, i requires 0 <= i < |b| => b[i] as int as char);
      if text[..|ErrorPrefix|] == ErrorPrefix && text[|b| - |ErrorSuffix|..] == ErrorSuffix
      then Unescape(text[|ErrorPrefix|..|b| - |ErrorSuffix|])
      else None
  }

  /** The error message can be read back from the 503 body. */
  lemma ErrorBodyRoundTrip(msg: string)
    ensures ParseErrorBody(ErrorBody(msg)) == Some(msg)
  {
    var body := ErrorBody(msg);
    var text := ErrorPrefix + Escape(msg) + ErrorSuffix;
    var back := seq(|body|, i requires 0 <= i < |body| => body[i] as int as char);
    assert back == text;
    assert text[..|ErrorPrefix|] == ErrorPrefix;
    assert text[|body| - |ErrorSuffix|..] == ErrorSuffix;
    assert text[|ErrorPrefix|..|body| - |ErrorSuffix|] == Escape(msg);
    UnescapeEscape(msg);
  }

  /** Two different failure messages never produce the same 503 body. */
  lemma ErrorBodyInjective(m1: string, m2: string)
    ensures ErrorBody(m1) == ErrorBody(m2) ==> m1 == m2
  {
    ErrorBodyRoundTrip(m1);
    ErrorBodyRoundTrip(m2);
  }
}
