/**
 * JSON string escaping as Jackson's `JsonStringEncoder.quoteAsUTF8` performs it
 * (its 7-bit escape table), and the decoding of an escaped string body as
 * section 7 of RFC 8259 defines it. Escaping is what turns `variablesJson`
 * into `variablesJsonEscaped`; decoding is its independent partner.
 */
module JsonEscape {
  import opened Wrappers

  function HexDigit(d: nat): (c: char)
    requires d < 16
  {
    "0123456789ABCDEF"[d]
  }

  predicate IsHexDigit(c: char)
  {
    ('0' <= c <= '9') || ('a' <= c <= 'f') || ('A' <= c <= 'F')
  }

  function HexDigitValue(c: char): (d: nat)
    requires IsHexDigit(c)
    ensures d < 16
  {
    if '0' <= c <= '9' then c as int - '0' as int
    else if 'a' <= c <= 'f' then c as int - 'a' as int + 10
    else c as int - 'A' as int + 10
  }

  function Pow16(k: nat): (p: nat)
    ensures p >= 1
  {
    if k == 0 then 1 else 16 * Pow16(k - 1)
  }

  /** The value of a run of hexadecimal digits, most significant first. */
  function HexValue(s: string): (n: nat)
    requires forall i :: 0 <= i < |s| ==> IsHexDigit(s[i])
    ensures n < Pow16(|s|)
  {
    if s == [] then 0 else HexValue(s[..|s| - 1]) * 16 + HexDigitValue(s[|s| - 1])
  }

  /** The text Jackson writes for one character inside a JSON string. */
  function EscapeChar(c: char): (r: string)
  {
    if c == '"' then "\\\""
    else if c == '\\' then "\\\\"
    else if c as int == 0x08 then "\\b"
    else if c == '\t' then "\\t"
    else if c == '\n' then "\\n"
    else if c as int == 0x0C then "\\f"
    else if c == '\r' then "\\r"
    else if c as int < 0x20 then ['\\', 'u', '0', '0', HexDigit(c as int / 16), HexDigit(c as int % 16)]
    else [c]
  }

  /**
   * Escapes a whole text. No character below U+0020 survives, as section 7 of
   * RFC 8259 requires of a string body.
   */
  function Quote(s: string): (r: string)
    ensures |r| >= |s|
    ensures forall i :: 0 <= i < |r| ==> r[i] as int >= 0x20
  {
    if s == [] then [] else EscapeChar(s[0]) + Quote(s[1..])
  }

  /** The character a two-character escape `\e` stands for. */
  function ShortEscape(e: char): Option<char>
  {
    match e
    case '"' => Some('"')
    case '\\' => Some('\\')
    case '/' => Some('/')
    case 'b' => Some(8 as char)
    case 'f' => Some(12 as char)
    case 'n' => Some('\n')
    case 'r' => Some('\r')
    case 't' => Some('\t')
    case _ => None
  }

  function Prepend(c: char, rest: Option<string>): Option<string>
  {
    match rest
    case None => None
    case Some(s) => Some([c] + s)
  }

  /**
   * Decodes the body of a JSON string (section 7 of RFC 8259): unescaped
   * characters stand for themselves, except '"', '\' and controls, which must
   * be escaped. A `\u` escape of a surrogate half is refused (pairs are not
   * decoded here).
   */
  function Unquote(t: string): Option<string>
    decreases |t|
  {
    if t == [] then Some([])
    else if t[0] == '\\' then
      if |t| >= 2 && ShortEscape(t[1]).Some? then
        Prepend(ShortEscape(t[1]).value, Unquote(t[2..]))
      else if |t| >= 6 && t[1] == 'u' && (forall i :: 2 <= i < 6 ==> IsHexDigit(t[i])) then
        var code := HexValue(t[2..6]);
        assert Pow16(4) == 0x1_0000;
        if 0xD800 <= code < 0xE000 then None
        else Prepend(code as char, Unquote(t[6..]))
      else None
    else if t[0] == '"' || t[0] as int < 0x20 then None
    else Prepend(t[0], Unquote(t[1..]))
  }

  /** The value of the four digits `00XY`. */
  lemma HexPairValue(hi: nat, lo: nat)
    requires hi < 16 && lo < 16
    ensures var h := ['0', '0', HexDigit(hi), HexDigit(lo)];
      (forall i :: 0 <= i < 4 ==> IsHexDigit(h[i])) && HexValue(h) == hi * 16 + lo
  {
    var h := ['0', '0', HexDigit(hi), HexDigit(lo)];
    assert h[..3] == ['0', '0', HexDigit(hi)];
    assert h[..3][..2] == ['0', '0'];
    assert h[..3][..2][..1] == ['0'];
    assert HexValue(h[..3][..2][..1]) == 0;
    assert HexValue(h[..3][..2]) == 0;
    assert HexDigitValue(HexDigit(hi)) == hi;
    assert HexValue(h[..3]) == hi;
    assert HexDigitValue(HexDigit(lo)) == lo;
  }

  /** A control character without a short escape is written as `\u00XX`, which decodes back to it. */
  lemma UnquoteUnicodeEscape(c: char, rest: string)
    requires c as int < 0x20 && |EscapeChar(c)| == 6
    ensures Unquote(EscapeChar(c) + rest) == Prepend(c, Unquote(rest))
  {
    var hi, lo := c as int / 16, c as int % 16;
    var t := EscapeChar(c) + rest;
    assert EscapeChar(c) == ['\\', 'u', '0', '0', HexDigit(hi), HexDigit(lo)];
    assert t[6..] == rest;
    assert t[2..6] == ['0', '0', HexDigit(hi), HexDigit(lo)];
    HexPairValue(hi, lo);
    assert t[0] == '\\' && ShortEscape(t[1]).None?;
    assert HexValue(t[2..6]) as char == c;
  }

  /** Decoding the escape of one character and then the rest. */
  lemma UnquoteEscapeChar(c: char, rest: string)
    ensures Unquote(EscapeChar(c) + rest) == Prepend(c, Unquote(rest))
  {
    var t := EscapeChar(c) + rest;
    if |EscapeChar(c)| == 6 {
      UnquoteUnicodeEscape(c, rest);
    } else if |EscapeChar(c)| == 2 {
      assert t[2..] == rest;
    } else {
      assert t[1..] == rest;
    }
  }

  /** Escaping is undone by decoding: `variablesJsonEscaped` decodes to `variablesJson`. */
  lemma {:induction false} QuoteRoundTrip(s: string)
    ensures Unquote(Quote(s)) == Some(s)
  {
    if s != [] {
      QuoteRoundTrip(s[1..]);
      UnquoteEscapeChar(s[0], Quote(s[1..]));
      assert [s[0]] + s[1..] == s;
    }
  }

  /** Text without quotes, backslashes or controls is left as it is. */
  lemma {:induction false} QuotePlain(s: string)
    requires forall i :: 0 <= i < |s| ==> s[i] != '"' && s[i] != '\\' && s[i] as int >= 0x20
    ensures Quote(s) == s
  {
    if s != [] {
      QuotePlain(s[1..]);
      assert [s[0]] + s[1..] == s;
    }
  }
}
