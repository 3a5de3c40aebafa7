/** `JSON.stringify` of a string: the text in double quotes, with `"`, `\`
    and the control characters escaped, and a reader that undoes it. */
module JsonText {
  import opened Wrappers

  const HexDigits: string := "0123456789abcdef"

  predicate IsHex(c: char) {
    c in HexDigits
  }

  function HexValue(c: char): (n: int)
    ensures 0 <= n < 16
  {
    if '0' <= c <= '9' then c as int - '0' as int
    else if 'a' <= c <= 'f' then c as int - 'a' as int + 10
    else 0
  }

  lemma HexDigitRoundTrip(n: int)
    requires 0 <= n < 16
    ensures IsHex(HexDigits[n]) && HexValue(HexDigits[n]) == n
  {
  }

  /** The escape `JSON.stringify` writes for one character. */
  function EscapeChar(c: char): (s: string)
    ensures |s| >= 1
  {
    if c == '"' then "\\\""
    else if c == '\\' then "\\\\"
    else if c == '\U{0008}' then "\\b"
    else if c == '\t' then "\\t"
    else if c == '\n' then "\\n"
    else if c == '\U{000C}' then "\\f"
    else if c == '\r' then "\\r"
    else if c < '\U{0020}' then "\\u00" + [HexDigits[c as int / 16], HexDigits[c as int % 16]]
    else [c]
  }

  function Escape(s: string): string {
    if |s| == 0 then "" else EscapeChar(s[0]) + Escape(s[1..])
  }

  /** `JSON.stringify(s)` */
  function Quote(s: string): (q: string)
    ensures |q| >= 2 && q[0] == '"' && q[|q| - 1] == '"'
  {
    "\"" + Escape(s) + "\""
  }

  /** The character a two-character escape `\x` stands for. */
  function ShortEscape(x: char): Option<char> {
    if x == '"' then Some('"')
    else if x == '\\' then Some('\\')
    else if x == 'b' then Some('\U{0008}')
    else if x == 't' then Some('\t')
    else if x == 'n' then Some('\n')
    else if x == 'f' then Some('\U{000C}')
    else if x == 'r' then Some('\r')
    else None
  }

  /** Reads the body of a quoted string up to its closing quote: the text it
      stands for and what follows the quote; None when there is no closing
      quote or an escape is malformed. */
  function ReadBody(s: string): Option<(string, string)>
    decreases |s|
  {
    if |s| == 0 then None
    else if s[0] == '"' then Some(("", s[1..]))
    else if s[0] == '\\' then
      if |s| >= 2 && ShortEscape(s[1]).Some? then
        var (d, rest) :- ReadBody(s[2..]);
        Some(([ShortEscape(s[1]).value] + d, rest))
      else if |s| >= 6 && s[1] == 'u' && s[2] == '0' && s[3] == '0' && IsHex(s[4]) && IsHex(s[5]) then
        var (d, rest) :- ReadBody(s[6..]);
        Some(([(16 * HexValue(s[4]) + HexValue(s[5])) as char] + d, rest))
      else None
    else
      var (d, rest) :- ReadBody(s[1..]);
      Some(([s[0]] + d, rest))
  }

  /** Reads a quoted string at the head of `s`. */
  function ReadQuoted(s: string): Option<(string, string)> {
    if |s| > 0 && s[0] == '"' then ReadBody(s[1..]) else None
  }

  lemma ReadEscapedChar(c: char, tail: string)
    ensures ReadBody(EscapeChar(c) + tail) ==
      match ReadBody(tail)
      case None => None
      case Some((d, rest)) => Some(([c] + d, rest))
  {
    var e := EscapeChar(c);
    var s := e + tail;
    if c < '\U{0020}' && c != '\U{0008}' && c != '\t' && c != '\n' && c != '\U{000C}' && c != '\r' {
      HexDigitRoundTrip(c as int / 16);
      HexDigitRoundTrip(c as int % 16);
      assert s[6..] == tail;
      assert (16 * HexValue(s[4]) + HexValue(s[5])) == c as int;
    } else if |e| == 2 {
      assert s[2..] == tail;
    } else {
      assert s[1..] == tail;
    }
  }

  /** Reading back what `JSON.stringify` wrote gives the original text and
      leaves whatever came after the closing quote. */
  lemma {:induction false} EscapeRoundTrip(s: string, tail: string)
    ensures ReadBody(Escape(s) + "\"" + tail) == Some((s, tail))
  {
    if |s| == 0 {
      assert Escape(s) + "\"" + tail == "\"" + tail;
      assert ("\"" + tail)[1..] == tail;
    } else {
      EscapeRoundTrip(s[1..], tail);
      assert Escape(s) + "\"" + tail == EscapeChar(s[0]) + (Escape(s[1..]) + "\"" + tail);
      ReadEscapedChar(s[0], Escape(s[1..]) + "\"" + tail);
      assert [s[0]] + s[1..] == s;
    }
  }

  lemma QuoteRoundTrip(s: string, tail: string)
    ensures ReadQuoted(Quote(s) + tail) == Some((s, tail))
  {
    EscapeRoundTrip(s, tail);
    assert (Quote(s) + tail)[1..] == Escape(s) + "\"" + tail;
  }
}
