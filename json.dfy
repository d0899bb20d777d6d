/** Python's `json.dumps` with its default settings, as the form encoder uses it:
    items separated by ", ", keys by ": ", and every character outside
    printable ASCII written as an escape (`ensure_ascii=True`). */
module Json {
  import opened PyValue

  /** `json.dumps(v)`. With the default `ensure_ascii` its text is pure ASCII. */
  function Dumps(v: Value): (r: string)
    ensures Ascii(r)
    decreases v
  {
    match v
    case PyNone => "null"
    case PyBool(b) => if b then "true" else "false"
    case PyInt(i) =>
      DigitsAscii(if i < 0 then -i else i);
      Decimal(i)
    case PyStr(s) => Quote(s)
    case PyList(items) =>
      var parts := seq(|items|, k requires 0 <= k < |items| => Dumps(items[k]));
      JoinAscii(", ", parts);
      "[" + Join(", ", parts) + "]"
    case PyDict(entries) =>
      var parts := seq(|entries|, k requires 0 <= k < |entries| =>
                         Quote(entries[k].0) + ": " + Dumps(entries[k].1));
      JoinAscii(", ", parts);
      "{" + Join(", ", parts) + "}"
  }

  /** `str(i)` for a Python int. */
  function Decimal(i: int): string {
    if i < 0 then "-" + Digits(-i) else Digits(i)
  }

  function Digits(n: nat): string {
    if n < 10 then [DigitChar(n)] else Digits(n / 10) + [DigitChar(n % 10)]
  }

  function DigitChar(d: int): char
    requires 0 <= d < 10
  {
    ('0' as int + d) as char
  }

  /** A JSON string literal: the escaped text between double quotes. */
  function Quote(s: string): (r: string)
    ensures Ascii(r)
  {
    EscapeAscii(s);
    "\"" + Escape(s) + "\""
  }

  function Escape(s: string): string {
    if s == [] then "" else EscapeChar(s[0]) + Escape(s[1..])
  }

  /** How one character is written with `ensure_ascii`: quote and backslash
      are escaped, the five control characters with short escapes get them,
      other printable ASCII stays, everything else becomes `\uXXXX` in
      lower-case hex, as a UTF-16 surrogate pair above U+FFFF. */
  function EscapeChar(c: char): string {
    if c == '"' then "\\\""
    else if c == '\\' then "\\\\"
    else if c == '\n' then "\\n"
    else if c == '\r' then "\\r"
    else if c == '\t' then "\\t"
    else if c as int == 8 then "\\b"
    else if c as int == 12 then "\\f"
    else if ' ' <= c <= '~' then [c]
    else if c as int < 0x1_0000 then "\\u" + Hex4(c as int)
    else
      var n := c as int - 0x1_0000;
      // 0xd800 | ((n >> 10) & 0x3ff) and 0xdc00 | (n & 0x3ff), with n < 0x10_0000
      "\\u" + Hex4(0xD800 + n / 0x400) + "\\u" + Hex4(0xDC00 + n % 0x400)
  }

  /** Four lower-case hex digits, most significant first (`'{0:04x}'`). */
  function Hex4(n: int): string
    requires 0 <= n < 0x1_0000
  {
    [HexDigit(n / 0x1000), HexDigit(n / 0x100 % 16), HexDigit(n / 16 % 16), HexDigit(n % 16)]
  }

  function HexDigit(d: int): char
    requires 0 <= d < 16
  {
    if d < 10 then ('0' as int + d) as char else ('a' as int + d - 10) as char
  }

  predicate Ascii(s: string) {
    forall k :: 0 <= k < |s| ==> s[k] as int < 128
  }

  // ---------------------------------------------------------------------
  // The output is pure ASCII.

  lemma {:induction false} JoinAscii(sep: string, parts: seq<string>)
    requires Ascii(sep)
    requires forall k :: 0 <= k < |parts| ==> Ascii(parts[k])
    ensures Ascii(Join(sep, parts))
    decreases |parts|
  {
    if |parts| > 1 {
      JoinAscii(sep, parts[1..]);
    }
  }

  lemma {:induction false} DigitsAscii(n: nat)
    ensures Ascii(Digits(n))
  {
    if n >= 10 {
      DigitsAscii(n / 10);
    }
  }

  lemma {:induction false} EscapeAscii(s: string)
    ensures Ascii(Escape(s))
  {
    if s != [] {
      EscapeAscii(s[1..]);
    }
  }

  /** Printable ASCII other than quote and backslash is written as it is. */
  lemma {:induction false} EscapePlain(s: string)
    requires forall k :: 0 <= k < |s| ==> ' ' <= s[k] <= '~' && s[k] != '"' && s[k] != '\\'
    ensures Escape(s) == s
  {
    if s != [] {
      EscapePlain(s[1..]);
    }
  }

  // ---------------------------------------------------------------------
  // A reader for JSON string bodies, to show that the escaping loses nothing.

  function HexValue(h: char): Option<int> {
    if '0' <= h <= '9' then Some(h as int - '0' as int)
    else if 'a' <= h <= 'f' then Some(h as int - 'a' as int + 10)
    else if 'A' <= h <= 'F' then Some(h as int - 'A' as int + 10)
    else None
  }

  function ParseHex4(h: string): Option<int>
    requires |h| == 4
  {
    match (HexValue(h[0]), HexValue(h[1]), HexValue(h[2]), HexValue(h[3]))
    case (Some(a), Some(b), Some(c), Some(d)) => Some(a * 0x1000 + b * 0x100 + c * 16 + d)
    case _ => None
  }

  predicate IsScalar(n: int) {
    0 <= n < 0xD800 || 0xE000 <= n < 0x11_0000
  }

  /** The character a backslash escape at the start of `t` stands for, and
      how many characters of `t` the escape takes. */
  function DecodeEscape(t: string): Option<(char, nat)>
    requires |t| >= 2 && t[0] == '\\'
  {
    var e := t[1];
    if e == '"' || e == '\\' || e == '/' then Some((e, 2))
    else if e == 'n' then Some(('\n', 2))
    else if e == 'r' then Some(('\r', 2))
    else if e == 't' then Some(('\t', 2))
    else if e == 'b' then Some((8 as char, 2))
    else if e == 'f' then Some((12 as char, 2))
    else if e != 'u' || |t| < 6 then None
    else match ParseHex4(t[2..6])
      case None => None
      case Some(hi) =>
        if IsScalar(hi) then Some((hi as char, 6))
        else if hi < 0xDC00 && |t| >= 12 && t[6..8] == "\\u" then
          match ParseHex4(t[8..12])
          case Some(lo) =>
            if 0xDC00 <= lo < 0xE000
            then Some(((0x1_0000 + (hi - 0xD800) * 0x400 + (lo - 0xDC00)) as char, 12))
            else None
          case None => None
        else None
  }

  /** Reads a JSON string body up to its closing quote: the decoded text and
      what follows the quote. */
  function Unescape(t: string): Option<(string, string)>
    decreases |t|
  {
    if t == [] then None
    else if t[0] == '"' then Some(("", t[1..]))
    else if t[0] == '\\' then
      if |t| < 2 then None
      else match DecodeEscape(t)
        case None => None
        case Some((c, n)) =>
          if n == 0 || n > |t| then None
          else match Unescape(t[n..])
            case None => None
            case Some((s, rest)) => Some(([c] + s, rest))
    else match Unescape(t[1..])
      case None => None
      case Some((s, rest)) => Some(([t[0]] + s, rest))
  }

  lemma HexDigitValue(d: int)
    requires 0 <= d < 16
    ensures HexValue(HexDigit(d)) == Some(d)
  {
  }

  lemma Hex4RoundTrip(n: int)
    requires 0 <= n < 0x1_0000
    ensures ParseHex4(Hex4(n)) == Some(n)
  {
    var d3, d2, d1, d0 := n / 0x1000, n / 0x100 % 16, n / 16 % 16, n % 16;
    HexDigitValue(d3);
    HexDigitValue(d2);
    HexDigitValue(d1);
    HexDigitValue(d0);
    var m1 := n / 16;
    var m2 := m1 / 16;
    assert n == m1 * 16 + d0;
    assert m1 == m2 * 16 + d1;
    assert m2 == n / 0x100 && m2 / 16 == d3;
    assert m2 == d3 * 16 + d2;
  }

  /** Reading back one escaped character gives the character and continues
      right after its escape. */
  lemma EscapeCharRoundTrip(c: char, u: string)
    ensures Unescape(EscapeChar(c) + u) == match Unescape(u)
                                           case None => None
                                           case Some((s, rest)) => Some(([c] + s, rest))
  {
    var t := EscapeChar(c) + u;
    var m := |EscapeChar(c)|;
    assert t[m..] == u;
    if ' ' <= c <= '~' && c != '"' && c != '\\' {
      assert t[0] == c;
    } else if c == '"' || c == '\\' || c == '\n' || c == '\r' || c == '\t' || c as int == 8 || c as int == 12 {
      assert DecodeEscape(t) == Some((c, 2));
    } else if c as int < 0x1_0000 {
      assert t[2..6] == Hex4(c as int);
      Hex4RoundTrip(c as int);
      assert DecodeEscape(t) == Some((c, 6));
    } else {
      var n := c as int - 0x1_0000;
      var hi, lo := 0xD800 + n / 0x400, 0xDC00 + n % 0x400;
      assert t[2..6] == Hex4(hi);
      assert t[6..8] == "\\u";
      assert t[8..12] == Hex4(lo);
      Hex4RoundTrip(hi);
      Hex4RoundTrip(lo);
      assert 0x1_0000 + (hi - 0xD800) * 0x400 + (lo - 0xDC00) == c as int;
      assert DecodeEscape(t) == Some((c, 12));
    }
  }

  /** The escaping is lossless: reading the body of `Quote(s)` back gives `s`
      and leaves whatever followed the closing quote. */
  lemma {:induction false} QuoteRoundTrip(s: string, rest: string)
    ensures Unescape(Quote(s)[1..] + rest) == Some((s, rest))
  {
    assert Quote(s)[1..] == Escape(s) + "\"";
    EscapeRoundTrip(s, rest);
  }

  lemma {:induction false} EscapeRoundTrip(s: string, rest: string)
    ensures Unescape(Escape(s) + "\"" + rest) == Some((s, rest))
  {
    if s == [] {
      assert Escape(s) + "\"" + rest == ['"'] + rest;
    } else {
      var u := Escape(s[1..]) + "\"" + rest;
      assert Escape(s) + "\"" + rest == EscapeChar(s[0]) + u;
      EscapeRoundTrip(s[1..], rest);
      EscapeCharRoundTrip(s[0], u);
      assert [s[0]] + s[1..] == s;
    }
  }
}
