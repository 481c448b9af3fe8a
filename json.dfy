/**
 * The two JSON pieces the stored session uses: string literals and integers,
 * written the way `JSON.stringify` writes them and read the way `JSON.parse`
 * reads them (each reader returns the value and the text after it).
 */
module Json {
  import opened Wrappers
  import opened Text

  // ---------------------------------------------------------------- writing

  /** Lower-case hexadecimal digit, as `JSON.stringify` writes `\u00XX`. */
  function HexDigit(d: nat): (c: char)
    requires d < 16
  {
    if d < 10 then DigitChar(d) else ('a' as int + (d - 10)) as char
  }

  /** How `JSON.stringify` writes one character inside a string literal. */
  function EscapeChar(c: char): string {
    if c == '"' then "\\\""
    else if c == '\\' then "\\\\"
    else if c == '\U{8}' then "\\b"
    else if c == '\t' then "\\t"
    else if c == '\n' then "\\n"
    else if c == '\U{C}' then "\\f"
    else if c == '\r' then "\\r"
    else if c < ' ' then "\\u00" + [HexDigit(c as int / 16), HexDigit(c as int % 16)]
    else [c]
  }

  function EscapeChars(t: string): string {
    if t == [] then [] else EscapeChar(t[0]) + EscapeChars(t[1..])
  }

  /** `JSON.stringify(t)` for a string `t`. */
  function Quote(t: string): string {
    "\"" + EscapeChars(t) + "\""
  }

  // ---------------------------------------------------------------- reading

  function HexValue(c: char): (r: Option<nat>)
    ensures r.Some? ==> r.value < 16
  {
    if '0' <= c <= '9' then Some(c as int - '0' as int)
    else if 'a' <= c <= 'f' then Some(c as int - 'a' as int + 10)
    else if 'A' <= c <= 'F' then Some(c as int - 'A' as int + 10)
    else None
  }

  /** The code unit of four hexadecimal digits. */
  function Hex4(s: string): (r: Option<nat>)
    requires |s| == 4
    ensures r.Some? ==> r.value < 0x1_0000
  {
    match (HexValue(s[0]), HexValue(s[1]), HexValue(s[2]), HexValue(s[3]))
    case (Some(a), Some(b), Some(c), Some(d)) => Some(((a * 16 + b) * 16 + c) * 16 + d)
    case _ => None
  }

  /** One step of reading a string literal's body. */
  datatype Step = Close | Char(c: char, width: nat) | Bad

  /** The escape sequence at the start of `s`; a `\u` escape of a surrogate half is not read by this model. */
  function Unescape(s: string): (r: Step)
    requires |s| >= 2 && s[0] == '\\'
    ensures r.Char? ==> 2 <= r.width <= |s|
  {
    var e := s[1];
    if e == '"' then Char('"', 2)
    else if e == '\\' then Char('\\', 2)
    else if e == '/' then Char('/', 2)
    else if e == 'b' then Char('\U{8}', 2)
    else if e == 'f' then Char('\U{C}', 2)
    else if e == 'n' then Char('\n', 2)
    else if e == 'r' then Char('\r', 2)
    else if e == 't' then Char('\t', 2)
    else if e == 'u' && |s| >= 6 then
      match Hex4(s[2..6])
      case Some(v) => if v < 0xD800 || 0xE000 <= v then Char(v as char, 6) else Bad
      case None => Bad
    else Bad
  }

  function NextStep(s: string): (r: Step)
    requires s != []
    ensures r.Char? ==> 1 <= r.width <= |s|
  {
    if s[0] == '"' then Close
    else if s[0] == '\\' then (if |s| < 2 then Bad else Unescape(s))
    else if s[0] < ' ' then Bad   // JSON does not allow a raw control character in a string
    else Char(s[0], 1)
  }

  /** Reads a string literal's body up to its closing quote; returns the string and the text after the quote. */
  function ParseStringBody(s: string): Option<(string, string)>
    decreases |s|
  {
    if s == [] then None
    else
      match NextStep(s)
      case Close => Some(([], s[1..]))
      case Bad => None
      case Char(c, w) =>
        match ParseStringBody(s[w..])
        case None => None
        case Some(p) => Some(([c] + p.0, p.1))
  }

  /** Reads a JSON string literal at the start of `s`. */
  function ParseString(s: string): Option<(string, string)> {
    if s != [] && s[0] == '"' then ParseStringBody(s[1..]) else None
  }

  /**
   * Reads a JSON integer at the start of `s`: an optional '-', then digits with
   * no leading zero. A fraction or an exponent after the digits is not read by
   * this model.
   */
  function ParseInteger(s: string): Option<(int, string)> {
    var negative := s != [] && s[0] == '-';
    ParseMagnitude(if negative then s[1..] else s, negative)
  }

  /** The number after the optional '-': a canonical digit run not followed by a fraction or an exponent. */
  function ParseMagnitude(body: string, negative: bool): Option<(int, string)> {
    var d := DigitPrefix(body);
    var rest := body[|d|..];
    if d == [] || !Canonical(d) then None
    else if rest != [] && (rest[0] == '.' || rest[0] == 'e' || rest[0] == 'E') then None
    else Some((if negative then -(DigitsValue(d) as int) else DigitsValue(d), rest))
  }

  // ---------------------------------------------------------------- round trips

  lemma HexRoundTrip(d: nat)
    requires d < 16
    ensures HexValue(HexDigit(d)) == Some(d)
  {
  }

  /** Reading the escaped form of one character gives back that character. */
  lemma EscapeCharStep(c: char, tail: string)
    ensures NextStep(EscapeChar(c) + tail) == Char(c, |EscapeChar(c)|)
  {
    var s := EscapeChar(c) + tail;
    if c < ' ' && c != '\U{8}' && c != '\t' && c != '\n' && c != '\U{C}' && c != '\r' {
      var hi, lo := c as int / 16, c as int % 16;
      HexRoundTrip(hi);
      HexRoundTrip(lo);
      assert s[2..6] == ['0', '0', HexDigit(hi), HexDigit(lo)];
      assert Hex4(s[2..6]) == Some(c as int);
    }
  }

  lemma {:induction false} EscapeCharsRoundTrip(t: string, rest: string)
    ensures ParseStringBody(EscapeChars(t) + "\"" + rest) == Some((t, rest))
    decreases |t|
  {
    var s := EscapeChars(t) + "\"" + rest;
    if t == [] {
      assert s == "\"" + rest;
      assert s[1..] == rest;
    } else {
      var e := EscapeChar(t[0]);
      var tail := EscapeChars(t[1..]) + "\"" + rest;
      assert s == e + tail;
      EscapeCharStep(t[0], tail);
      assert s[|e|..] == tail;
      EscapeCharsRoundTrip(t[1..], rest);
      assert [t[0]] + t[1..] == t;
    }
  }

  /** `JSON.parse` reads back the string `JSON.stringify` wrote, and stops right after it. */
  lemma QuoteRoundTrip(t: string, rest: string)
    ensures ParseString(Quote(t) + rest) == Some((t, rest))
  {
    var s := Quote(t) + rest;
    assert s[1..] == EscapeChars(t) + "\"" + rest;
    EscapeCharsRoundTrip(t, rest);
  }

  lemma {:induction false} DigitPrefixStops(d: string, rest: string)
    requires AllDigits(d)
    requires rest == [] || !IsDigit(rest[0])
    ensures DigitPrefix(d + rest) == d
    decreases |d|
  {
    if d != [] {
      assert (d + rest)[1..] == d[1..] + rest;
      DigitPrefixStops(d[1..], rest);
      assert [d[0]] + d[1..] == d;
    } else {
      assert d + rest == rest;
    }
  }

  lemma MagnitudeRoundTrip(m: nat, rest: string, negative: bool)
    requires rest == [] || !(IsDigit(rest[0]) || rest[0] == '.' || rest[0] == 'e' || rest[0] == 'E')
    ensures ParseMagnitude(NatToString(m) + rest, negative) == Some((if negative then -(m as int) else m, rest))
  {
    var t := NatToString(m);
    DigitPrefixStops(t, rest);
    assert (t + rest)[|t|..] == rest;
    DigitsValueOfNatToString(m);
  }

  /** `ParseInteger` strips the '-' that `IntToString` writes for a negative number, and only that. */
  lemma IntegerSign(n: int, rest: string)
    ensures ParseInteger(IntToString(n) + rest) == ParseMagnitude(NatToString(if n < 0 then -n else n) + rest, n < 0)
  {
    var m: nat := if n < 0 then -n else n;
    var body := NatToString(m) + rest;
    var s := IntToString(n) + rest;
    if n < 0 {
      assert s == "-" + body && s[1..] == body;
    } else {
      AllDigitsAt(NatToString(m));
      assert s == body && s[0] == NatToString(m)[0];
    }
  }

  /** `JSON.parse` reads back the integer `JSON.stringify` wrote, when a delimiter follows it. */
  lemma IntegerRoundTrip(n: int, rest: string)
    requires rest == [] || !(IsDigit(rest[0]) || rest[0] == '.' || rest[0] == 'e' || rest[0] == 'E')
    ensures ParseInteger(IntToString(n) + rest) == Some((n, rest))
  {
    IntegerSign(n, rest);
    MagnitudeRoundTrip(if n < 0 then -n else n, rest, n < 0);
  }
}
