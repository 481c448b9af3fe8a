/**
 * The string facts the forms and the session code rely on: what the regular
 * expressions `\d{n}` and the email pattern accept, JavaScript's decimal
 * `String(n)`, and the parts of `Number(s)` and `parseInt(s)` this model reads.
 */
module Text {

  // ---------------------------------------------------------------- digits

  /** `\d` in a JavaScript regular expression (no `u` flag): an ASCII decimal digit. */
  predicate IsDigit(c: char) { '0' <= c <= '9' }

  function DigitValue(c: char): (d: nat)
    requires IsDigit(c)
    ensures d < 10
  {
    c as int - '0' as int
  }

  function DigitChar(d: nat): (c: char)
    requires d < 10
    ensures IsDigit(c) && DigitValue(c) == d
  {
    ('0' as int + d) as char
  }

  /** Every character is an ASCII digit. */
  predicate AllDigits(s: string) {
    s == [] || (IsDigit(s[0]) && AllDigits(s[1..]))
  }

  /** What `/^\d{n}$/.test(s)` accepts: exactly `n` ASCII digits and nothing else. */
  predicate ExactDigits(s: string, n: nat) {
    |s| == n && AllDigits(s)
  }

  lemma {:induction false} AllDigitsAt(s: string)
    ensures AllDigits(s) <==> forall i :: 0 <= i < |s| ==> IsDigit(s[i])
  {
    if s != [] {
      AllDigitsAt(s[1..]);
      assert forall i :: 1 <= i < |s| ==> s[1..][i - 1] == s[i];
    }
  }

  lemma AllDigitsSlice(s: string, lo: nat, hi: nat)
    requires AllDigits(s) && lo <= hi <= |s|
    ensures AllDigits(s[lo..hi])
  {
    AllDigitsAt(s);
    AllDigitsAt(s[lo..hi]);
  }

  lemma AllDigitsConcat(a: string, b: string)
    ensures AllDigits(a + b) <==> AllDigits(a) && AllDigits(b)
  {
    AllDigitsAt(a);
    AllDigitsAt(b);
    AllDigitsAt(a + b);
    assert forall i :: 0 <= i < |a| ==> (a + b)[i] == a[i];
    assert forall i :: 0 <= i < |b| ==> (a + b)[|a| + i] == b[i];
  }

  function Pow10(k: nat): (p: nat)
    ensures p >= 1
  {
    if k == 0 then 1 else 10 * Pow10(k - 1)
  }

  /** The value of a string of decimal digits, most significant digit first. */
  function DigitsValue(s: string): (n: nat)
    requires AllDigits(s)
    ensures n < Pow10(|s|)
    decreases |s|
  {
    if s == [] then 0
    else
      AllDigitsSlice(s, 0, |s| - 1);
      AllDigitsAt(s);
      DigitsValue(s[..|s| - 1]) * 10 + DigitValue(s[|s| - 1])
  }

  /** A digit string as `String(n)` writes it: non-empty, and no leading zero unless it is "0". */
  predicate Canonical(s: string) {
    s != [] && (s[0] == '0' ==> |s| == 1)
  }

  /** `String(n)` for a non-negative integer. */
  function NatToString(n: nat): (s: string)
    ensures AllDigits(s) && Canonical(s)
    ensures s == "0" <==> n == 0
    decreases n
  {
    if n < 10 then [DigitChar(n)]
    else
      var p := NatToString(n / 10);
      var s := p + [DigitChar(n % 10)];
      AllDigitsAt(p);
      AllDigitsAt(s);
      assert s[0] == p[0];
      s
  }

  /** `String(n)` / `n.toString()` for an integer (no exponent form: the model's integers are exact). */
  function IntToString(n: int): (s: string)
    ensures s != ""
  {
    if n < 0 then "-" + NatToString(-n) else NatToString(n)
  }

  lemma {:induction false} DigitsValueOfNatToString(n: nat)
    ensures DigitsValue(NatToString(n)) == n
    decreases n
  {
    var s := NatToString(n);
    if n >= 10 {
      DigitsValueOfNatToString(n / 10);
      assert s[..|s| - 1] == NatToString(n / 10);
    } else {
      assert s[..|s| - 1] == [];
    }
  }

  lemma {:induction false} DigitsValuePositive(s: string)
    requires AllDigits(s) && s != [] && s[0] != '0'
    ensures DigitsValue(s) >= 1
    decreases |s|
  {
    AllDigitsAt(s);
    if |s| > 1 {
      AllDigitsSlice(s, 0, |s| - 1);
      DigitsValuePositive(s[..|s| - 1]);
    } else {
      assert s[..0] == [];
    }
  }

  /** Reading a canonical digit string and writing the number back gives the same text. */
  lemma {:induction false} NatToStringOfDigitsValue(s: string)
    requires AllDigits(s) && Canonical(s)
    ensures NatToString(DigitsValue(s)) == s
    decreases |s|
  {
    AllDigitsAt(s);
    var last := s[|s| - 1];
    if |s| > 1 {
      var p := s[..|s| - 1];
      AllDigitsSlice(s, 0, |s| - 1);
      DigitsValuePositive(p);
      NatToStringOfDigitsValue(p);
      var v := DigitsValue(s);
      assert v == DigitsValue(p) * 10 + DigitValue(last);
      assert v / 10 == DigitsValue(p) && v % 10 == DigitValue(last);
      assert s == p + [last];
    } else {
      assert s == [last];
      assert s[..0] == [];
      assert DigitsValue(s) == DigitValue(last);
    }
  }

  /**
   * A digit string of two or more characters survives `Number` followed by
   * `toString` exactly when it does not start with '0'.
   */
  lemma DigitsRoundTrip(s: string)
    requires AllDigits(s) && |s| >= 2
    ensures NatToString(DigitsValue(s)) == s <==> s[0] != '0'
  {
    if s[0] != '0' {
      NatToStringOfDigitsValue(s);
    }
  }

  // ---------------------------------------------------------------- numbers

  /**
   * A JavaScript number produced from a text. `Int` is an exact integer and
   * `NaN` is NaN; `Unparsed` stands for whatever number the engine produces from
   * a text outside the decimal syntax this model reads (white space, signs other
   * than those modelled, hexadecimal, fractions, exponents, "Infinity").
   */
  datatype Num = Int(value: int) | NaN | Unparsed(text: string)

  /** `Number(s)`: "" is 0, and decimal digits with an optional leading '-' are read exactly. */
  function NumberOf(s: string): Num {
    if s == "" then Int(0)
    else if AllDigits(s) then Int(DigitsValue(s))
    else if s[0] == '-' && |s| > 1 && AllDigits(s[1..]) then Int(-(DigitsValue(s[1..]) as int))
    else Unparsed(s)
  }

  /** The longest prefix of `s` made of digits. */
  function DigitPrefix(s: string): (d: string)
    ensures AllDigits(d) && d <= s
    ensures d == s || !IsDigit(s[|d|])
  {
    if s == [] || !IsDigit(s[0]) then []
    else [s[0]] + DigitPrefix(s[1..])
  }

  /**
   * `parseInt(s)` with no radix: an optional sign, then the longest run of
   * digits; no digits gives NaN. Leading white space and the "0x" prefix (which
   * switch parseInt to skipping or to base 16) give `Unparsed`.
   */
  function ParseInt(s: string): Num {
    if s != [] && IsJsWhitespace(s[0]) then Unparsed(s) else ParseSigned(s)
  }

  /** `parseInt` past the white-space test: the sign, the "0x" test and the digit run. */
  function ParseSigned(s: string): Num {
    var negative := s != [] && s[0] == '-';
    var body := if s != [] && (s[0] == '-' || s[0] == '+') then s[1..] else s;
    if HexPrefixed(body) then Unparsed(s) else DigitRun(body, negative)
  }

  predicate HexPrefixed(body: string) {
    |body| >= 2 && body[0] == '0' && (body[1] == 'x' || body[1] == 'X')
  }

  /** The signed value of the digit run at the start of `body`; NaN when there is none. */
  function DigitRun(body: string, negative: bool): Num {
    var d := DigitPrefix(body);
    if d == [] then NaN
    else Int(if negative then -(DigitsValue(d) as int) else DigitsValue(d))
  }

  /** A text starting with a digit or '-' passes the white-space test. */
  lemma ParseIntNoSpace(s: string)
    requires s != [] && (IsDigit(s[0]) || s[0] == '-')
    ensures ParseInt(s) == ParseSigned(s)
  {
  }

  lemma DigitPrefixOfDigits(s: string)
    requires AllDigits(s)
    ensures DigitPrefix(s) == s
  {
    AllDigitsAt(s);
  }

  /** `Number(String(n)) == n` for every integer. */
  lemma NumberOfIntToString(n: int)
    ensures NumberOf(IntToString(n)) == Int(n)
  {
    var s := IntToString(n);
    if n < 0 {
      var t := NatToString(-n);
      assert s == "-" + t && s[1..] == t;
      assert !AllDigits(s);
      DigitsValueOfNatToString(-n);
    } else {
      DigitsValueOfNatToString(n);
    }
  }

  lemma DigitRunOfNatToString(m: nat)
    ensures !HexPrefixed(NatToString(m))
    ensures DigitRun(NatToString(m), false) == Int(m)
    ensures DigitRun(NatToString(m), true) == Int(-(m as int))
  {
    DigitPrefixOfDigits(NatToString(m));
    DigitsValueOfNatToString(m);
  }

  /** `parseInt(String(n)) == n` for every integer. */
  lemma ParseIntOfIntToString(n: int)
    ensures ParseInt(IntToString(n)) == Int(n)
  {
    var m: nat := if n < 0 then -n else n;
    var t := NatToString(m);
    DigitRunOfNatToString(m);
    AllDigitsAt(t);
    if n < 0 {
      var s := "-" + t;
      assert IntToString(n) == s && s[1..] == t;
      ParseIntNoSpace(s);
    } else {
      ParseIntNoSpace(t);
    }
  }

  /** On a non-empty digit string, `Number` and `parseInt` agree on its decimal value. */
  lemma NumberAndParseIntOnDigits(s: string)
    requires AllDigits(s) && s != ""
    ensures NumberOf(s) == ParseInt(s) == Int(DigitsValue(s))
  {
    AllDigitsAt(s);
    DigitPrefixOfDigits(s);
    ParseIntNoSpace(s);
    assert !HexPrefixed(s) by {
      if |s| >= 2 {
        assert IsDigit(s[1]);
      }
    }
    assert ParseSigned(s) == DigitRun(s, false);
  }

  /** A text with no digit at all, not opening with white space, is NaN to `parseInt`. */
  lemma ParseIntWithoutDigits(s: string)
    requires s == [] || !IsJsWhitespace(s[0])
    requires forall i | 0 <= i < |s| :: !IsDigit(s[i])
    ensures ParseInt(s) == NaN
  {
    var body := if s != [] && (s[0] == '-' || s[0] == '+') then s[1..] else s;
    assert body != [] ==> !IsDigit(body[0]) by {
      if body != [] && body != s {
        assert body[0] == s[1];
      }
    }
    assert ParseInt(s) == ParseSigned(s);
  }

  /** Where the two differ: `parseInt` stops at the first non-digit, `Number` does not. */
  lemma ParseIntStopsAtNonDigit()
    ensures ParseInt("12ab") == Int(12)
    ensures NumberOf("12ab") == Unparsed("12ab")
    ensures ParseInt("ab") == NaN
  {
    ParseIntNoSpace("12ab");
    assert DigitPrefix("12ab") == "12";
    DigitsValueOfNatToString(12);
    assert NatToString(12) == "12";
  }

  // ---------------------------------------------------------------- email

  /**
   * `\s` in a JavaScript regular expression: the white-space and line-terminator
   * characters of ECMAScript (also what `parseInt` skips).
   */
  predicate IsJsWhitespace(c: char) {
    c == '\t' || c == '\n' || c == '\U{B}' || c == '\U{C}' || c == '\r' || c == ' '
    || c == '\U{A0}' || c == '\U{1680}' || ('\U{2000}' <= c <= '\U{200A}')
    || c == '\U{2028}' || c == '\U{2029}' || c == '\U{202F}' || c == '\U{205F}'
    || c == '\U{3000}' || c == '\U{FEFF}'
  }

  /** The character class `[^\s@]`. */
  predicate IsEmailChar(c: char) { !IsJsWhitespace(c) && c != '@' }

  /** `^[^\s@]*$` */
  predicate EmailChars(s: string) {
    s == [] || (IsEmailChar(s[0]) && EmailChars(s[1..]))
  }

  lemma {:induction false} EmailCharsAt(s: string)
    ensures EmailChars(s) <==> forall i :: 0 <= i < |s| ==> IsEmailChar(s[i])
  {
    if s != [] {
      EmailCharsAt(s[1..]);
      assert forall i :: 1 <= i < |s| ==> s[1..][i - 1] == s[i];
    }
  }

  /**
   * `/^[^\s@]+@[^\s@]+\.[^\s@]+$/.test(s)`: the text splits as A "@" B "." C with
   * A, B and C non-empty runs of `[^\s@]`; `i` is the '@' and `j` the '.'.
   */
  predicate MatchesEmailPattern(s: string) {
    exists i, j | 0 < i && i + 1 < j < |s| - 1 ::
      s[i] == '@' && s[j] == '.' && EmailChars(s[..i]) && EmailChars(s[i + 1..j]) && EmailChars(s[j + 1..])
  }

  /** No white space anywhere, exactly one '@', not first, and a '.' in the domain with text on both sides. */
  predicate EmailShape(s: string) {
    && (forall k | 0 <= k < |s| :: !IsJsWhitespace(s[k]))
    && exists i | 0 < i < |s| ::
         && s[i] == '@'
         && (forall k | 0 <= k < |s| && s[k] == '@' :: k == i)
         && (exists j | i + 1 < j < |s| - 1 :: s[j] == '.')
  }

  /** A character inside a run of `[^\s@]` is an email character. */
  lemma EmailCharsSlice(s: string, lo: int, hi: int, k: int)
    requires 0 <= lo <= k < hi <= |s| && EmailChars(s[lo..hi])
    ensures IsEmailChar(s[k])
  {
    EmailCharsAt(s[lo..hi]);
    assert s[lo..hi][k - lo] == s[k];
  }

  /** Outside the '@' at `i` and the '.' at `j`, a text of the pattern's form holds only email characters. */
  lemma EmailPartsChars(s: string, i: int, j: int)
    requires 0 < i && i + 1 < j < |s| - 1
    requires EmailChars(s[..i]) && EmailChars(s[i + 1..j]) && EmailChars(s[j + 1..])
    ensures forall k | 0 <= k < |s| && k != i && k != j :: IsEmailChar(s[k])
  {
    assert s[..i] == s[0..i] && s[j + 1..] == s[j + 1..|s|];
    forall k | 0 <= k < |s| && k != i && k != j
      ensures IsEmailChar(s[k])
    {
      if k < i {
        EmailCharsSlice(s, 0, i, k);
      } else if k < j {
        EmailCharsSlice(s, i + 1, j, k);
      } else {
        EmailCharsSlice(s, j + 1, |s|, k);
      }
    }
  }

  lemma EmailPatternToShape(s: string)
    requires MatchesEmailPattern(s)
    ensures EmailShape(s)
  {
    var i, j :| 0 < i && i + 1 < j < |s| - 1 && s[i] == '@' && s[j] == '.'
      && EmailChars(s[..i]) && EmailChars(s[i + 1..j]) && EmailChars(s[j + 1..]);
    EmailPartsChars(s, i, j);
    assert !IsJsWhitespace('@') && IsEmailChar('.');
    assert forall k | 0 <= k < |s| && s[k] == '@' :: k == i;
    assert i + 1 < j < |s| - 1 && s[j] == '.';
  }

  lemma EmailShapeToPattern(s: string)
    requires EmailShape(s)
    ensures MatchesEmailPattern(s)
  {
    var i :| 0 < i < |s| && s[i] == '@' && (forall k | 0 <= k < |s| && s[k] == '@' :: k == i)
      && (exists j | i + 1 < j < |s| - 1 :: s[j] == '.');
    var j :| i + 1 < j < |s| - 1 && s[j] == '.';
    assert forall k | 0 <= k < |s| && k != i :: IsEmailChar(s[k]);
    EmailCharsAt(s[..i]);
    EmailCharsAt(s[i + 1..j]);
    EmailCharsAt(s[j + 1..]);
    assert EmailChars(s[..i]) && EmailChars(s[i + 1..j]) && EmailChars(s[j + 1..]);
  }

  /** The email pattern means exactly the shape spelled out in `EmailShape`. */
  lemma EmailPatternShape(s: string)
    ensures MatchesEmailPattern(s) <==> EmailShape(s)
  {
    if MatchesEmailPattern(s) {
      EmailPatternToShape(s);
    }
    if EmailShape(s) {
      EmailShapeToPattern(s);
    }
  }

  /** "a@b.com" matches the email pattern. */
  lemma EmailAcceptsExample()
    ensures MatchesEmailPattern("a@b.com")
  {
    var good := "a@b.com";
    assert EmailChars("a") && EmailChars("b") && EmailChars("com");
    assert good[..1] == "a" && good[2..3] == "b" && good[4..] == "com";
    assert good[1] == '@' && good[3] == '.';
  }

  /** A text without '@' never matches. */
  lemma EmailNeedsAt(s: string)
    requires '@' !in s
    ensures !MatchesEmailPattern(s)
  {
  }

  /** "not-an-email" does not match: it has no '@'. */
  lemma EmailRejectsExample()
    ensures !MatchesEmailPattern("not-an-email")
  {
    EmailNeedsAt("not-an-email");
  }
}
