/** The few JavaScript built-ins the inventory client leans on, stated over
    strings of code points: String.prototype.trim, parseInt(s, 10), the global
    isNaN applied to a string, and the decimal rendering of an integral Number.
    Each follows the grammar of ECMA-262 for its input; Numbers are integers
    here (see README). */
module JsBuiltins {

  datatype Option<+T> = None | Some(value: T)

  /** WhiteSpace (section 12.2 of ECMA-262, including every Zs code point) and
      LineTerminator (section 12.3): the characters trim removes and that
      StringToNumber and parseInt skip. */
  const Whitespace: set<char> := {
    '\t', '\U{000B}', '\U{000C}', ' ', '\U{00A0}', '\U{FEFF}',
    '\n', '\r', '\U{2028}', '\U{2029}',
    '\U{1680}', '\U{2000}', '\U{2001}', '\U{2002}', '\U{2003}', '\U{2004}', '\U{2005}',
    '\U{2006}', '\U{2007}', '\U{2008}', '\U{2009}', '\U{200A}', '\U{202F}', '\U{205F}', '\U{3000}'
  }

  predicate IsWhitespace(c: char) {
    c in Whitespace
  }

  predicate AllWhitespace(s: string) {
    forall k :: 0 <= k < |s| ==> IsWhitespace(s[k])
  }

  /** The number of whitespace characters at the front of `s`. */
  function LeadingWhitespace(s: string): (n: nat)
    ensures n <= |s|
    ensures forall k :: 0 <= k < n ==> IsWhitespace(s[k])
    ensures n == |s| || !IsWhitespace(s[n])
  {
    if s == [] || !IsWhitespace(s[0]) then 0 else 1 + LeadingWhitespace(s[1..])
  }

  /** The length of `s` without the whitespace at its end. */
  function TrailingStart(s: string): (n: nat)
    ensures n <= |s|
    ensures forall k :: n <= k < |s| ==> IsWhitespace(s[k])
    ensures n == 0 || !IsWhitespace(s[n - 1])
  {
    if s == [] || !IsWhitespace(s[|s| - 1]) then |s| else TrailingStart(s[..|s| - 1])
  }

  /** Drops the leading whitespace of `s`. */
  function TrimStart(s: string): string {
    s[LeadingWhitespace(s)..]
  }

  /** String.prototype.trim: the text between the leading and the trailing
      whitespace of `s`. It is empty exactly when `s` holds nothing but
      whitespace, and otherwise starts and ends with a visible character. */
  function Trim(s: string): (r: string)
    ensures |r| <= |s|
    ensures r == [] || (!IsWhitespace(r[0]) && !IsWhitespace(r[|r| - 1]))
    ensures r == [] <==> AllWhitespace(s)
  {
    var t := TrimStart(s);
    var r := t[..TrailingStart(t)];
    assert r != [] ==> r[0] == t[0] && r[|r| - 1] == t[|r| - 1];
    assert t != [] ==> t[0] == s[LeadingWhitespace(s)];
    r
  }

  /** Trimming is idempotent: trimmed text is left as it is. */
  lemma TrimIdempotent(s: string)
    ensures Trim(Trim(s)) == Trim(s)
  {
    var r := Trim(s);
    assert LeadingWhitespace(r) == 0;
    assert TrimStart(r) == r;
  }

  /** Trim keeps the text between the whitespace it drops: `Trim(s)` sits at
      offset `i` in `s`, and everything before and after it is whitespace. */
  lemma {:induction false} TrimIsInterior(s: string)
    ensures var i := LeadingWhitespace(s);
      && i + |Trim(s)| <= |s|
      && Trim(s) == s[i..i + |Trim(s)|]
      && (forall k :: 0 <= k < i ==> IsWhitespace(s[k]))
      && (forall k :: i + |Trim(s)| <= k < |s| ==> IsWhitespace(s[k]))
  {
    var i := LeadingWhitespace(s);
    var t := s[i..];
    var j := TrailingStart(t);
    assert Trim(s) == t[..j] == s[i..i + j];
    forall k | i + j <= k < |s| ensures IsWhitespace(s[k]) {
      assert s[k] == t[k - i];
    }
  }

  /** Skipping whitespace in front of text that starts with a visible
      character gives back that text. */
  lemma {:induction false} TrimStartSkips(ws: string, x: string)
    requires AllWhitespace(ws)
    requires x == [] || !IsWhitespace(x[0])
    ensures TrimStart(ws + x) == x
  {
    LeadingWhitespaceSkips(ws, x);
    assert (ws + x)[|ws|..] == x;
  }

  lemma {:induction false} LeadingWhitespaceSkips(ws: string, x: string)
    requires AllWhitespace(ws)
    requires x == [] || !IsWhitespace(x[0])
    ensures LeadingWhitespace(ws + x) == |ws|
  {
    if ws != [] {
      assert (ws + x)[1..] == ws[1..] + x;
      LeadingWhitespaceSkips(ws[1..], x);
    } else {
      assert ws + x == x;
    }
  }

  // ---------------------------------------------------------------- digits

  predicate IsDigit(c: char) {
    '0' <= c <= '9'
  }

  predicate AllDigits(s: string) {
    forall k :: 0 <= k < |s| ==> IsDigit(s[k])
  }

  function DigitValue(c: char): (d: nat)
    requires IsDigit(c)
    ensures d < 10
  {
    c as int - '0' as int
  }

  function DigitChar(d: nat): (c: char)
    requires d < 10
    ensures IsDigit(c) && DigitValue(c) == d
  {
    ('0' as int + d) as char
  }

  /** The longest run of decimal digits at the front of `s`. */
  function DigitPrefix(s: string): (z: string)
    ensures |z| <= |s| && z == s[..|z|] && AllDigits(z)
    ensures |z| == |s| || !IsDigit(s[|z|])
  {
    if s != [] && IsDigit(s[0]) then [s[0]] + DigitPrefix(s[1..]) else []
  }

  /** A run of digits followed by text that does not start with a digit splits
      back into that run. */
  lemma {:induction false} DigitPrefixOf(z: string, rest: string)
    requires AllDigits(z)
    requires rest == [] || !IsDigit(rest[0])
    ensures DigitPrefix(z + rest) == z
  {
    if z != [] {
      assert (z + rest)[1..] == z[1..] + rest;
      DigitPrefixOf(z[1..], rest);
    } else {
      assert z + rest == rest;
    }
  }

  /** The mathematical value of a string of decimal digits, most significant first. */
  function DigitsValue(z: string): nat
    requires AllDigits(z)
  {
    if z == [] then 0 else 10 * DigitsValue(z[..|z| - 1]) + DigitValue(z[|z| - 1])
  }

  /** The decimal digits of `n` without leading zeros: what Number::toString
      produces for a non-negative integer, and a string whose value is `n`. */
  function NatToDigits(n: nat): (z: string)
    ensures z != [] && AllDigits(z)
    ensures z[0] == '0' ==> n == 0 && |z| == 1
    ensures DigitsValue(z) == n
  {
    if n < 10 then
      [DigitChar(n)]
    else
      var front := NatToDigits(n / 10);
      var z := front + [DigitChar(n % 10)];
      assert z[..|z| - 1] == front;
      z
  }

  /** Number::toString for an integral Number: a minus sign for negatives,
      then the digits of the magnitude. */
  function DecimalString(n: int): (s: string)
    ensures s != [] && !IsWhitespace(s[0]) && !IsWhitespace(s[|s| - 1])
  {
    if n < 0 then "-" + NatToDigits(-n) else NatToDigits(n)
  }

  // -------------------------------------------------------------- parseInt

  /** parseInt(s, 10) (section 19.2.5 of ECMA-262): skip leading whitespace,
      read an optional sign, then the longest run of decimal digits; no digit
      at all gives NaN, written None. Anything after the digits is ignored. */
  function ParseInt(s: string): Option<int> {
    ParseSigned(TrimStart(s))
  }

  /** parseInt(…, 10) once the leading whitespace is gone: a minus sign
      negates the digits after it, a plus sign is skipped. */
  function ParseSigned(t: string): Option<int> {
    if t != [] && t[0] == '-' then
      match ParseDigits(t[1..])
      case Some(m) => Some(-m)
      case None => None
    else if t != [] && t[0] == '+' then ParseDigits(t[1..])
    else ParseDigits(t)
  }

  /** The value of the longest run of digits at the start of `u`, None when
      `u` does not start with a digit. */
  function ParseDigits(u: string): Option<int> {
    var z := DigitPrefix(u);
    if z == [] then None else Some(DigitsValue(z))
  }

  /** The digits of a magnitude, followed by text that does not start with a
      digit, read back as that magnitude. */
  lemma ParseDigitsOf(m: nat, rest: string)
    requires rest == [] || !IsDigit(rest[0])
    ensures ParseDigits(NatToDigits(m) + rest) == Some(m)
  {
    DigitPrefixOf(NatToDigits(m), rest);
  }

  /** Without a sign in front, such digits are read as they are. */
  lemma ParseSignedPositive(m: nat, rest: string)
    requires rest == [] || !IsDigit(rest[0])
    ensures ParseSigned(NatToDigits(m) + rest) == Some(m)
  {
    var digits := NatToDigits(m);
    assert IsDigit(digits[0]);
    assert (digits + rest)[0] == digits[0];
    ParseDigitsOf(m, rest);
  }

  /** A minus sign in front of such digits negates what is read. */
  lemma ParseSignedNegative(m: int, rest: string)
    requires m >= 0
    requires rest == [] || !IsDigit(rest[0])
    ensures ParseSigned("-" + NatToDigits(m) + rest) == Some(-m)
  {
    var t := "-" + NatToDigits(m) + rest;
    assert t[1..] == NatToDigits(m) + rest;
    ParseDigitsOf(m, rest);
  }

  /** The decimal rendering of an integer, followed by text that does not
      start with a digit, is read back as that integer once whitespace is gone. */
  lemma ParseSignedDecimal(n: int, rest: string)
    requires rest == [] || !IsDigit(rest[0])
    ensures ParseSigned(DecimalString(n) + rest) == Some(n)
  {
    if n < 0 {
      assert DecimalString(n) + rest == "-" + NatToDigits(-n) + rest;
      ParseSignedNegative(-n, rest);
    } else {
      assert DecimalString(n) == NatToDigits(n);
      ParseSignedPositive(n, rest);
    }
  }

  /** parseInt reads back the decimal rendering of any integer, whatever
      whitespace precedes it and whatever non-digit text follows it. */
  lemma {:induction false} ParseIntReadsDecimal(ws: string, n: int, rest: string)
    requires AllWhitespace(ws)
    requires rest == [] || !IsDigit(rest[0])
    ensures ParseInt(ws + DecimalString(n) + rest) == Some(n)
  {
    var s := ws + DecimalString(n) + rest;
    var x := DecimalString(n) + rest;
    assert s == ws + x;
    assert x[0] == DecimalString(n)[0];
    TrimStartSkips(ws, x);
    ParseSignedDecimal(n, rest);
    assert ParseInt(s) == ParseSigned(x);
  }

  /** The round trip Number::toString then parseInt(…, 10) is the identity on integers. */
  lemma ParseIntRoundTrip(n: int)
    ensures ParseInt(DecimalString(n)) == Some(n)
  {
    ParseIntReadsDecimal("", n, "");
    assert "" + DecimalString(n) + "" == DecimalString(n);
  }

  // ------------------------------------------------- isNaN applied to a string

  predicate IsHexDigit(c: char) {
    IsDigit(c) || 'a' <= c <= 'f' || 'A' <= c <= 'F'
  }

  /** NonDecimalIntegerLiteral without separators: 0x…, 0o… or 0b…. */
  predicate IsNonDecimalIntegerLiteral(t: string) {
    && |t| > 2 && t[0] == '0'
    && (|| ((t[1] == 'x' || t[1] == 'X') && forall k :: 2 <= k < |t| ==> IsHexDigit(t[k]))
        || ((t[1] == 'o' || t[1] == 'O') && forall k :: 2 <= k < |t| ==> '0' <= t[k] <= '7')
        || ((t[1] == 'b' || t[1] == 'B') && forall k :: 2 <= k < |t| ==> t[k] == '0' || t[k] == '1'))
  }

  /** SignedInteger: an optional sign and at least one digit, nothing else. */
  predicate IsSignedInteger(t: string) {
    var u := if t != [] && (t[0] == '+' || t[0] == '-') then t[1..] else t;
    u != [] && AllDigits(u)
  }

  /** An optional ExponentPart and nothing after it. */
  predicate IsOptionalExponent(t: string) {
    t == [] || ((t[0] == 'e' || t[0] == 'E') && IsSignedInteger(t[1..]))
  }

  /** StrUnsignedDecimalLiteral: Infinity, or digits with an optional fraction,
      or a fraction alone, each with an optional exponent. */
  predicate IsStrUnsignedDecimalLiteral(t: string) {
    || t == "Infinity"
    || (var a := DigitPrefix(t);
        var r := t[|a|..];
        if r != [] && r[0] == '.' then
          var b := DigitPrefix(r[1..]);
          (a != [] || b != []) && IsOptionalExponent(r[1..][|b|..])
        else
          a != [] && IsOptionalExponent(r))
  }

  predicate IsStrDecimalLiteral(t: string) {
    if t != [] && (t[0] == '+' || t[0] == '-') then IsStrUnsignedDecimalLiteral(t[1..])
    else IsStrUnsignedDecimalLiteral(t)
  }

  /** isNaN(s) for a string `s`: ToNumber(s) is NaN (StringToNumber, section
      7.1.4.1.1 of ECMA-262) exactly when `s` without its surrounding whitespace
      is neither empty (which converts to 0) nor a numeric literal. */
  predicate IsNaNString(s: string) {
    var t := Trim(s);
    !(t == [] || IsNonDecimalIntegerLiteral(t) || IsStrDecimalLiteral(t))
  }

  /** isNaN is false on the decimal rendering of every integer. */
  lemma DecimalStringIsANumber(n: int)
    ensures !IsNaNString(DecimalString(n))
  {
    var d := DecimalString(n);
    var digits := NatToDigits(if n < 0 then -n else n);
    assert LeadingWhitespace(d) == 0;
    assert TrailingStart(d) == |d|;
    assert Trim(d) == d;
    DigitPrefixOf(digits, "");
    assert digits + "" == digits;
    if n < 0 {
      assert d[1..] == digits;
    }
    assert IsStrUnsignedDecimalLiteral(digits) by {
      assert digits[|digits|..] == [];
    }
  }
}
