/** The JavaScript string operations the handlers use: `trim`, `toLowerCase`, the decimal
    rendering of numbers in template strings, and `parseInt`. */
module Text {
  import opened Basics

  /** The characters `String.prototype.trim` and `parseInt` skip: ECMAScript's WhiteSpace
      (tab, vertical tab, form feed, space, no-break space, byte order mark and the Unicode
      space separators) and LineTerminator (line feed, carriage return, U+2028, U+2029). */
  predicate IsJsWhitespace(c: char)
  {
    || c == '\t' || c == '\n' || c == '\U{000B}' || c == '\U{000C}' || c == '\r' || c == ' '
    || c == '\U{00A0}' || c == '\U{1680}' || ('\U{2000}' <= c <= '\U{200A}')
    || c == '\U{2028}' || c == '\U{2029}' || c == '\U{202F}' || c == '\U{205F}'
    || c == '\U{3000}' || c == '\U{FEFF}'
  }

  /** The number of whitespace characters `s` starts with. */
  function LeadingWhitespace(s: string): (k: nat)
    ensures k <= |s|
    ensures forall i :: 0 <= i < k ==> IsJsWhitespace(s[i])
    ensures k == |s| || !IsJsWhitespace(s[k])
  {
    if s != [] && IsJsWhitespace(s[0]) then 1 + LeadingWhitespace(s[1..]) else 0
  }

  /** `s.trimStart()`: what is left after dropping the leading whitespace. */
  function TrimStart(s: string): (r: string)
    ensures r == s[LeadingWhitespace(s)..]
    ensures r == [] || !IsJsWhitespace(r[0])
  {
    s[LeadingWhitespace(s)..]
  }

  /** `s.trimEnd()`: the prefix of `s` left after dropping its trailing whitespace. */
  function TrimEnd(s: string): (r: string)
    ensures |r| <= |s| && r == s[..|r|]
    ensures forall i :: |r| <= i < |s| ==> IsJsWhitespace(s[i])
    ensures r == [] || !IsJsWhitespace(r[|r| - 1])
  {
    if s != [] && IsJsWhitespace(s[|s| - 1]) then TrimEnd(s[..|s| - 1]) else s
  }

  /** `s.trim()`: the infix of `s` that starts after its leading whitespace and neither
      starts nor ends with whitespace, everything after it being whitespace too. */
  function Trim(s: string): (r: string)
    ensures LeadingWhitespace(s) + |r| <= |s|
    ensures r == s[LeadingWhitespace(s)..LeadingWhitespace(s) + |r|]
    ensures forall i :: LeadingWhitespace(s) + |r| <= i < |s| ==> IsJsWhitespace(s[i])
    ensures r == [] || (!IsJsWhitespace(r[0]) && !IsJsWhitespace(r[|r| - 1]))
  {
    TrimEnd(TrimStart(s))
  }

  /** A string that does not start with whitespace is its own `trimStart()`. */
  lemma TrimStartNoop(s: string)
    requires s == [] || !IsJsWhitespace(s[0])
    ensures TrimStart(s) == s
  {
  }

  /** `toLowerCase` on one character; only the ASCII letters are mapped. */
  function LowerChar(c: char): (r: char)
    ensures 'A' <= c <= 'Z' ==> 'a' <= r <= 'z' && r as int - c as int == 32
    ensures !('A' <= c <= 'Z') ==> r == c
  {
    if 'A' <= c <= 'Z' then (c as int + 32) as char else c
  }

  /** `s.toLowerCase()`, character by character. */
  function ToLower(s: string): (r: string)
    ensures |r| == |s|
    ensures forall i :: 0 <= i < |s| ==> r[i] == LowerChar(s[i])
  {
    seq(|s|, i requires 0 <= i < |s| => LowerChar(s[i]))
  }

  /** Lower-casing twice changes nothing more than lower-casing once. */
  lemma ToLowerIdempotent(s: string)
    ensures ToLower(ToLower(s)) == ToLower(s)
  {
    var l := ToLower(s);
    forall i | 0 <= i < |s| ensures ToLower(l)[i] == l[i] {
      assert !('A' <= l[i] <= 'Z');
    }
  }

  /** `a.toLowerCase() === b.toLowerCase()`. */
  predicate SameIgnoringCase(a: string, b: string)
  {
    ToLower(a) == ToLower(b)
  }

  // ---------------------------------------------------------------- digits

  /** The value of a digit character in bases up to 16, or 99 for a non-digit. */
  function DigitValue(c: char): (v: nat)
    ensures v < 16 <==> ('0' <= c <= '9' || 'a' <= c <= 'f' || 'A' <= c <= 'F')
  {
    if '0' <= c <= '9' then c as int - '0' as int
    else if 'a' <= c <= 'f' then c as int - 'a' as int + 10
    else if 'A' <= c <= 'F' then c as int - 'A' as int + 10
    else 99
  }

  predicate IsDigit(c: char, radix: nat) { DigitValue(c) < radix }

  /** The value of a string of digits in the given radix, most significant digit first. */
  function DigitsValue(d: string, radix: nat): nat
  {
    if d == [] then 0 else DigitsValue(d[..|d| - 1], radix) * radix + DigitValue(d[|d| - 1])
  }

  /** The longest prefix of `s` made of digits of the radix. */
  function DigitPrefix(s: string, radix: nat): (d: string)
    ensures d <= s
    ensures forall i :: 0 <= i < |d| ==> IsDigit(d[i], radix)
    ensures |d| < |s| ==> !IsDigit(s[|d|], radix)
  {
    if s != [] && IsDigit(s[0], radix) then [s[0]] + DigitPrefix(s[1..], radix) else []
  }

  function DigitChar(n: nat): (c: char)
    requires n < 10
    ensures DigitValue(c) == n && IsDigit(c, 10)
  {
    ('0' as int + n) as char
  }

  /** How a non-negative integer is written by a template string: decimal, no leading zero. */
  function NatToDecimal(n: nat): (r: string)
    ensures |r| >= 1
    ensures forall i :: 0 <= i < |r| ==> IsDigit(r[i], 10)
    ensures |r| > 1 ==> r[0] != '0'
    decreases n
  {
    if n < 10 then [DigitChar(n)] else NatToDecimal(n / 10) + [DigitChar(n % 10)]
  }

  /** How an integer is written by a template string. */
  function IntToDecimal(i: int): (r: string)
  {
    if i < 0 then "-" + NatToDecimal(-i) else NatToDecimal(i)
  }

  /** Reading the decimal rendering back yields the number. */
  lemma {:induction false} DecimalValueRoundTrip(n: nat)
    ensures DigitsValue(NatToDecimal(n), 10) == n
    decreases n
  {
    if n >= 10 {
      var r := NatToDecimal(n);
      assert r[..|r| - 1] == NatToDecimal(n / 10);
      DecimalValueRoundTrip(n / 10);
    }
  }

  lemma {:induction false} DigitPrefixOfDigits(d: string, radix: nat)
    requires forall i :: 0 <= i < |d| ==> IsDigit(d[i], radix)
    ensures DigitPrefix(d, radix) == d
  {
    if d != [] {
      DigitPrefixOfDigits(d[1..], radix);
    }
  }

  // ---------------------------------------------------------------- parseInt

  /** The digits after the sign: a `0x` or `0X` prefix selects base 16, otherwise base 10, and
      the longest run of digits of that base is the value; `None` when there is no digit. */
  function ParseUnsigned(u: string): (r: Option<nat>)
  {
    if |u| >= 2 && u[0] == '0' && (u[1] == 'x' || u[1] == 'X') then
      var d := DigitPrefix(u[2..], 16);
      if d == [] then None else Some(DigitsValue(d, 16))
    else
      var d := DigitPrefix(u, 10);
      if d == [] then None else Some(DigitsValue(d, 10))
  }

  /** `parseInt(s)` with no radix: leading whitespace is skipped and one sign is read before
      the digits. `None` stands for NaN. */
  function ParseInt(s: string): (r: Option<int>)
  {
    ParseSigned(TrimStart(s))
  }

  /** An optional `-` or `+` followed by what `ParseUnsigned` reads. */
  function ParseSigned(t: string): Option<int>
  {
    if t != [] && t[0] == '-' then Signed(true, ParseUnsigned(t[1..]))
    else if t != [] && t[0] == '+' then Signed(false, ParseUnsigned(t[1..]))
    else Signed(false, ParseUnsigned(t))
  }

  function Signed(negative: bool, r: Option<nat>): Option<int>
  {
    match r
    case None => None
    case Some(v) => Some(if negative then -(v as int) else v)
  }

  /** Without leading whitespace, `parseInt` starts right at the sign. */
  lemma ParseIntNoBlank(s: string)
    requires s != [] && !IsJsWhitespace(s[0])
    ensures ParseInt(s) == ParseSigned(s)
  {
    TrimStartNoop(s);
  }

  /** A decimal rendering is read back as its value, whatever follows the digits (unless the
      text after a lone `0` is `x`, which `parseInt` takes for a hexadecimal prefix). */
  lemma ParseUnsignedDecimal(n: nat, rest: string)
    requires rest == [] || (!IsDigit(rest[0], 10) && (n != 0 || (rest[0] != 'x' && rest[0] != 'X')))
    ensures ParseUnsigned(NatToDecimal(n) + rest) == Some(n)
  {
    var d := NatToDecimal(n);
    var s := d + rest;
    assert s[0] == d[0];
    assert !(|s| >= 2 && s[0] == '0' && (s[1] == 'x' || s[1] == 'X')) by {
      if |d| > 1 {
        assert s[1] == d[1];
      } else if n != 0 {
        assert DigitValue(d[0]) == n;
      } else if rest != [] {
        assert s[1] == rest[0];
      }
    }
    DigitPrefixStops(d, rest, 10);
    DecimalValueRoundTrip(n);
  }

  /** An `x` after a non-zero number is an ordinary stop: `parseInt("12x")` is 12. */
  lemma ParseIntTwelveX()
    ensures ParseInt("12x") == Some(12)
  {
    ParseIntStopsAtNonDigit(12, "x");
    assert NatToDecimal(12) == "12";
  }

  /** `parseInt` reads back what a template string writes. */
  lemma ParseIntRoundTrip(i: int)
    ensures ParseInt(IntToDecimal(i)) == Some(i)
  {
    if i >= 0 {
      ParseIntStopsAtNonDigit(i, []);
      assert NatToDecimal(i) + [] == NatToDecimal(i);
    } else {
      ParseIntNegative(-i);
    }
  }

  lemma ParseIntNegative(n: nat)
    requires n > 0
    ensures ParseInt("-" + NatToDecimal(n)) == Some(-(n as int))
  {
    var d := NatToDecimal(n);
    ParseUnsignedDecimal(n, []);
    assert d + [] == d;
    ParseIntMinus(d, n);
  }

  lemma ParseIntMinus(u: string, v: nat)
    requires ParseUnsigned(u) == Some(v)
    ensures ParseInt("-" + u) == Some(-(v as int))
  {
    var s := "-" + u;
    assert s[1..] == u;
    assert s != [] && s[0] == '-';
    assert ParseSigned(s) == Signed(true, ParseUnsigned(s[1..]));
    ParseIntNoBlank(s);
  }

  /** Reading stops at the first non-digit: `parseInt("42abc")` and `parseInt("12x")` are 42
      and 12; only after a lone `0` does an `x` select hexadecimal. */
  lemma ParseIntStopsAtNonDigit(n: nat, rest: string)
    requires rest == [] || (!IsDigit(rest[0], 10) && (n != 0 || (rest[0] != 'x' && rest[0] != 'X')))
    ensures ParseInt(NatToDecimal(n) + rest) == Some(n)
  {
    var s := NatToDecimal(n) + rest;
    ParseUnsignedDecimal(n, rest);
    assert s[0] == NatToDecimal(n)[0];
    assert '0' <= s[0] <= '9';
    assert ParseSigned(s) == Signed(false, ParseUnsigned(s));
    ParseIntNoBlank(s);
  }

  lemma {:induction false} DigitPrefixStops(d: string, rest: string, radix: nat)
    requires forall i :: 0 <= i < |d| ==> IsDigit(d[i], radix)
    requires rest == [] || !IsDigit(rest[0], radix)
    ensures DigitPrefix(d + rest, radix) == d
  {
    if d != [] {
      assert (d + rest)[1..] == d[1..] + rest;
      DigitPrefixStops(d[1..], rest, radix);
    } else {
      assert d + rest == rest;
    }
  }
}
