/**
 The input sanitiser: `safeParseInt` runs the global `parseInt` of ECMAScript
 (section 19.2.5 of ECMA-262, called without a radix) and falls back to a
 default when the parse yields NaN.

 `parseInt` skips leading white space, reads an optional sign, switches to
 hexadecimal after a `0x`/`0X` prefix, and then reads the longest run of
 digits; it stops at the first character that is not a digit, so no
 thousands separator is ever skipped. The result is NaN when that run is empty.
 */
module SafeParse {

  datatype Option<T> = None | Some(value: T)

  /** StrWhiteSpaceChar: the WhiteSpace and LineTerminator code points of ECMA-262
      (TAB, VT, FF, ZWNBSP, every space separator of Unicode category Zs, LF, CR,
      LINE SEPARATOR and PARAGRAPH SEPARATOR). */
  predicate IsStrWhiteSpace(c: char) {
    || c == '\t' || c == '\U{000B}' || c == '\U{000C}' || c == '\U{FEFF}'
    || c == ' ' || c == '\U{00A0}' || c == '\U{1680}' || ('\U{2000}' <= c <= '\U{200A}')
    || c == '\U{202F}' || c == '\U{205F}' || c == '\U{3000}'
    || c == '\n' || c == '\r' || c == '\U{2028}' || c == '\U{2029}'
  }

  predicate IsDecimalDigit(c: char) {
    '0' <= c <= '9'
  }

  predicate IsHexDigit(c: char) {
    IsDecimalDigit(c) || 'a' <= c <= 'f' || 'A' <= c <= 'F'
  }

  /** A digit of radix 10 or 16. */
  predicate IsRadixDigit(c: char, hex: bool) {
    if hex then IsHexDigit(c) else IsDecimalDigit(c)
  }

  function DigitValue(c: char): (d: nat)
    requires IsHexDigit(c)
    ensures IsDecimalDigit(c) ==> d < 10
    ensures d < 16
  {
    if IsDecimalDigit(c) then c as int - '0' as int
    else if 'a' <= c <= 'f' then c as int - 'a' as int + 10
    else c as int - 'A' as int + 10
  }

  /** The string with its leading white space removed. */
  function TrimStart(s: string): (r: string)
    ensures |r| <= |s|
    ensures r == [] || !IsStrWhiteSpace(r[0])
  {
    if s != [] && IsStrWhiteSpace(s[0]) then TrimStart(s[1..]) else s
  }

  /** The longest prefix of `s` made of digits of the radix. */
  function LeadingDigits(s: string, hex: bool): (z: string)
    ensures z <= s
    ensures forall k :: 0 <= k < |z| ==> IsRadixDigit(z[k], hex)
    ensures |z| < |s| ==> !IsRadixDigit(s[|z|], hex)
  {
    if s == [] || !IsRadixDigit(s[0], hex) then [] else [s[0]] + LeadingDigits(s[1..], hex)
  }

  /** The number a digit string denotes, most significant digit first. */
  function DigitsValue(z: string, hex: bool): (v: nat)
    requires forall k :: 0 <= k < |z| ==> IsRadixDigit(z[k], hex)
  {
    if z == [] then 0
    else
      assert IsRadixDigit(z[|z| - 1], hex);
      DigitsValue(z[..|z| - 1], hex) * (if hex then 16 else 10) + DigitValue(z[|z| - 1])
  }

  /** The text past an optional leading `+` or `-`. */
  function Unsigned(t: string): (u: string)
  {
    if t != [] && (t[0] == '+' || t[0] == '-') then t[1..] else t
  }

  /** Whether unsigned text starts with the hexadecimal prefix `0x` or `0X`. */
  predicate HasHexPrefix(u: string) {
    |u| >= 2 && u[0] == '0' && (u[1] == 'x' || u[1] == 'X')
  }

  /** Unsigned text parsed as a natural number; `None` when no digit follows. */
  function ParseUnsigned(u: string): (r: Option<nat>)
  {
    var hex := HasHexPrefix(u);
    var z := LeadingDigits(if hex then u[2..] else u, hex);
    if z == [] then None else Some(DigitsValue(z, hex))
  }

  /** `parseInt(s)` with no radix argument; `None` stands for NaN. */
  function ParseInt(s: string): (r: Option<int>)
    // a negative result needs a minus sign past the white space
    ensures r.Some? && r.value < 0 ==> '-' in TrimStart(s)
  {
    var t := TrimStart(s);
    var sign := if t != [] && t[0] == '-' then -1 else 1;
    match ParseUnsigned(Unsigned(t))
    case None => None
    case Some(n) => Some(sign * n)
  }

  /** `safeParseInt(value, defaultVal)`: the parsed integer, or the default on NaN. */
  function SafeParseInt(value: string, defaultVal: int): (r: int)
    ensures ParseInt(value) == Some(r) || (ParseInt(value) == None && r == defaultVal)
  {
    match ParseInt(value)
    case None => defaultVal
    case Some(n) => n
  }

  // ---------------------------------------------------------------------------
  // Decimal rendering, the inverse direction
  // ---------------------------------------------------------------------------

  function DecimalDigitChar(d: nat): (c: char)
    requires d < 10
    ensures IsDecimalDigit(c) && DigitValue(c) == d
  {
    ('0' as int + d) as char
  }

  /** The decimal numeral of a natural number, without leading zeros. */
  function NatToDecimal(n: nat): (s: string)
    ensures |s| >= 1
    ensures forall k :: 0 <= k < |s| ==> IsDecimalDigit(s[k])
    ensures n >= 10 ==> |s| >= 2
  {
    if n < 10 then [DecimalDigitChar(n)] else NatToDecimal(n / 10) + [DecimalDigitChar(n % 10)]
  }

  /** The decimal numeral of an integer, with a leading `-` when it is negative. */
  function ToDecimal(n: int): (s: string)
  {
    if n < 0 then "-" + NatToDecimal(-n) else NatToDecimal(n)
  }

  lemma {:induction false} DigitsValueOfDecimal(n: nat)
    ensures DigitsValue(NatToDecimal(n), false) == n
  {
    if n >= 10 {
      var s := NatToDecimal(n);
      assert s[..|s| - 1] == NatToDecimal(n / 10);
      DigitsValueOfDecimal(n / 10);
    }
  }

  lemma {:induction false} LeadingDigitsOfDigits(z: string, c: char, rest: string, hex: bool)
    requires forall k :: 0 <= k < |z| ==> IsRadixDigit(z[k], hex)
    requires !IsRadixDigit(c, hex)
    ensures LeadingDigits(z + [c] + rest, hex) == z
  {
    if z != [] {
      assert (z + [c] + rest)[1..] == z[1..] + [c] + rest;
      LeadingDigitsOfDigits(z[1..], c, rest, hex);
    }
  }

  lemma {:induction false} LeadingDigitsOfAllDigits(z: string, hex: bool)
    requires forall k :: 0 <= k < |z| ==> IsRadixDigit(z[k], hex)
    ensures LeadingDigits(z, hex) == z
  {
    if z != [] {
      LeadingDigitsOfAllDigits(z[1..], hex);
    }
  }

  // ---------------------------------------------------------------------------
  // Properties of the parser
  // ---------------------------------------------------------------------------

  /** Every integer written in decimal reads back as itself. */
  lemma {:induction false} ParseIntRoundTrip(n: int)
    ensures ParseInt(ToDecimal(n)) == Some(n)
    ensures forall d :: SafeParseInt(ToDecimal(n), d) == n
  {
    ParseIntOfDecimal(n);
  }

  lemma {:induction false} ParseIntOfDecimal(n: int)
    ensures ParseInt(ToDecimal(n)) == Some(n)
  {
    var m: nat := if n < 0 then -n else n;
    var digits := NatToDecimal(m);
    ParseUnsignedOfDecimal(m);
    ToDecimalIsSignAndDigits(n, m);
    ParseIntOfSignedDigits(ToDecimal(n), n < 0, digits, m);
  }

  lemma {:induction false} ParseUnsignedOfDecimal(m: nat)
    ensures ParseUnsigned(NatToDecimal(m)) == Some(m)
  {
    var digits := NatToDecimal(m);
    DigitsValueOfDecimal(m);
    LeadingDigitsOfAllDigits(digits, false);
    if m >= 10 {
      assert digits[1] != 'x' && digits[1] != 'X';
    }
    assert !HasHexPrefix(digits);
  }

  lemma ToDecimalIsSignAndDigits(n: int, m: nat)
    requires m == if n < 0 then -n else n
    ensures ToDecimal(n) == (if n < 0 then ['-'] else []) + NatToDecimal(m)
  {
    if n >= 0 {
      assert [] + NatToDecimal(m) == NatToDecimal(m);
    }
  }

  /** Reading stops at the first character that is not a decimal digit, so
      whatever follows a numeral, a thousands separator included, is ignored.
      The one exception is `0` followed by `x` or `X`, the hexadecimal prefix. */
  lemma {:induction false} ParseIntStopsAtNonDigit(n: int, c: char, rest: string)
    requires !IsDecimalDigit(c)
    requires n == 0 ==> c != 'x' && c != 'X'
    ensures ParseInt(ToDecimal(n) + [c] + rest) == Some(n)
  {
    var m: nat := if n < 0 then -n else n;
    var u := NatToDecimal(m) + [c] + rest;
    ParseUnsignedStopsAtNonDigit(m, c, rest);
    ToDecimalFollowedBy(n, m, c, rest);
    ParseIntOfSignedDigits(ToDecimal(n) + [c] + rest, n < 0, u, m);
  }

  /** A numeral followed by more text is its sign, then its digits, then the text. */
  lemma ToDecimalFollowedBy(n: int, m: nat, c: char, rest: string)
    requires m == if n < 0 then -n else n
    ensures ToDecimal(n) + [c] + rest == (if n < 0 then ['-'] else []) + (NatToDecimal(m) + [c] + rest)
  {
    var d := NatToDecimal(m);
    if n < 0 {
      assert ToDecimal(n) == ['-'] + d;
      assert (['-'] + d) + [c] + rest == ['-'] + (d + [c] + rest);
    } else {
      assert ToDecimal(n) == d;
      assert [] + (d + [c] + rest) == d + [c] + rest;
    }
  }

  /** Text that starts with a decimal digit, possibly after a `-`, is read
      without skipping anything. */
  lemma ParseIntOfSignedDigits(s: string, negative: bool, u: string, m: nat)
    requires s == (if negative then ['-'] else []) + u
    requires u != [] && IsDecimalDigit(u[0])
    requires ParseUnsigned(u) == Some(m)
    ensures ParseInt(s) == Some(if negative then -(m as int) else m as int)
  {
    if negative {
      assert s[0] == '-' && s[1..] == u;
    } else {
      assert s == u && s[0] != '-' && s[0] != '+';
    }
    assert TrimStart(s) == s;
    assert Unsigned(s) == u;
  }

  lemma {:induction false} ParseUnsignedStopsAtNonDigit(m: nat, c: char, rest: string)
    requires !IsDecimalDigit(c)
    requires m == 0 ==> c != 'x' && c != 'X'
    ensures ParseUnsigned(NatToDecimal(m) + [c] + rest) == Some(m)
    ensures IsDecimalDigit((NatToDecimal(m) + [c] + rest)[0])
  {
    var digits := NatToDecimal(m);
    DigitsValueOfDecimal(m);
    LeadingDigitsOfDigits(digits, c, rest, false);
    var u := digits + [c] + rest;
    assert u[0] == digits[0];
    if m >= 10 {
      assert u[1] == digits[1];
    } else {
      assert u[1] == c;
    }
    assert !HasHexPrefix(u);
  }

  /** The minus sign that makes a result negative is the first character past
      the white space. */
  lemma ParseIntNegativeNeedsLeadingMinus(s: string)
    requires ParseInt(s).Some? && ParseInt(s).value < 0
    ensures TrimStart(s) != [] && TrimStart(s)[0] == '-'
  {
  }

  /** Leading white space makes no difference to the result. */
  lemma {:induction false} ParseIntIgnoresLeadingWhiteSpace(ws: string, s: string)
    requires forall k :: 0 <= k < |ws| ==> IsStrWhiteSpace(ws[k])
    ensures ParseInt(ws + s) == ParseInt(s)
  {
    TrimStartSkipsWhiteSpace(ws, s);
  }

  lemma {:induction false} TrimStartSkipsWhiteSpace(ws: string, s: string)
    requires forall k :: 0 <= k < |ws| ==> IsStrWhiteSpace(ws[k])
    ensures TrimStart(ws + s) == TrimStart(s)
  {
    if ws != [] {
      var w := ws + s;
      assert w != [] && w[0] == ws[0];
      assert IsStrWhiteSpace(ws[0]);
      assert w[1..] == ws[1..] + s;
      assert TrimStart(w) == TrimStart(w[1..]);
      TrimStartSkipsWhiteSpace(ws[1..], s);
    } else {
      assert ws + s == s;
    }
  }

  /** Trimming removes white space and nothing else: the result is a suffix of
      the input, and every character in front of it is white space. */
  lemma {:induction false} TrimStartRemovesOnlyWhiteSpace(s: string)
    ensures var r := TrimStart(s);
      && r == s[|s| - |r|..]
      && forall k :: 0 <= k < |s| - |r| ==> IsStrWhiteSpace(s[k])
  {
    if s != [] && IsStrWhiteSpace(s[0]) {
      TrimStartRemovesOnlyWhiteSpace(s[1..]);
    }
  }

  /** The parse yields NaN exactly when, past the white space and the sign,
      there is no digit to read: the text is empty, starts with a non-digit,
      or is a bare hexadecimal prefix not followed by a hexadecimal digit. */
  lemma ParseIntNaNIff(s: string)
    ensures ParseInt(s) == None <==>
      var t := TrimStart(s);
      var u := Unsigned(t);
      || u == []
      || !IsDecimalDigit(u[0])
      || (|u| >= 2 && u[0] == '0' && (u[1] == 'x' || u[1] == 'X') && (|u| == 2 || !IsHexDigit(u[2])))
  {
  }

  /** Text with no digit to read falls back to the default. */
  lemma SafeParseIntFallsBack(d: int)
    ensures SafeParseInt("", d) == d
    ensures SafeParseInt("abc", d) == d
    ensures SafeParseInt(" 0x", d) == d
  {
    ParseIntBareHexPrefix();
  }

  lemma ParseIntBareHexPrefix()
    ensures ParseInt(" 0x") == None
  {
    assert TrimStart(" 0x") == "0x" by {
      assert " 0x"[1..] == "0x";
    }
    assert "0x"[2..] == [];
  }

  /** A grouped numeral is read only up to its first separator. */
  lemma SafeParseIntStopsAtSeparator()
    ensures SafeParseInt("3,000,000", 0) == 3
  {
    ParseIntGroupedNumeral();
  }

  lemma ParseIntGroupedNumeral()
    ensures ParseInt("3,000,000") == Some(3)
  {
    assert ToDecimal(3) + [','] + "000,000" == "3,000,000";
    ParseIntStopsAtNonDigit(3, ',', "000,000");
  }

  /** White space and a sign before the digits, and a unit after them. */
  lemma SafeParseIntSignedWithSuffix()
    ensures SafeParseInt(" \t-42px", 0) == -42
  {
    ParseIntSignedWithSuffix();
  }

  lemma ParseIntSignedWithSuffix()
    ensures ParseInt(" \t-42px") == Some(-42)
  {
    ParseIntNegativeWithUnit();
    assert " \t" + "-42px" == " \t-42px";
    ParseIntIgnoresLeadingWhiteSpace(" \t", "-42px");
  }

  lemma ParseIntNegativeWithUnit()
    ensures ParseInt("-42px") == Some(-42)
  {
    assert NatToDecimal(42) == "42";
    assert ToDecimal(-42) + ['p'] + "x" == "-42px";
    ParseIntStopsAtNonDigit(-42, 'p', "x");
  }

  /** A `0x` prefix switches to hexadecimal. */
  lemma SafeParseIntHexadecimal()
    ensures SafeParseInt("0x1A", 0) == 26
  {
    assert TrimStart("0x1A") == "0x1A";
    assert "0x1A"[2..] == "1A";
    assert LeadingDigits("1A", true) == "1A" by {
      assert "1A"[1..] == "A";
      assert "A"[1..] == "";
    }
    assert DigitsValue("1A", true) == 26 by {
      assert "1A"[..1] == "1";
      assert "1"[..0] == "";
    }
  }
}
