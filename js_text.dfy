/**
 * The few JavaScript string and number rules the client relies on:
 * nullable values, `String.prototype.startsWith`, the decimal rendering of an
 * integer inside a template literal, and the global `parseInt` with no radix
 * (section 19.2.5 of ECMA-262).
 */
module JsText {

  /** A value that may be `null` / `undefined`. */
  datatype Option<+T> = None | Some(value: T)

  /** `s.startsWith(prefix)`. */
  predicate StartsWith(s: string, prefix: string) {
    |prefix| <= |s| && s[..|prefix|] == prefix
  }

  /** A string that starts with `prefix` agrees with it at every position of the prefix. */
  lemma StartsWithAt(s: string, prefix: string, i: int)
    requires StartsWith(s, prefix) && 0 <= i < |prefix|
    ensures s[i] == prefix[i]
  {
    assert s[..|prefix|][i] == s[i];
  }

  /** A concatenation starts with its left part. */
  lemma StartsWithConcat(p: string, x: string)
    ensures StartsWith(p + x, p)
  {
    assert (p + x)[..|p|] == p;
  }

  predicate IsDecimalDigit(c: char) {
    '0' <= c <= '9'
  }

  /** A character that can occur in the decimal rendering of an integer. */
  predicate IsNumberChar(c: char) {
    IsDecimalDigit(c) || c == '-'
  }

  function DigitChar(d: nat): (c: char)
    requires d < 10
    ensures IsDecimalDigit(c) && c as int - '0' as int == d
  {
    ('0' as int + d) as char
  }

  /** Decimal digits of a non-negative integer, most significant first, no leading zero. */
  function NatToString(n: nat): (s: string)
    ensures |s| > 0
    ensures forall i :: 0 <= i < |s| ==> IsDecimalDigit(s[i])
    decreases n
  {
    if n < 10 then [DigitChar(n)] else NatToString(n / 10) + [DigitChar(n % 10)]
  }

  /** `${n}` for an integer `n`. */
  function IntToString(n: int): (s: string)
    ensures |s| > 0
    ensures forall i :: 0 <= i < |s| ==> IsNumberChar(s[i])
  {
    if n < 0 then "-" + NatToString(-n) else NatToString(n)
  }

  /** StrWhiteSpaceChar: WhiteSpace (including every space separator) and LineTerminator. */
  predicate IsJsWhitespace(c: char) {
    c == ' ' || c == '\t' || c == '\n' || c == '\r' || c == '\U{000B}' || c == '\U{000C}'
    || c == '\U{00A0}' || c == '\U{1680}' || ('\U{2000}' <= c <= '\U{200A}')
    || c == '\U{2028}' || c == '\U{2029}' || c == '\U{202F}' || c == '\U{205F}'
    || c == '\U{3000}' || c == '\U{FEFF}'
  }

  /** The input with its leading whitespace removed. */
  function TrimStart(s: string): (r: string)
    ensures |r| <= |s| && r == s[|s| - |r|..]
    ensures r == [] || !IsJsWhitespace(r[0])
    ensures forall i :: 0 <= i < |s| - |r| ==> IsJsWhitespace(s[i])
  {
    if s != [] && IsJsWhitespace(s[0]) then TrimStart(s[1..]) else s
  }

  /** The value of `c` as a digit in radix 36, or 36 when it is not a digit at all. */
  function DigitValue(c: char): (v: nat)
    ensures v <= 36
    ensures IsDecimalDigit(c) ==> v == c as int - '0' as int
    ensures v < 10 ==> IsDecimalDigit(c)
  {
    if '0' <= c <= '9' then c as int - '0' as int
    else if 'a' <= c <= 'z' then c as int - 'a' as int + 10
    else if 'A' <= c <= 'Z' then c as int - 'A' as int + 10
    else 36
  }

  /** Length of the longest prefix of `s` made of radix-`radix` digits. */
  function DigitRunLength(s: string, radix: nat): (n: nat)
    ensures n <= |s|
    ensures forall i :: 0 <= i < n ==> DigitValue(s[i]) < radix
    ensures n < |s| ==> DigitValue(s[n]) >= radix
  {
    if s == [] || DigitValue(s[0]) >= radix then 0 else 1 + DigitRunLength(s[1..], radix)
  }

  lemma ProductOfNaturals(a: nat, b: nat)
    ensures a * b >= 0
  {
  }

  /** The number a run of radix-`radix` digits denotes. */
  function DigitsValue(digits: string, radix: nat): nat
    requires forall i :: 0 <= i < |digits| ==> DigitValue(digits[i]) < radix
  {
    if digits == [] then 0
    else
      var front := digits[..|digits| - 1];
      var high := DigitsValue(front, radix);
      ProductOfNaturals(high, radix);
      high * radix + DigitValue(digits[|digits| - 1])
  }

  /** The sign `parseInt` applies: negative after a leading `-`. */
  function SignOf(t: string): int {
    if t != [] && t[0] == '-' then -1 else 1
  }

  /** The input after an optional leading `+` or `-`. */
  function Unsigned(t: string): string {
    if t != [] && (t[0] == '-' || t[0] == '+') then t[1..] else t
  }

  /** True when the unsigned part carries the `0x` / `0X` prefix that switches to radix 16. */
  predicate HasHexPrefix(u: string) {
    |u| >= 2 && u[0] == '0' && (u[1] == 'x' || u[1] == 'X')
  }

  /** The magnitude read from the unsigned part: the longest leading run of digits. */
  function ParseUnsigned(u: string): (r: Option<nat>)
    ensures r.None? <==> DigitRunLength(if HasHexPrefix(u) then u[2..] else u, if HasHexPrefix(u) then 16 else 10) == 0
  {
    var radix := if HasHexPrefix(u) then 16 else 10;
    var v := if HasHexPrefix(u) then u[2..] else u;
    var n := DigitRunLength(v, radix);
    if n == 0 then None else Some(DigitsValue(v[..n], radix))
  }

  /**
   * `parseInt(s)`: skip leading whitespace, take an optional sign, switch to
   * radix 16 after a `0x`/`0X` prefix, and read the longest run of digits;
   * `None` stands for `NaN` (no digit at all). Precision beyond 2^53 is not modelled.
   */
  function ParseInt(s: string): Option<int> {
    var t := TrimStart(s);
    match ParseUnsigned(Unsigned(t))
    case None => None
    case Some(m) => Some(SignOf(t) * m)
  }

  lemma {:induction false} DecimalRunCoversDigits(s: string)
    requires forall i :: 0 <= i < |s| ==> IsDecimalDigit(s[i])
    ensures DigitRunLength(s, 10) == |s|
  {
    if s != [] {
      DecimalRunCoversDigits(s[1..]);
    }
  }

  lemma {:induction false} NatToStringValue(n: nat)
    ensures DigitsValue(NatToString(n), 10) == n
    decreases n
  {
    var s := NatToString(n);
    if n >= 10 {
      NatToStringValue(n / 10);
      assert s[..|s| - 1] == NatToString(n / 10);
      assert DigitValue(s[|s| - 1]) == n % 10;
    }
  }

  lemma NatToStringParsesUnsigned(n: nat)
    ensures ParseUnsigned(NatToString(n)) == Some(n)
  {
    var d := NatToString(n);
    assert !HasHexPrefix(d) by {
      if |d| >= 2 { assert IsDecimalDigit(d[1]); }
    }
    DecimalRunCoversDigits(d);
    assert d[..|d|] == d;
    NatToStringValue(n);
  }

  lemma TrimStartKeepsNumber(s: string)
    requires s != [] && IsNumberChar(s[0])
    ensures TrimStart(s) == s
  {
  }

  /** Text that is blank, or whose first non-blank character is neither a sign nor a digit, is NaN. */
  lemma ParseIntNaN(s: string)
    requires TrimStart(s) == [] || (TrimStart(s)[0] != '+' && TrimStart(s)[0] != '-' && !IsDecimalDigit(TrimStart(s)[0]))
    ensures ParseInt(s).None?
  {
    var t := TrimStart(s);
    assert Unsigned(t) == t;
    assert !HasHexPrefix(t);
    assert DigitRunLength(t, 10) == 0;
  }

  /** Text made only of decimal digits reads as the number they spell (leading zeros included). */
  lemma ParseIntOfDigits(s: string)
    requires |s| > 0 && forall i :: 0 <= i < |s| ==> IsDecimalDigit(s[i])
    ensures ParseInt(s) == Some(DigitsValue(s, 10))
  {
    TrimStartKeepsNumber(s);
    assert Unsigned(s) == s;
    UnsignedDigitsParse(s);
    assert SignOf(s) == 1;
  }

  lemma UnsignedDigitsParse(u: string)
    requires |u| > 0 && forall i :: 0 <= i < |u| ==> IsDecimalDigit(u[i])
    ensures ParseUnsigned(u) == Some(DigitsValue(u, 10))
  {
    assert !HasHexPrefix(u) by {
      if |u| >= 2 { assert IsDecimalDigit(u[1]); }
    }
    DecimalRunCoversDigits(u);
    var n := DigitRunLength(u, 10);
    assert n == |u| && u[..n] == u;
  }

  /** `parseInt` reads back every integer rendered by a template literal. */
  lemma ParseIntOfIntToString(n: int)
    ensures ParseInt(IntToString(n)) == Some(n)
  {
    var s := IntToString(n);
    TrimStartKeepsNumber(s);
    var m: nat := if n < 0 then -n else n;
    assert Unsigned(s) == NatToString(m);
    NatToStringParsesUnsigned(m);
    assert SignOf(s) * m == n;
  }

  /** Distinct integers render differently. */
  lemma IntToStringInjective(a: int, b: int)
    requires IntToString(a) == IntToString(b)
    ensures a == b
  {
    ParseIntOfIntToString(a);
    ParseIntOfIntToString(b);
  }

  /**
   * Splitting a concatenation at the first occurrence of a separator that the
   * left parts cannot contain is unique.
   */
  lemma SplitAtSeparator(x: string, u: string, y: string, v: string)
    requires forall i :: 0 <= i < |x| ==> IsNumberChar(x[i])
    requires forall i :: 0 <= i < |y| ==> IsNumberChar(y[i])
    requires u != [] && v != [] && !IsNumberChar(u[0]) && u[0] == v[0]
    requires x + u == y + v
    ensures x == y && u == v
  {
    assert x == (x + u)[..|x|];
    assert y == (y + v)[..|y|];
    assert u == (x + u)[|x|..];
    assert v == (y + v)[|y|..];
  }
}
