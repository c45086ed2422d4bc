/**
 * ECMAScript `parseInt(string)` with no radix argument, over unbounded integers,
 * and the decimal rendering of an integer that it inverts.
 */
module JsNumber {
  import opened Text

  /** A JavaScript number produced by `parseInt`: an integer or `NaN`. */
  datatype Num = Num(v: int) | NaN {
    /** JavaScript truthiness of the number: `0` and `NaN` are falsy. */
    predicate Truthy() { Num? && v != 0 }
  }

  /** `c` is a digit of radix 16 (when `hex`) or 10. */
  predicate IsDigit(c: char, hex: bool) {
    ('0' <= c <= '9') || (hex && ('a' <= c <= 'f' || 'A' <= c <= 'F'))
  }

  predicate AllDigits(d: string, hex: bool) {
    forall k :: 0 <= k < |d| ==> IsDigit(d[k], hex)
  }

  function DigitValue(c: char, hex: bool): (d: nat)
    requires IsDigit(c, hex)
    ensures d < (if hex then 16 else 10)
  {
    if '0' <= c <= '9' then c as int - '0' as int
    else if 'a' <= c <= 'f' then c as int - 'a' as int + 10
    else c as int - 'A' as int + 10
  }

  /** The longest prefix of `s` made of digits of the radix. */
  function DigitPrefix(s: string, hex: bool): (r: string)
    ensures |r| <= |s| && r == s[..|r|]
    ensures AllDigits(r, hex)
    ensures |r| < |s| ==> !IsDigit(s[|r|], hex)
  {
    if |s| > 0 && IsDigit(s[0], hex) then [s[0]] + DigitPrefix(s[1..], hex) else []
  }

  /** The value of a digit string in the radix, most significant digit first. */
  function DigitsValue(d: string, hex: bool): nat
    requires AllDigits(d, hex)
  {
    if d == [] then 0
    else DigitsValue(d[..|d| - 1], hex) * (if hex then 16 else 10) + DigitValue(d[|d| - 1], hex)
  }

  /** The unsigned part of `parseInt`: a `0x`/`0X` prefix selects radix 16; no digit is `NaN`. */
  function ParseUnsigned(u: string): (r: Num)
    ensures r.Num? ==> r.v >= 0
  {
    var hex := |u| >= 2 && u[0] == '0' && (u[1] == 'x' || u[1] == 'X');
    var digits := DigitPrefix(if hex then u[2..] else u, hex);
    if digits == [] then NaN else Num(DigitsValue(digits, hex))
  }

  /** Text that starts with a non-zero decimal digit always has a value. */
  lemma ParseUnsignedLeadingDigit(u: string)
    requires |u| > 0 && '1' <= u[0] <= '9'
    ensures ParseUnsigned(u).Num?
  {
    assert DigitPrefix(u, false) != [];
  }

  /**
   * `parseInt(s)`: skip leading whitespace, read an optional sign, then the unsigned part;
   * the sign applies to the value read (`NaN` stays `NaN`).
   */
  function ParseInt(s: string): (r: Num)
    ensures TrimStart(s) == [] ==> r == NaN
    ensures var t := TrimStart(s); |t| > 0 && '1' <= t[0] <= '9' ==> r.Num? && r.v >= 0
    ensures var t := TrimStart(s); |t| > 0 && t[0] == '-' && r.Num? ==> r.v <= 0
  {
    var t := TrimStart(s);
    if |t| > 0 && (t[0] == '-' || t[0] == '+') then
      match ParseUnsigned(t[1..])
      case NaN => NaN
      case Num(v) => Num(if t[0] == '-' then -v else v)
    else
      if |t| > 0 && '1' <= t[0] <= '9' then ParseUnsignedLeadingDigit(t); ParseUnsigned(t)
      else ParseUnsigned(t)
  }

  /** The decimal rendering of a natural number, as JavaScript's `String(n)` writes it. */
  function NatToString(n: nat): (r: string)
    ensures |r| >= 1
    ensures AllDigits(r, false)
  {
    var last := ['0' + (n % 10) as char];
    if n < 10 then last else NatToString(n / 10) + last
  }

  /** The decimal rendering of an integer, with a leading `-` when negative. */
  function IntToString(n: int): string
  {
    if n < 0 then "-" + NatToString(-n) else NatToString(n)
  }

  lemma {:induction false} NatToStringValue(n: nat)
    ensures DigitsValue(NatToString(n), false) == n
  {
    var r := NatToString(n);
    if n >= 10 {
      NatToStringValue(n / 10);
      assert r[..|r| - 1] == NatToString(n / 10);
    }
  }

  lemma {:induction false} DigitPrefixOfDigits(d: string, hex: bool)
    requires AllDigits(d, hex)
    ensures DigitPrefix(d, hex) == d
    decreases |d|
  {
    if d != [] {
      DigitPrefixOfDigits(d[1..], hex);
      assert [d[0]] + d[1..] == d;
    }
  }

  /** A non-empty run of decimal digits is read as its decimal value. */
  lemma ParseUnsignedDecimal(d: string)
    requires |d| >= 1 && AllDigits(d, false)
    ensures ParseUnsigned(d) == Num(DigitsValue(d, false))
  {
    assert !IsDigit('x', false) && !IsDigit('X', false);
    DigitPrefixOfDigits(d, false);
  }

  /** `parseInt` reads back exactly the integer that `IntToString` writes. */
  lemma ParseIntToString(n: int)
    ensures ParseInt(IntToString(n)) == Num(n)
  {
    var s := IntToString(n);
    var d := NatToString(if n < 0 then -n else n);
    assert !IsWhitespace(s[0]);
    TrimStartOfTrimmed(s);
    ParseUnsignedDecimal(d);
    NatToStringValue(if n < 0 then -n else n);
    if n < 0 {
      assert s[1..] == d;
    }
  }

  /** A rendered integer has no surrounding whitespace and no comma. */
  lemma IntToStringPlain(n: int)
    ensures IsTrimmed(IntToString(n))
    ensures ',' !in IntToString(n)
  {
    var s := IntToString(n);
    if n < 0 {
      assert s == "-" + NatToString(-n);
    }
  }
}
