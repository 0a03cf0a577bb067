/**
 * JavaScript numbers as they travel through string metadata: `Number.prototype.toString()`
 * on integers and the global `parseInt(string)` without a radix.
 * Only integer values and NaN are modelled; a `JsNumber` is what `Math.floor`
 * and `parseInt` can produce.
 */
module Decimal {

  datatype JsNumber = Finite(value: int) | NaN

  function DigitChar(d: nat): (c: char)
    requires d < 10
    ensures '0' <= c <= '9'
  {
    ('0' as int + d) as char
  }

  /** The shortest decimal spelling of `n`: digits only, no leading zero unless `n` is zero. */
  function NatToDigits(n: nat): (r: string)
    ensures 1 <= |r|
    ensures forall i :: 0 <= i < |r| ==> '0' <= r[i] <= '9'
    ensures r[0] == '0' ==> n == 0 && |r| == 1
  {
    if n < 10 then [DigitChar(n)] else NatToDigits(n / 10) + [DigitChar(n % 10)]
  }

  /** `x.toString()` for an integer-valued number or NaN. */
  function ToString(x: JsNumber): (r: string)
    ensures 1 <= |r|
    ensures r[0] == '-' <==> x.Finite? && x.value < 0
  {
    match x
    case NaN => "NaN"
    case Finite(v) => if v < 0 then "-" + NatToDigits(-v) else NatToDigits(v)
  }

  /** StrWhiteSpaceChar of ECMA-262: white space and line terminators, skipped by `parseInt`. */
  predicate IsStrWhiteSpace(c: char)
  {
    c == '\t' || c == '\n' || c == '\U{000B}' || c == '\U{000C}' || c == '\r' || c == ' '
    || c == '\U{00A0}' || c == '\U{1680}' || ('\U{2000}' <= c <= '\U{200A}')
    || c == '\U{2028}' || c == '\U{2029}' || c == '\U{202F}' || c == '\U{205F}'
    || c == '\U{3000}' || c == '\U{FEFF}'
  }

  function TrimStart(s: string): (r: string)
    ensures |r| <= |s|
    ensures r == s[|s| - |r|..]
    ensures r != [] ==> !IsStrWhiteSpace(r[0])
  {
    if s != [] && IsStrWhiteSpace(s[0]) then TrimStart(s[1..]) else s
  }

  /** The two bases `parseInt` reads without a radix argument. */
  predicate IsRadix(radix: nat)
  {
    radix == 10 || radix == 16
  }

  /** The value of `c` as a digit in base `radix`, or -1 when it is not one. */
  function DigitValue(c: char, radix: nat): (d: int)
    requires IsRadix(radix)
    ensures -1 <= d < radix
    ensures d >= 0 <== '0' <= c <= '9'
  {
    if '0' <= c <= '9' then c as int - '0' as int
    else if radix == 16 && 'a' <= c <= 'f' then c as int - 'a' as int + 10
    else if radix == 16 && 'A' <= c <= 'F' then c as int - 'A' as int + 10
    else -1
  }

  /** The longest prefix of `s` made of digits of the radix. */
  function DigitPrefix(s: string, radix: nat): (r: string)
    requires IsRadix(radix)
    ensures |r| <= |s| && r == s[..|r|]
    ensures forall i :: 0 <= i < |r| ==> DigitValue(r[i], radix) >= 0
    ensures |r| < |s| ==> DigitValue(s[|r|], radix) < 0
  {
    if s != [] && DigitValue(s[0], radix) >= 0 then [s[0]] + DigitPrefix(s[1..], radix) else []
  }

  /** The number a digit string denotes in base `radix`, most significant digit first. */
  function DigitsValue(ds: string, radix: nat): nat
    requires IsRadix(radix)
    requires forall i :: 0 <= i < |ds| ==> DigitValue(ds[i], radix) >= 0
  {
    if ds == [] then 0
    else DigitsValue(ds[..|ds| - 1], radix) * radix + DigitValue(ds[|ds| - 1], radix)
  }

  /**
   * `parseInt(s)` with no radix: skip leading white space, take an optional sign,
   * then read the magnitude.
   */
  function ParseInt(s: string): JsNumber
  {
    var t := TrimStart(s);
    if t != [] && t[0] == '-' then Negate(ParseMagnitude(t[1..]))
    else if t != [] && t[0] == '+' then ParseMagnitude(t[1..])
    else ParseMagnitude(t)
  }

  /** Base 16 after a `0x`/`0X` prefix, base 10 otherwise. */
  function ParseMagnitude(u: string): JsNumber
  {
    if |u| >= 2 && u[0] == '0' && (u[1] == 'x' || u[1] == 'X') then ParseDigits(u[2..], 16)
    else ParseDigits(u, 10)
  }

  /** The longest run of leading digits, or NaN when there is none. */
  function ParseDigits(body: string, radix: nat): (r: JsNumber)
    requires IsRadix(radix)
    ensures r.Finite? ==> r.value >= 0
    ensures r.NaN? <==> (body == [] || DigitValue(body[0], radix) < 0)
  {
    var ds := DigitPrefix(body, radix);
    if ds == [] then NaN else Finite(DigitsValue(ds, radix))
  }

  function Negate(x: JsNumber): JsNumber
  {
    match x
    case NaN => NaN
    case Finite(v) => Finite(-v)
  }

  /** Reading back the decimal digits of `n` gives `n`. */
  lemma {:induction false} DigitsValueOfNatToDigits(n: nat)
    ensures DigitsValue(NatToDigits(n), 10) == n
  {
    var ds := NatToDigits(n);
    if n >= 10 {
      DigitsValueOfNatToDigits(n / 10);
      assert ds[..|ds| - 1] == NatToDigits(n / 10);
    }
  }

  /** A digit-only string is its own longest digit prefix. */
  lemma {:induction false} DigitPrefixOfDigits(s: string)
    requires forall i :: 0 <= i < |s| ==> '0' <= s[i] <= '9'
    ensures DigitPrefix(s, 10) == s
  {
    if s != [] {
      DigitPrefixOfDigits(s[1..]);
      assert [s[0]] + s[1..] == s;
    }
  }

  /** The digits of `n` read in base 10 give `n`, with no sign and no `0x` prefix in the way. */
  /** Multiplying by ten appends a zero digit. */
  lemma AppendZero(n: nat)
    requires n > 0
    ensures NatToDigits(n * 10) == NatToDigits(n) + "0"
  {
    assert (n * 10) / 10 == n && (n * 10) % 10 == 0;
  }

  lemma MagnitudeOfDigits(n: nat)
    ensures ParseMagnitude(NatToDigits(n)) == Finite(n)
  {
    var ds := NatToDigits(n);
    DigitPrefixOfDigits(ds);
    DigitsValueOfNatToDigits(n);
    assert ParseDigits(ds, 10) == Finite(n);
  }

  /** Text starting with a digit or a sign has no leading white space to skip. */
  lemma TrimStartKeeps(s: string)
    requires s != [] && ('0' <= s[0] <= '9' || s[0] == '-' || s[0] == 'N')
    ensures TrimStart(s) == s
  {
  }

  lemma ParseNonNegative(v: nat)
    ensures ParseInt(NatToDigits(v)) == Finite(v)
  {
    var ds := NatToDigits(v);
    TrimStartKeeps(ds);
    MagnitudeOfDigits(v);
  }

  lemma ParseNegative(v: int)
    requires v < 0
    ensures ParseInt("-" + NatToDigits(-v)) == Finite(v)
  {
    var ds := NatToDigits(-v);
    var s := "-" + ds;
    TrimStartKeeps(s);
    assert s[1..] == ds;
    MagnitudeOfDigits(-v);
  }

  /**
   * The decimal string written for a number parses back to the same number,
   * and NaN (whose spelling has no digit) parses back to NaN.
   */
  lemma ParseIntToString(x: JsNumber)
    ensures ParseInt(ToString(x)) == x
  {
    match x
    case NaN =>
      TrimStartKeeps("NaN");
    case Finite(v) =>
      if v < 0 {
        assert ToString(x) == "-" + NatToDigits(-v);
        ParseNegative(v);
      } else {
        ParseNonNegative(v);
      }
  }

  /** `toString` is injective: distinct numbers never share a metadata string. */
  lemma ToStringInjective(x: JsNumber, y: JsNumber)
    requires ToString(x) == ToString(y)
    ensures x == y
  {
    ParseIntToString(x);
    ParseIntToString(y);
  }
}
