/**
 * Number conversions of the JavaScript and Java code: parseInt, Number on
 * strings, the 32-bit wrap of the bit operators and of Java's int, and
 * decimal rendering. NaN is None.
 */
module JsNum {
  import opened Wrappers
  import opened Text

  predicate IsDigit(c: char) { '0' <= c <= '9' }

  predicate IsHexDigit(c: char) { IsDigit(c) || ('a' <= c <= 'f') || ('A' <= c <= 'F') }

  function HexValue(c: char): (v: nat)
    requires IsHexDigit(c)
    ensures v < 16
  {
    if IsDigit(c) then c as int - '0' as int
    else if 'a' <= c <= 'f' then c as int - 'a' as int + 10
    else c as int - 'A' as int + 10
  }

  predicate AllDigits(s: string) { forall k :: 0 <= k < |s| ==> IsDigit(s[k]) }

  /** The longest prefix of `s` whose characters satisfy `p`. */
  function PrefixWhile(s: string, p: char -> bool): (r: string)
    ensures |r| <= |s| && r == s[..|r|]
    ensures forall k :: 0 <= k < |r| ==> p(r[k])
    ensures |r| < |s| ==> !p(s[|r|])
  {
    if s != [] && p(s[0]) then [s[0]] + PrefixWhile(s[1..], p) else []
  }

  /** Value of a digit string in base `radix`, most significant digit first. */
  function DigitsValue(ds: string, radix: nat): (v: nat)
    requires radix == 10 || radix == 16
    requires forall k :: 0 <= k < |ds| ==> IsHexDigit(ds[k])
    decreases |ds|
  {
    if ds == [] then 0 else DigitsValue(ds[..|ds| - 1], radix) * radix + HexValue(ds[|ds| - 1])
  }

  function DigitChar(d: nat): (c: char)
    requires d < 10
    ensures IsDigit(c) && HexValue(c) == d
  {
    ('0' as int + d) as char
  }

  /** Decimal rendering of a natural number, as template literals and String() give it. */
  function NatToString(n: nat): (s: string)
    ensures s != [] && AllDigits(s)
  {
    if n < 10 then [DigitChar(n)] else NatToString(n / 10) + [DigitChar(n % 10)]
  }

  /** Decimal rendering of an integer, with a leading '-' when negative. */
  function IntToString(i: int): (s: string)
    ensures s != []
  {
    if i < 0 then "-" + NatToString(-i) else NatToString(i)
  }

  /** Reading the rendering back gives the number. */
  lemma {:induction false} NatToStringValue(n: nat)
    ensures DigitsValue(NatToString(n), 10) == n
  {
    if n >= 10 {
      var s := NatToString(n);
      assert s[..|s| - 1] == NatToString(n / 10);
      NatToStringValue(n / 10);
    }
  }

  /** The digits parseInt reads after the sign: "0x"/"0X" and hexadecimal
      digits, or decimal digits, as far as they go; None when there are none. */
  function ParseDigits(u: string): (r: Option<nat>)
  {
    var hex := |u| >= 2 && u[0] == '0' && (u[1] == 'x' || u[1] == 'X');
    var ds := if hex then PrefixWhile(u[2..], IsHexDigit) else PrefixWhile(u, IsDigit);
    if ds == [] then None else Some(DigitsValue(ds, if hex then 16 else 10))
  }

  /** parseInt(s) with no radix: leading white space, an optional sign, then
      the digits; NaN (None) when no digit follows. */
  function ParseInt(s: string): (r: Option<int>)
    ensures r.Some? ==> ParseDigits(SkipSign(TrimStart(s, IsJsSpace))).Some?
  {
    var t := TrimStart(s, IsJsSpace);
    var neg := t != [] && t[0] == '-';
    match ParseDigits(SkipSign(t))
    case None => None
    case Some(v) => var i: int := v; Some(if neg then -i else i)
  }

  function SkipSign(t: string): (u: string)
    ensures |u| <= |t|
  {
    if t != [] && (t[0] == '-' || t[0] == '+') then t[1..] else t
  }

  /** Characters that end a decimal rendering for parseInt: not a digit, and
      not the 'x' that would turn a leading "0" into a hexadecimal prefix. */
  predicate EndsNumber(rest: string)
  {
    rest == [] || (!IsDigit(rest[0]) && rest[0] != 'x' && rest[0] != 'X')
  }

  lemma {:induction false} ParseDigitsOfRendering(n: nat, rest: string)
    requires EndsNumber(rest)
    ensures ParseDigits(NatToString(n) + rest) == Some(n)
  {
    var s := NatToString(n);
    var u := s + rest;
    PrefixWhileOfDigits(s, rest);
    NatToStringValue(n);
    NotHexRendering(n);
    assert u[0] == s[0];
    assert |u| >= 2 ==> u[1] == (if |s| >= 2 then s[1] else rest[0]);
  }

  /** parseInt on text that starts with neither white space nor a sign reads its digits. */
  lemma {:induction false} ParseIntUnsigned(u: string)
    requires u != [] && !IsJsSpace(u[0]) && u[0] != '-' && u[0] != '+'
    ensures ParseInt(u) == (match ParseDigits(u) case None => None case Some(v) => Some(v as int))
  {
    TrimStartStops(u, IsJsSpace);
  }

  /** parseInt on "-" followed by such text negates its digits. */
  lemma {:induction false} ParseIntNegative(u: string)
    requires u != [] && !IsJsSpace(u[0]) && u[0] != '-' && u[0] != '+'
    ensures ParseInt("-" + u) == (match ParseDigits(u) case None => None case Some(v) => Some(-(v as int)))
  {
    var m := "-" + u;
    assert m[0] == '-' && !IsJsSpace('-');
    TrimStartStops(m, IsJsSpace);
    assert SkipSign(m) == u by { assert m[1..] == u; }
  }

  /** A decimal rendering followed by anything that does not continue the
      number reads back as the number: parseInt stops at the first non-digit. */
  lemma {:induction false} ParseIntOfRendering(n: nat, rest: string)
    requires EndsNumber(rest)
    ensures ParseInt(NatToString(n) + rest) == Some(n)
  {
    var u := NatToString(n) + rest;
    ParseDigitsOfRendering(n, rest);
    RenderingStart(n, rest);
    ParseIntUnsigned(u);
  }

  /** A rendering starts with a digit: neither white space nor a sign. */
  lemma RenderingStart(n: nat, rest: string)
    ensures var u := NatToString(n) + rest;
            u != [] && !IsJsSpace(u[0]) && u[0] != '-' && u[0] != '+'
  {
    var s := NatToString(n);
    assert IsDigit(s[0]) && (s + rest)[0] == s[0];
  }

  lemma {:induction false} PrefixWhileOfDigits(s: string, rest: string)
    requires AllDigits(s)
    requires rest == [] || !IsDigit(rest[0])
    ensures PrefixWhile(s + rest, IsDigit) == s
    decreases |s|
  {
    if s != [] {
      assert (s + rest)[1..] == s[1..] + rest;
      PrefixWhileOfDigits(s[1..], rest);
    } else {
      assert s + rest == rest;
    }
  }

  /** A rendering never starts with "0x": its second character is a digit. */
  lemma NotHexRendering(n: nat)
    ensures var s := NatToString(n); !(|s| >= 2 && s[0] == '0' && (s[1] == 'x' || s[1] == 'X'))
  {
  }

  /** Number(s) on a string: white space around, then an optional sign and
      decimal digits; empty (after trimming) is 0. Other numeric forms
      (fractions, exponents, Infinity, 0x/0o/0b) are not modelled and give None. */
  function StringToNumber(s: string): (r: Option<int>)
    ensures JsTrim(s) == [] ==> r == Some(0)
    ensures r.Some? && JsTrim(s) != [] ==> IsDigit(JsTrim(s)[|JsTrim(s)| - 1])
  {
    var t := JsTrim(s);
    if t == [] then Some(0)
    else
      var neg := t[0] == '-';
      var u := if t[0] == '-' || t[0] == '+' then t[1..] else t;
      if u != [] && AllDigits(u) then
        var v: int := DigitsValue(u, 10);
        Some(if neg then -v else v)
      else None
  }

  const TwoTo32: int := 0x1_0000_0000
  const TwoTo31: int := 0x8000_0000

  /** ECMAScript ToInt32, and Java's narrowing of long to int: the value modulo 2^32 read as signed. */
  function ToInt32(x: int): (r: int)
    ensures -TwoTo31 <= r < TwoTo31
    ensures (r - x) % TwoTo32 == 0
  {
    var m := x % TwoTo32;
    if m >= TwoTo31 then m - TwoTo32 else m
  }

  /** Values already in the 32-bit range are left alone. */
  lemma ToInt32Identity(x: int)
    requires -TwoTo31 <= x < TwoTo31
    ensures ToInt32(x) == x
  {
  }

  /** ToInt32 only sees the value modulo 2^32. */
  lemma ToInt32Shift(x: int, k: int)
    ensures ToInt32(x + k * TwoTo32) == ToInt32(x)
  {
    DivModFundamental(x, TwoTo32);
    DivMod(x + k * TwoTo32, TwoTo32, x / TwoTo32 + k, x % TwoTo32);
  }

  function Abs(x: int): (r: nat)
    ensures r == x || r == -x
  {
    if x < 0 then -x else x
  }

  function Max(a: int, b: int): (r: int)
    ensures r >= a && r >= b && (r == a || r == b)
  {
    if a >= b then a else b
  }

  function Min(a: int, b: int): (r: int)
    ensures r <= a && r <= b && (r == a || r == b)
  {
    if a <= b then a else b
  }

  /** Euclidean division is unique: a quotient and a remainder in range are a / b and a % b. */
  lemma DivMod(a: int, b: int, q: int, m: int)
    requires b > 0 && 0 <= m < b && a == q * b + m
    ensures a / b == q && a % b == m
  {
    DivModFundamental(a, b);
    if q > a / b {
      ProductAtLeast(q - a / b, b);
    } else if q < a / b {
      ProductAtLeast(a / b - q, b);
    }
  }

  lemma DivModFundamental(a: int, b: int)
    requires b > 0
    ensures a == (a / b) * b + a % b && 0 <= a % b < b
  {
  }

  lemma ProductAtLeast(k: int, b: int)
    requires k >= 1 && b > 0
    ensures k * b >= b
  {
  }

  /** The sign of a product with a positive factor. */
  lemma MulSign(x: int, b: int)
    requires b > 0
    ensures x <= 0 ==> x * b <= 0
    ensures x > 0 ==> x * b >= b
  {
    if x > 0 {
      ProductAtLeast(x, b);
    }
  }

  /** Math.ceil(a / b) for a positive divisor. */
  function CeilDiv(a: int, b: int): (r: int)
    requires b > 0
    ensures (r - 1) * b < a <= r * b
  {
    -((-a) / b)
  }
}
