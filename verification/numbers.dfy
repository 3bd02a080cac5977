/**
  Numbers as the mesh-text parser sees them: the result of the global
  `parseFloat` on an operand token, and the `ToUint32` conversion that a
  `Uint32Array` applies to every element it is built from.

  Values are exact reals. Binary rounding (to 64-bit doubles in the parser,
  to 32-bit floats in a `Float32Array`) is not modelled; the special values
  that `parseFloat` can produce (NaN and the two infinities) are.
 */
module Numbers {

  /** A JavaScript number, with the finite values taken as exact reals. */
  datatype Num = Finite(value: real) | PosInf | NegInf | NaN {

    /** `this + c` for a finite `c`. */
    function Plus(c: real): (r: Num)
      ensures Finite? <==> r.Finite?
      ensures Finite? ==> r.value - value == c
      ensures !Finite? ==> r == this
    {
      match this
      case Finite(x) => Finite(x + c)
      case _ => this
    }
  }

  /** The constant 2^32, the modulus of `ToUint32`. */
  const Two32: nat := 0x1_0000_0000

  predicate IsDigit(c: char) {
    '0' <= c <= '9'
  }

  predicate AllDigits(s: string) {
    forall i :: 0 <= i < |s| ==> IsDigit(s[i])
  }

  /** The longest prefix of `s` made of decimal digits. */
  function LeadingDigits(s: string): (d: string)
    ensures |d| <= |s| && d == s[..|d|] && AllDigits(d)
    ensures |d| < |s| ==> !IsDigit(s[|d|])
    ensures AllDigits(s) ==> d == s
  {
    if s == [] || !IsDigit(s[0]) then [] else [s[0]] + LeadingDigits(s[1..])
  }

  function Pow10(n: nat): (p: nat)
    ensures p >= 1
  {
    if n == 0 then 1 else 10 * Pow10(n - 1)
  }

  /** The value of a string of decimal digits, most significant first. */
  function DigitsValue(d: string): (v: nat)
    requires AllDigits(d)
    ensures v < Pow10(|d|)
  {
    if d == [] then 0
    else DigitsValue(d[..|d| - 1]) * 10 + (d[|d| - 1] as int - '0' as int)
  }

  /** `s` with a leading `+` or `-` removed, and whether it was a `-`. */
  function SplitSign(s: string): (bool, string)
  {
    if s != [] && s[0] == '-' then (true, s[1..])
    else if s != [] && s[0] == '+' then (false, s[1..])
    else (false, s)
  }

  /** The exponent of an `e`/`E` suffix, or 0 when `s` does not start with one
      followed by at least one digit. */
  function ExponentOf(s: string): int
  {
    if s != [] && (s[0] == 'e' || s[0] == 'E') then
      var (neg, rest) := SplitSign(s[1..]);
      var e: int := DigitsValue(LeadingDigits(rest));
      if neg then -e else e
    else 0
  }

  /** `m` times ten to the power `e`. */
  function Scale10(m: real, e: int): (r: real)
    ensures 0.0 <= m ==> 0.0 <= r
  {
    if e >= 0 then m * Pow10(e) as real else m / Pow10(-e) as real
  }

  /** The value of the literal `ip.fp`. */
  function Mantissa(ip: string, fp: string): (m: real)
    requires AllDigits(ip) && AllDigits(fp)
    ensures 0.0 <= m
  {
    DigitsValue(ip) as real + DigitsValue(fp) as real / Pow10(|fp|) as real
  }

  /** Whether `u` starts with an unsigned decimal literal. */
  predicate StartsDecimal(u: string) {
    || (u != [] && IsDigit(u[0]))
    || (|u| >= 2 && u[0] == '.' && IsDigit(u[1]))
  }

  /** Whether `u` starts with an unsigned decimal literal or with `Infinity`. */
  predicate StartsNumeric(u: string) {
    StartsDecimal(u) || (|u| >= 8 && u[..8] == "Infinity")
  }

  /** The value of the longest unsigned decimal literal `ip[.fp][e[+-]exp]`
      at the head of `u`, or NaN when there is none. */
  function DecimalPrefix(u: string): (r: Num)
    ensures r.Finite? ==> r.value >= 0.0
    ensures r == NaN || r.Finite?
    ensures r == NaN <==> !StartsDecimal(u)
  {
    var ip := LeadingDigits(u);
    var afterInt := u[|ip|..];
    var point := afterInt != [] && afterInt[0] == '.';
    var fp := if point then LeadingDigits(afterInt[1..]) else [];
    if ip == [] && fp == [] then NaN
    else
      var afterFrac := if point then afterInt[1 + |fp|..] else afterInt;
      Finite(Scale10(Mantissa(ip, fp), ExponentOf(afterFrac)))
  }

  function Negate(n: Num): Num
  {
    match n
    case Finite(x) => Finite(-x)
    case PosInf => NegInf
    case NegInf => PosInf
    case NaN => NaN
  }

  /** The global `parseFloat` on a token without white space: it reads the
      longest prefix that is a signed decimal literal (digits, an optional
      fraction, an optional exponent) or a signed `Infinity`, and ignores the
      rest; a token with no such prefix gives NaN. */
  function ParseFloat(t: string): (r: Num)
    ensures r == NaN <==> !StartsNumeric(SplitSign(t).1)
    ensures t != [] && IsDigit(t[0]) ==> r.Finite? && r.value >= 0.0
  {
    var (neg, u) := SplitSign(t);
    var m := if |u| >= 8 && u[..8] == "Infinity" then PosInf else DecimalPrefix(u);
    if neg then Negate(m) else m
  }

  /** Rounding toward zero. */
  function Truncate(x: real): (n: int)
    ensures 0.0 <= x ==> n as real <= x < n as real + 1.0
    ensures x <= 0.0 ==> n as real - 1.0 < x <= n as real
  {
    if x >= 0.0 then x.Floor else -((-x).Floor)
  }

  /** The ECMAScript `ToUint32` conversion a `Uint32Array` applies: NaN and the
      infinities become 0, a finite value is rounded toward zero and reduced
      modulo 2^32 into [0, 2^32). */
  function ToUint32(n: Num): (r: nat)
    ensures r < Two32
    ensures !n.Finite? ==> r == 0
    ensures n.Finite? ==> (Truncate(n.value) - r) % Two32 == 0
  {
    match n
    case Finite(x) => Truncate(x) % Two32
    case _ => 0
  }

  /** An integral value already in [0, 2^32) is stored unchanged, and -1
      wraps to 2^32 - 1. */
  lemma ToUint32OfIntegers(k: int)
    ensures 0 <= k < Two32 ==> ToUint32(Finite(k as real)) == k
    ensures ToUint32(Finite(-1.0)) == Two32 - 1
  {
  }

  /** The decimal spelling of a natural number, most significant digit first. */
  function NatToString(n: nat): (s: string)
    ensures s != [] && AllDigits(s)
  {
    var last := ['0' + ((n % 10) as char)];
    if n < 10 then last else NatToString(n / 10) + last
  }

  /** The decimal spelling of an integer, with a `-` when it is negative. */
  function IntToString(n: int): string
  {
    if n < 0 then "-" + NatToString(-n) else NatToString(n)
  }

  lemma {:induction false} DigitsValueOfNatToString(n: nat)
    ensures DigitsValue(NatToString(n)) == n
    decreases n
  {
    var s := NatToString(n);
    if n >= 10 {
      DigitsValueOfNatToString(n / 10);
      assert s[..|s| - 1] == NatToString(n / 10);
    }
  }

  /** `parseFloat` of a string of digits is the value of the digits. */
  lemma ParseFloatOfDigits(s: string)
    requires s != [] && AllDigits(s)
    ensures ParseFloat(s) == Finite(DigitsValue(s) as real)
  {
    assert SplitSign(s) == (false, s);
    assert LeadingDigits(s) == s;
    assert s[|s|..] == [];
  }

  /** `parseFloat` of a minus sign followed by digits is the negated value of the digits. */
  lemma ParseFloatOfNegatedDigits(s: string, t: string)
    requires s != [] && AllDigits(s) && t == "-" + s
    ensures ParseFloat(t) == Finite(-(DigitsValue(s) as real))
  {
    assert SplitSign(t) == (true, s);
    assert LeadingDigits(s) == s;
    assert s[|s|..] == [];
  }

  /** `parseFloat` reads back every integer that `IntToString` spells. */
  lemma ParseFloatOfIntToString(n: int)
    ensures ParseFloat(IntToString(n)) == Finite(n as real)
  {
    var m: nat := if n < 0 then -n else n;
    DigitsValueOfNatToString(m);
    if n < 0 {
      ParseFloatOfNegatedDigits(NatToString(m), IntToString(n));
    } else {
      ParseFloatOfDigits(NatToString(m));
    }
  }
}
