/**
 * Fixed-width integers, the identifier and coordinate types shared by the
 * components, and the decimal rendering `format!("{}", n)` gives integers.
 */
module Primitives {

  const I8_MAX: int := 0x7f
  const I16_MIN: int := -0x8000
  const I16_MAX: int := 0x7fff
  const I32_MIN: int := -0x8000_0000
  const I32_MAX: int := 0x7fff_ffff
  const I128_MIN: int := -0x8000_0000_0000_0000_0000_0000_0000_0000
  const I128_MAX: int := 0x7fff_ffff_ffff_ffff_ffff_ffff_ffff_ffff

  predicate IsInt8(x: int) { -0x80 <= x <= I8_MAX }
  predicate IsInt16(x: int) { I16_MIN <= x <= I16_MAX }
  predicate IsInt32(x: int) { I32_MIN <= x <= I32_MAX }

  type Int8 = x: int | IsInt8(x)
  type Int16 = x: int | IsInt16(x)
  type Int32 = x: int | IsInt32(x)

  /** `Identifier = i128`: a unit's identity; no arithmetic is done on it. */
  type Identifier = x: int | I128_MIN <= x <= I128_MAX

  /** The bit pattern of an `f32`; coordinates are only stored, never computed with. */
  type F32 = bv32

  /** `Coordinate = (f32, f32)` of the playground. */
  datatype Coordinate = Coordinate(x: F32, y: F32)

  /** `(0.0, 0.0)`: positive zero is the all-zero bit pattern. */
  const Origin: Coordinate := Coordinate(0, 0)

  function Digit(d: nat): (c: char)
    requires d < 10
    ensures '0' <= c <= '9'
    ensures c == '0' <==> d == 0
  {
    "0123456789"[d]
  }

  /** The decimal text of a natural number, most significant digit first, with no leading zero. */
  function DecimalText(n: nat): (s: string)
    ensures |s| > 0
    ensures forall k :: 0 <= k < |s| ==> '0' <= s[k] <= '9'
    ensures s[0] == '0' <==> n == 0
    ensures |s| > 1 ==> s[0] != '0'
    decreases n
  {
    if n < 10 then [Digit(n)] else DecimalText(n / 10) + [Digit(n % 10)]
  }

  /** The decimal text of an integer, with a leading `-` when it is negative. */
  function IntText(i: int): (s: string)
    ensures |s| > 0
    ensures (s[0] == '-') <==> i < 0
  {
    if i < 0 then "-" + DecimalText(-i) else DecimalText(i)
  }

  /** Reads back a string of decimal digits; the reference against which DecimalText is checked. */
  function DecimalValue(s: string): nat
    requires forall k :: 0 <= k < |s| ==> '0' <= s[k] <= '9'
  {
    if s == [] then 0 else 10 * DecimalValue(s[..|s| - 1]) + (s[|s| - 1] as int - '0' as int)
  }

  /** Rendering a number and reading it back gives the number: distinct indices get distinct texts. */
  lemma {:induction false} DecimalTextRoundTrip(n: nat)
    ensures DecimalValue(DecimalText(n)) == n
  {
    var s := DecimalText(n);
    if n >= 10 {
      DecimalTextRoundTrip(n / 10);
      assert s[..|s| - 1] == DecimalText(n / 10);
    }
  }

  /** Text framed by the same prefix and suffix is equal only when the middles are. */
  lemma SameFrameSameMiddle(prefix: string, x: string, y: string, suffix: string)
    requires prefix + x + suffix == prefix + y + suffix
    ensures x == y
  {
    var m := prefix + x + suffix;
    assert |x| == |y|;
    assert m[|prefix|..|prefix| + |x|] == x;
    assert (prefix + y + suffix)[|prefix|..|prefix| + |y|] == y;
  }

  /** Distinct naturals have distinct decimal texts. */
  lemma DecimalTextInjective(a: nat, b: nat)
    requires DecimalText(a) == DecimalText(b)
    ensures a == b
  {
    DecimalTextRoundTrip(a);
    DecimalTextRoundTrip(b);
  }

  /** Behind the same sign, distinct naturals still have distinct texts. */
  lemma SignedTextInjective(a: nat, b: nat)
    requires "-" + DecimalText(a) == "-" + DecimalText(b)
    ensures a == b
  {
    var t := "-" + DecimalText(a);
    assert t[1..] == DecimalText(a);
    assert ("-" + DecimalText(b))[1..] == DecimalText(b);
    DecimalTextInjective(a, b);
  }

  /** Distinct integers have distinct texts. */
  lemma IntTextInjective(m: int, n: int)
    requires IntText(m) == IntText(n)
    ensures m == n
  {
    var t := IntText(m);
    if m < 0 {
      assert t[0] == '-';
      SignedTextInjective(-m, -n);
    } else {
      assert t[0] != '-';
      DecimalTextInjective(m, n);
    }
  }
}
