/**
 * Integer behaviour of the C code: truncating division and remainder, the
 * watchface's own `mod` helper for negative operands, and the narrowing that
 * happens when a value is stored into a fixed-width field or a bit-field.
 */
module CArith {

  /** Field widths used by the settings records. */
  type U1 = x: int | 0 <= x < 2
  type U2 = x: int | 0 <= x < 4
  type U3 = x: int | 0 <= x < 8
  type U7 = x: int | 0 <= x < 128
  type U8 = x: int | 0 <= x < 256
  type S1 = x: int | -1 <= x < 1
  type S7 = x: int | -64 <= x < 64
  type S8 = x: int | -128 <= x < 128

  /** C's `a / b` for a positive divisor: the quotient truncated toward zero. */
  function CDiv(a: int, b: int): (q: int)
    requires b > 0
    ensures 0 <= a ==> 0 <= a - q * b < b
    ensures a < 0 ==> -b < a - q * b <= 0
  {
    if a >= 0 then a / b
    else
      var p := (-a) / b;
      assert 0 <= -a - p * b < b;
      -p
  }

  /** C's `a % b` for a positive divisor: the remainder takes the sign of `a`. */
  function CRem(a: int, b: int): (r: int)
    requires b > 0
    ensures 0 <= a ==> 0 <= r < b
    ensures a < 0 ==> -b < r <= 0
  {
    a - CDiv(a, b) * b
  }

  /**
   * The watchface's `mod` (time_date.c and sidebar_widgets.c each carry a
   * copy): C's remainder, moved into [0, b) when it comes out negative.
   */
  function Mod(a: int, b: int): (r: int)
    requires b > 0
    ensures 0 <= r < b
  {
    var r := CRem(a, b);
    if r < 0 then r + b else r
  }

  /** For the two moduli the watchface uses, `Mod` is the mathematical remainder. */
  lemma ModIsEuclidean(a: int)
    ensures Mod(a, 24) == a % 24
    ensures Mod(a, 12) == a % 12
  {
  }

  /** The hour on a 12-hour dial depends only on the hour of the day. */
  lemma ModTwelveOfDay(a: int)
    ensures a % 12 == (a % 24) % 12
  {
    var q := a / 24;
    assert a == 24 * q + a % 24;
    assert a == 12 * (2 * q) + a % 24;
  }

  /** Storing `v` into an unsigned field that holds `m` values keeps `v` modulo `m`. */
  function Wrap(v: int, m: int): (r: int)
    requires m > 0
    ensures 0 <= r < m
  {
    v % m
  }

  /** Storing `v` into a two's-complement field that holds `m` values. */
  function WrapSigned(v: int, m: int): (r: int)
    requires m >= 2 && m % 2 == 0
    ensures -(m / 2) <= r < m / 2
  {
    var u := v % m;
    if u >= m / 2 then u - m else u
  }

  /** A C `bool` stored into a one-bit unsigned field. */
  function BoolBit(b: bool): U1
  {
    if b then 1 else 0
  }
}
