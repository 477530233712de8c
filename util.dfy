/**
 * The utility functions of the engine (source/util/Util.hpp).
 *
 * Every physics quantity of the engine is a multiple of 1/256 pixel, so the
 * model measures positions, velocities and accelerations in integer units of
 * 1/256 pixel: `UNITS_PER_PIXEL` units make one pixel.
 */
module Util {

  /** Number of physics units in one pixel. */
  const UNITS_PER_PIXEL: int := 256

  /**
   * The hexadecimal digit of `value` at `place` (1, 16, 256 or 4096): shift
   * right and mask with 0xf. On two's-complement bits this is a floor
   * division and a non-negative remainder.
   */
  function Nibble(value: int, place: int): (n: int)
    requires place > 0
    ensures 0 <= n < 16
  {
    (value / place) % 16
  }

  /** The four low nibbles put back together are the low 16 bits. */
  lemma NibblesCompose(value: int)
    ensures 4096 * Nibble(value, 4096) + 256 * Nibble(value, 256) + 16 * Nibble(value, 16) + Nibble(value, 1)
            == value % 0x10000
  {
    var q1 := value / 16;
    var q2 := q1 / 16;
    var q3 := q2 / 16;
    var q4 := q3 / 16;
    assert value == 16 * q1 + value % 16;
    assert q1 == 16 * q2 + q1 % 16;
    assert q2 == 16 * q3 + q2 % 16;
    assert q3 == 16 * q4 + q3 % 16;
    DivUnique(value, 256, q2, 16 * (q1 % 16) + value % 16);
    DivUnique(value, 4096, q3, 256 * (q2 % 16) + 16 * (q1 % 16) + value % 16);
    var low := 4096 * (q3 % 16) + 256 * (q2 % 16) + 16 * (q1 % 16) + value % 16;
    DivUnique(value, 0x10000, q4, low);
  }

  /**
   * physicsValueFromHex: 0xABCD is A tiles, B pixels, C sixteenths and D
   * 256ths of a pixel. The result is in units of 1/256 pixel, so it is the
   * value of the low 16 bits: the masks make every higher bit irrelevant.
   */
  function PhysicsValueFromHex(value: int): (r: int)
    ensures r == value % 0x10000
    ensures 0 <= r < 0x10000
  {
    NibblesCompose(value);
    4096 * Nibble(value, 4096) + 256 * Nibble(value, 256) + 16 * Nibble(value, 16) + Nibble(value, 1)
  }

  /** Converting a 16-bit literal is exact: the value in pixels times 256 is the literal. */
  lemma PhysicsValueExact(value: int)
    requires 0 <= value <= 0xffff
    ensures PhysicsValueFromHex(value) == value
  {
  }

  /** Only the low 16 bits of the argument matter. */
  lemma PhysicsValueLowBits(v: int, w: int)
    requires v % 0x10000 == w % 0x10000
    ensures PhysicsValueFromHex(v) == PhysicsValueFromHex(w)
  {
  }

  /** On [0, 0xffff] the conversion is monotone and its result lies in [0, 256) pixels. */
  lemma PhysicsValueMonotone(v: int, w: int)
    requires 0 <= v <= w <= 0xffff
    ensures PhysicsValueFromHex(v) <= PhysicsValueFromHex(w)
    ensures 0 <= PhysicsValueFromHex(v) < 256 * UNITS_PER_PIXEL
  {
  }

  /** sgn: the sign of a number, with zero treated as positive. */
  function Sgn(x: int): (r: int)
    ensures r == 1 <==> x >= 0
    ensures r == -1 <==> x < 0
  {
    (if 0 <= x then 1 else 0) - (if x < 0 then 1 else 0)
  }

  /** sgn never returns 0 and `sgn(0) == 1`. */
  lemma SgnNeverZero(x: int)
    ensures Sgn(x) != 0
    ensures Sgn(0) == 1
  {
  }

  /** `std::fabs` on the integer units. */
  function Abs(x: int): (r: int)
    ensures r >= 0 && (r == x || r == -x)
  {
    if x < 0 then -x else x
  }

  /** A number is its sign times its magnitude. */
  lemma SgnTimesAbs(x: int)
    ensures Sgn(x) * Abs(x) == x
  {
  }

  /** `std::floor` of a quantity in units, as a whole number of pixels. */
  function PixelFloor(units: int): (p: int)
    ensures p * UNITS_PER_PIXEL <= units < p * UNITS_PER_PIXEL + UNITS_PER_PIXEL
  {
    units / UNITS_PER_PIXEL
  }

  /** A product with a positive factor of at least one is at least the other factor. */
  lemma {:induction false} MulAtLeast(a: int, d: int)
    requires a >= 1 && d > 0
    ensures a * d >= d
    decreases a
  {
    if a > 1 {
      MulAtLeast(a - 1, d);
      assert a * d == (a - 1) * d + d;
    }
  }

  /** Multiplying by a non-negative number keeps the order. */
  lemma MulMonotone(a: int, b: int, d: int)
    requires a <= b && d >= 0
    ensures a * d <= b * d
  {
    if a < b && d > 0 {
      MulAtLeast(b - a, d);
      assert b * d - a * d == (b - a) * d;
    }
  }

  /** Division with a positive divisor is determined by quotient and remainder. */
  lemma DivUnique(n: int, d: int, q: int, r: int)
    requires d > 0 && 0 <= r < d && n == q * d + r
    ensures n / d == q && n % d == r
  {
    var z, m := n / d, n % d;
    assert n == z * d + m;
    assert (q - z) * d == m - r by {
      assert q * d - z * d == (q - z) * d;
    }
    if q > z {
      MulAtLeast(q - z, d);
    } else if q < z {
      MulAtLeast(z - q, d);
    }
  }

  /**
   * A pass over a sequence that has processed the first k elements: the
   * processed prefix of `done` followed by the untouched rest of `rest`.
   * Processing element k extends the prefix by one; at the end it is `done`.
   */
  lemma PrefixStep<T>(done: seq<T>, rest: seq<T>, k: nat)
    requires |done| == |rest| && k < |rest|
    ensures (done[..k] + rest[k..])[k] == rest[k]
    ensures (done[..k] + rest[k..])[k := done[k]] == done[..k + 1] + rest[k + 1..]
  {
  }

  lemma PrefixEnds<T>(done: seq<T>, rest: seq<T>)
    requires |done| == |rest|
    ensures done[..0] + rest[0..] == rest
    ensures done[..|done|] + rest[|rest|..] == done
  {
  }
}
