/**
 * Rust's fixed-width integers and the few std operations on them that the
 * program relies on: the truncating `%` of `i64` and the bit-truncating
 * `as u32` cast.
 */
module Ints {

  const U32_LIMIT: int := 0x1_0000_0000
  const U64_MAX: int := 0xFFFF_FFFF_FFFF_FFFF
  const I64_MIN: int := -0x8000_0000_0000_0000
  const I64_MAX: int := 0x7FFF_FFFF_FFFF_FFFF

  type U8 = x: int | 0 <= x < 0x100
  type U32 = x: int | 0 <= x < 0x1_0000_0000
  type U64 = x: int | 0 <= x <= 0xFFFF_FFFF_FFFF_FFFF
  type I64 = x: int | -0x8000_0000_0000_0000 <= x <= 0x7FFF_FFFF_FFFF_FFFF

  datatype Option<T> = None | Some(value: T)

  /** Rust's `%` on signed integers: the remainder takes the sign of the dividend. */
  function RemTruncating(c: int, d: int): (r: int)
    requires d > 0
    ensures -d < r < d
    ensures c >= 0 ==> r == c % d
    ensures c < 0 ==> r <= 0
  {
    if c >= 0 then c % d else -((-c) % d)
  }

  /** For the divisor 101, the truncating remainder is zero exactly when 101 divides `c`. */
  lemma RemTruncatingZero(c: int)
    ensures RemTruncating(c, 101) == 0 <==> c % 101 == 0
  {
    if c < 0 {
      var n := -c;
      var m := n % 101;
      assert n == 101 * (n / 101) + m;
      assert c == 101 * (-(n / 101)) - m;
      if m == 0 {
        assert c == 101 * (-(n / 101));
      } else {
        assert c == 101 * (-(n / 101) - 1) + (101 - m);
        assert c % 101 == 101 - m;
      }
    }
  }

  /** For the divisor 101, the truncating remainder differs from the dividend by a multiple of 101. */
  lemma RemTruncatingCongruent(c: int)
    ensures (c - RemTruncating(c, 101)) % 101 == 0
  {
    if c < 0 {
      var n := -c;
      assert n == 101 * (n / 101) + n % 101;
      assert c - RemTruncating(c, 101) == 101 * (-(n / 101));
    }
  }

  /** Integer division by a positive divisor never increases a non-negative value. */
  lemma DivAtMost(p: int, d: int)
    requires p >= 0 && d > 0
    ensures 0 <= p / d <= p
  {
    var q := p / d;
    assert p == d * q + p % d;
    if q > p {
      assert d * q >= q by { MulAtLeast(d, q); }
    }
  }

  lemma MulAtLeast(d: int, q: int)
    requires d >= 1 && q >= 0
    ensures d * q >= q
  {
    assert d * q == (d - 1) * q + q;
    assert (d - 1) * q >= 0;
  }

  /** `x as u32` for a signed 64-bit `x`: keep the low 32 bits (two's complement). */
  function AsU32(x: int): (r: U32)
    ensures 0 <= x < U32_LIMIT ==> r == x
    ensures -U32_LIMIT <= x < 0 ==> r == U32_LIMIT + x
  {
    x % U32_LIMIT
  }
}
