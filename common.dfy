/** Fixed-width integer helpers shared by the model: C's conversions to
    `uint8_t`/`int8_t`, C's truncating division and remainder, powers of two,
    and an Option type. */
module Common {

  /** An unsigned 8-bit value (C `uint8_t`). */
  type Byte = x: int | 0 <= x < 256

  datatype Option<T> = None | Some(value: T)

  /** C's conversion of an integer to `uint8_t`: reduction modulo 256. */
  function U8(x: int): (r: Byte)
    ensures 0 <= x < 256 ==> r == x
    ensures (x - r) % 256 == 0
  {
    x % 256
  }

  /** C's conversion of an integer to `int8_t` (two's complement). */
  function I8(x: int): (r: int)
    ensures -128 <= r < 128
    ensures 0 <= x < 128 ==> r == x
    ensures (x - r) % 256 == 0
  {
    (x + 128) % 256 - 128
  }

  /** C's `%` for a positive divisor: the remainder takes the sign of the dividend. */
  function CRem(a: int, b: int): (r: int)
    requires b > 0
    ensures -b < r < b
    ensures a == CDiv(a, b) * b + r
    ensures a >= 0 ==> r >= 0
    ensures a <= 0 ==> r <= 0
  {
    if a >= 0 then a % b else -((-a) % b)
  }

  /** C's `/` for a positive divisor: the quotient is truncated toward zero. */
  function CDiv(a: int, b: int): (q: int)
    requires b > 0
    ensures a >= 0 ==> 0 <= q * b <= a < q * b + b
    ensures a <= 0 ==> q * b - b < a <= q * b <= 0
  {
    if a >= 0 then a / b else -((-a) / b)
  }

  function Pow2(k: nat): (r: nat)
    ensures r >= 1
  {
    if k == 0 then 1 else 2 * Pow2(k - 1)
  }

  lemma MulAtLeast(k: int, b: int)
    requires k >= 1 && b > 0
    ensures k * b >= b
  {
  }

  /** A remainder is pinned down by any quotient-remainder split. */
  lemma ModUnique(a: int, b: int, q: int, r: int)
    requires 0 <= r < b && a == q * b + r
    ensures a % b == r && a / b == q
  {
    var k := q - a / b;
    assert k * b == a % b - r;
    if k >= 1 {
      MulAtLeast(k, b);
    } else if k <= -1 {
      MulAtLeast(-k, b);
    }
  }
}
