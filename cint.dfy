/** C integer semantics used by the library: 32-bit unsigned wrap-around, int32 conversion,
    and division and remainder truncating toward zero. */
module CInt {

  const U32_MOD: int := 0x1_0000_0000
  const I32_MIN: int := -0x8000_0000
  const I32_MAX: int := 0x7fff_ffff

  /** Conversion of an int to `unsigned int` (reduction modulo 2^32). */
  function ToU32(x: int): (r: int)
    ensures 0 <= r < U32_MOD
    ensures 0 <= x < U32_MOD ==> r == x
    ensures (x - r) % U32_MOD == 0
  {
    x % U32_MOD
  }

  function UAdd(a: int, b: int): (r: int)
    ensures 0 <= r < U32_MOD
    ensures 0 <= a + b < U32_MOD ==> r == a + b
  {
    ToU32(a + b)
  }

  function USub(a: int, b: int): (r: int)
    ensures 0 <= r < U32_MOD
    ensures 0 <= a - b < U32_MOD ==> r == a - b
  {
    ToU32(a - b)
  }

  function UMul(a: int, b: int): (r: int)
    ensures 0 <= r < U32_MOD
    ensures 0 <= a * b < U32_MOD ==> r == a * b
  {
    ToU32(a * b)
  }

  /** Unsigned division of two values that are already reduced. */
  function UDiv(a: int, b: int): (r: int)
    requires 0 <= a < U32_MOD && 0 < b
    ensures 0 <= r <= a
    ensures r * b <= a < r * b + b
  {
    a / b
  }

  /** Conversion of an `unsigned int` back to `int` (two's complement). */
  function ToI32(u: int): (r: int)
    requires 0 <= u < U32_MOD
    ensures I32_MIN <= r <= I32_MAX
    ensures u <= I32_MAX ==> r == u
    ensures (r - u) % U32_MOD == 0
  {
    if u <= I32_MAX then u else u - U32_MOD
  }

  /** C's `%` on int by 8: the remainder takes the sign of the dividend. */
  function CRem8(a: int): (r: int)
    ensures a >= 0 ==> 0 <= r < 8
    ensures a < 0 ==> -8 < r <= 0
    ensures (a - r) % 8 == 0
  {
    if a >= 0 then a % 8 else -((-a) % 8)
  }

  /** C's `/` on int by 8: the quotient is truncated toward zero. */
  function CDiv8(a: int): (q: int)
    ensures q * 8 + CRem8(a) == a
  {
    if a >= 0 then a / 8 else -((-a) / 8)
  }

  /** `v -= v % 8`: the multiple of 8 next to v in the direction of zero. */
  function AlignDown8(v: int): (r: int)
    ensures r % 8 == 0
    ensures v >= 0 ==> 0 <= r <= v < r + 8
    ensures v < 0 ==> r - 8 < v <= r <= 0
  {
    v - CRem8(v)
  }

  /** Aligning twice is aligning once. */
  lemma AlignDown8Idempotent(v: int)
    ensures AlignDown8(AlignDown8(v)) == AlignDown8(v)
  {
  }
}
