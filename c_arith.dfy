/**
 * C arithmetic and Linux error numbers shared by every driver model.
 *
 * Dafny integers are unbounded and its `/` and `%` are Euclidean; the
 * drivers are C, so truncating division and the wrap-around of fixed-width
 * unsigned types are written out here.
 */
module CArith {

  // Linux error numbers (positive; drivers return them negated).
  const EPERM := 1
  const EIO := 5
  const ENXIO := 6
  const ENOMEM := 12
  const EFAULT := 14
  const EBUSY := 16
  const ENODEV := 19
  const EINVAL := 22
  const ERANGE := 34
  const ETIMEDOUT := 110

  datatype Option<T> = None | Some(value: T)

  const U32_MODULUS := 0x1_0000_0000
  const U64_MODULUS := 0x1_0000_0000_0000_0000

  /** C's `/` on signed integers: the quotient is truncated toward zero. */
  function CDiv(a: int, b: int): (q: int)
    requires b > 0
  {
    if a >= 0 then a / b else -((-a) / b)
  }

  /** The remainder that goes with `CDiv` has the sign of the dividend and is smaller than the divisor. */
  lemma CDivTruncates(a: int, b: int)
    requires b > 0
    ensures a >= 0 ==> 0 <= a - CDiv(a, b) * b < b
    ensures a < 0 ==> -b < a - CDiv(a, b) * b <= 0
    ensures -1 < a < b ==> CDiv(a, b) == 0
  {
  }

  /** Value of an integer after conversion to a C `u32`. */
  function U32(x: int): (r: nat)
    ensures r < U32_MODULUS
    ensures (x - r) % U32_MODULUS == 0
    ensures 0 <= x < U32_MODULUS ==> r == x
  {
    x % U32_MODULUS
  }

  /** Value of an integer after conversion to a C `u64`. */
  function U64(x: int): (r: nat)
    ensures r < U64_MODULUS
    ensures (x - r) % U64_MODULUS == 0
    ensures 0 <= x < U64_MODULUS ==> r == x
  {
    x % U64_MODULUS
  }
}
