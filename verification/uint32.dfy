/** `uint32_t` arithmetic: every result is reduced modulo 2^32. */
module Uint32 {

  const Modulus: int := 0x1_0000_0000

  type U32 = x: int | 0 <= x < Modulus

  /** Reduction into the unsigned range. */
  function Wrap(x: int): (r: U32)
    ensures 0 <= x < Modulus ==> r == x
    ensures (r - x) % Modulus == 0
  {
    x % Modulus
  }

  /** `a + b` in unsigned 32-bit arithmetic. */
  function Add(a: U32, b: U32): (r: U32)
    ensures a + b < Modulus ==> r == a + b
    ensures a + b >= Modulus ==> r == a + b - Modulus
  {
    Wrap(a + b)
  }

  /** `a - b` in unsigned 32-bit arithmetic: the forward distance from b to a. */
  function Sub(a: U32, b: U32): (r: U32)
    ensures a >= b ==> r == a - b
    ensures a < b ==> r == a - b + Modulus
    ensures Add(b, r) == a
  {
    Wrap(a - b)
  }
}
