/** Fixed-width unsigned integers of the C sources, as subsets of `int`,
    and the modular arithmetic the sources rely on. */
module CTypes {

  const TWO_POW_8: int := 0x100
  const TWO_POW_32: int := 0x1_0000_0000

  type uint8 = x: int | 0 <= x < TWO_POW_8
  type uint32 = x: int | 0 <= x < TWO_POW_32

  /** `a - b` on `unsigned long` / `uint32_t`: subtraction modulo 2^32. */
  function Sub32(a: uint32, b: uint32): (r: uint32)
    ensures (b + r) % TWO_POW_32 == a
    ensures b <= a ==> r == a - b
    ensures a < b ==> r == a + TWO_POW_32 - b
  {
    (a - b) % TWO_POW_32
  }

  /** A C conversion of a non-negative value to `uint8_t` keeps its low eight bits. */
  function ToUint8(x: nat): (r: uint8)
    ensures x < TWO_POW_8 ==> r == x
  {
    x % TWO_POW_8
  }

  /** A C truth value as the integer 0 or 1 (what `gpio_get_level` returns). */
  function Level(b: bool): (r: int)
    ensures 0 <= r <= 1
    ensures r == 1 <==> b
  {
    if b then 1 else 0
  }
}
