/** Small shared vocabulary: an Option type, C's unsigned 32-bit arithmetic,
    powers of two with single-bit tests, and the rounding helpers the driver
    uses (DIV_ROUND_UP, alignment of allocations). */
module Common {

  datatype Option<+T> = None | Some(value: T)

  const U32Limit: nat := 0x1_0000_0000

  /** The values of a C `uint32_t`. */
  type u32 = x: int | 0 <= x < 0x1_0000_0000

  /** `a + b` computed on `uint32_t`: the sum wraps around at 2^32. */
  function Add32(a: nat, b: nat): (r: u32)
    ensures a + b < U32Limit ==> r == a + b
    ensures (r - (a + b)) % U32Limit == 0
  {
    (a + b) % U32Limit
  }

  /** `x - 1` computed on `uint32_t`: zero wraps to 0xFFFFFFFF. */
  function Dec32(x: u32): (r: u32)
    ensures Add32(r, 1) == x
    ensures x >= 1 ==> r < x
  {
    if x == 0 then U32Limit - 1 else x - 1
  }

  /** MAX2 */
  function Max(a: int, b: int): (r: int)
    ensures r >= a && r >= b
    ensures r == a || r == b
  {
    if a >= b then a else b
  }

  /** DIV_ROUND_UP: the least multiple count of `b` that covers `a`. */
  function DivRoundUp(a: nat, b: nat): (r: nat)
    requires b > 0
    ensures a <= r * b < a + b
  {
    (a + b - 1) / b
  }

  /** The alignments scratch-state blocks are allocated with. */
  datatype Alignment = Align32 | Align64 {
    function Bytes(): nat { if this == Align32 then 32 else 64 }
  }

  /** The first multiple of `alignment` at or after `x`. */
  function AlignUp(x: nat, alignment: Alignment): (r: nat)
    ensures r % alignment.Bytes() == 0
    ensures x <= r < x + alignment.Bytes()
  {
    if alignment == Align32 then (x + 31) / 32 * 32 else (x + 63) / 64 * 64
  }

  function Pow2(n: nat): (r: nat)
    ensures r >= 1
  {
    if n == 0 then 1 else 2 * Pow2(n - 1)
  }

  /** Whether bit `k` of the bitmask `m` is set (`m & (1 << k)`): the low
      bit of `m` shifted right `k` times. */
  predicate Bit(m: nat, k: nat)
  {
    if k == 0 then m % 2 == 1 else Bit(m / 2, k - 1)
  }

  /** The number of set bits of `m` among bits `base`, ..., `base + n - 1`. */
  function CountBits(m: nat, base: nat, n: nat): (r: nat)
    ensures r <= n
  {
    if n == 0 then 0
    else CountBits(m, base, n - 1) + (if Bit(m, base + n - 1) then 1 else 0)
  }
}
