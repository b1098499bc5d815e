/** Fixed-width integer arithmetic, written out where the pool relies on it:
    wrapping u64 (release builds of the server), saturating i64 and u128. */
module Words {
  const U64_SIZE: int := 0x1_0000_0000_0000_0000
  const U64_MAX: int := U64_SIZE - 1
  const U128_MAX: int := U64_SIZE * U64_SIZE - 1
  const I64_MAX: int := 0x7FFF_FFFF_FFFF_FFFF
  const I64_MIN: int := -0x8000_0000_0000_0000

  /** A u64 result of an operation that may overflow. */
  function Wrap64(x: nat): (r: nat)
    ensures x <= U64_MAX ==> r == x
    ensures r <= U64_MAX
    ensures r <= x
  {
    x % U64_SIZE
  }

  function Saturate64(x: int): (r: int)
    ensures I64_MIN <= r <= I64_MAX
    ensures I64_MIN <= x <= I64_MAX ==> r == x
  {
    if x < I64_MIN then I64_MIN else if x > I64_MAX then I64_MAX else x
  }

  function Saturate128(x: nat): (r: nat)
    ensures x <= U128_MAX ==> r == x
    ensures x > U128_MAX ==> r == U128_MAX
  {
    if x > U128_MAX then U128_MAX else x
  }
}
