/** What every part of the model uses: optional values and the machine integers of the source. */
module Basics {
  datatype Option<+T> = None | Some(value: T)

  const U64_MAX: int := 0xFFFF_FFFF_FFFF_FFFF

  /** std::uint64_t */
  type U64 = x: int | 0 <= x <= 0xFFFF_FFFF_FFFF_FFFF

  type Byte = x: int | 0 <= x < 256

  /** Right operand first, as the overflow test of saturatingAdd is written. */
  function SaturatingAdd(left: U64, right: U64): (r: U64)
    ensures r == if left + right <= U64_MAX then left + right else U64_MAX
    ensures r >= left && r >= right
  {
    if right > U64_MAX - left then U64_MAX else left + right
  }
}
