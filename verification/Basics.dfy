/** Integer limits and small arithmetic shared by every component. */
module Basics {

  datatype Option<+T> = None | Some(value: T)

  const MAX_UINT64: nat := 0xFFFF_FFFF_FFFF_FFFF
  const MAX_INT64: nat := 0x7FFF_FFFF_FFFF_FFFF
  const MAX_UINT16: nat := 0xFFFF

  function Min(a: int, b: int): int {
    if a <= b then a else b
  }

  function Max(a: int, b: int): int {
    if a >= b then a else b
  }

  /** `n` forced into `[low, high]`. */
  function Clamp(n: int, low: int, high: int): int {
    Max(low, Min(n, high))
  }
}
