/** Types shared by every module: optional values and the fixed-width integers of the contracts. */
module Prelude {

  datatype Option<+T> = None | Some(value: T)

  const TWO_32: nat := 0x1_0000_0000
  const TWO_160: nat := 0x1_0000000000_0000000000_0000000000_0000000000
  const TWO_192: nat := 0x1_000000000000_000000000000_000000000000_000000000000
  const TWO_256: nat := 0x1_0000000000000000_0000000000000000_0000000000000000_0000000000000000

  type Byte = x: nat | x < 256
  type uint32 = x: nat | x < TWO_32
  type uint192 = x: nat | x < TWO_192
  type uint256 = x: nat | x < TWO_256
  type Address = x: nat | x < TWO_160

  function Min(a: int, b: int): int {
    if a <= b then a else b
  }

  function Max(a: int, b: int): int {
    if a <= b then b else a
  }

  /** The value a map holds at k, and zero where Solidity's mapping would read an unwritten slot. */
  function Get<K>(m: map<K, nat>, k: K): nat {
    if k in m then m[k] else 0
  }
}
