// Machine words, addresses and results shared by every module of the model.
module Words {
  const TWO_40: nat := 0x100_0000_0000
  const TWO_64: nat := 0x1_0000_0000_0000_0000
  const TWO_160: nat := 0x1_0000000000_0000000000_0000000000_0000000000
  const TWO_200: nat := 0x1_0000000000_0000000000_0000000000_0000000000_0000000000
  const TWO_256: nat := 0x1_0000000000000000_0000000000000000_0000000000000000_0000000000000000

  type byte = n: nat | n < 0x100
  type uint8 = n: nat | n < 0x100
  type uint64 = n: nat | n < TWO_64
  type uint256 = n: nat | n < TWO_256
  type Address = n: nat | n < TWO_160

  // The 32-byte name of something that can be bridged.
  type ResourceID = nat

  const ZERO_ADDRESS: Address := 0

  datatype Option<+T> = None | Some(value: T)

  // Ok carries the new state of a committed call; Err is a revert, which changes nothing.
  datatype Result<+T, +E> = Ok(value: T) | Err(error: E)

  function Min(a: int, b: int): int {
    if a <= b then a else b
  }

  function Max(a: int, b: int): int {
    if a >= b then a else b
  }
}
