/** Machine integers, accounts and the failure types shared by every module. */
module Types {
  const U32_MAX := 0xFFFF_FFFF
  const U64_MAX := 0xFFFF_FFFF_FFFF_FFFF
  const U128_MAX := 0xFFFF_FFFF_FFFF_FFFF_FFFF_FFFF_FFFF_FFFF

  type U32 = x: int | 0 <= x <= U32_MAX
  type U64 = x: int | 0 <= x <= U64_MAX
  type U128 = x: int | 0 <= x <= U128_MAX
  type Byte = x: int | 0 <= x < 256

  // Runtime constants.
  const MAX_PRODUCTS: U32 := 1000
  const MARKETPLACE_COLLECTION: U32 := 0
  const EXISTENTIAL_DEPOSIT: U128 := 1_000_000_000

  /** An account is either derived from the marketplace's pallet id, in which case nobody
      holds a key for it, or belongs to a key holder. */
  datatype Account = PalletAccount | Key(id: nat)

  datatype Option<+T> = None | Some(value: T)

  datatype Result<+T, +E> = Success(value: T) | Failure(error: E)

  function SaturatingInc(n: U64): U64 {
    if n == U64_MAX then n else n + 1
  }
}
