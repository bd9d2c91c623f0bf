/** Runtime primitives shared by both pallets: the `u32` storage type and its
    checked addition, dispatch origins, dispatch errors and the pallet event. */
module Primitives {

  const U32_MAX: int := 0xFFFF_FFFF

  /** Rust's `u32`: the type of the `Something` storage value. */
  type uint32 = x: int | 0 <= x <= U32_MAX

  datatype Option<T> = None | Some(value: T)

  /** An account identifier; opaque bytes, only ever compared and stored. */
  type AccountId = seq<bv8>

  /** The raw origin of a dispatched call: the runtime root, a signed
      account, or an unsigned (`None`) origin. */
  datatype Origin = Root | Signed(who: AccountId) | Unsigned

  /** `BadOrigin` is what `ensure_signed` returns for a non-signed origin;
      `NoneValue` and `StorageOverflow` are the pallet's own errors. */
  datatype DispatchError = BadOrigin | NoneValue | StorageOverflow

  /** `DispatchResult`: `Ok(())` or an error. */
  datatype DispatchResult = Ok | Err(error: DispatchError)

  /** The single event both pallets deposit. */
  datatype Event = SomethingStored(something: uint32, who: AccountId)

  /** `u32::checked_add`: the sum when it fits in 32 bits, `None` when it
      would wrap around. */
  function CheckedAdd(a: uint32, b: uint32): (r: Option<uint32>)
    ensures r.Some? <==> a + b <= U32_MAX
    ensures r.Some? ==> r.value == a + b
  {
    if a + b <= U32_MAX then Some(a + b) else None
  }
}
