/** Stand-ins for the primitive types the pallet takes from its runtime and
    from `crate::types` (JuryCallID, Selections, Candidates), whose widths are
    not part of this model. */
module Types {

  /** One byte of a tribe name (`u8`). */
  newtype Byte = x: int | 0 <= x < 256

  /** A tribe name: an arbitrary byte string (`Vec<u8>`), not necessarily text. */
  type TribeName = seq<Byte>

  const U64_MAX: nat := 0xFFFF_FFFF_FFFF_FFFF

  /** `u64`, the type of `start_after` and of the seconds read from the clock. */
  type U64 = x: nat | x <= U64_MAX

  /** The runtime's account identifier; the pallet only copies and compares it. */
  type AccountId = nat

  datatype Option<T> = None | Some(value: T)
}
