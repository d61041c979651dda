/**
  Basic value types shared by the model: account keys, the unsigned 64-bit
  amounts of the token program, and an Option.
 */
module Types {

  /** Exclusive upper bound of Rust's `u64`. */
  const U64_BOUND: int := 0x1_0000_0000_0000_0000

  /** An unsigned 64-bit integer (token amounts, supply). */
  type U64 = x: int | 0 <= x < U64_BOUND

  /** Length in bytes of a Solana public key. */
  const PUBKEY_LENGTH: nat := 32

  /** A Solana public key: an account address or a signer identity. */
  type Pubkey = k: seq<bv8> | |k| == PUBKEY_LENGTH witness seq(PUBKEY_LENGTH, _ => 0)

  datatype Option<T> = None | Some(value: T)
}
