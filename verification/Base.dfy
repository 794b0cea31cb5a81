/** Values shared by every layer of the node: machine integers, hashes, storage keys and blocks. */
module Base {

  datatype Option<+T> = None | Some(value: T)

  datatype Result<+T> = Ok(value: T) | Err

  const U32_MAX: nat := 0xFFFF_FFFF
  const U64_MAX: nat := 0xFFFF_FFFF_FFFF_FFFF
  const U256_MAX: nat := 0xFFFF_FFFF_FFFF_FFFF_FFFF_FFFF_FFFF_FFFF_FFFF_FFFF_FFFF_FFFF_FFFF_FFFF_FFFF_FFFF
  const TWO_32: nat := 0x1_0000_0000
  const TWO_128: nat := 0x1_0000_0000_0000_0000_0000_0000_0000_0000

  type U32 = n: nat | n <= U32_MAX
  type U64 = n: nat | n <= U64_MAX

  /** The value of a 256-bit storage slot, read as a number. */
  type Word = nat

  type Address = nat

  type Byte = n: nat | n < 256

  type Bytes = seq<Byte>

  /** Rust's `saturating_add` at a width whose largest value is `max`. */
  function SatAdd(a: nat, b: nat, max: nat): nat {
    if a + b <= max then a + b else max
  }

  /** Rust's `saturating_mul`. */
  function SatMul(a: nat, b: nat, max: nat): nat {
    if a * b <= max then a * b else max
  }

  function Min(a: nat, b: nat): nat {
    if a < b then a else b
  }

  function Max(a: nat, b: nat): nat {
    if a < b then b else a
  }

  /** A hash is either an opaque word (a transaction hash, a remote block hash, or zero) or the
      digest that `compute_hash` makes; digests of different arguments are different. */
  datatype Hash = Opaque(id: nat) | Digest(number: nat, inner: Hash)

  const ZERO_HASH: Hash := Opaque(0)

  function ComputeHash(blockNumber: nat, txHash: Hash): Hash {
    Digest(blockNumber, txHash)
  }

  datatype StorageKey = StorageKey(account: Address, slot: Word)

  datatype Block = Block(hash: Hash, parentHash: Hash, number: nat, timestamp: nat, batch: nat,
                         transactions: seq<Hash>)
}
