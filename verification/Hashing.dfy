/** Bytes, 32-byte hashes, and the hash function as a parameter of every theorem. */
module Hashing {

  type Byte = x: int | 0 <= x < 256

  const HASH_SIZE: nat := 32

  type Hash = s: seq<Byte> | |s| == HASH_SIZE witness seq(32, _ => 0)

  /** Nothing is known of the hash function: `concat` hashes two hashes laid side by side,
      `data` hashes a byte string. */
  datatype Hasher = Hasher(concat: (Hash, Hash) -> Hash, data: seq<Byte> -> Hash)

  function ZeroBytes(n: nat): (s: seq<Byte>)
    ensures |s| == n && forall i :: 0 <= i < n ==> s[i] == 0
  {
    seq(n, _ => 0)
  }

  /** The all-zero hash pushed for a skipped input. */
  function NullHash(): Hash {
    ZeroBytes(32)
  }

  datatype Option<+T> = None | Some(value: T)

  /** The exceptions the modelled code can throw. */
  datatype Error = OutOfRange | InvalidArgument | LogicError

  datatype Result<+T> = Ok(value: T) | Err(error: Error)
}
