/** `pristine_merkle_tree`: the hashes of all-zero subtrees, one per size. */
module PristineTree {
  import opened Bits
  import opened Hashing
  import opened MerkleSpec

  class PristineMerkleTree {
    const h: Hasher
    const log2RootSize: int
    const log2WordSize: int
    const hashes: seq<Hash>

    ghost predicate Valid() {
      && 0 <= log2WordSize <= log2RootSize
      && |hashes| == log2RootSize - log2WordSize + 1
      && forall i: nat :: i < |hashes| ==> hashes[i] == Zeros(h, h.data(ZeroBytes(Pow2(log2WordSize))), i)
    }

    /** The constructor after its range checks: each entry is made from the one before. */
    constructor (h: Hasher, log2RootSize: int, log2WordSize: int)
      requires 0 <= log2WordSize <= log2RootSize
      ensures Valid() && this.h == h && this.log2RootSize == log2RootSize && this.log2WordSize == log2WordSize
    {
      var table: seq<Hash> := seq(log2RootSize - log2WordSize + 1, _ => NullHash());
      var word := h.data(ZeroBytes(Pow2(log2WordSize)));
      table := table[0 := word];
      var i := 1;
      while i < |table|
        invariant 1 <= i <= |table| == log2RootSize - log2WordSize + 1
        invariant forall j: nat :: j < i ==> table[j] == Zeros(h, word, j)
      {
        table := table[i := h.concat(table[i - 1], table[i - 1])];
        i := i + 1;
      }
      this.h := h;
      this.log2RootSize := log2RootSize;
      this.log2WordSize := log2WordSize;
      this.hashes := table;
    }

    /** The constructor with its range errors. */
    static method Make(h: Hasher, log2RootSize: int, log2WordSize: int) returns (r: Result<PristineMerkleTree>)
      ensures r.Ok? <==> 0 <= log2WordSize <= log2RootSize
      ensures r.Ok? ==> r.value.Valid() && r.value.h == h
      ensures r.Ok? ==> r.value.log2RootSize == log2RootSize && r.value.log2WordSize == log2WordSize
      ensures r.Err? ==> r.error == OutOfRange
    {
      if log2RootSize < 0 { return Err(OutOfRange); }
      if log2WordSize < 0 { return Err(OutOfRange); }
      if log2WordSize > log2RootSize { return Err(OutOfRange); }
      var t := new PristineMerkleTree(h, log2RootSize, log2WordSize);
      return Ok(t);
    }

    /** `get_hash`: the hash of 2^log2Size zero bytes, for every size between a word and the root. */
    function GetHash(log2Size: int): (r: Result<Hash>)
      requires Valid()
      ensures r == if log2WordSize <= log2Size <= log2RootSize
                   then Ok(PristineHash(h, log2WordSize, log2Size)) else Err(OutOfRange)
    {
      if log2Size < log2WordSize || log2Size > log2RootSize then Err(OutOfRange)
      else Ok(hashes[log2Size - log2WordSize])
    }
  }
}
