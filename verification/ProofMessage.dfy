/** The wire form of proofs (`protobuf-util.cpp`). */
module ProofMessage {
  import opened Hashing
  import opened MerkleTreeProof

  const INT_LIMIT: nat := 0x8000_0000

  /** The protobuf message; an absent hash reads as an empty byte string. */
  datatype Message = Message(targetAddress: nat, log2TargetSize: nat, log2RootSize: nat,
                             targetHash: seq<Byte>, rootHash: seq<Byte>, siblingHashes: seq<seq<Byte>>)

  /** `static_cast<int>` of an unsigned 64-bit field keeps the low 32 bits as two's complement. */
  function ToInt(x: nat): int {
    var low := x % 0x1_0000_0000;
    if low < INT_LIMIT then low else low - 0x1_0000_0000
  }

  /** `get_proto_hash` */
  function DecodeHash(data: seq<Byte>): (r: Result<Hash>)
    ensures r.Ok? <==> |data| == HASH_SIZE
    ensures r.Ok? ==> r.value == data
    ensures r.Err? ==> r.error == InvalidArgument
  {
    if |data| != 32 then Err(InvalidArgument) else Ok(data)
  }

  /** What `set_proto_merkle_tree_proof` must leave in the message. */
  function Encoding(p: Proof): Message
    requires p.Valid()
  {
    Message(p.targetAddress, p.log2TargetSize, p.log2RootSize, p.targetHash, p.rootHash, p.siblings)
  }

  /** `set_proto_merkle_tree_proof`: siblings are appended from the root down. */
  method Encode(p: Proof) returns (m: Message)
    requires p.Valid()
    ensures m == Encoding(p)
    ensures m.targetAddress == p.targetAddress && m.targetHash == p.targetHash && m.rootHash == p.rootHash
    ensures m.log2TargetSize == p.log2TargetSize && m.log2RootSize == p.log2RootSize
    ensures |m.siblingHashes| == p.log2RootSize - p.log2TargetSize
    ensures forall i: nat :: i < |m.siblingHashes| ==> m.siblingHashes[i] == p.Sibling(p.log2RootSize - 1 - i)
  {
    m := Message(p.targetAddress, p.log2TargetSize, p.log2RootSize, p.targetHash, p.rootHash, []);
    var k := p.log2RootSize - 1;
    while k >= p.log2TargetSize
      invariant p.log2TargetSize - 1 <= k <= p.log2RootSize - 1
      invariant m == Encoding(p).(siblingHashes := p.siblings[..p.log2RootSize - 1 - k])
    {
      var next := p.siblings[p.log2RootSize - 1 - k];
      assert p.Sibling(k) == next;
      assert p.siblings[..p.log2RootSize - k] == p.siblings[..p.log2RootSize - 1 - k] + [next];
      m := m.(siblingHashes := m.siblingHashes + [p.Sibling(k)]);
      k := k - 1;
    }
    assert p.siblings[..|p.siblings|] == p.siblings;
  }

  /** The messages the decoder takes. */
  predicate Acceptable(m: Message) {
    && 0 < ToInt(m.log2RootSize) && 0 <= ToInt(m.log2TargetSize) <= ToInt(m.log2RootSize)
    && |m.targetHash| == HASH_SIZE && |m.rootHash| == HASH_SIZE
    && ToInt(m.log2RootSize) - |m.siblingHashes| == ToInt(m.log2TargetSize)
    && forall i :: 0 <= i < |m.siblingHashes| ==> |m.siblingHashes[i]| == HASH_SIZE
  }

  /** `get_proto_merkle_tree_proof` */
  method Decode(m: Message) returns (r: Result<Proof>)
    ensures r.Ok? <==> Acceptable(m)
    ensures r.Err? ==> r.error == if 0 < ToInt(m.log2RootSize) && 0 <= ToInt(m.log2TargetSize) <= ToInt(m.log2RootSize) then InvalidArgument else OutOfRange
    ensures r.Ok? ==> r.value.Valid()
    ensures r.Ok? ==> Encoding(r.value) == m.(log2TargetSize := ToInt(m.log2TargetSize), log2RootSize := ToInt(m.log2RootSize))
  {
    var log2TargetSize := ToInt(m.log2TargetSize);
    var log2RootSize := ToInt(m.log2RootSize);
    var made := NewProof(log2RootSize, log2TargetSize);
    if made.Err? { return Err(made.error); }
    var p := made.value;
    p := p.(targetAddress := m.targetAddress);
    var targetHash := DecodeHash(m.targetHash);
    if targetHash.Err? { return Err(targetHash.error); }
    p := p.(targetHash := targetHash.value);
    var rootHash := DecodeHash(m.rootHash);
    if rootHash.Err? { return Err(rootHash.error); }
    p := p.(rootHash := rootHash.value);
    if log2RootSize - |m.siblingHashes| != log2TargetSize { return Err(InvalidArgument); }
    var i := 0;
    while i < |m.siblingHashes|
      invariant 0 <= i <= |m.siblingHashes| == |p.siblings|
      invariant p.Valid() && p.targetAddress == m.targetAddress && p.log2RootSize == log2RootSize && p.log2TargetSize == log2TargetSize
      invariant p.targetHash == m.targetHash && p.rootHash == m.rootHash
      invariant forall j :: 0 <= j < i ==> |m.siblingHashes[j]| == HASH_SIZE && p.siblings[j] == m.siblingHashes[j]
    {
      var sibling := DecodeHash(m.siblingHashes[i]);
      if sibling.Err? { return Err(sibling.error); }
      p := SetSibling(p, sibling.value, log2RootSize - 1 - i).value;
      i := i + 1;
    }
    assert p.siblings == m.siblingHashes;
    return Ok(p);
  }

  lemma EncodingIsInjective(p: Proof, q: Proof)
    requires p.Valid() && q.Valid() && Encoding(p) == Encoding(q)
    ensures p == q
  {
  }

  lemma EncodingIsAcceptable(p: Proof)
    requires p.Valid()
    ensures p.log2RootSize < INT_LIMIT ==>
      Acceptable(Encoding(p)) && ToInt(p.log2RootSize) == p.log2RootSize && ToInt(p.log2TargetSize) == p.log2TargetSize
  {
  }

  /** Encoding and decoding back returns the same proof, so verification status survives. */
  method ProofRoundTrip(p: Proof) returns (r: Result<Proof>)
    requires p.Valid() && p.log2RootSize < INT_LIMIT
    ensures r == Ok(p)
  {
    var m := Encode(p);
    EncodingIsAcceptable(p);
    r := Decode(m);
    EncodingIsInjective(p, r.value);
  }

  /** A message the decoder takes re-encodes to itself exactly when its two size fields fit a
      signed 32-bit integer: otherwise the decoder has silently dropped their high bits. */
  method MessageRoundTrip(m: Message) returns (back: Option<Message>)
    ensures back.Some? <==> Acceptable(m)
    ensures back.Some? ==> (back.value == m <==> m.log2TargetSize < INT_LIMIT && m.log2RootSize < INT_LIMIT)
  {
    var r := Decode(m);
    if r.Err? { return None; }
    var e := Encode(r.value);
    return Some(e);
  }

  /** A size field one too wide is accepted as if it were small. */
  lemma OversizedFieldIsAccepted()
    ensures Acceptable(Message(0, 0x1_0000_0001, 0x1_0000_0001, NullHash(), NullHash(), []))
  {
  }
}
