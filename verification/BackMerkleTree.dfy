/** `back_merkle_tree`: a binary counter of complete subtrees that keeps one hash per level. */
module BackTree {
  import opened Bits
  import opened Hashing
  import opened MerkleSpec
  import opened MerkleTreeProof
  import opened PristineTree
  import opened CompleteTree

  /** Incrementing: below the lowest clear bit i of n all bits carry away, bit i becomes set,
      and the quotients above do not move. */
  lemma {:induction false} CarryStep(n: nat, m: nat, i: nat)
    requires m == n + 1
    requires forall j: nat :: j < i ==> Bit(n, j)
    ensures Shr(m, i) == Shr(n, i) + 1
    ensures Shl(Shr(n, i) + 1, i) == m
    ensures forall j: nat :: j < i ==> !Bit(m, j)
    ensures !Bit(n, i) ==> Bit(m, i) && forall j: nat :: i < j ==> Shr(m, j) == Shr(n, j)
  {
    if i > 0 {
      CarryStep(n, m, i - 1);
      assert Bit(n, i - 1);
      ShlOuter(Shr(n, i) + 1, i - 1);
    }
    if !Bit(n, i) {
      forall j: nat | i < j ensures Shr(m, j) == Shr(n, j) {
        ShrShr(m, i + 1, j - i - 1);
        ShrShr(n, i + 1, j - i - 1);
        assert Shr(m, i + 1) == Shr(n, i + 1);
      }
    }
  }

  /** What one context entry means: for a set bit i of n, it is the hash of the complete
      2^i-leaf subtree that ends where the lower bits of n begin. */
  ghost predicate ContextEntry(h: Hasher, base: Hash, leaves: seq<Hash>, n: nat, context: seq<Hash>, i: nat)
    requires i < |context|
  {
    Bit(n, i) ==> context[i] == Node(h, base, leaves, i, Shr(n, i) - 1)
  }

  /** One step up the path over leaf n. */
  lemma PathNode(h: Hasher, base: Hash, leaves: seq<Hash>, n: nat, i: nat)
    ensures Node(h, base, leaves, i + 1, Shr(n, i + 1)) ==
            Merge(h, Bit(n, i), Node(h, base, leaves, i, Shr(n, i)), Node(h, base, leaves, i, Buddy(Shr(n, i))))
    ensures Bit(n, i) ==> Buddy(Shr(n, i)) == Shr(n, i) - 1
    ensures !Bit(n, i) ==> Buddy(Shr(n, i)) == Shr(n, i) + 1
  {
    var q := Shr(n, i);
    assert Shr(n, i + 1) == q / 2;
    assert q == 2 * (q / 2) || q == 2 * (q / 2) + 1;
  }

  class BackMerkleTree {
    const h: Hasher
    const log2RootSize: int
    const log2LeafSize: int
    const log2WordSize: int
    const maxLeaves: nat
    const pristine: PristineMerkleTree
    var leafCount: nat
    var context: seq<Hash>
    /** All the leaves pushed so far; the code does not keep them. */
    ghost var leaves: seq<Hash>

    ghost predicate SizesOk() {
      && 0 <= log2WordSize <= log2LeafSize <= log2RootSize < 64
      && pristine.Valid() && pristine.h == h
      && pristine.log2RootSize == log2RootSize && pristine.log2WordSize == log2WordSize
      && maxLeaves == Pow2(log2RootSize - log2LeafSize)
    }

    ghost function Depth(): nat
      requires SizesOk()
    {
      log2RootSize - log2LeafSize
    }

    ghost function Base(): Hash
      requires SizesOk()
    {
      PristineHash(h, log2WordSize, log2LeafSize)
    }

    ghost predicate Valid()
      reads this
    {
      && SizesOk()
      && leafCount == |leaves| <= maxLeaves
      && |context| == Depth() + 1
      && forall i: nat :: i < |context| ==> ContextEntry(h, Base(), leaves, leafCount, context, i)
    }

    lemma PristineIs(k: nat)
      requires SizesOk() && k <= Depth()
      ensures PristineHash(h, log2WordSize, log2LeafSize + k) == Zeros(h, Base(), k)
    {
      ZerosCompose(h, h.data(ZeroBytes(Pow2(log2WordSize))), log2LeafSize - log2WordSize, k);
    }

    /** The constructor after its range checks, which are those of the complete tree. */
    constructor (h: Hasher, log2RootSize: int, log2LeafSize: int, log2WordSize: int)
      requires CompleteMerkleTree.CheckLog2Sizes(log2RootSize, log2LeafSize, log2WordSize)
      ensures Valid() && leaves == []
      ensures this.h == h && this.log2RootSize == log2RootSize && this.log2LeafSize == log2LeafSize && this.log2WordSize == log2WordSize
    {
      var p := new PristineMerkleTree(h, log2RootSize, log2WordSize);
      this.h, this.log2RootSize, this.log2LeafSize, this.log2WordSize := h, log2RootSize, log2LeafSize, log2WordSize;
      this.maxLeaves := Pow2(log2RootSize - log2LeafSize);
      this.pristine := p;
      this.leafCount := 0;
      this.context := seq(log2RootSize - log2LeafSize + 1, _ => NullHash());
      this.leaves := [];
      new;
      forall i: nat | i < |context| ensures !Bit(leafCount, i) {
        ShlPositive(1, i);
        ShrZero(0, i);
      }
    }

    /** `push_back`: adding a leaf is adding one to the counter. */
    method PushBack(leafHash: Hash) returns (r: Result<()>)
      requires Valid()
      modifies this
      ensures Valid()
      ensures r == if |old(leaves)| < Pow2(Depth()) then Ok(()) else Err(OutOfRange)
      ensures leaves == if r.Ok? then old(leaves) + [leafHash] else old(leaves)
    {
      var right := leafHash;
      if leafCount >= maxLeaves { return Err(OutOfRange); }
      var depth := log2RootSize - log2LeafSize;
      ghost var n, grown := leafCount, leaves + [leafHash];
      var i := 0;
      var placed := false;
      TopBitClear();
      while i <= depth && !placed
        invariant 0 <= i <= depth && n < maxLeaves
        invariant forall j: nat :: j < i ==> Bit(n, j)
        invariant leafCount == n && leaves == old(leaves) && |context| == depth + 1
        invariant !placed ==> context == old(context) && right == Node(h, Base(), grown, i, Shr(n, i))
        invariant placed ==> !Bit(n, i) && context == old(context)[i := Node(h, Base(), grown, i, Shr(n, i))]
        decreases depth + 1 - i, !placed
      {
        MaskTestsBit(leafCount, i);
        if And(leafCount, Pow2(i)) != 0 {
          CompletedEntry(n, grown, i);
          assert i < depth;
          right := h.concat(context[i], right);
          i := i + 1;
        } else {
          context := context[i := right];
          placed := true;
        }
      }
      leafCount := leafCount + 1;
      leaves := grown;
      CounterAdvanced(old(leaves), leafHash, old(context), i);
      return Ok(());
    }

    /** Below capacity the top bit of the count is clear, so the carry loop always finds room. */
    lemma TopBitClear()
      requires Valid() && leafCount < maxLeaves
      ensures !Bit(leafCount, Depth())
    {
      ShrZero(leafCount, Depth());
    }

    /** The entry for a set bit is still the right node once another leaf is appended. */
    lemma CompletedEntry(n: nat, grown: seq<Hash>, i: nat)
      requires Valid() && n == leafCount && i < |context| && Bit(n, i)
      requires |grown| == n + 1 && grown[..n] == leaves
      ensures context[i] == Node(h, Base(), grown, i, Shr(n, i) - 1)
      ensures Node(h, Base(), grown, i + 1, Shr(n, i + 1)) ==
              h.concat(context[i], Node(h, Base(), grown, i, Shr(n, i)))
    {
      assert ContextEntry(h, Base(), leaves, leafCount, context, i);
      ShrBounds(n, i);
      assert grown == leaves + grown[n..];
      NodeOfPrefix(h, Base(), leaves, grown[n..], i, Shr(n, i) - 1);
    }

    lemma CounterAdvanced(before: seq<Hash>, leafHash: Hash, was: seq<Hash>, i: nat)
      requires SizesOk() && leaves == before + [leafHash] && leafCount == |leaves| <= maxLeaves
      requires |was| == Depth() + 1 && i < |was|
      requires forall j: nat :: j < |was| ==> ContextEntry(h, Base(), before, |before|, was, j)
      requires forall j: nat :: j < i ==> Bit(|before|, j)
      requires !Bit(|before|, i)
      requires context == was[i := Node(h, Base(), leaves, i, Shr(|before|, i))]
      ensures Valid()
    {
      CarryStep(|before|, leafCount, i);
      forall j: nat | j < |context| ensures ContextEntry(h, Base(), leaves, leafCount, context, j) {
        if i < j { UntouchedEntry(before, leafHash, was, i, j); }
      }
    }

    /** An entry above the carry is still the right node. */
    lemma UntouchedEntry(before: seq<Hash>, leafHash: Hash, was: seq<Hash>, i: nat, j: nat)
      requires SizesOk() && leaves == before + [leafHash] && i < j < |was|
      requires ContextEntry(h, Base(), before, |before|, was, j)
      requires Shr(|before| + 1, j) == Shr(|before|, j)
      ensures ContextEntry(h, Base(), leaves, |before| + 1, was, j)
    {
      var n := |before|;
      if Bit(n, j) {
        ShrBounds(n, j);
        NodeOfPrefix(h, Base(), before, [leafHash], j, Shr(n, j) - 1);
      }
    }

    /** What both reading loops use at level i: which sibling the path over leaf n has. */
    lemma PathStep(i: nat)
      requires Valid() && leafCount < maxLeaves && i < Depth()
      ensures Bit(leafCount, i) ==>
                context[i] == Node(h, Base(), leaves, i, Buddy(Shr(leafCount, i)))
      ensures !Bit(leafCount, i) ==>
                PristineHash(h, log2WordSize, log2LeafSize + i) == Node(h, Base(), leaves, i, Buddy(Shr(leafCount, i)))
      ensures Node(h, Base(), leaves, i + 1, Shr(leafCount, i + 1)) ==
              Merge(h, Bit(leafCount, i), Node(h, Base(), leaves, i, Shr(leafCount, i)),
                    Node(h, Base(), leaves, i, Buddy(Shr(leafCount, i))))
    {
      PathNode(h, Base(), leaves, leafCount, i);
      assert ContextEntry(h, Base(), leaves, leafCount, context, i);
      if !Bit(leafCount, i) {
        ShrBounds(leafCount, i);
        PristineIs(i);
        hide Node, Shl, Shr, Zeros, PristineHash;
        NodePastEnd(h, Base(), leaves, i, Shr(leafCount, i) + 1);
      }
    }

    /** `get_root_hash`: the full tree's root, from log n hashes, at every count up to full. */
    method GetRootHash() returns (root: Hash)
      requires Valid()
      ensures root == Node(h, Base(), leaves, Depth(), 0)
    {
      var depth := log2RootSize - log2LeafSize;
      if leafCount < maxLeaves {
        root := pristine.GetHash(log2LeafSize).value;
        NodePastEnd(h, Base(), leaves, 0, leafCount);
        var i := 0;
        while i < depth
          invariant 0 <= i <= depth
          invariant root == Node(h, Base(), leaves, i, Shr(leafCount, i))
        {
          MaskTestsBit(leafCount, i);
          PathStep(i);
          if And(leafCount, Pow2(i)) != 0 {
            root := h.concat(context[i], root);
          } else {
            root := h.concat(root, pristine.GetHash(log2LeafSize + i).value);
          }
          i := i + 1;
        }
        ShrZero(leafCount, depth);
      } else {
        root := context[depth];
        assert ContextEntry(h, Base(), leaves, leafCount, context, depth);
        ShrShl(1, depth);
      }
    }

    /** The full tree's proof of the first free leaf. */
    ghost function NextLeafPath(): (p: Proof)
      requires Valid() && log2RootSize > 0
      reads this
      ensures p.Valid() && p.log2RootSize == log2RootSize && p.log2TargetSize == log2LeafSize
    {
      PathProof(h, Base(), leaves, log2LeafSize, log2RootSize, log2LeafSize, Shl(leafCount, log2LeafSize))
    }

    lemma NextLeafSibling(i: nat)
      requires Valid() && log2RootSize > 0 && leafCount < maxLeaves && i < Depth()
      ensures NextLeafPath().Sibling(log2LeafSize + i) ==
              if Bit(leafCount, i) then context[i] else PristineHash(h, log2WordSize, log2LeafSize + i)
      ensures Bit(NextLeafPath().targetAddress, log2LeafSize + i) <==> Bit(leafCount, i)
    {
      PathStep(i);
      ShrShl(leafCount, log2LeafSize);
      ShrShr(Shl(leafCount, log2LeafSize), log2LeafSize, i);
      PathSiblingAt(h, Base(), leaves, log2LeafSize, log2LeafSize, log2RootSize, Shl(leafCount, log2LeafSize), log2LeafSize + i);
    }

    lemma NextLeafEnds()
      requires Valid() && log2RootSize > 0 && leafCount < maxLeaves
      ensures NextLeafPath().targetHash == Base()
      ensures Verifies(h, NextLeafPath())
    {
      ShrShl(leafCount, log2LeafSize);
      NodePastEnd(h, Base(), leaves, 0, leafCount);
      NextLeafInRange();
      PathProofSound(h, Base(), leaves, log2LeafSize, log2RootSize, log2LeafSize, Shl(leafCount, log2LeafSize), Base());
    }

    /** `get_next_leaf_proof`: the debug self-check cannot fail. */
    method GetNextLeafProof() returns (r: Result<Proof>)
      requires Valid()
      ensures r == if log2RootSize > 0 && |leaves| < Pow2(Depth()) then Ok(NextLeafPath()) else Err(OutOfRange)
    {
      if leafCount >= maxLeaves { return Err(OutOfRange); }
      var made := NewProof(log2RootSize, log2LeafSize);
      if made.Err? { return Err(made.error); }
      var proof := made.value;
      proof := proof.(targetAddress := Shl(leafCount, log2LeafSize));
      proof := proof.(targetHash := pristine.GetHash(log2LeafSize).value);
      NextLeafEnds();
      proof := FillNextLeafProof(proof, NextLeafPath());
      var ok := Verify(h, proof);
      if !ok { return Err(LogicError); }
      return Ok(proof);
    }

    /** The loop of `get_next_leaf_proof`: siblings and root hash together, bottom up. */
    method FillNextLeafProof(blank: Proof, ghost path: Proof) returns (proof: Proof)
      requires Valid() && log2RootSize > 0 && leafCount < maxLeaves
      requires path == NextLeafPath() && path.targetHash == Base() && Verifies(h, path)
      requires blank.Valid() && blank == path.(siblings := blank.siblings, rootHash := blank.rootHash)
      ensures proof == path
    {
      proof := blank;
      var depth := log2RootSize - log2LeafSize;
      var hash := pristine.GetHash(log2LeafSize).value;
      var i := 0;
      while i < depth
        invariant 0 <= i <= depth
        invariant hash == Climb(h, path, path.targetHash, log2LeafSize, log2LeafSize + i)
        invariant proof.Valid() && proof == path.(siblings := proof.siblings, rootHash := proof.rootHash)
        invariant forall k: nat :: log2LeafSize <= k < log2LeafSize + i ==> proof.Sibling(k) == path.Sibling(k)
      {
        MaskTestsBit(leafCount, i);
        NextLeafSibling(i);
        if And(leafCount, Pow2(i)) != 0 {
          var left := context[i];
          proof := SetSibling(proof, left, log2LeafSize + i).value;
          hash := h.concat(left, hash);
        } else {
          var right := pristine.GetHash(log2LeafSize + i).value;
          proof := SetSibling(proof, right, log2LeafSize + i).value;
          hash := h.concat(hash, right);
        }
        i := i + 1;
      }
      proof := proof.(rootHash := hash);
      SameShape(proof, path);
    }

    /** Bubbling a leaf up the next-leaf proof gives the root of the tree with that leaf pushed. */
    lemma NextLeafBubblesUp(leaf: Hash)
      requires Valid() && log2RootSize > 0 && leafCount < maxLeaves
      ensures Climb(h, NextLeafPath(), leaf, log2LeafSize, log2RootSize) == Node(h, Base(), leaves + [leaf], Depth(), 0)
    {
      var address := Shl(leafCount, log2LeafSize);
      ShrShl(leafCount, log2LeafSize);
      NextLeafInRange();
      PathProofSound(h, Base(), leaves, log2LeafSize, log2RootSize, log2LeafSize, address, leaf);
      ReplacingALeaf(h, Base(), leaves, leafCount, leaf, Depth(), 0);
    }

    lemma NextLeafInRange()
      requires Valid() && leafCount < maxLeaves
      ensures Shl(leafCount, log2LeafSize) < Pow2(log2RootSize)
    {
      ShlMonotone(leafCount, maxLeaves, log2LeafSize);
      ShlShl(1, Depth(), log2LeafSize);
    }
  }

  /** The accumulator and the complete tree over the same leaves answer alike: the same root at
      every count from empty to full, the same proof for the next leaf field for field, and that
      proof bubbles a new leaf up to the very root both have after pushing it. */
  method AccumulatorAgreesWithTree(back: BackMerkleTree, tree: CompleteMerkleTree, leaf: Hash)
    returns (roots: (Hash, Hash), proofs: (Result<Proof>, Result<Proof>), bubbled: Option<Hash>, after: (Hash, Hash))
    requires back.Valid() && tree.Valid() && back.leaves == tree.Leaves()
    requires back.h == tree.h && back.log2RootSize == tree.log2RootSize
    requires back.log2LeafSize == tree.log2LeafSize && back.log2WordSize == tree.log2WordSize
    modifies back, tree`tree
    ensures roots.0 == roots.1
    ensures proofs.0 == proofs.1
    ensures bubbled.Some? <==> proofs.0.Ok?
    ensures bubbled.Some? ==> bubbled.value == after.0
    ensures after.0 == after.1
  {
    hide Node, PathProof, Climb;
    var r0 := back.GetRootHash();
    roots := (r0, tree.GetRootHash());
    var p0 := back.GetNextLeafProof();
    var n := tree.Size();
    var p1 := tree.GetProof(Shl(n, tree.log2LeafSize), tree.log2LeafSize);
    ShrShl(n, tree.log2LeafSize);
    if n < back.maxLeaves {
      back.NextLeafInRange();
    } else {
      ShlMonotone(back.maxLeaves, n, tree.log2LeafSize);
      ShlShl(1, back.Depth(), tree.log2LeafSize);
    }
    proofs := (p0, p1);
    bubbled := None;
    if p0.Ok? {
      var b := BubbleUp(back.h, p0.value, leaf);
      bubbled := Some(b);
      back.NextLeafBubblesUp(leaf);
    }
    var _ := back.PushBack(leaf);
    var _ := tree.PushBack(leaf);
    var a0 := back.GetRootHash();
    after := (a0, tree.GetRootHash());
  }
}
