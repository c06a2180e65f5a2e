/** `complete_merkle_tree`: a level-by-level cache of the hashes that are not pristine,
    repaired incrementally when leaves are appended. */
module CompleteTree {
  import opened Bits
  import opened Hashing
  import opened MerkleSpec
  import opened MerkleTreeProof
  import opened PristineTree

  /** `level` holds the non-pristine hashes k levels above `leaves`: exactly ceil(n / 2^k) of them. */
  ghost predicate IsLevel(h: Hasher, base: Hash, leaves: seq<Hash>, k: nat, level: seq<Hash>) {
    && |level| == CeilShr(|leaves|, k)
    && forall i: nat :: i < |level| ==> level[i] == Node(h, base, leaves, k, i)
  }

  /** `std::vector::resize`: cut, or pad with null hashes. */
  function Resize(s: seq<Hash>, n: nat): (r: seq<Hash>)
    ensures |r| == n && forall i: nat :: i < n && i < |s| ==> r[i] == s[i]
  {
    if n <= |s| then s[..n] else s + seq(n - |s|, _ => NullHash())
  }

  /** All entries of a level but its last survive growth of the leaf list. */
  lemma OldEntriesSurvive(h: Hasher, base: Hash, before: seq<Hash>, leaves: seq<Hash>, k: nat, i: nat)
    requires before <= leaves && i + 1 < CeilShr(|before|, k)
    ensures Node(h, base, before, k, i) == Node(h, base, leaves, k, i)
  {
    CeilShrLess(|before|, k, i + 1);
    NodeOfPrefix(h, base, before, leaves[|before|..], k, i);
    assert before + leaves[|before|..] == leaves;
  }

  /** One turn of the outer loop of `bubble_up`: rebuild a level from the one below it, keeping
      every entry of the old level except the last. */
  method RebuildLevel(h: Hasher, ghost base: Hash, pristine: Hash, ghost before: seq<Hash>, ghost leaves: seq<Hash>,
                      ghost k: nat, prev: seq<Hash>, stale: seq<Hash>) returns (next: seq<Hash>)
    requires before <= leaves
    requires IsLevel(h, base, leaves, k, prev) && IsLevel(h, base, before, k + 1, stale)
    requires pristine == Zeros(h, base, k)
    ensures IsLevel(h, base, leaves, k + 1, next)
  {
    next := stale;
    var firstEntry := if |next| != 0 then |next| - 1 else |next|;
    next := Resize(next, (|prev| + 1) / 2);
    CeilShrMonotone(|before|, |leaves|, k + 1);
    assert firstEntry <= |next|;
    forall i: nat | i < firstEntry ensures next[i] == Node(h, base, leaves, k + 1, i) {
      OldEntriesSurvive(h, base, before, leaves, k + 1, i);
    }
    var lastSafeEntry := |prev| / 2;
    while firstEntry < lastSafeEntry
      invariant firstEntry <= |next| == (|prev| + 1) / 2
      invariant forall i: nat :: i < firstEntry ==> next[i] == Node(h, base, leaves, k + 1, i)
    {
      next := next[firstEntry := h.concat(prev[2 * firstEntry], prev[2 * firstEntry + 1])];
      firstEntry := firstEntry + 1;
    }
    if |prev| > 2 * lastSafeEntry {
      CeilShrLess(|leaves|, k, |prev|);
      NodePastEnd(h, base, leaves, k, |prev|);
      next := next[lastSafeEntry := h.concat(prev[|prev| - 1], pristine)];
      assert next[lastSafeEntry] == Node(h, base, leaves, k + 1, lastSafeEntry);
    }
  }

  class CompleteMerkleTree {
    const h: Hasher
    const log2RootSize: int
    const log2LeafSize: int
    const log2WordSize: int
    const pristine: PristineMerkleTree
    /** Levels from the root down: the level of size 2^k is `tree[log2RootSize - k]`. */
    var tree: seq<seq<Hash>>

    ghost predicate SizesOk() {
      && 0 <= log2WordSize <= log2LeafSize <= log2RootSize < 64
      && pristine.Valid() && pristine.h == h
      && pristine.log2RootSize == log2RootSize && pristine.log2WordSize == log2WordSize
    }

    ghost function Depth(): nat
      requires SizesOk()
    {
      log2RootSize - log2LeafSize
    }

    /** The hash of a pristine leaf. */
    ghost function Base(): Hash
      requires SizesOk()
    {
      PristineHash(h, log2WordSize, log2LeafSize)
    }

    ghost function Leaves(): seq<Hash>
      requires SizesOk() && |tree| == Depth() + 1
      reads this
    {
      tree[Depth()]
    }

    /** Every level holds exactly the non-pristine nodes of the full tree over the leaves. */
    ghost predicate Valid()
      reads this
    {
      && SizesOk()
      && |tree| == Depth() + 1
      && forall j: nat :: j < |tree| ==> IsLevel(h, Base(), Leaves(), Depth() - j, tree[j])
    }

    ghost predicate SameShapeAs(that: CompleteMerkleTree) {
      h == that.h && log2RootSize == that.log2RootSize && log2LeafSize == that.log2LeafSize && log2WordSize == that.log2WordSize
    }

    /** `check_log2_sizes` */
    static predicate CheckLog2Sizes(log2RootSize: int, log2LeafSize: int, log2WordSize: int) {
      && !(log2RootSize < 0) && !(log2LeafSize < 0) && !(log2WordSize < 0)
      && !(log2LeafSize > log2RootSize) && !(log2WordSize > log2LeafSize) && !(log2RootSize >= 64)
    }

    lemma PristineIs(k: nat)
      requires SizesOk() && k <= Depth()
      ensures PristineHash(h, log2WordSize, log2LeafSize + k) == Zeros(h, Base(), k)
    {
      ZerosCompose(h, h.data(ZeroBytes(Pow2(log2WordSize))), log2LeafSize - log2WordSize, k);
    }

    lemma {:induction false} EmptyCeil(k: nat)
      ensures CeilShr(0, k) == 0
    {
      if k > 0 { EmptyCeil(k - 1); }
    }

    /** A tree of pristine leaves. */
    constructor (h: Hasher, log2RootSize: int, log2LeafSize: int, log2WordSize: int)
      requires CheckLog2Sizes(log2RootSize, log2LeafSize, log2WordSize)
      ensures Valid() && Leaves() == []
      ensures this.h == h && this.log2RootSize == log2RootSize && this.log2LeafSize == log2LeafSize && this.log2WordSize == log2WordSize
    {
      var p := new PristineMerkleTree(h, log2RootSize, log2WordSize);
      this.h, this.log2RootSize, this.log2LeafSize, this.log2WordSize := h, log2RootSize, log2LeafSize, log2WordSize;
      this.pristine := p;
      this.tree := seq(log2RootSize - log2LeafSize + 1, _ => []);
      new;
      forall j: nat | j < |tree| ensures IsLevel(h, Base(), Leaves(), Depth() - j, tree[j]) {
        EmptyCeil(Depth() - j);
      }
    }

    /** The bulk constructor: it takes a leaf vector of any length, without a capacity check. */
    constructor FromLeaves(h: Hasher, log2RootSize: int, log2LeafSize: int, log2WordSize: int, leaves: seq<Hash>)
      requires CheckLog2Sizes(log2RootSize, log2LeafSize, log2WordSize)
      ensures Valid() && Leaves() == leaves
      ensures this.h == h && this.log2RootSize == log2RootSize && this.log2LeafSize == log2LeafSize && this.log2WordSize == log2WordSize
    {
      var p := new PristineMerkleTree(h, log2RootSize, log2WordSize);
      this.h, this.log2RootSize, this.log2LeafSize, this.log2WordSize := h, log2RootSize, log2LeafSize, log2WordSize;
      this.pristine := p;
      this.tree := seq(log2RootSize - log2LeafSize + 1, _ => []);
      new;
      tree := tree[log2RootSize - log2LeafSize := leaves];
      forall j: nat | j < Depth() ensures IsLevel(h, Base(), [], Depth() - j, tree[j]) {
        EmptyCeil(Depth() - j);
      }
      BubbleUp([]);
    }

    /** Both constructors, with the checks in front. */
    static method Make(h: Hasher, log2RootSize: int, log2LeafSize: int, log2WordSize: int, leaves: seq<Hash>)
      returns (r: Result<CompleteMerkleTree>)
      ensures r.Ok? <==> 0 <= log2WordSize <= log2LeafSize <= log2RootSize < 64
      ensures r.Ok? ==> r.value.Valid() && r.value.Leaves() == leaves && r.value.h == h
      ensures r.Ok? ==> r.value.log2RootSize == log2RootSize && r.value.log2LeafSize == log2LeafSize
      ensures r.Ok? ==> r.value.log2WordSize == log2WordSize
      ensures r.Err? ==> r.error == OutOfRange
    {
      if !CheckLog2Sizes(log2RootSize, log2LeafSize, log2WordSize) { return Err(OutOfRange); }
      var t := new CompleteMerkleTree.FromLeaves(h, log2RootSize, log2LeafSize, log2WordSize, leaves);
      return Ok(t);
    }

    /** `bubble_up`: repairs every level above the leaves, which may have grown by any number of
        leaves since the levels were last right. */
    method BubbleUp(ghost before: seq<Hash>)
      requires SizesOk() && |tree| == Depth() + 1
      requires before <= Leaves()
      requires forall j: nat :: j < Depth() ==> IsLevel(h, Base(), before, Depth() - j, tree[j])
      modifies this`tree
      ensures Valid() && Leaves() == old(Leaves())
    {
      ghost var leaves := Leaves();
      var next := log2LeafSize + 1;
      while next <= log2RootSize
        invariant log2LeafSize + 1 <= next <= log2RootSize + 1
        invariant |tree| == Depth() + 1 && Leaves() == leaves
        invariant forall j: nat :: log2RootSize - next < j <= Depth() ==> IsLevel(h, Base(), leaves, Depth() - j, tree[j])
        invariant forall j: nat :: j <= log2RootSize - next ==> IsLevel(h, Base(), before, Depth() - j, tree[j])
      {
        ghost var k: nat := next - 1 - log2LeafSize;
        PristineIs(k);
        var level := RebuildLevel(h, Base(), pristine.GetHash(next - 1).value, before, leaves, k,
                                  tree[log2RootSize - (next - 1)], tree[log2RootSize - next]);
        tree := tree[log2RootSize - next := level];
        next := next + 1;
      }
    }

    /** `push_back` */
    method PushBack(hash: Hash) returns (r: Result<()>)
      requires Valid()
      modifies this`tree
      ensures Valid()
      ensures r == if |old(Leaves())| < Pow2(Depth()) then Ok(()) else Err(OutOfRange)
      ensures Leaves() == if r.Ok? then old(Leaves()) + [hash] else old(Leaves())
    {
      var leafLevel := log2RootSize - log2LeafSize;
      var leaves := tree[leafLevel];
      if |leaves| >= Pow2(log2RootSize - log2LeafSize) { return Err(OutOfRange); }
      tree := tree[leafLevel := leaves + [hash]];
      BubbleUp(leaves);
      return Ok(());
    }

    /** `size` */
    function Size(): (n: nat)
      requires Valid()
      reads this
      ensures n == |Leaves()|
    {
      |tree[log2RootSize - log2LeafSize]|
    }

    /** `get_node_hash`: at every address below the root's size, stored or not, it is the hash
        of the node of the full tree that covers the address. */
    function GetNodeHash(address: nat, log2Size: int): (r: Result<Hash>)
      requires Valid()
      reads this
      ensures r.Ok? <==> log2LeafSize <= log2Size <= log2RootSize && address < Pow2(log2RootSize)
      ensures r.Ok? ==> r.value == Node(h, Base(), Leaves(), log2Size - log2LeafSize, Shr(address, log2Size))
      ensures r.Err? ==> r.error == OutOfRange
    {
      if log2Size < log2LeafSize || log2Size > log2RootSize then Err(OutOfRange)
      else
        var level := tree[log2RootSize - log2Size];
        var index := Shr(address, log2Size);
        NodeHashFacts(address, log2Size);
        if index >= Pow2(log2RootSize - log2Size) then Err(OutOfRange)
        else if index < |level| then Ok(level[index])
        else pristine.GetHash(log2Size)
    }

    lemma NodeHashFacts(address: nat, log2Size: int)
      requires Valid() && log2LeafSize <= log2Size <= log2RootSize
      ensures Shr(address, log2Size) < Pow2(log2RootSize - log2Size) <==> address < Pow2(log2RootSize)
      ensures IsLevel(h, Base(), Leaves(), log2Size - log2LeafSize, tree[log2RootSize - log2Size])
      ensures Shr(address, log2Size) >= |tree[log2RootSize - log2Size]| ==>
                PristineHash(h, log2WordSize, log2Size) ==
                Node(h, Base(), Leaves(), log2Size - log2LeafSize, Shr(address, log2Size))
    {
      var k: nat := log2Size - log2LeafSize;
      ShlShl(1, log2RootSize - log2Size, log2Size);
      ShrLess(address, Pow2(log2RootSize - log2Size), log2Size);
      CeilShrLess(|Leaves()|, k, Shr(address, log2Size));
      if Shr(address, log2Size) >= |tree[log2RootSize - log2Size]| {
        NodePastEnd(h, Base(), Leaves(), k, Shr(address, log2Size));
        PristineIs(k);
      }
    }

    /** `get_root_hash` */
    function GetRootHash(): (root: Hash)
      requires Valid()
      reads this
      ensures root == Node(h, Base(), Leaves(), Depth(), 0)
    {
      RootInRange();
      GetNodeHash(0, log2RootSize).value
    }

    lemma RootInRange()
      requires SizesOk()
      ensures 0 < Pow2(log2RootSize) && Shr(0, log2RootSize) == 0
    {
      ShlPositive(1, log2RootSize);
      ShrZero(0, log2RootSize);
    }

    ghost predicate ProofExists(address: nat, log2Size: int)
      requires SizesOk()
    {
      && log2LeafSize <= log2Size <= log2RootSize
      && Shl(Shr(address, log2Size), log2Size) == address
      && log2RootSize > 0
      && address < Pow2(log2RootSize)
    }

    /** `get_proof`: the full tree's proof at every aligned in-range address, an error elsewhere. */
    method GetProof(address: nat, log2Size: int) returns (r: Result<Proof>)
      requires Valid()
      ensures r == if ProofExists(address, log2Size)
                   then Ok(PathProof(h, Base(), Leaves(), log2LeafSize, log2RootSize, log2Size, address))
                   else Err(OutOfRange)
    {
      if log2Size < log2LeafSize || log2Size > log2RootSize { return Err(OutOfRange); }
      var alignedAddress := Shl(Shr(address, log2Size), log2Size);
      if address != alignedAddress { return Err(OutOfRange); }
      var made := NewProof(log2RootSize, log2Size);
      if made.Err? { return Err(made.error); }
      var proof := made.value;
      proof := proof.(rootHash := GetRootHash());
      proof := proof.(targetAddress := address);
      var target := GetNodeHash(address, log2Size);
      if target.Err? { return Err(target.error); }
      proof := proof.(targetHash := target.value);
      ghost var path := PathProof(h, Base(), Leaves(), log2LeafSize, log2RootSize, log2Size, address);
      var k: nat := log2Size;
      while k < log2RootSize
        invariant log2Size <= k <= log2RootSize
        invariant proof.Valid() && proof == path.(siblings := proof.siblings)
        invariant forall j: nat :: log2Size <= j < k ==> proof.Sibling(j) == path.Sibling(j)
      {
        var siblingAddress := Xor(address, Pow2(k));
        SiblingInRange(address, k);
        var sibling := GetNodeHash(siblingAddress, k);
        SiblingAddress(address, k);
        PathSiblingAt(h, Base(), Leaves(), log2LeafSize, log2Size, log2RootSize, address, k);
        proof := SetSibling(proof, sibling.value, k).value;
        k := k + 1;
      }
      SameShape(proof, path);
      return Ok(proof);
    }

    lemma SiblingInRange(address: nat, k: nat)
      requires SizesOk() && address < Pow2(log2RootSize) && k < log2RootSize
      ensures Xor(address, Pow2(k)) < Pow2(log2RootSize)
    {
      hide Xor, Shl, Shr;
      SiblingAddress(address, k);
      var m := log2RootSize - k;
      ShlShl(1, m, k);
      ShrLess(address, Pow2(m), k);
      ShrLess(Xor(address, Pow2(k)), Pow2(m), k);
      Pow2Half(m);
    }

    /** The stored hashes are determined by the leaves, so a bulk-built tree and a tree grown
        leaf by leaf (or in batches) are equal field for field. */
    lemma StateIsDeterminedByLeaves(that: CompleteMerkleTree)
      requires Valid() && that.Valid() && SameShapeAs(that) && Leaves() == that.Leaves()
      ensures tree == that.tree
    {
      forall j | 0 <= j < |tree| ensures tree[j] == that.tree[j] {
        assert IsLevel(h, Base(), Leaves(), Depth() - j, tree[j]);
        assert IsLevel(h, Base(), Leaves(), Depth() - j, that.tree[j]);
      }
    }

    /** Beyond capacity the bulk constructor keeps leaves that no proof and no root ever cover:
        the root is that of the first 2^depth leaves. */
    lemma ExcessLeavesAreIgnored(leaves: seq<Hash>)
      requires SizesOk() && |leaves| >= Pow2(Depth())
      ensures Node(h, Base(), leaves, Depth(), 0) == Node(h, Base(), leaves[..Pow2(Depth())], Depth(), 0)
    {
      var n := Pow2(Depth());
      assert leaves[..n] + leaves[n..] == leaves;
      NodeOfPrefix(h, Base(), leaves[..n], leaves[n..], Depth(), 0);
    }
  }

  /** Pushing a list leaf by leaf, as callers of `push_back` do, stops at the first refusal. */
  method PushAll(t: CompleteMerkleTree, leaves: seq<Hash>) returns (pushed: nat)
    requires t.Valid()
    modifies t`tree
    ensures t.Valid() && pushed <= |leaves|
    ensures t.Leaves() == old(t.Leaves()) + leaves[..pushed]
    ensures pushed == |leaves| <==> leaves == [] || |old(t.Leaves())| + |leaves| <= Pow2(t.Depth())
  {
    pushed := 0;
    assert t.Leaves() == old(t.Leaves()) + leaves[..0];
    while pushed < |leaves|
      invariant t.Valid() && pushed <= |leaves|
      invariant t.Leaves() == old(t.Leaves()) + leaves[..pushed]
      invariant pushed > 0 ==> |old(t.Leaves())| + pushed <= Pow2(t.Depth())
    {
      var r := t.PushBack(leaves[pushed]);
      if r.Err? { return; }
      assert leaves[..pushed] + [leaves[pushed]] == leaves[..pushed + 1];
      pushed := pushed + 1;
    }
  }

  /** The bulk constructor and leaf-by-leaf pushing give the same tree if and only if the
      leaves fit. */
  method BulkAgainstPushing(h: Hasher, log2RootSize: int, log2LeafSize: int, log2WordSize: int, leaves: seq<Hash>)
    returns (same: bool)
    requires CompleteMerkleTree.CheckLog2Sizes(log2RootSize, log2LeafSize, log2WordSize)
    ensures same <==> |leaves| <= Pow2(log2RootSize - log2LeafSize)
  {
    var bulk := new CompleteMerkleTree.FromLeaves(h, log2RootSize, log2LeafSize, log2WordSize, leaves);
    var grown := new CompleteMerkleTree(h, log2RootSize, log2LeafSize, log2WordSize);
    var pushed := PushAll(grown, leaves);
    same := bulk.tree == grown.tree;
    assert grown.Leaves() == leaves[..pushed];
    if |leaves| <= Pow2(log2RootSize - log2LeafSize) {
      bulk.StateIsDeterminedByLeaves(grown);
    } else {
      assert bulk.tree[bulk.Depth()] != grown.tree[grown.Depth()];
    }
  }
}
