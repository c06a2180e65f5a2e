/** The one simple thing all the tree classes compute: a full binary tree of hashes whose
    bottom row is a list of leaves followed, without end, by one and the same pristine leaf. */
module MerkleSpec {
  import opened Bits
  import opened Hashing

  function LeafAt(base: Hash, leaves: seq<Hash>, i: nat): Hash {
    if i < |leaves| then leaves[i] else base
  }

  /** Hash of the i-th node, k levels above the leaves. */
  function Node(h: Hasher, base: Hash, leaves: seq<Hash>, k: nat, i: nat): Hash
    decreases k
  {
    if k == 0 then LeafAt(base, leaves, i)
    else h.concat(Node(h, base, leaves, k - 1, 2 * i), Node(h, base, leaves, k - 1, 2 * i + 1))
  }

  /** Hash of a subtree k levels high with only pristine leaves. */
  function Zeros(h: Hasher, base: Hash, k: nat): Hash {
    if k == 0 then base else h.concat(Zeros(h, base, k - 1), Zeros(h, base, k - 1))
  }

  /** Hash of 2^log2Size zero bytes under a tree with 2^log2WordSize-byte words. */
  function PristineHash(h: Hasher, log2WordSize: nat, log2Size: nat): Hash
    requires log2WordSize <= log2Size
  {
    Zeros(h, h.data(ZeroBytes(Pow2(log2WordSize))), log2Size - log2WordSize)
  }

  /** The same tree with node i0 at level k0 overwritten by `newHash`. */
  function NodeReplaced(h: Hasher, base: Hash, leaves: seq<Hash>, k0: nat, i0: nat, newHash: Hash,
                        k: nat, i: nat): Hash
    decreases k
  {
    if k == k0 && i == i0 then newHash
    else if k == 0 then LeafAt(base, leaves, i)
    else h.concat(NodeReplaced(h, base, leaves, k0, i0, newHash, k - 1, 2 * i),
                  NodeReplaced(h, base, leaves, k0, i0, newHash, k - 1, 2 * i + 1))
  }

  ghost predicate SameLeaves(base: Hash, a: seq<Hash>, b: seq<Hash>, lo: nat, hi: nat) {
    forall j: nat :: lo <= j < hi ==> LeafAt(base, a, j) == LeafAt(base, b, j)
  }

  /** A node depends on the leaves below it and on nothing else. */
  lemma {:induction false} NodeDependsOnItsLeaves(
    h: Hasher, base: Hash, a: seq<Hash>, b: seq<Hash>, k: nat, i: nat)
    requires SameLeaves(base, a, b, Shl(i, k), Shl(i + 1, k))
    ensures Node(h, base, a, k, i) == Node(h, base, b, k, i)
    decreases k
  {
    if k == 0 {
      assert LeafAt(base, a, i) == LeafAt(base, b, i);
    } else {
      ShlOuter(i, k - 1);
      ShlOuter(i + 1, k - 1);
      ShlMonotone(2 * i, 2 * i + 1, k - 1);
      ShlMonotone(2 * i + 1, 2 * i + 2, k - 1);
      assert 2 * (i + 1) == 2 * i + 2;
      NodeDependsOnItsLeaves(h, base, a, b, k - 1, 2 * i);
      NodeDependsOnItsLeaves(h, base, a, b, k - 1, 2 * i + 1);
    }
  }

  /** A node over no stored leaf is pristine. */
  lemma {:induction false} NodePastEnd(h: Hasher, base: Hash, leaves: seq<Hash>, k: nat, i: nat)
    requires |leaves| <= Shl(i, k)
    ensures Node(h, base, leaves, k, i) == Zeros(h, base, k)
    decreases k
  {
    if k > 0 {
      ShlOuter(i, k - 1);
      ShlMonotone(2 * i, 2 * i + 1, k - 1);
      NodePastEnd(h, base, leaves, k - 1, 2 * i);
      NodePastEnd(h, base, leaves, k - 1, 2 * i + 1);
    }
  }

  /** Appending leaves does not change a node whose leaves were all there. */
  lemma NodeOfPrefix(h: Hasher, base: Hash, leaves: seq<Hash>, more: seq<Hash>, k: nat, i: nat)
    requires Shl(i + 1, k) <= |leaves|
    ensures Node(h, base, leaves + more, k, i) == Node(h, base, leaves, k, i)
  {
    NodeDependsOnItsLeaves(h, base, leaves, leaves + more, k, i);
  }

  lemma {:induction false} ZerosCompose(h: Hasher, base: Hash, j: nat, k: nat)
    ensures Zeros(h, Zeros(h, base, j), k) == Zeros(h, base, j + k)
  {
    if k > 0 { ZerosCompose(h, base, j, k - 1); }
  }

  /** Overwriting a node is felt only on its path to the root. */
  lemma {:induction false} ReplacementIsLocal(
    h: Hasher, base: Hash, leaves: seq<Hash>, k0: nat, i0: nat, newHash: Hash, k: nat, i: nat)
    requires k < k0 || i != Shr(i0, k - k0)
    ensures NodeReplaced(h, base, leaves, k0, i0, newHash, k, i) == Node(h, base, leaves, k, i)
    decreases k
  {
    if k > k0 {
      assert Shr(i0, k - k0) == Shr(i0, k - 1 - k0) / 2;
    }
    if k > 0 {
      ReplacementIsLocal(h, base, leaves, k0, i0, newHash, k - 1, 2 * i);
      ReplacementIsLocal(h, base, leaves, k0, i0, newHash, k - 1, 2 * i + 1);
    }
  }

  /** Overwriting a leaf position is the tree over the updated list. */
  lemma {:induction false} ReplacingALeaf(
    h: Hasher, base: Hash, leaves: seq<Hash>, i0: nat, newHash: Hash, k: nat, i: nat)
    requires i0 <= |leaves|
    ensures NodeReplaced(h, base, leaves, 0, i0, newHash, k, i) ==
            Node(h, base, if i0 < |leaves| then leaves[i0 := newHash] else leaves + [newHash], k, i)
    decreases k
  {
    if k > 0 {
      ReplacingALeaf(h, base, leaves, i0, newHash, k - 1, 2 * i);
      ReplacingALeaf(h, base, leaves, i0, newHash, k - 1, 2 * i + 1);
    }
  }
}
