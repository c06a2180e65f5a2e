/** `merkle_tree_proof`: the siblings on the path from a target node up to a root.

    The C++ object is a plain value: it is copied and returned by value, and its setters are
    only called while one is being filled in.  Here it is a datatype, filled in by
    reassigning a local variable, and its loops are methods. */
module MerkleTreeProof {
  import opened Bits
  import opened Hashing
  import opened MerkleSpec

  /** `siblings` is in storage order, root to target. */
  datatype Proof = Proof(targetAddress: nat, log2TargetSize: int, targetHash: Hash,
                         log2RootSize: int, rootHash: Hash, siblings: seq<Hash>)
  {
    /** What the constructor establishes and every setter keeps. */
    predicate Valid() {
      0 <= log2TargetSize <= log2RootSize && log2RootSize > 0 && |siblings| == log2RootSize - log2TargetSize
    }

    function Sibling(k: nat): Hash
      requires Valid() && log2TargetSize <= k < log2RootSize
    {
      siblings[log2RootSize - 1 - k]
    }
  }

  /** The constructor: an unfilled proof of the requested shape. */
  function NewProof(log2RootSize: int, log2TargetSize: int): (r: Result<Proof>)
    ensures r.Ok? <==> 0 <= log2TargetSize <= log2RootSize && log2RootSize > 0
    ensures r.Ok? ==> r.value.Valid() && r.value.log2RootSize == log2RootSize && r.value.log2TargetSize == log2TargetSize
    ensures r.Err? ==> r.error == OutOfRange
  {
    if log2RootSize <= 0 then Err(OutOfRange)
    else if log2TargetSize < 0 then Err(OutOfRange)
    else if log2TargetSize > log2RootSize then Err(OutOfRange)
    else Ok(Proof(0, log2TargetSize, NullHash(), log2RootSize, NullHash(), seq(log2RootSize - log2TargetSize, _ => NullHash())))
  }

  /** `log2_size_to_index`, with its range error. */
  function SiblingIndex(p: Proof, log2Size: int): (r: Result<nat>)
    ensures p.Valid() ==> (r.Ok? <==> p.log2TargetSize <= log2Size < p.log2RootSize)
    ensures r.Ok? ==> r.value < |p.siblings| && r.value == p.log2RootSize - 1 - log2Size
    ensures r.Err? ==> r.error == OutOfRange
  {
    var index := p.log2RootSize - 1 - log2Size;
    if index < 0 || index >= |p.siblings| then Err(OutOfRange) else Ok(index)
  }

  /** `get_sibling_hash` */
  function GetSibling(p: Proof, log2Size: int): (r: Result<Hash>)
    requires p.Valid()
    ensures r == if p.log2TargetSize <= log2Size < p.log2RootSize then Ok(p.Sibling(log2Size)) else Err(OutOfRange)
  {
    var index := SiblingIndex(p, log2Size);
    if index.Err? then Err(index.error) else Ok(p.siblings[index.value])
  }

  /** `set_sibling_hash` */
  function SetSibling(p: Proof, hash: Hash, log2Size: int): (r: Result<Proof>)
    requires p.Valid()
    ensures r.Ok? <==> p.log2TargetSize <= log2Size < p.log2RootSize
    ensures r.Ok? ==> r.value.Valid() && r.value == p.(siblings := r.value.siblings) && r.value.Sibling(log2Size) == hash
    ensures r.Ok? ==> forall k: nat :: p.log2TargetSize <= k < p.log2RootSize && k != log2Size ==> r.value.Sibling(k) == p.Sibling(k)
    ensures r.Err? ==> r.error == OutOfRange
  {
    var index := SiblingIndex(p, log2Size);
    if index.Err? then Err(index.error) else Ok(p.(siblings := p.siblings[index.value := hash]))
  }

  /** One step up: the hash goes right of its sibling when the address bit is set. */
  function Merge(h: Hasher, bit: bool, hash: Hash, sibling: Hash): Hash {
    if bit then h.concat(sibling, hash) else h.concat(hash, sibling)
  }

  /** Hash at level k of the path when `hash` stands at level `lo`. */
  function Climb(h: Hasher, p: Proof, hash: Hash, lo: nat, k: nat): Hash
    requires p.Valid() && p.log2TargetSize <= lo <= k <= p.log2RootSize
    decreases k
  {
    if k == lo then hash
    else Merge(h, Bit(p.targetAddress, k - 1), Climb(h, p, hash, lo, k - 1), p.Sibling(k - 1))
  }

  ghost predicate Verifies(h: Hasher, p: Proof)
    requires p.Valid()
  {
    Climb(h, p, p.targetHash, p.log2TargetSize, p.log2RootSize) == p.rootHash
  }

  /** `bubble_up` */
  method BubbleUp(h: Hasher, p: Proof, newTargetHash: Hash) returns (hash: Hash)
    requires p.Valid()
    ensures hash == Climb(h, p, newTargetHash, p.log2TargetSize, p.log2RootSize)
  {
    hash := newTargetHash;
    var k: nat := p.log2TargetSize;
    while k < p.log2RootSize
      invariant p.log2TargetSize <= k <= p.log2RootSize
      invariant hash == Climb(h, p, newTargetHash, p.log2TargetSize, k)
    {
      MaskTestsBit(p.targetAddress, k);
      if And(p.targetAddress, Pow2(k)) != 0 {
        hash := h.concat(p.Sibling(k), hash);
      } else {
        hash := h.concat(hash, p.Sibling(k));
      }
      k := k + 1;
    }
  }

  /** `verify` */
  method Verify(h: Hasher, p: Proof) returns (ok: bool)
    requires p.Valid()
    ensures ok <==> Verifies(h, p)
  {
    var hash := BubbleUp(h, p, p.targetHash);
    ok := hash == p.rootHash;
  }

  // ----- slicing -----

  predicate SliceInRange(p: Proof, newRoot: int, newTarget: int) {
    0 < newRoot <= p.log2RootSize && p.log2TargetSize <= newTarget <= newRoot
  }

  /** The part of a proof between two sizes: what `slice` must return. */
  function Sliced(h: Hasher, p: Proof, newRoot: nat, newTarget: nat): (s: Proof)
    requires p.Valid() && SliceInRange(p, newRoot, newTarget)
    ensures s.Valid() && s.log2RootSize == newRoot && s.log2TargetSize == newTarget
    ensures forall k: nat :: newTarget <= k < newRoot ==> s.Sibling(k) == p.Sibling(k)
  {
    Proof(Shl(Shr(p.targetAddress, newTarget), newTarget), newTarget,
          Climb(h, p, p.targetHash, p.log2TargetSize, newTarget), newRoot,
          Climb(h, p, p.targetHash, p.log2TargetSize, newRoot),
          p.siblings[p.log2RootSize - newRoot .. p.log2RootSize - newTarget])
  }

  /** `slice`: it fails exactly on its range errors; the final self-check, which would raise
      `LogicError`, never fails, whether or not the input proof verifies. */
  method Slice(h: Hasher, p: Proof, newRoot: int, newTarget: int) returns (r: Result<Proof>)
    requires p.Valid()
    ensures SliceInRange(p, newRoot, newTarget) ==> r == Ok(Sliced(h, p, newRoot, newTarget)) && Verifies(h, r.value)
    ensures !SliceInRange(p, newRoot, newTarget) ==> r == Err(OutOfRange)
  {
    if newRoot <= 0 { return Err(OutOfRange); }
    if newTarget < 0 { return Err(OutOfRange); }
    if newTarget > newRoot { return Err(OutOfRange); }
    if newRoot > p.log2RootSize { return Err(OutOfRange); }
    if newTarget < p.log2TargetSize { return Err(OutOfRange); }
    var sliced := NewProof(newRoot, newTarget).value;
    var hash := p.targetHash;
    var k: nat := p.log2TargetSize;
    while k < newTarget
      invariant p.log2TargetSize <= k <= newTarget
      invariant hash == Climb(h, p, p.targetHash, p.log2TargetSize, k)
    {
      MaskTestsBit(p.targetAddress, k);
      if And(p.targetAddress, Pow2(k)) != 0 {
        hash := h.concat(p.Sibling(k), hash);
      } else {
        hash := h.concat(hash, p.Sibling(k));
      }
      k := k + 1;
    }
    sliced := sliced.(targetHash := hash);
    k := newTarget;
    while k < newRoot
      invariant newTarget <= k <= newRoot
      invariant hash == Climb(h, p, p.targetHash, p.log2TargetSize, k)
      invariant sliced.Valid() && sliced.log2RootSize == newRoot && sliced.log2TargetSize == newTarget
      invariant sliced.targetHash == Climb(h, p, p.targetHash, p.log2TargetSize, newTarget)
      invariant forall j: nat :: newTarget <= j < k ==> sliced.Sibling(j) == p.Sibling(j)
    {
      MaskTestsBit(p.targetAddress, k);
      var sibling := p.Sibling(k);
      if And(p.targetAddress, Pow2(k)) != 0 {
        hash := h.concat(sibling, hash);
      } else {
        hash := h.concat(hash, sibling);
      }
      sliced := SetSibling(sliced, sibling, k).value;
      k := k + 1;
    }
    sliced := sliced.(rootHash := hash);
    sliced := sliced.(targetAddress := Shl(Shr(p.targetAddress, newTarget), newTarget));
    SameShape(sliced, Sliced(h, p, newRoot, newTarget));
    SliceVerifies(h, p, newRoot, newTarget);
    var ok := Verify(h, sliced);
    if !ok { return Err(LogicError); }
    return Ok(sliced);
  }

  /** Proofs of one shape are equal when their fields and their siblings level by level are. */
  lemma SameShape(p: Proof, q: Proof)
    requires p.Valid() && q.Valid()
    requires p.log2RootSize == q.log2RootSize && p.log2TargetSize == q.log2TargetSize
    requires p.targetAddress == q.targetAddress && p.targetHash == q.targetHash && p.rootHash == q.rootHash
    requires forall k: nat :: p.log2TargetSize <= k < p.log2RootSize ==> p.Sibling(k) == q.Sibling(k)
    ensures p == q
  {
    forall j | 0 <= j < |p.siblings| ensures p.siblings[j] == q.siblings[j] {
      var k: nat := p.log2RootSize - 1 - j;
      assert p.Sibling(k) == q.Sibling(k);
    }
  }

  /** Two proofs that agree on siblings and address bits between two levels climb alike there. */
  lemma {:induction false} ClimbAgrees(h: Hasher, p: Proof, q: Proof, hash: Hash, lo: nat, k: nat)
    requires p.Valid() && q.Valid()
    requires p.log2TargetSize <= lo <= k <= p.log2RootSize && q.log2TargetSize <= lo && k <= q.log2RootSize
    requires forall j: nat :: lo <= j < k ==> p.Sibling(j) == q.Sibling(j) && (Bit(p.targetAddress, j) <==> Bit(q.targetAddress, j))
    ensures Climb(h, p, hash, lo, k) == Climb(h, q, hash, lo, k)
    decreases k
  {
    if k > lo { ClimbAgrees(h, p, q, hash, lo, k - 1); }
  }

  lemma {:induction false} ClimbInTwoLegs(h: Hasher, p: Proof, hash: Hash, lo: nat, mid: nat, k: nat)
    requires p.Valid() && p.log2TargetSize <= lo <= mid <= k <= p.log2RootSize
    ensures Climb(h, p, Climb(h, p, hash, lo, mid), mid, k) == Climb(h, p, hash, lo, k)
    decreases k
  {
    if k > mid { ClimbInTwoLegs(h, p, hash, lo, mid, k - 1); }
  }

  /** Clearing the bits below `lo` leaves the bits from `lo` up alone. */
  lemma ClearedBits(a: nat, lo: nat, j: nat)
    requires lo <= j
    ensures Shr(Shl(Shr(a, lo), lo), j) == Shr(a, j)
  {
    ShrShl(Shr(a, lo), lo);
    ShrShr(Shl(Shr(a, lo), lo), lo, j - lo);
    ShrShr(a, lo, j - lo);
  }

  lemma SlicedClimbs(h: Hasher, p: Proof, newRoot: nat, newTarget: nat, hash: Hash, lo: nat, k: nat)
    requires p.Valid() && SliceInRange(p, newRoot, newTarget)
    requires newTarget <= lo <= k <= newRoot
    ensures Climb(h, Sliced(h, p, newRoot, newTarget), hash, lo, k) == Climb(h, p, hash, lo, k)
  {
    var s := Sliced(h, p, newRoot, newTarget);
    forall j: nat | lo <= j < k ensures Bit(s.targetAddress, j) <==> Bit(p.targetAddress, j) {
      ClearedBits(p.targetAddress, newTarget, j);
    }
    ClimbAgrees(h, s, p, hash, lo, k);
  }

  /** A slice always verifies, even the slice of a proof that does not. */
  lemma SliceVerifies(h: Hasher, p: Proof, newRoot: nat, newTarget: nat)
    requires p.Valid() && SliceInRange(p, newRoot, newTarget)
    ensures Verifies(h, Sliced(h, p, newRoot, newTarget))
  {
    var s := Sliced(h, p, newRoot, newTarget);
    SlicedClimbs(h, p, newRoot, newTarget, s.targetHash, newTarget, newRoot);
    ClimbInTwoLegs(h, p, p.targetHash, p.log2TargetSize, newTarget, newRoot);
  }

  /** Slicing a slice is slicing once to the inner bounds. */
  lemma SliceOfSlice(h: Hasher, p: Proof, root1: nat, target1: nat, root2: nat, target2: nat)
    requires p.Valid() && SliceInRange(p, root1, target1)
    requires SliceInRange(Sliced(h, p, root1, target1), root2, target2)
    ensures SliceInRange(p, root2, target2)
    ensures Sliced(h, Sliced(h, p, root1, target1), root2, target2) == Sliced(h, p, root2, target2)
  {
    var s := Sliced(h, p, root1, target1);
    SlicedClimbs(h, p, root1, target1, s.targetHash, target1, target2);
    SlicedClimbs(h, p, root1, target1, s.targetHash, target1, root2);
    ClimbInTwoLegs(h, p, p.targetHash, p.log2TargetSize, target1, target2);
    ClimbInTwoLegs(h, p, p.targetHash, p.log2TargetSize, target1, root2);
    ClearedBits(p.targetAddress, target1, target2);
    SameShape(Sliced(h, s, root2, target2), Sliced(h, p, root2, target2));
  }

  /** Slicing to the full extent is the identity on the proofs that verify at an aligned
      address, and on no others. */
  lemma FullSliceIff(h: Hasher, p: Proof)
    requires p.Valid()
    ensures Sliced(h, p, p.log2RootSize, p.log2TargetSize) == p <==>
            Verifies(h, p) && Shl(Shr(p.targetAddress, p.log2TargetSize), p.log2TargetSize) == p.targetAddress
  {
    var s := Sliced(h, p, p.log2RootSize, p.log2TargetSize);
    if Verifies(h, p) && Shl(Shr(p.targetAddress, p.log2TargetSize), p.log2TargetSize) == p.targetAddress {
      SameShape(s, p);
    }
  }

  // ----- binding -----

  /** The two hashes laid side by side at level k of the climb, left first. */
  function Hashed(h: Hasher, p: Proof, k: nat): (Hash, Hash)
    requires p.Valid() && p.log2TargetSize <= k < p.log2RootSize
  {
    var hash := Climb(h, p, p.targetHash, p.log2TargetSize, k);
    if Bit(p.targetAddress, k) then (p.Sibling(k), hash) else (hash, p.Sibling(k))
  }

  /** At level k the climbs hash two different pairs to the same hash. */
  predicate CollideAt(h: Hasher, p: Proof, q: Proof, k: nat)
    requires SamePlace(p, q) && p.log2TargetSize <= k < p.log2RootSize
  {
    var (a, b), (c, d) := Hashed(h, p, k), Hashed(h, q, k);
    (a, b) != (c, d) && h.concat(a, b) == h.concat(c, d)
  }

  /** Two proofs about the same node of trees of the same size. */
  predicate SamePlace(p: Proof, q: Proof) {
    && p.Valid() && q.Valid() && p.targetAddress == q.targetAddress
    && p.log2RootSize == q.log2RootSize && p.log2TargetSize == q.log2TargetSize
  }

  /** Climbs that meet at level k and do not hash the same below it collide at a level below it. */
  lemma {:induction false} FindCollision(h: Hasher, p: Proof, q: Proof, k: nat) returns (j: nat)
    requires SamePlace(p, q) && p.log2TargetSize <= k <= p.log2RootSize
    requires Climb(h, p, p.targetHash, p.log2TargetSize, k) == Climb(h, q, q.targetHash, p.log2TargetSize, k)
    requires p.targetHash != q.targetHash || exists i: nat :: p.log2TargetSize <= i < k && p.Sibling(i) != q.Sibling(i)
    ensures p.log2TargetSize <= j < k && CollideAt(h, p, q, j)
    decreases k
  {
    if Hashed(h, p, k - 1) != Hashed(h, q, k - 1) {
      j := k - 1;
    } else {
      assert p.Sibling(k - 1) == q.Sibling(k - 1);
      j := FindCollision(h, p, q, k - 1);
    }
  }

  /** Binding, for any hash function: of two different proofs of one place under one root that both
      verify, this is a level at which their climbs collide. */
  lemma ProofBinding(h: Hasher, p: Proof, q: Proof) returns (level: nat)
    requires SamePlace(p, q) && p.rootHash == q.rootHash && Verifies(h, p) && Verifies(h, q) && p != q
    ensures p.log2TargetSize <= level < p.log2RootSize && CollideAt(h, p, q, level)
  {
    if p.targetHash == q.targetHash && (forall i: nat :: p.log2TargetSize <= i < p.log2RootSize ==> p.Sibling(i) == q.Sibling(i)) {
      SameShape(p, q);
    }
    level := FindCollision(h, p, q, p.log2RootSize);
  }

  /** So a root leaves room for a second proof of one place exactly if their climbs collide. */
  lemma OneProofIff(h: Hasher, p: Proof, q: Proof)
    requires SamePlace(p, q) && p.rootHash == q.rootHash && Verifies(h, p) && Verifies(h, q)
    ensures p == q <==> forall k: nat :: p.log2TargetSize <= k < p.log2RootSize ==> !CollideAt(h, p, q, k)
  {
    if p != q {
      var level := ProofBinding(h, p, q);
    }
  }

  // ----- proofs of the simple tree -----

  /** The siblings from level hi - 1 down to level lo on the path over `address`. */
  function PathSiblings(h: Hasher, base: Hash, leaves: seq<Hash>, log2Leaf: nat,
                        lo: nat, hi: nat, address: nat): (s: seq<Hash>)
    requires log2Leaf <= lo <= hi
    ensures |s| == hi - lo
    decreases hi
  {
    if hi == lo then []
    else [Node(h, base, leaves, hi - 1 - log2Leaf, Buddy(Shr(address, hi - 1)))]
         + PathSiblings(h, base, leaves, log2Leaf, lo, hi - 1, address)
  }

  lemma {:induction false} PathSiblingAt(h: Hasher, base: Hash, leaves: seq<Hash>, log2Leaf: nat,
                                         lo: nat, hi: nat, address: nat, k: nat)
    requires log2Leaf <= lo <= k < hi
    ensures PathSiblings(h, base, leaves, log2Leaf, lo, hi, address)[hi - 1 - k] ==
            Node(h, base, leaves, k - log2Leaf, Buddy(Shr(address, k)))
    decreases hi
  {
    if k < hi - 1 {
      PathSiblingAt(h, base, leaves, log2Leaf, lo, hi - 1, address, k);
    }
  }

  /** The proof of the node of size 2^log2Target at `address` in the tree over `leaves` of
      size 2^log2Leaf, under a root of size 2^log2Root. */
  function PathProof(h: Hasher, base: Hash, leaves: seq<Hash>, log2Leaf: nat,
                     log2Root: nat, log2Target: nat, address: nat): (p: Proof)
    requires log2Leaf <= log2Target <= log2Root && log2Root > 0
    ensures p.Valid() && p.log2RootSize == log2Root && p.log2TargetSize == log2Target && p.targetAddress == address
  {
    Proof(address, log2Target, Node(h, base, leaves, log2Target - log2Leaf, Shr(address, log2Target)),
          log2Root, Node(h, base, leaves, log2Root - log2Leaf, 0),
          PathSiblings(h, base, leaves, log2Leaf, log2Target, log2Root, address))
  }

  /** Climbing a tree's proof with another target hash visits the nodes of the tree in which
      the target has been overwritten. */
  lemma {:induction false} PathProofClimbsReplaced(
    h: Hasher, base: Hash, leaves: seq<Hash>, log2Leaf: nat, log2Root: nat, log2Target: nat,
    address: nat, newHash: Hash, k: nat)
    requires log2Leaf <= log2Target <= log2Root && log2Root > 0
    requires log2Target <= k <= log2Root
    ensures Climb(h, PathProof(h, base, leaves, log2Leaf, log2Root, log2Target, address), newHash, log2Target, k)
         == NodeReplaced(h, base, leaves, log2Target - log2Leaf, Shr(address, log2Target), newHash, k - log2Leaf, Shr(address, k))
    decreases k
  {
    if k > log2Target {
      PathProofClimbsReplaced(h, base, leaves, log2Leaf, log2Root, log2Target, address, newHash, k - 1);
      PathSiblingAt(h, base, leaves, log2Leaf, log2Target, log2Root, address, k - 1);
      var i := Shr(address, k - 1);
      assert Shr(address, k) == i / 2;
      ShrShr(address, log2Target, k - 1 - log2Target);
      ReplacementIsLocal(h, base, leaves, log2Target - log2Leaf, Shr(address, log2Target), newHash, k - 1 - log2Leaf, Buddy(i));
      assert i == 2 * (i / 2) || i == 2 * (i / 2) + 1;
    }
  }

  /** The replacement of a node by itself changes nothing. */
  lemma {:induction false} ReplaceBySelf(h: Hasher, base: Hash, leaves: seq<Hash>, k0: nat, i0: nat, k: nat, i: nat)
    ensures NodeReplaced(h, base, leaves, k0, i0, Node(h, base, leaves, k0, i0), k, i) == Node(h, base, leaves, k, i)
    decreases k
  {
    if k > 0 {
      ReplaceBySelf(h, base, leaves, k0, i0, k - 1, 2 * i);
      ReplaceBySelf(h, base, leaves, k0, i0, k - 1, 2 * i + 1);
    }
  }

  /** Climbing a tree's own proof visits the tree's own nodes. */
  lemma PathProofClimbs(h: Hasher, base: Hash, leaves: seq<Hash>, log2Leaf: nat, log2Root: nat, log2Target: nat,
                        address: nat, k: nat)
    requires log2Leaf <= log2Target <= k <= log2Root && log2Root > 0
    ensures var p := PathProof(h, base, leaves, log2Leaf, log2Root, log2Target, address);
            Climb(h, p, p.targetHash, log2Target, k) == Node(h, base, leaves, k - log2Leaf, Shr(address, k))
  {
    var newHash := Node(h, base, leaves, log2Target - log2Leaf, Shr(address, log2Target));
    PathProofClimbsReplaced(h, base, leaves, log2Leaf, log2Root, log2Target, address, newHash, k);
    ReplaceBySelf(h, base, leaves, log2Target - log2Leaf, Shr(address, log2Target), k - log2Leaf, Shr(address, k));
  }

  /** The proof of any in-range node verifies, and bubbling another hash up it gives the root
      of the tree with that node overwritten. */
  lemma PathProofSound(h: Hasher, base: Hash, leaves: seq<Hash>, log2Leaf: nat, log2Root: nat, log2Target: nat,
                       address: nat, newHash: Hash)
    requires log2Leaf <= log2Target <= log2Root && log2Root > 0
    requires address < Pow2(log2Root)
    ensures var p := PathProof(h, base, leaves, log2Leaf, log2Root, log2Target, address);
            && Verifies(h, p)
            && Climb(h, p, newHash, log2Target, log2Root) ==
               NodeReplaced(h, base, leaves, log2Target - log2Leaf, Shr(address, log2Target), newHash, log2Root - log2Leaf, 0)
  {
    ShrZero(address, log2Root);
    PathProofClimbs(h, base, leaves, log2Leaf, log2Root, log2Target, address, log2Root);
    PathProofClimbsReplaced(h, base, leaves, log2Leaf, log2Root, log2Target, address, newHash, log2Root);
  }

  /** Slicing a tree's proof gives a subtree's proof: its target hash, its root hash and its
      siblings are nodes of the tree, while the target address keeps its high bits. */
  lemma SliceOfPathProof(h: Hasher, base: Hash, leaves: seq<Hash>, log2Leaf: nat, log2Root: nat, log2Target: nat,
                         address: nat, newRoot: nat, newTarget: nat)
    requires log2Leaf <= log2Target <= newTarget <= newRoot <= log2Root && newRoot > 0
    ensures var p := PathProof(h, base, leaves, log2Leaf, log2Root, log2Target, address);
            var s := Sliced(h, p, newRoot, newTarget);
            && s.targetHash == Node(h, base, leaves, newTarget - log2Leaf, Shr(address, newTarget))
            && s.rootHash == Node(h, base, leaves, newRoot - log2Leaf, Shr(address, newRoot))
            && s.targetAddress == Shl(Shr(address, newTarget), newTarget)
            && forall k: nat :: newTarget <= k < newRoot ==>
                 s.Sibling(k) == Node(h, base, leaves, k - log2Leaf, Buddy(Shr(address, k)))
  {
    PathProofClimbs(h, base, leaves, log2Leaf, log2Root, log2Target, address, newTarget);
    PathProofClimbs(h, base, leaves, log2Leaf, log2Root, log2Target, address, newRoot);
    forall k: nat | newTarget <= k < newRoot
      ensures Sliced(h, PathProof(h, base, leaves, log2Leaf, log2Root, log2Target, address), newRoot, newTarget).Sibling(k)
           == Node(h, base, leaves, k - log2Leaf, Buddy(Shr(address, k)))
    {
      PathSiblingAt(h, base, leaves, log2Leaf, log2Target, log2Root, address, k);
    }
  }
}
