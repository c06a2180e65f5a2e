/** The remote machine as the manager sees it: memory with its Merkle tree, a cycle count, the
    yield and halt flags, and an unspecified `run`. */
module RemoteMachine {
  import opened Bits
  import opened Hashing
  import opened MerkleSpec
  import opened MerkleTreeProof
  import opened Abi

  /** `memory` is followed by zeros up to the end of the address space; `rest` stands for the
      registers the manager never looks at. */
  datatype Machine = Machine(memory: seq<Byte>, mcycle: nat, iflagsY: bool, iflagsX: bool, iflagsH: bool,
                             tohost: nat, fromhost: nat, rest: seq<nat>)

  predicate Flagged(m: Machine) {
    m.iflagsY || m.iflagsX || m.iflagsH
  }

  type Run = (Machine, nat) -> Machine

  /** A run stops at its limit, at a yield or at a halt, and the cycle count does not fall. */
  ghost predicate StopsAndCounts(run: Run) {
    && (forall m: Machine, limit: nat :: Flagged(run(m, limit)) || run(m, limit).mcycle >= limit)
    && (forall m: Machine, limit: nat :: run(m, limit).mcycle >= m.mcycle)
  }

  /** The machine is deterministic: a run cut short by a smaller limit can be taken up again, a
      run that stopped by itself would have stopped there under any larger limit, and a run to a
      limit already reached does nothing (src/server-manager.cpp:1698 relies on that too). */
  ghost predicate Resumes(run: Run) {
    && (forall m: Machine, a: nat, b: nat {:trigger run(m, a), run(m, b)} | a <= b ::
          run(m, b) == if Flagged(run(m, a)) then run(m, a) else run(run(m, a), b))
    && (forall m: Machine, limit: nat {:trigger run(m, limit)} | !Flagged(m) && limit <= m.mcycle :: run(m, limit) == m)
  }

  /** A machine that accepts everything one cycle after it is started. */
  function Acceptor(m: Machine, limit: nat): Machine {
    if m.iflagsY || m.iflagsH || (!m.iflagsX && limit <= m.mcycle) then m
    else m.(mcycle := m.mcycle + 1, iflagsX := false, iflagsY := true, tohost := RX_ACCEPTED * 0x1_0000_0000)
  }

  /** Both hypotheses on `run` can be met at once. */
  lemma SomeMachineRuns()
    ensures StopsAndCounts(Acceptor) && Resumes(Acceptor)
  {
  }

  // ----- run_machine -----

  function Min(a: nat, b: nat): nat {
    if a < b then a else b
  }

  /** 64-bit addition. */
  function Add64(a: nat, b: nat): nat {
    (a + b) % UINT64_LIMIT
  }

  function NextLimit(from: nat, increment: nat, max: nat): nat {
    Min(Add64(from, increment), max)
  }

  /** When the 64-bit sums let the limits advance: with an increment, and no wrap up to the maximum.
      Otherwise a limit is followed by one no larger, and a machine that has not stopped by itself
      is sent back to a limit it has already reached. */
  lemma LimitsAdvanceIff(increment: Uint64, max: Uint64)
    requires max > 0
    ensures (forall limit: nat :: limit < max ==> limit < NextLimit(limit, increment, max))
            <==> 0 < increment && max - 1 + increment < UINT64_LIMIT
  {
    if forall limit: nat :: limit < max ==> limit < NextLimit(limit, increment, max) {
      assert max - 1 < NextLimit(max - 1, increment, max);
    }
  }

  /** The condition on which `run_machine` returns the response. */
  predicate RunIsOver(m: Machine, max: nat) {
    m.iflagsY || m.iflagsX || m.iflagsH || m.mcycle >= max
  }

  datatype RunOutcome = Stopped | DeadlineExpired | RunFailed

  /** One Run request after another. */
  function Through(run: Run, m: Machine, limits: seq<nat>): Machine {
    if limits == [] then m else run(Through(run, m, limits[..|limits| - 1]), limits[|limits| - 1])
  }

  /** The limits of the requests: the first is one increment on, each next one more, up to the maximum. */
  ghost predicate Chunks(limits: seq<nat>, current: nat, increment: nat, max: nat) {
    && (limits != [] ==> limits[0] == Min(current + increment, max))
    && forall i: nat :: i < |limits| - 1 ==> limits[i + 1] == Min(limits[i] + increment, max)
  }

  /** The first n requests were answered in time, by a machine that is not over. */
  ghost predicate WentOn(run: Run, start: Machine, limits: seq<nat>, max: nat, fails: nat -> bool, late: nat -> bool, n: nat)
    requires n <= |limits|
  {
    forall i: nat :: i < n ==> WentOnAt(run, start, limits, max, fails, late, i)
  }

  predicate WentOnAt(run: Run, start: Machine, limits: seq<nat>, max: nat, fails: nat -> bool, late: nat -> bool, i: nat)
    requires i < |limits|
  {
    !fails(i) && !late(i) && !RunIsOver(Through(run, start, limits[..i + 1]), max)
  }

  lemma GoesOn(run: Run, start: Machine, limits: seq<nat>, max: nat, fails: nat -> bool, late: nat -> bool, limit: nat)
    requires WentOn(run, start, limits, max, fails, late, |limits|)
    ensures WentOn(run, start, limits + [limit], max, fails, late, |limits|)
    ensures Through(run, start, limits + [limit]) == run(Through(run, start, limits), limit)
  {
    var more := limits + [limit];
    assert more[..|limits|] == limits;
    forall i: nat | i < |limits| ensures WentOnAt(run, start, more, max, fails, late, i) {
      assert WentOnAt(run, start, limits, max, fails, late, i);
      assert more[..i + 1] == limits[..i + 1];
    }
  }

  lemma WentOneOn(run: Run, start: Machine, limits: seq<nat>, max: nat, fails: nat -> bool, late: nat -> bool)
    requires limits != [] && WentOn(run, start, limits, max, fails, late, |limits| - 1)
    requires !fails(|limits| - 1) && !late(|limits| - 1) && !RunIsOver(Through(run, start, limits), max)
    ensures WentOn(run, start, limits, max, fails, late, |limits|)
  {
    assert limits[..|limits| - 1 + 1] == limits;
    assert WentOnAt(run, start, limits, max, fails, late, |limits| - 1);
  }

  /** One request on the way to `max`. */
  lemma OneChunk(run: Run, m: Machine, limit: nat, max: nat)
    requires StopsAndCounts(run) && Resumes(run) && limit <= max
    ensures var next := run(m, limit);
            if RunIsOver(next, max) then next == run(m, max) else run(next, max) == run(m, max) && limit <= next.mcycle < max
  {
    var next := run(m, limit);
    assert run(m, max) == if Flagged(next) then next else run(next, max);
    if RunIsOver(next, max) && !Flagged(next) { StoppedAtMaximum(run, m, limit, max); }
  }

  lemma OneMore(limits: seq<nat>, current: nat, increment: nat, max: nat, limit: nat)
    requires Chunks(limits, current, increment, max)
    requires limit == Min((if limits == [] then current else limits[|limits| - 1]) + increment, max)
    ensures Chunks(limits + [limit], current, increment, max)
  {
  }

  /** `run_machine`: the run up to `max` cycles in increments.  `fails(i)` and `late(i)` are the
      outside world: the i-th request failing, the deadline having passed after it.
      It ends at the first request that fails, stops the machine, or finds the deadline passed.
      The limits sent strictly increase and never exceed the maximum, the loop ends, and the
      increments leave no trace: a machine that stopped is in the state one single run up to the
      maximum would have reached, and a machine cut off by the deadline is on its way there. */
  method RunMachine(run: Run, start: Machine, current: nat, increment: nat, max: nat,
                    fails: nat -> bool, late: nat -> bool)
    returns (outcome: RunOutcome, m: Machine, limits: seq<nat>)
    requires StopsAndCounts(run) && Resumes(run)
    requires 0 < increment && current <= max && max + increment < UINT64_LIMIT
    ensures |limits| > 0 && Chunks(limits, current, increment, max)
    ensures forall i, j :: 0 <= i < j < |limits| ==> limits[i] < limits[j]
    ensures forall i :: 0 <= i < |limits| ==> limits[i] <= max
    ensures WentOn(run, start, limits, max, fails, late, |limits| - 1)
    ensures outcome.RunFailed? <==> fails(|limits| - 1)
    ensures outcome.Stopped? <==> !fails(|limits| - 1) && RunIsOver(Through(run, start, limits), max)
    ensures outcome.DeadlineExpired? <==> !fails(|limits| - 1) && !RunIsOver(Through(run, start, limits), max) && late(|limits| - 1)
    ensures m == Through(run, start, if outcome.RunFailed? then limits[..|limits| - 1] else limits)
    ensures outcome.Stopped? ==> RunIsOver(m, max) && m == run(start, max)
    ensures outcome.DeadlineExpired? ==> !RunIsOver(m, max) && run(m, max) == run(start, max)
    ensures outcome.RunFailed? ==> run(m, max) == run(start, max)
  {
    hide WentOn, Through, Resumes, StopsAndCounts, Chunks;
    var limit := NextLimit(current, increment, max);
    m := start;
    limits := [];
    NothingSent(run, start, current, increment, max, fails, late);
    while true
      invariant limit <= max && (forall a :: 0 <= a < |limits| ==> limits[a] < limit)
      invariant forall a, b :: 0 <= a < b < |limits| ==> limits[a] < limits[b]
      invariant limit == Min((if limits == [] then current else limits[|limits| - 1]) + increment, max)
      invariant Chunks(limits, current, increment, max)
      invariant run(m, max) == run(start, max) && m == Through(run, start, limits)
      invariant WentOn(run, start, limits, max, fails, late, |limits|)
      decreases max - limit
    {
      var i := |limits|;
      GoesOn(run, start, limits, max, fails, late, limit);
      OneChunk(run, m, limit, max);
      OneMore(limits, current, increment, max, limit);
      ghost var before := limits;
      limits := limits + [limit];
      assert limits[..i] == before;
      if fails(i) { return RunFailed, m, limits; }
      var stopped := run(m, limit);
      if RunIsOver(stopped, max) { return Stopped, stopped, limits; }
      m := stopped;
      if late(i) { return DeadlineExpired, m, limits; }
      WentOneOn(run, start, limits, max, fails, late);
      limit := NextLimit(limit, increment, max);
    }
  }

  lemma NothingSent(run: Run, start: Machine, current: nat, increment: nat, max: nat, fails: nat -> bool, late: nat -> bool)
    ensures Chunks([], current, increment, max)
    ensures WentOn(run, start, [], max, fails, late, 0) && Through(run, start, []) == start
  {
  }

  /** An unflagged stop at or beyond `max` under a limit of at most `max` is a run to `max`. */
  lemma StoppedAtMaximum(run: Run, m: Machine, limit: nat, max: nat)
    requires StopsAndCounts(run) && Resumes(run) && limit <= max
    requires !Flagged(run(m, limit)) && run(m, limit).mcycle >= max
    ensures run(m, limit) == run(m, max)
  {
    assert run(m, max) == run(run(m, limit), max);
  }

  // ----- memory ranges -----

  /** `memory_range_description_type` */
  datatype Range = Range(start: nat, length: nat, log2Size: nat)

  /** `check_memory_range_config`: what a range that passes the checks is like. */
  function CheckMemoryRange(shared: bool, start: Uint64, length: Uint64): (r: Result<Range>)
    ensures r.Ok? <==> !shared && IsPowerOfTwo(length) && Shl(Shr(start, Ilog2(length)), Ilog2(length)) == start
    ensures r.Ok? ==> r.value.start == start && r.value.length == length == Pow2(r.value.log2Size)
    ensures r.Ok? ==> Shl(Shr(start, r.value.log2Size), r.value.log2Size) == start
    ensures r.Err? ==> r.error == if shared then InvalidArgument else OutOfRange
  {
    if shared then Err(InvalidArgument)
    else if !IsPowerOfTwo(length) then Err(OutOfRange)
    else
      var log2Size := Ilog2(length);
      PowerOfTwoIff(length);
      var alignedStart := Shl(Shr(start, log2Size), log2Size);
      if start != alignedStart then Err(OutOfRange) else Ok(Range(start, length, log2Size))
  }

  /** A checked range lies in the 64-bit address space. */
  predicate RangeOk(r: Range) {
    && r.log2Size < 64 && r.length == Pow2(r.log2Size)
    && Shl(Shr(r.start, r.log2Size), r.log2Size) == r.start
    && r.start < UINT64_LIMIT
  }

  lemma {:induction false} Ilog2Bound(v: nat, k: nat)
    requires 0 < v < Pow2(k)
    ensures Ilog2(v) < k
  {
    if v > 1 {
      Pow2Half(k);
      Ilog2Bound(v / 2, k - 1);
    }
  }

  lemma CheckedRangeIsOk(start: Uint64, length: Uint64)
    ensures CheckMemoryRange(false, start, length).Ok? ==> RangeOk(CheckMemoryRange(false, start, length).value)
  {
    Pow2Values();
    if length > 0 { Ilog2Bound(length, 64); }
  }

  function ByteAt(memory: seq<Byte>, a: nat): Byte {
    if a < |memory| then memory[a] else 0
  }

  /** What reading `length` bytes at `start` returns. */
  function ReadBytes(memory: seq<Byte>, start: nat, length: nat): (s: seq<Byte>)
    ensures |s| == length && forall j: nat :: j < length ==> s[j] == ByteAt(memory, start + j)
  {
    seq<Byte>(length, (j: nat) => ByteAt(memory, start + j))
  }

  /** Memory after writing `data` at `at`. */
  function WriteBytes(memory: seq<Byte>, at: nat, data: seq<Byte>): (s: seq<Byte>)
    ensures ReadBytes(s, at, |data|) == data
  {
    var padded := if |memory| < at + |data| then memory + ZeroBytes(at + |data| - |memory|) else memory;
    padded[..at] + data + padded[at + |data|..]
  }

  function ClearRange(memory: seq<Byte>, r: Range): seq<Byte> {
    WriteBytes(memory, r.start, ZeroBytes(r.length))
  }

  /** `htif_replace_data_field`: the low 48 bits replaced. */
  function HtifReplaceDataField(reg: nat, data: nat): nat {
    reg - reg % 0x1_0000_0000_0000 + data % 0x1_0000_0000_0000
  }

  /** `tohost << 16 >> 48` on 64 bits: bits 32 to 47. */
  function YieldReason(tohost: nat): nat {
    (tohost / 0x1_0000_0000) % 0x1_0000
  }

  /** On 64 bits the two shifts of the code pick out those bits. */
  lemma YieldReasonIsShifted(tohost: Uint64)
    ensures YieldReason(tohost) == (tohost * 0x1_0000 % UINT64_LIMIT) / 0x1_0000_0000_0000
  {
    var high, low := tohost / 0x1_0000_0000_0000, tohost % 0x1_0000_0000_0000;
    assert tohost * 0x1_0000 == high * UINT64_LIMIT + low * 0x1_0000;
    assert tohost * 0x1_0000 % UINT64_LIMIT == low * 0x1_0000;
    assert tohost / 0x1_0000_0000 == high * 0x1_0000 + low / 0x1_0000_0000;
  }

  const RX_ACCEPTED: nat := 1
  const RX_REJECTED: nat := 2
  const TX_VOUCHER: nat := 3
  const TX_NOTICE: nat := 4
  const TX_REPORT: nat := 5
  const TX_EXCEPTION: nat := 6

  // ----- the machine's Merkle tree -----

  const LOG2_WORD_SIZE: nat := 3
  const LOG2_KECCAK_SIZE: nat := 5

  function MachineBase(h: Hasher): Hash {
    h.data(ZeroBytes(8))
  }

  /** Hashes of the 8-byte words that memory touches. */
  function WordHashes(h: Hasher, memory: seq<Byte>): (s: seq<Hash>)
    ensures |s| == (|memory| + 7) / 8
    ensures forall i: nat :: i < |s| ==> s[i] == h.data(ReadBytes(memory, 8 * i, 8))
  {
    seq<Hash>((|memory| + 7) / 8, (i: nat) => h.data(ReadBytes(memory, 8 * i, 8)))
  }

  function MemoryNode(h: Hasher, m: Machine, log2Size: nat, address: nat): Hash
    requires LOG2_WORD_SIZE <= log2Size
  {
    Node(h, MachineBase(h), WordHashes(h, m.memory), log2Size - 3, Shr(address, log2Size))
  }

  function MachineRootHash(h: Hasher, m: Machine, root: nat): Hash
    requires root >= 3
  {
    Node(h, MachineBase(h), WordHashes(h, m.memory), root - 3, 0)
  }

  /** An honest answer to GetProof, from a machine whose tree spans 2^root bytes (the real one
      has root 64; nothing depends on the number). */
  function MemoryProof(h: Hasher, m: Machine, root: nat, address: nat, log2Size: nat): (p: Proof)
    requires 3 <= log2Size <= root
    ensures p.Valid() && p.log2RootSize == root && p.log2TargetSize == log2Size
  {
    PathProof(h, MachineBase(h), WordHashes(h, m.memory), 3, root, log2Size, address)
  }

  /** The Merkle hash of a 32-byte entry: that of its four words. */
  function EntryHash(h: Hasher, e: seq<Byte>): Hash
    requires |e| == 32
  {
    h.concat(h.concat(h.data(e[0..8]), h.data(e[8..16])), h.concat(h.data(e[16..24]), h.data(e[24..32])))
  }

  lemma WordLeaf(h: Hasher, memory: seq<Byte>, i: nat)
    ensures LeafAt(MachineBase(h), WordHashes(h, memory), i) == h.data(ReadBytes(memory, 8 * i, 8))
  {
    if i >= |WordHashes(h, memory)| {
      assert ReadBytes(memory, 8 * i, 8) == ZeroBytes(8);
    }
  }

  /** The tree's node over 32 aligned bytes is the hash of the bytes read there. */
  lemma EntryNode(h: Hasher, memory: seq<Byte>, i: nat)
    ensures Node(h, MachineBase(h), WordHashes(h, memory), 2, i) == EntryHash(h, ReadBytes(memory, 32 * i, 32))
  {
    var e := ReadBytes(memory, 32 * i, 32);
    WordLeaf(h, memory, 4 * i);
    WordLeaf(h, memory, 4 * i + 1);
    WordLeaf(h, memory, 4 * i + 2);
    WordLeaf(h, memory, 4 * i + 3);
    assert ReadBytes(memory, 32 * i, 8) == e[0..8];
    assert ReadBytes(memory, 32 * i + 8, 8) == e[8..16];
    assert ReadBytes(memory, 32 * i + 16, 8) == e[16..24];
    assert ReadBytes(memory, 32 * i + 24, 8) == e[24..32];
    FourLeaves(h, MachineBase(h), WordHashes(h, memory), i);
  }

  lemma FourLeaves(h: Hasher, base: Hash, leaves: seq<Hash>, i: nat)
    ensures Node(h, base, leaves, 2, i) ==
            h.concat(h.concat(LeafAt(base, leaves, 4 * i), LeafAt(base, leaves, 4 * i + 1)),
                     h.concat(LeafAt(base, leaves, 4 * i + 2), LeafAt(base, leaves, 4 * i + 3)))
  {
    assert Node(h, base, leaves, 1, 2 * i) == h.concat(Node(h, base, leaves, 0, 4 * i), Node(h, base, leaves, 0, 4 * i + 1));
    assert Node(h, base, leaves, 1, 2 * i + 1) == h.concat(Node(h, base, leaves, 0, 4 * i + 2), Node(h, base, leaves, 0, 4 * i + 3));
  }

  /** Slicing an honest proof of the j-th entry of a checked range down to the range: it
      verifies, it leads from the hash of the bytes read there to the hash of the range, and
      its position inside the range is j entries from the start. */
  lemma EntryProofInRange(h: Hasher, m: Machine, root: nat, r: Range, j: nat, s: Proof)
    requires RangeOk(r) && 32 * j + 32 <= r.length && 5 <= r.log2Size <= root
    requires s == Sliced(h, MemoryProof(h, m, root, r.start + 32 * j, 5), r.log2Size, 5)
    ensures Verifies(h, s)
    ensures s.targetHash == EntryHash(h, Entry(ReadBytes(m.memory, r.start, r.length), j))
    ensures s.rootHash == MemoryNode(h, m, r.log2Size, r.start)
    ensures SameBits(s.targetAddress, Shl(j, 5), 5, r.log2Size)
  {
    hide Node, Climb, WordHashes, MachineBase, SameBits, EntryHash, RangeOk, ReadBytes;
    EntryNeedsRoom(r, j);
    EntryBits(r, j);
    EntryTarget(h, m, r, j);
    EntrySliceEnds(h, m, root, r, j, s);
    SliceVerifies(h, MemoryProof(h, m, root, r.start + 32 * j, 5), r.log2Size, 5);
  }

  lemma EntrySliceEnds(h: Hasher, m: Machine, root: nat, r: Range, j: nat, s: Proof)
    requires RangeOk(r) && 32 * j + 32 <= r.length && 5 <= r.log2Size <= root
    requires s == Sliced(h, MemoryProof(h, m, root, r.start + 32 * j, 5), r.log2Size, 5)
    ensures s.targetHash == MemoryNode(h, m, 5, r.start + 32 * j)
    ensures s.rootHash == MemoryNode(h, m, r.log2Size, r.start)
  {
    hide Node, Climb, PathProof, WordHashes, MachineBase;
    EntryAddress(r, j);
    SliceOfPathProof(h, MachineBase(h), WordHashes(h, m.memory), 3, root, 5, r.start + 32 * j, r.log2Size, 5);
  }

  ghost predicate SameBits(a: nat, b: nat, lo: nat, hi: nat) {
    forall k: nat :: lo <= k < hi ==> (Bit(a, k) <==> Bit(b, k))
  }

  lemma EntryBits(r: Range, j: nat)
    requires RangeOk(r) && 32 * j + 32 <= r.length
    ensures SameBits(Shl(Shr(r.start + 32 * j, 5), 5), Shl(j, 5), 5, r.log2Size)
  {
    EntryNeedsRoom(r, j);
    var address := r.start + 32 * j;
    var cleared := Shl(Shr(address, 5), 5);
    forall k: nat | 5 <= k < r.log2Size ensures Bit(cleared, k) <==> Bit(Shl(j, 5), k) {
      ClearedBits(address, 5, k);
      LowBits(r.start, Shl(j, 5), r.log2Size, k);
    }
  }

  lemma EntryTarget(h: Hasher, m: Machine, r: Range, j: nat)
    requires RangeOk(r) && 32 * j + 32 <= r.length
    ensures MemoryNode(h, m, 5, r.start + 32 * j) == EntryHash(h, Entry(ReadBytes(m.memory, r.start, r.length), j))
  {
    var address := r.start + 32 * j;
    EntryAddress(r, j);
    EntryNode(h, m.memory, Shr(address, 5));
    assert ReadBytes(m.memory, address, 32) == Entry(ReadBytes(m.memory, r.start, r.length), j);
  }

  lemma EntryNeedsRoom(r: Range, j: nat)
    requires RangeOk(r) && 32 * j + 32 <= r.length
    ensures r.log2Size >= 5 && Shl(j, 5) == 32 * j && Pow2(5) == 32
  {
    Pow2Values();
    ShlTimes(j, 5);
    assert Pow2(4) == 16;
    if r.log2Size < 5 { Pow2Monotone(r.log2Size, 4); }
  }

  lemma EntryAddress(r: Range, j: nat)
    requires RangeOk(r) && 32 * j + 32 <= r.length
    ensures r.log2Size >= 5
    ensures 32 * Shr(r.start + 32 * j, 5) == r.start + 32 * j
    ensures Shr(r.start + 32 * j, r.log2Size) == Shr(r.start, r.log2Size)
  {
    EntryNeedsRoom(r, j);
    AlignedLower(r.start, 5, r.log2Size);
    var q := Shr(r.start, 5);
    ShlTimes(q, 5);
    ShlAdd(q, j, 5);
    ShrShl(q + j, 5);
    ShrShlPlus(Shr(r.start, r.log2Size), 32 * j, r.log2Size);
  }

  /** Below the alignment of `a`, the bits of `a + b` are the bits of `b`. */
  lemma LowBits(a: nat, b: nat, n: nat, k: nat)
    requires Shl(Shr(a, n), n) == a && k < n
    ensures Bit(a + b, k) <==> Bit(b, k)
  {
    var q := Shr(a, n);
    ShlShl(q, n - k, k);
    var c := Shl(q, n - k);
    ShrBounds(b, k);
    ShlAdd(c, Shr(b, k), k);
    ShlAdd(c, Shr(b, k) + 1, k);
    ShrUnique(a + b, k, c + Shr(b, k));
    assert c == 2 * Shl(q, n - k - 1);
  }
}
