/** From the machine's memory to the answer of FinishEpoch: over every run, with any interleaving
    and either lock discipline, every proof in every FinishEpoch response verifies twice, if the
    machine answers from one fixed memory tree while an input is committed. */
module EndToEnd {
  import opened Bits
  import opened Hashing
  import opened MerkleTreeProof
  import opened Abi
  import opened RemoteMachine
  import opened Session
  import opened EveryInterleaving
  import opened OwnerLock

  // ----- hypotheses -----

  /** The hashes ranges are aligned powers of two inside the machine's address space. */
  predicate SizesOk(cfg: Config) {
    && cfg.log2EpochRoot >= 5
    && RangeOk(cfg.hashes.voucher) && LOG2_WORD_SIZE <= cfg.hashes.voucher.log2Size <= cfg.log2MachineRoot
    && RangeOk(cfg.hashes.notice) && LOG2_WORD_SIZE <= cfg.hashes.notice.log2Size <= cfg.log2MachineRoot
  }

  /** `tree(i)` is the machine that answers while the input with global index i is committed. */
  type Trees = nat -> Machine

  function RangeNode(cfg: Config, m: Machine, kind: Kind): Hash
    requires SizesOk(cfg)
  {
    MemoryNode(cfg.h, m, cfg.hashes.Get(kind).log2Size, cfg.hashes.Get(kind).start)
  }

  /** The contents of a hashes range and the proof of each of its entries, from machine `m`. */
  ghost predicate FromMemory(cfg: Config, m: Machine, kind: Kind, bytes: seq<Byte>, proofs: seq<Proof>)
    requires SizesOk(cfg)
  {
    var r := cfg.hashes.Get(kind);
    && bytes == ReadBytes(m.memory, r.start, r.length)
    && forall j: nat :: j < |proofs| && 32 * j + 32 <= r.length && 5 <= cfg.log2MachineRoot ==>
         proofs[j] == MemoryProof(cfg.h, m, cfg.log2MachineRoot, r.start + 32 * j, LOG2_KECCAK_SIZE)
  }

  ghost predicate Honest(cfg: Config, trees: Trees, s: World, ev: Event)
    requires SizesOk(cfg)
  {
    ev.Resume? && IsBusy(s, ev.id) ==>
      var locals := s.handlers[ev.id].locals;
      match (s.handlers[ev.id].work, ev.answer)
      case (Proving(kind), ProofIs(proof)) =>
        var r := cfg.hashes.Get(kind);
        proof == MemoryProof(cfg.h, trees(locals.globalIndex), cfg.log2MachineRoot, r.start, r.log2Size)
      case (Reading(kind), HashesAre(bytes, proofs)) => FromMemory(cfg, trees(locals.globalIndex), kind, bytes, proofs)
      case (_, _) => true
  }

  ghost predicate HonestRun(cfg: Config, trees: Trees, start: World, events: seq<Event>)
    requires SizesOk(cfg)
  {
    forall n: nat :: n < |events| ==> Honest(cfg, trees, RunOf(cfg, start, events[..n]), events[n])
  }

  // ----- what a record proves -----

  /** An output's hash, and the proof that leads from it to the hash of its range. */
  ghost predicate OutputProven(cfg: Config, kind: Kind, output: Output, i: nat, leaf: Hash) {
    && output.hash.Some?
    && var keccak := output.hash.value;
       |keccak.keccak| == 32 && keccak.inHashes.Valid()
       && Verifies(cfg.h, keccak.inHashes)
       && keccak.inHashes.log2TargetSize == LOG2_KECCAK_SIZE
       && keccak.inHashes.log2RootSize == cfg.hashes.Get(kind).log2Size
       && keccak.inHashes.targetHash == EntryHash(cfg.h, keccak.keccak)
       && keccak.inHashes.rootHash == leaf
       && SameBits(keccak.inHashes.targetAddress, Shl(i, 5), 5, cfg.hashes.Get(kind).log2Size)
  }

  ghost predicate OutputsProven(cfg: Config, kind: Kind, outputs: seq<Output>, leaf: Hash) {
    forall i: nat :: i < |outputs| ==> OutputProven(cfg, kind, outputs[i], i, leaf)
  }

  /** The leaf a record has in an epoch tree, and every output of that kind proven against it. */
  ghost predicate KindProven(cfg: Config, m: Machine, leaves: seq<Hash>, i: nat, kind: Kind, outputs: seq<Output>)
    requires SizesOk(cfg)
  {
    i < |leaves| && i < Capacity(cfg) && leaves[i] == RangeNode(cfg, m, kind) && OutputsProven(cfg, kind, outputs, leaves[i])
  }

  ghost predicate RecordProven(cfg: Config, trees: Trees, leaves: Pair<seq<Hash>>, r: Record)
    requires SizesOk(cfg)
  {
    && r.epochInputIndex < Capacity(cfg)
    && (r.processed.AcceptedData? ==>
          && KindProven(cfg, trees(r.inputIndex), leaves.voucher, r.epochInputIndex, Voucher, r.processed.outputs.voucher)
          && KindProven(cfg, trees(r.inputIndex), leaves.notice, r.epochInputIndex, Notice, r.processed.outputs.notice))
  }

  ghost predicate RecordsProven(cfg: Config, trees: Trees, leaves: Pair<seq<Hash>>, rs: seq<Record>)
    requires SizesOk(cfg)
  {
    forall j: nat :: j < |rs| ==> RecordProven(cfg, trees, leaves, rs[j])
  }

  // ----- what an input in progress has proven so far -----

  /** The range's leaf is in the tree, at the input's own index. */
  ghost predicate LeafPushed(cfg: Config, leaves: seq<Hash>, i: nat, leaf: Hash)
    requires cfg.log2EpochRoot >= 5
  {
    |leaves| == i + 1 && i < Capacity(cfg) && leaves[i] == leaf
  }

  ghost predicate WorkProven(cfg: Config, m: Machine, trees: Pair<seq<Hash>>, locals: Locals, work: Work)
    requires SizesOk(cfg)
  {
    var i := locals.epochIndex;
    match work
    case Proving(Voucher) => |trees.voucher| == i && |trees.notice| == i
    case Reading(Voucher) => LeafPushed(cfg, trees.voucher, i, RangeNode(cfg, m, Voucher)) && |trees.notice| == i
    case Proving(Notice) =>
      KindProven(cfg, m, trees.voucher, i, Voucher, locals.outputs.voucher) && |trees.voucher| == i + 1 && |trees.notice| == i
    case Reading(Notice) =>
      KindProven(cfg, m, trees.voucher, i, Voucher, locals.outputs.voucher) && LeafPushed(cfg, trees.notice, i, RangeNode(cfg, m, Notice))
    case Hashing =>
      && KindProven(cfg, m, trees.voucher, i, Voucher, locals.outputs.voucher)
      && KindProven(cfg, m, trees.notice, i, Notice, locals.outputs.notice)
    case Rehashing => i < Capacity(cfg)
    case _ => true
  }

  // ----- what a response proves -----

  /** A list of siblings, leaf to root, reassembled into the proof of the entry at `index`. */
  function Reassembled(siblings: seq<Hash>, targetHash: Hash, rootHash: Hash, index: nat): Proof {
    Proof(Shl(index, 5), LOG2_KECCAK_SIZE, targetHash, LOG2_KECCAK_SIZE + |siblings|, rootHash, LeafToRoot(siblings))
  }

  ghost predicate Reassembles(h: Hasher, siblings: seq<Hash>, targetHash: Hash, rootHash: Hash, index: nat, log2RootSize: nat) {
    var p := Reassembled(siblings, targetHash, rootHash, index);
    p.log2RootSize == log2RootSize && p.Valid() && Verifies(h, p)
  }

  /** The two verifications: the output's hash against the output-hashes root, and that root
      against the epoch root the response carries. */
  ghost predicate VerifiesTwice(cfg: Config, response: Response, q: OutputProof, keccak: seq<Byte>) {
    && |keccak| == 32 && q.validity.outputIndexWithinInput == q.outputIndex
    && q.validity.epochRootHashes == response.epochRootHashes
    && Reassembles(cfg.h, q.validity.siblingsInHashes, EntryHash(cfg.h, keccak), q.validity.outputHashesRootHash,
                   q.outputIndex, cfg.hashes.Get(q.kind).log2Size)
    && Reassembles(cfg.h, q.validity.siblingsInEpoch, q.validity.outputHashesRootHash, response.epochRootHashes.Get(q.kind),
                   q.validity.inputIndexWithinEpoch, cfg.log2EpochRoot)
  }

  function OutputCount(r: Record): nat {
    if r.processed.AcceptedData? then |r.processed.outputs.voucher| + |r.processed.outputs.notice| else 0
  }

  function OutputCounts(rs: seq<Record>): nat {
    if rs == [] then 0 else OutputCounts(rs[..|rs| - 1]) + OutputCount(rs[|rs| - 1])
  }

  /** Where the proof of the i-th output of one kind of the j-th record stands in the response. */
  function Position(rs: seq<Record>, j: nat, kind: Kind, i: nat): nat
    requires j < |rs| && rs[j].processed.AcceptedData?
  {
    OutputCounts(rs[..j]) + (if kind == Voucher then 0 else |rs[j].processed.outputs.voucher|) + i
  }

  /** `finish_epoch` can recompute the proofs of exactly the records whose index the trees hold. */
  predicate IndicesFit(cfg: Config, rs: seq<Record>)
    requires cfg.log2EpochRoot >= 5
  {
    forall j: nat :: j < |rs| ==> rs[j].epochInputIndex < Capacity(cfg)
  }

  /** No proof failed to be recomputed, no hash was missing, and the response has one verifying
      proof for each accepted output, in order, and no other. */
  ghost predicate ResponseProven(cfg: Config, e: Epoch, answer: Option<Response>)
    requires cfg.log2EpochRoot >= 5
  {
    && IndicesFit(cfg, e.processed) && answer.Some?
    && |answer.value.proofs| == OutputCounts(e.processed)
    && forall j: nat, kind: Kind, i: nat {:trigger Position(e.processed, j, kind, i)} ::
         j < |e.processed| && e.processed[j].processed.AcceptedData? && i < |e.processed[j].processed.outputs.Get(kind)| ==>
           var p := Position(e.processed, j, kind, i);
           p < |answer.value.proofs| && AnswersFor(cfg, answer.value, e, j, kind, i, answer.value.proofs[p])
  }

  /** The context of a proof is a 32-byte word with the epoch's index in its low eight bytes. */
  predicate NamesEpoch(context: seq<Byte>, epochIndex: nat) {
    && |context| == 32 && AllZero(context[..24])
    && (epochIndex < UINT64_LIMIT ==> FromBigEndian(context[24..]) == epochIndex)
  }

  lemma ContextNamesEpoch(epochIndex: nat)
    ensures NamesEpoch(Context(epochIndex), epochIndex)
  {
    Pow256Of8();
    if epochIndex < UINT64_LIMIT { BigEndianRoundTrip(epochIndex, 8); }
    assert Context(epochIndex)[24..] == BigEndian(epochIndex, 8);
  }

  /** `q` is the proof of the i-th output of one kind of the j-th record of the epoch. */
  ghost predicate AnswersFor(cfg: Config, response: Response, e: Epoch, j: nat, kind: Kind, i: nat, q: OutputProof) {
    && j < |e.processed| && e.processed[j].processed.AcceptedData? && i < |e.processed[j].processed.outputs.Get(kind)|
    && q.kind == kind && q.outputIndex == i && q.inputIndex == e.processed[j].inputIndex
    && q.validity.inputIndexWithinEpoch == j && NamesEpoch(q.context, e.epochIndex)
    && q.validity.machineStateHash == response.machineHash
    && e.processed[j].processed.outputs.Get(kind)[i].hash.Some?
    && VerifiesTwice(cfg, response, q, e.processed[j].processed.outputs.Get(kind)[i].hash.value.keccak)
  }

  // ----- the invariant -----

  ghost predicate EpochsProven(cfg: Config, trees: Trees, s: World)
    requires SizesOk(cfg)
  {
    forall k :: k in s.epochs ==> RecordsProven(cfg, trees, s.epochs[k].trees, s.epochs[k].processed)
  }

  ghost predicate BusyProven(cfg: Config, trees: Trees, s: World)
    requires SizesOk(cfg)
  {
    forall a :: IsBusy(s, a) && s.handlers[a].epoch in s.epochs ==>
      WorkProven(cfg, trees(s.handlers[a].locals.globalIndex), s.epochs[s.handlers[a].epoch].trees,
                 s.handlers[a].locals, s.handlers[a].work)
  }

  /** Every answer given, and the records of the epoch it was given for. */
  ghost predicate AnswersProven(cfg: Config, trees: Trees, s: World)
    requires SizesOk(cfg)
  {
    forall n: nat :: n < |s.responses| ==>
      var (e, answer) := s.responses[n]; ResponseProven(cfg, e, answer) && RecordsProven(cfg, trees, e.trees, e.processed)
  }

  ghost predicate Proven(cfg: Config, trees: Trees, s: World)
    requires SizesOk(cfg)
  {
    EpochsProven(cfg, trees, s) && BusyProven(cfg, trees, s) && AnswersProven(cfg, trees, s)
  }

  // ----- reassembling -----

  lemma {:induction false} LeafToRootTwice(s: seq<Hash>)
    ensures LeafToRoot(LeafToRoot(s)) == s
  {
    var r := LeafToRoot(s);
    assert forall i: nat :: i < |s| ==> LeafToRoot(r)[i] == r[|s| - 1 - i] == s[i];
  }

  /** A verifying proof of an entry survives being listed leaf to root and put together again at
      the address of its index. */
  lemma ReassemblingVerifies(h: Hasher, p: Proof, index: nat)
    requires p.Valid() && Verifies(h, p) && p.log2TargetSize == LOG2_KECCAK_SIZE
    requires SameBits(p.targetAddress, Shl(index, 5), 5, p.log2RootSize)
    ensures Reassembles(h, LeafToRoot(p.siblings), p.targetHash, p.rootHash, index, p.log2RootSize)
  {
    LeafToRootTwice(p.siblings);
    var q := Reassembled(LeafToRoot(p.siblings), p.targetHash, p.rootHash, index);
    ClimbAgrees(h, p, q, p.targetHash, 5, p.log2RootSize);
  }

  /** The recomputed proof of the i-th leaf of an epoch tree, reassembled. */
  lemma EpochProofReassembles(cfg: Config, leaves: seq<Hash>, i: nat)
    requires cfg.log2EpochRoot >= 5 && i < |leaves| && i < Capacity(cfg)
    ensures Reassembles(cfg.h, LeafToRoot(EpochProof(cfg, leaves, i).siblings), leaves[i], EpochRoot(cfg, leaves), i, cfg.log2EpochRoot)
  {
    var p := EpochProof(cfg, leaves, i);
    LeafAddress(i, cfg.log2EpochRoot);
    PathProofSound(cfg.h, EpochBase(cfg.h), leaves, 5, cfg.log2EpochRoot, 5, Shl(i, 5), leaves[i]);
    ReassemblingVerifies(cfg.h, p, i);
  }

  lemma LeafAddress(i: nat, root: nat)
    requires root >= 5 && i < Pow2(root - 5)
    ensures Shl(i, 5) < Pow2(root) && Shr(Shl(i, 5), 5) == i
  {
    ShrShl(i, 5);
    ShlShl(1, root - 5, 5);
    ShlMonotone(i + 1, Pow2(root - 5), 5);
    ShlMonotone(i, i + 1, 5);
  }

  // ----- the response -----

  lemma {:induction false} ProofCount(cfg: Config, e: Epoch, rs: seq<Record>)
    requires cfg.log2EpochRoot >= 5 && AllRecordsHashed(rs)
    ensures |ProofsOfRecords(cfg, e, rs)| == OutputCounts(rs)
  {
    if rs != [] {
      assert AllRecordsHashed(rs[..|rs| - 1]) && RecordHashed(rs[|rs| - 1]);
      ProofCount(cfg, e, rs[..|rs| - 1]);
    }
  }

  /** The proofs of a record follow those of the records before it: vouchers, then notices. */
  lemma {:induction false} ProofsPlaced(cfg: Config, e: Epoch, rs: seq<Record>, j: nat, kind: Kind, i: nat)
    requires cfg.log2EpochRoot >= 5 && AllRecordsHashed(rs)
    requires j < |rs| && rs[j].processed.AcceptedData? && i < |rs[j].processed.outputs.Get(kind)|
    ensures RecordHashed(rs[j])
    ensures var ps, p := ProofsOfRecords(cfg, e, rs), Position(rs, j, kind, i);
            p < |ps| && ps[p] == ProofOfOutput(cfg, e, rs[j], kind, i, rs[j].processed.outputs.Get(kind)[i].hash.value.inHashes)
  {
    hide ProofOfOutput, ProofsOfRecord;
    var n := |rs| - 1;
    assert AllRecordsHashed(rs[..n]) && RecordHashed(rs[n]);
    ProofCount(cfg, e, rs[..n]);
    assert ProofsOfRecords(cfg, e, rs) == ProofsOfRecords(cfg, e, rs[..n]) + ProofsOfRecord(cfg, e, rs[n]);
    if j < n {
      assert rs[..n][..j] == rs[..j];
      ProofsPlaced(cfg, e, rs[..n], j, kind, i);
    } else {
      PlacedInRecord(cfg, e, rs[n], kind, i);
    }
  }

  lemma PlacedInRecord(cfg: Config, e: Epoch, r: Record, kind: Kind, i: nat)
    requires cfg.log2EpochRoot >= 5 && RecordHashed(r) && r.processed.AcceptedData? && i < |r.processed.outputs.Get(kind)|
    ensures var ps, p := ProofsOfRecord(cfg, e, r), (if kind == Voucher then 0 else |r.processed.outputs.voucher|) + i;
            p < |ps| && ps[p] == ProofOfOutput(cfg, e, r, kind, i, r.processed.outputs.Get(kind)[i].hash.value.inHashes)
  {
    var vs := ProofsOfKind(cfg, e, r, Voucher, r.processed.outputs.voucher);
    var ns := ProofsOfKind(cfg, e, r, Notice, r.processed.outputs.notice);
    assert ProofsOfRecord(cfg, e, r) == vs + ns;
  }

  /** The proof of one output, in a finished epoch. */
  lemma OutputAnswered(cfg: Config, e: Epoch, r: Record, kind: Kind, i: nat, output: Output, response: Response)
    requires cfg.log2EpochRoot >= 5 && r.epochInputIndex < |e.trees.Get(kind)| && r.epochInputIndex < Capacity(cfg)
    requires OutputProven(cfg, kind, output, i, e.trees.Get(kind)[r.epochInputIndex])
    requires r.inEpoch.Get(kind) == EpochProof(cfg, e.trees.Get(kind), r.epochInputIndex)
    requires response.epochRootHashes == EpochRoots(cfg, e)
    ensures VerifiesTwice(cfg, response, ProofOfOutput(cfg, e, r, kind, i, output.hash.value.inHashes), output.hash.value.keccak)
  {
    hide Reassembles, EpochProof, EpochRoot, Capacity, SameBits, EntryHash, Verifies;
    ReassemblingVerifies(cfg.h, output.hash.value.inHashes, i);
    EpochProofReassembles(cfg, e.trees.Get(kind), r.epochInputIndex);
  }

  lemma FinishedFacts(cfg: Config, trees: Trees, e: Epoch)
    requires SizesOk(cfg) && RecordsOk(e.processed) && RecordsProven(cfg, trees, e.trees, e.processed)
    ensures var f := FinishedEpoch(cfg, e);
            && f.trees == e.trees && |f.processed| == |e.processed|
            && AllRecordsHashed(f.processed) && IndicesFit(cfg, f.processed) && RecordsProven(cfg, trees, f.trees, f.processed)
            && forall j: nat :: j < |e.processed| ==> f.processed[j] == Reproved(cfg, e.trees, e.processed[j])
  {
    hide KindProven, EpochProof;
    var f := FinishedEpoch(cfg, e);
    assert forall j: nat :: j < |e.processed| ==> f.processed[j] == Reproved(cfg, e.trees, e.processed[j]);
    assert forall j: nat :: j < |e.processed| ==> RecordOk(e.processed[j]) && RecordProven(cfg, trees, e.trees, e.processed[j]);
  }

  /** Closing an epoch whose records are proven answers every output of every record. */
  lemma EpochAnswered(cfg: Config, trees: Trees, e: Epoch)
    requires SizesOk(cfg) && RecordsOk(e.processed) && RecordsProven(cfg, trees, e.trees, e.processed)
    ensures var f := FinishedEpoch(cfg, e); ResponseProven(cfg, f, EpochResponse(cfg, f)) && RecordsProven(cfg, trees, f.trees, f.processed)
  {
    hide FinishedEpoch, ReprovedAll, RecordProven, RecordOk, Capacity, AnswersFor;
    var f := FinishedEpoch(cfg, e);
    var rs := f.processed;
    FinishedFacts(cfg, trees, e);
    ProofCount(cfg, f, rs);
    var response := EpochResponse(cfg, f).value;
    forall j: nat, kind: Kind, i: nat | j < |rs| && rs[j].processed.AcceptedData? && i < |rs[j].processed.outputs.Get(kind)|
      ensures var p := Position(rs, j, kind, i);
              p < |response.proofs| && AnswersFor(cfg, response, f, j, kind, i, response.proofs[p])
    {
      ProofsPlaced(cfg, f, rs, j, kind, i);
      RecordAnswered(cfg, trees, e, f, j, kind, i, response);
    }
  }

  lemma RecordAnswered(cfg: Config, trees: Trees, e: Epoch, f: Epoch, j: nat, kind: Kind, i: nat, response: Response)
    requires SizesOk(cfg) && RecordsOk(e.processed) && f.trees == e.trees && |f.processed| == |e.processed|
    requires j < |e.processed| && f.processed[j] == Reproved(cfg, e.trees, e.processed[j]) && RecordProven(cfg, trees, e.trees, e.processed[j])
    requires f.processed[j].processed.AcceptedData? && i < |f.processed[j].processed.outputs.Get(kind)|
    requires response.epochRootHashes == EpochRoots(cfg, f) && response.machineHash == f.machineHash
    ensures f.processed[j].processed.outputs.Get(kind)[i].hash.Some?
    ensures AnswersFor(cfg, response, f, j, kind, i,
              ProofOfOutput(cfg, f, f.processed[j], kind, i, f.processed[j].processed.outputs.Get(kind)[i].hash.value.inHashes))
  {
    hide EpochProof, EpochRoot, Capacity, VerifiesTwice, NamesEpoch, Context;
    var output := f.processed[j].processed.outputs.Get(kind)[i];
    assert OutputsProven(cfg, kind, f.processed[j].processed.outputs.Get(kind), e.trees.Get(kind)[j]);
    assert OutputProven(cfg, kind, output, i, e.trees.Get(kind)[j]);
    OutputAnswered(cfg, f, f.processed[j], kind, i, output, response);
    ContextNamesEpoch(f.epochIndex);
  }

  // ----- steps that prove nothing new -----

  predicate Extends(a: Pair<seq<Hash>>, b: Pair<seq<Hash>>) {
    a.voucher <= b.voucher && a.notice <= b.notice
  }

  /** Records and machine hashes stay, trees at most grow, and whoever is inside an input is where
      he was, in trees as they were, or at the very beginning. */
  ghost predicate Quiet(s: World, t: World) {
    && t.epochs.Keys <= s.epochs.Keys && t.responses == s.responses && SameHashes(s, t)
    && (forall k :: k in t.epochs ==> t.epochs[k].processed == s.epochs[k].processed && Extends(s.epochs[k].trees, t.epochs[k].trees))
    && (forall a :: IsBusy(t, a) ==> t.handlers[a].work == Snapshotting || StaysBusy(s, t, a))
  }

  ghost predicate SameHashes(s: World, t: World) {
    && t.activeEpoch == s.activeEpoch && t.log == s.log
    && (forall k :: k in t.epochs && k in s.epochs ==> t.epochs[k].machineHash == s.epochs[k].machineHash)
  }

  predicate StaysBusy(s: World, t: World, a: Id)
    requires IsBusy(t, a) && t.epochs.Keys <= s.epochs.Keys
  {
    IsBusy(s, a) && t.handlers[a] == s.handlers[a]
    && var k := t.handlers[a].epoch; k in t.epochs ==> t.epochs[k].trees == s.epochs[k].trees
  }

  lemma ExtendedProven(cfg: Config, trees: Trees, a: Pair<seq<Hash>>, b: Pair<seq<Hash>>, rs: seq<Record>)
    requires SizesOk(cfg) && RecordsProven(cfg, trees, a, rs) && Extends(a, b)
    ensures RecordsProven(cfg, trees, b, rs)
  {
    forall j: nat | j < |rs| ensures RecordProven(cfg, trees, b, rs[j]) {
      assert RecordProven(cfg, trees, a, rs[j]);
      hide OutputsProven;
    }
  }

  lemma QuietProven(cfg: Config, trees: Trees, s: World, t: World)
    requires SizesOk(cfg) && Proven(cfg, trees, s) && Quiet(s, t)
    ensures Proven(cfg, trees, t)
  {
    hide RecordsProven, WorkProven, ResponseProven, Extends;
    forall k | k in t.epochs ensures RecordsProven(cfg, trees, t.epochs[k].trees, t.epochs[k].processed) {
      ExtendedProven(cfg, trees, s.epochs[k].trees, t.epochs[k].trees, s.epochs[k].processed);
    }
    forall a | IsBusy(t, a) && t.handlers[a].epoch in t.epochs
      ensures WorkProven(cfg, trees(t.handlers[a].locals.globalIndex), t.epochs[t.handlers[a].epoch].trees,
                         t.handlers[a].locals, t.handlers[a].work)
    {
      if t.handlers[a].work != Snapshotting {
        assert StaysBusy(s, t, a);
      } else {
        StartProven(cfg, trees(t.handlers[a].locals.globalIndex), t.epochs[t.handlers[a].epoch].trees, t.handlers[a].locals);
      }
    }
  }

  lemma StartProven(cfg: Config, m: Machine, trees: Pair<seq<Hash>>, locals: Locals)
    requires SizesOk(cfg)
    ensures WorkProven(cfg, m, trees, locals, Snapshotting)
  {
  }

  // ----- the processor inside an input -----

  ghost predicate OnlyBusy(s: World, id: Id) {
    forall a :: IsBusy(s, a) ==> a == id
  }

  /** The trees of one epoch may have grown; nothing else that matters here has changed. */
  ghost predicate TreesGrown(s: World, t: World, k: nat) {
    && k in s.epochs && t.epochs.Keys == s.epochs.Keys && t.responses == s.responses && t.handlers == s.handlers
    && SameHashes(s, t)
    && (forall j :: j in s.epochs && j != k ==> t.epochs[j] == s.epochs[j])
    && t.epochs[k].processed == s.epochs[k].processed && Extends(s.epochs[k].trees, t.epochs[k].trees)
  }

  lemma WorkMovesProven(cfg: Config, trees: Trees, s: World, t: World, id: Id, k: nat, locals: Locals, work: Work)
    requires SizesOk(cfg) && Proven(cfg, trees, s) && OnlyBusy(s, id) && TreesGrown(s, t, k)
    requires WorkProven(cfg, trees(locals.globalIndex), t.epochs[k].trees, locals, work)
    ensures Proven(cfg, trees, AtWork(t, id, k, locals, work))
  {
    hide RecordsProven, WorkProven, ResponseProven, Extends;
    var u := AtWork(t, id, k, locals, work);
    forall j | j in u.epochs ensures RecordsProven(cfg, trees, u.epochs[j].trees, u.epochs[j].processed) {
      if j == k { ExtendedProven(cfg, trees, s.epochs[j].trees, u.epochs[j].trees, s.epochs[j].processed); }
    }
    assert forall a :: IsBusy(u, a) && a != id ==> IsBusy(s, a);
  }

  lemma StrandedKeepsHashes(s: World, id: Id)
    ensures ResumeStrandedQuery(s, id).responses == s.responses && SameHashes(s, ResumeStrandedQuery(s, id))
  {
    if s.activeEpoch in s.epochs && s.epochs[s.activeEpoch].query.Some? {
      var q := s.epochs[s.activeEpoch].query.value;
      if q.coroutine.Some? {
        WakeShape(s.(handlers := s.handlers[id := Unwound]), q.coroutine);
        assert Redirected(s.epochs, s.activeEpoch, q.(coroutine := Some(id))).Keys == s.epochs.Keys;
      }
    }
  }

  lemma TaintKeepsResponses(cfg: Config, s: World, id: Id)
    ensures TaintAdvance(cfg, s, id).responses == s.responses && SameHashes(s, TaintAdvance(cfg, s, id))
  {
    hide ResumeStrandedQuery;
    var unwound := Release(cfg, s, id);
    StrandedKeepsHashes(unwound.(tainted := true, processingLock := unwound.processingLock && !IsProcessor(s, id)), id);
  }

  lemma TaintProven(cfg: Config, trees: Trees, s: World, t: World, id: Id, k: nat)
    requires SizesOk(cfg) && Proven(cfg, trees, s) && OnlyBusy(s, id) && TreesGrown(s, t, k)
    ensures Proven(cfg, trees, TaintAdvance(cfg, t, id))
  {
    hide TaintAdvance, Proven;
    TaintAdvanceFacts(cfg, t, id);
    TaintKeepsResponses(cfg, t, id);
    var u := TaintAdvance(cfg, t, id);
    assert forall a :: IsBusy(u, a) ==> a != id && IsBusy(s, a);
    QuietProven(cfg, trees, s, u);
  }

  lemma DecideProven(cfg: Config, trees: Trees, s: World, t: World, id: Id, k: nat, locals: Locals,
                     reason: CompletionStatus, exception: seq<Byte>)
    requires SizesOk(cfg) && Proven(cfg, trees, s) && OnlyBusy(s, id) && TreesGrown(s, t, k)
    ensures Proven(cfg, trees, Decide(cfg, t, id, k, locals, reason, exception))
  {
    hide TaintAdvance, Proven, OnlyBusy, AtWork, Extends;
    TaintProven(cfg, trees, s, t, id, k);
    if |t.epochs[k].trees.voucher| == locals.epochIndex == |t.epochs[k].trees.notice| {
      WorkMovesProven(cfg, trees, s, t, id, k, locals, Proving(Voucher));
      WorkMovesProven(cfg, trees, s, t, id, k, locals.(skip := reason, exception := exception), RollingBack);
    }
  }

  lemma RunProven(cfg: Config, trees: Trees, s: World, id: Id, k: nat, locals: Locals, limit: nat, max: nat,
                  late: bool, read: Option<seq<Byte>>)
    requires SizesOk(cfg) && Proven(cfg, trees, s) && OnlyBusy(s, id) && k in s.epochs
    ensures Proven(cfg, trees, RunAnswered(cfg, s, id, k, locals, limit, max, late, read))
  {
    hide TaintAdvance, Proven, OnlyBusy, AtWork, Decide, RunVerdict;
    var t := s.(machine := cfg.run(s.machine, limit));
    assert TreesGrown(s, t, k);
    match RunVerdict(cfg, t.machine, locals, limit, max, late, read)
    case Bad => TaintProven(cfg, trees, s, t, id, k);
    case Over(reason, exception, mcycle) => DecideProven(cfg, trees, s, t, id, k, locals.(mcycle := mcycle), reason, exception);
    case More(next, limit') => WorkMovesProven(cfg, trees, s, t, id, k, next, Running(limit', max));
  }

  /** The range's own node becomes the leaf. */
  lemma RangeProvedProven(cfg: Config, trees: Trees, s: World, id: Id, k: nat, locals: Locals, kind: Kind, proof: Proof)
    requires SizesOk(cfg) && Proven(cfg, trees, s) && OnlyBusy(s, id) && k in s.epochs
    requires WorkProven(cfg, trees(locals.globalIndex), s.epochs[k].trees, locals, Proving(kind))
    requires proof.targetHash == RangeNode(cfg, trees(locals.globalIndex), kind)
    ensures Proven(cfg, trees, RangeProved(cfg, s, id, k, locals, kind, proof))
  {
    hide TaintAdvance, Proven, OnlyBusy, AtWork, OutputsProven, Capacity, EpochProof;
    TaintProven(cfg, trees, s, s, id, k);
    var pushed := PushLeaf(cfg, s, k, kind, proof.targetHash);
    if pushed.Some? {
      var t := pushed.value;
      assert TreesGrown(s, t, k);
      TaintProven(cfg, trees, s, t, id, k);
      var p := ProofInEpoch(cfg, t, k, kind, locals.epochIndex);
      if p.Some? {
        var next := locals.(rangeProofs := locals.rangeProofs.Set(kind, proof), inEpoch := locals.inEpoch.Set(kind, p.value));
        PushedWork(cfg, trees(locals.globalIndex), s.epochs[k].trees, t.epochs[k].trees, locals, next, kind);
        WorkMovesProven(cfg, trees, s, t, id, k, next, Reading(kind));
      }
    }
  }

  lemma PushedWork(cfg: Config, m: Machine, before: Pair<seq<Hash>>, after: Pair<seq<Hash>>, locals: Locals, next: Locals, kind: Kind)
    requires SizesOk(cfg) && WorkProven(cfg, m, before, locals, Proving(kind))
    requires |before.Get(kind)| < Capacity(cfg) && after == before.Set(kind, before.Get(kind) + [RangeNode(cfg, m, kind)])
    requires next == locals.(rangeProofs := next.rangeProofs, inEpoch := next.inEpoch)
    ensures WorkProven(cfg, m, after, next, Reading(kind))
  {
    hide OutputsProven, RangeNode, Capacity;
  }

  /** Every hash read from the range is proven against the range's node. */
  lemma AttachedProven(cfg: Config, m: Machine, kind: Kind, outputs: seq<Output>, bytes: seq<Byte>, proofs: seq<Proof>)
    requires SizesOk(cfg) && FromMemory(cfg, m, kind, bytes, proofs)
    requires |outputs| <= |proofs| && 32 * |outputs| <= |bytes| && AllSliceable(proofs, |outputs|, cfg.hashes.Get(kind).log2Size)
    ensures OutputsProven(cfg, kind, AttachHashes(cfg.h, outputs, bytes, proofs, cfg.hashes.Get(kind).log2Size), RangeNode(cfg, m, kind))
  {
    var r := cfg.hashes.Get(kind);
    var attached := AttachHashes(cfg.h, outputs, bytes, proofs, r.log2Size);
    forall j: nat | j < |attached| ensures OutputProven(cfg, kind, attached[j], j, RangeNode(cfg, m, kind)) {
      assert Sliceable(proofs[j], r.log2Size);
      OneAttachedProven(cfg, m, kind, outputs[j], attached[j], j, bytes, proofs[j]);
    }
  }

  lemma OneAttachedProven(cfg: Config, m: Machine, kind: Kind, output: Output, attached: Output, j: nat, bytes: seq<Byte>, p: Proof)
    requires SizesOk(cfg) && 32 * j + 32 <= |bytes| && Sliceable(p, cfg.hashes.Get(kind).log2Size)
    requires attached == Attached(cfg.h, output, bytes, j, p, cfg.hashes.Get(kind).log2Size)
    requires var r := cfg.hashes.Get(kind);
             && bytes == ReadBytes(m.memory, r.start, r.length)
             && (5 <= cfg.log2MachineRoot ==> p == MemoryProof(cfg.h, m, cfg.log2MachineRoot, r.start + 32 * j, LOG2_KECCAK_SIZE))
    ensures OutputProven(cfg, kind, attached, j, RangeNode(cfg, m, kind))
  {
    hide Verifies, MemoryProof, MemoryNode, EntryHash, SameBits;
    var r := cfg.hashes.Get(kind);
    EntryNeedsRoom(r, j);
    EntryProofInRange(cfg.h, m, cfg.log2MachineRoot, r, j, Sliced(cfg.h, p, r.log2Size, 5));
  }

  lemma RangeReadProven(cfg: Config, trees: Trees, s: World, id: Id, k: nat, locals: Locals, kind: Kind, bytes: seq<Byte>, proofs: seq<Proof>)
    requires SizesOk(cfg) && Proven(cfg, trees, s) && OnlyBusy(s, id) && k in s.epochs
    requires WorkProven(cfg, trees(locals.globalIndex), s.epochs[k].trees, locals, Reading(kind))
    requires FromMemory(cfg, trees(locals.globalIndex), kind, bytes, proofs)
    ensures Proven(cfg, trees, RangeRead(cfg, s, id, k, locals, kind, bytes, proofs))
  {
    hide TaintAdvance, Proven, OnlyBusy, AtWork, OutputsProven, FromMemory, WorkProven;
    assert TreesGrown(s, s, k);
    TaintProven(cfg, trees, s, s, id, k);
    var range := cfg.hashes.Get(kind);
    var outputs := locals.outputs.Get(kind);
    if |bytes| == range.length && EntryCount(bytes, 0) == |outputs| && |outputs| <= |proofs|
       && AllSliceable(proofs, |outputs|, range.log2Size)
    {
      var m := trees(locals.globalIndex);
      var attached := AttachHashes(cfg.h, outputs, bytes, proofs, range.log2Size);
      AttachedProven(cfg, m, kind, outputs, bytes, proofs);
      var next := locals.(outputs := locals.outputs.Set(kind, attached));
      ReadWork(cfg, m, s.epochs[k].trees, locals, next, kind);
      WorkMovesProven(cfg, trees, s, s, id, k, next, if kind == Voucher then Proving(Notice) else Hashing);
    }
  }

  lemma ReadWork(cfg: Config, m: Machine, trees: Pair<seq<Hash>>, locals: Locals, next: Locals, kind: Kind)
    requires SizesOk(cfg) && WorkProven(cfg, m, trees, locals, Reading(kind))
    requires next == locals.(outputs := locals.outputs.Set(kind, next.outputs.Get(kind)))
    requires OutputsProven(cfg, kind, next.outputs.Get(kind), RangeNode(cfg, m, kind))
    ensures WorkProven(cfg, m, trees, next, if kind == Voucher then Proving(Notice) else Hashing)
  {
    hide OutputsProven, RangeNode, Capacity;
  }

  lemma RolledBackProven(cfg: Config, trees: Trees, s: World, t: World, id: Id, k: nat, locals: Locals)
    requires SizesOk(cfg) && Proven(cfg, trees, s) && OnlyBusy(s, id) && k in s.epochs
    requires t == s.(machine := t.machine, saved := t.saved)
    ensures Proven(cfg, trees, RolledBack(cfg, t, id, k, locals))
  {
    hide TaintAdvance, Proven, OnlyBusy, AtWork, Capacity, EpochProof, TreesGrown, PushLeaf;
    StillGrown(s, t, k);
    TaintProven(cfg, trees, s, t, id, k);
    var one := PushLeaf(cfg, t, k, Voucher, NullHash());
    if one.Some? {
      PushGrows(cfg, s, t, k, Voucher, NullHash());
      TaintProven(cfg, trees, s, one.value, id, k);
      var two := PushLeaf(cfg, one.value, k, Notice, NullHash());
      if two.Some? {
        PushGrows(cfg, s, one.value, k, Notice, NullHash());
        TaintProven(cfg, trees, s, two.value, id, k);
        var v := ProofInEpoch(cfg, two.value, k, Voucher, locals.epochIndex);
        var n := ProofInEpoch(cfg, two.value, k, Notice, locals.epochIndex);
        if v.Some? && n.Some? {
          WorkMovesProven(cfg, trees, s, two.value, id, k, locals.(inEpoch := Pair(v.value, n.value)), Rehashing);
        }
      }
    }
  }

  lemma StillGrown(s: World, t: World, k: nat)
    requires k in s.epochs && t == s.(machine := t.machine, saved := t.saved)
    ensures TreesGrown(s, t, k)
  {
  }

  lemma PushGrows(cfg: Config, s: World, t: World, k: nat, kind: Kind, leaf: Hash)
    requires cfg.log2EpochRoot >= 5 && TreesGrown(s, t, k) && k in t.epochs && PushLeaf(cfg, t, k, kind, leaf).Some?
    ensures TreesGrown(s, PushLeaf(cfg, t, k, kind, leaf).value, k) && k in PushLeaf(cfg, t, k, kind, leaf).value.epochs
  {
    hide Capacity;
  }

  lemma CompleteProven(cfg: Config, trees: Trees, s: World, id: Id, k: nat, record: Record, mcycle: nat)
    requires SizesOk(cfg) && Proven(cfg, trees, s) && OnlyBusy(s, id) && k in s.epochs && |s.epochs[k].pending| > 0
    requires RecordProven(cfg, trees, s.epochs[k].trees, record)
    ensures Proven(cfg, trees, Complete(cfg, s, id, k, record, mcycle))
  {
    hide RecordProven, WorkProven, ResponseProven;
    var t := Complete(cfg, s, id, k, record, mcycle);
    CompleteShape(cfg, s, t, id, k, record, mcycle);
    hide Complete;
    assert RecordsProven(cfg, trees, s.epochs[k].trees, s.epochs[k].processed + [record]);
    forall a | IsBusy(t, a) ensures t.handlers[a].work == Snapshotting {
      assert a != id ==> IsBusy(s, a);
    }
    forall a | IsBusy(t, a) && t.handlers[a].epoch in t.epochs
      ensures WorkProven(cfg, trees(t.handlers[a].locals.globalIndex), t.epochs[t.handlers[a].epoch].trees,
                         t.handlers[a].locals, t.handlers[a].work)
    {
      StartProven(cfg, trees(t.handlers[a].locals.globalIndex), t.epochs[t.handlers[a].epoch].trees, t.handlers[a].locals);
    }
  }

  lemma CompleteShape(cfg: Config, s: World, t: World, id: Id, k: nat, record: Record, mcycle: nat)
    requires k in s.epochs && |s.epochs[k].pending| > 0 && t == Complete(cfg, s, id, k, record, mcycle)
    ensures t.epochs.Keys == s.epochs.Keys && t.responses == s.responses
    ensures forall j :: j in s.epochs && j != k ==> t.epochs[j] == s.epochs[j]
    ensures t.epochs[k].trees == s.epochs[k].trees && t.epochs[k].processed == s.epochs[k].processed + [record]
    ensures forall a :: a in t.handlers && a != id ==> a in s.handlers && t.handlers[a] == s.handlers[a]
    ensures id in t.handlers && t.handlers[id].Busy? ==> t.handlers[id].work == Snapshotting
  {
    hide LoopTop, HandOff;
    var u := PopRecorded(s, k, record, mcycle);
    match u.epochs[k].query
    case None => LoopTopRecords(cfg, u, id, k);
    case Some(q) => HandOffRecords(u, id, k, q);
  }

  lemma LoopTopRecords(cfg: Config, s: World, id: Id, k: nat)
    requires k in s.epochs
    ensures var t := LoopTop(cfg, s, id, k);
            && t.epochs == s.epochs && t.responses == s.responses && t.log == s.log && t.activeEpoch == s.activeEpoch
            && (forall a :: a in t.handlers && a != id ==> a in s.handlers && t.handlers[a] == s.handlers[a])
            && (id in t.handlers && t.handlers[id].Busy? ==> t.handlers[id].work == Snapshotting)
  {
    hide NewLocals;
  }

  lemma HandOffRecords(s: World, id: Id, k: nat, q: Query)
    requires k in s.epochs
    ensures var t := HandOff(s, id, k, q);
            && t.responses == s.responses && t.epochs == s.epochs[k := s.epochs[k].(query := t.epochs[k].query)]
            && t.handlers == s.handlers[id := HandedOff(k)]
  {
  }

  /** What the invariant and the hypothesis say about a processor inside an input. */
  lemma BusyWorkFacts(cfg: Config, trees: Trees, s: World, id: Id, k: nat, locals: Locals, work: Work, answer: Answer, first: nat)
    requires SizesOk(cfg) && Inv(s, first) && Proven(cfg, trees, s) && Honest(cfg, trees, s, Resume(id, answer))
    requires id in s.handlers && s.handlers[id] == Busy(k, locals, work)
    ensures OnlyBusy(s, id)
    ensures k in s.epochs ==> WorkProven(cfg, trees(locals.globalIndex), s.epochs[k].trees, locals, work)
    ensures k in s.epochs && work == Rehashing ==> locals.epochIndex < Capacity(cfg)
    ensures work.Proving? && answer.ProofIs? ==> answer.proof.targetHash == RangeNode(cfg, trees(locals.globalIndex), work.kind)
    ensures work.Reading? && answer.HashesAre? ==> FromMemory(cfg, trees(locals.globalIndex), work.kind, answer.bytes, answer.proofs)
  {
    hide RecordsProven, ResponseProven, FromMemory, KindProven, LeafPushed;
    assert IsBusy(s, id);
  }

  lemma BusyStepProven(cfg: Config, trees: Trees, s: World, id: Id, k: nat, locals: Locals, work: Work, answer: Answer, first: nat)
    requires SizesOk(cfg) && Inv(s, first) && Proven(cfg, trees, s) && Honest(cfg, trees, s, Resume(id, answer))
    requires id in s.handlers && s.handlers[id] == Busy(k, locals, work) && k in s.epochs && |s.epochs[k].pending| > 0
    ensures Proven(cfg, trees, BusyResumes(cfg, s, id, k, locals, work, answer))
  {
    hide Inv, Proven, OnlyBusy, Honest, FromMemory, WorkProven, RangeNode, TaintAdvance, RunAnswered, RangeProved, RangeRead,
         RolledBack, Complete, AtWork, BusyResumes, Extends;
    BusyWorkFacts(cfg, trees, s, id, k, locals, work, answer, first);
    if answer.Failed? {
      FailureIsTaint(cfg, s, id, k, locals, work);
      TaintProven(cfg, trees, s, s, id, k);
    } else {
      match (work, answer)
      case (Snapshotting, Done) => StartsProven(cfg, trees, s, id, k, locals);
      case (Preparing(step), Done) => PreparesProven(cfg, trees, s, id, k, locals, step);
      case (Rehashing, HashIs(hash)) => SkipsProven(cfg, trees, s, id, k, locals, hash);
      case (Hashing, HashIs(hash)) => AcceptsProven(cfg, trees, s, id, k, locals, hash);
      case _ =>
        if work.Snapshotting? || work.Preparing? || work == Hashing || work == Rehashing {
          MisfitStays(cfg, s, id, k, locals, work, answer);
        } else {
          OtherwiseProven(cfg, trees, s, id, k, locals, work, answer);
        }
    }
  }

  /** An answer nobody is waiting for changes nothing. */
  lemma MisfitStays(cfg: Config, s: World, id: Id, k: nat, locals: Locals, work: Work, answer: Answer)
    requires cfg.log2EpochRoot >= 5 && k in s.epochs && |s.epochs[k].pending| > 0 && !answer.Failed?
    requires ((work.Snapshotting? || work.Preparing?) && !answer.Done?) || ((work == Hashing || work == Rehashing) && !answer.HashIs?)
    ensures BusyResumes(cfg, s, id, k, locals, work, answer) == s
  {
  }

  lemma FailureIsTaint(cfg: Config, s: World, id: Id, k: nat, locals: Locals, work: Work)
    requires cfg.log2EpochRoot >= 5 && k in s.epochs && |s.epochs[k].pending| > 0
    ensures BusyResumes(cfg, s, id, k, locals, work, Failed) == TaintAdvance(cfg, s, id)
    ensures TreesGrown(s, s, k)
  {
    hide TaintAdvance;
  }

  lemma StartsProven(cfg: Config, trees: Trees, s: World, id: Id, k: nat, locals: Locals)
    requires SizesOk(cfg) && Proven(cfg, trees, s) && OnlyBusy(s, id) && k in s.epochs && |s.epochs[k].pending| > 0
    ensures Proven(cfg, trees, BusyResumes(cfg, s, id, k, locals, Snapshotting, Done))
  {
    hide Proven, OnlyBusy, AtWork;
    var t := s.(saved := Some(s.machine));
    WorkMovesProven(cfg, trees, s, t, id, k, locals, Preparing(0));
    WorkMovesProven(cfg, trees, s, t, id, k, locals.(skip := PayloadLengthLimitExceeded, exception := []), RollingBack);
  }

  lemma PreparesProven(cfg: Config, trees: Trees, s: World, id: Id, k: nat, locals: Locals, step: nat)
    requires SizesOk(cfg) && Proven(cfg, trees, s) && OnlyBusy(s, id) && k in s.epochs && |s.epochs[k].pending| > 0
    ensures Proven(cfg, trees, BusyResumes(cfg, s, id, k, locals, Preparing(step), Done))
  {
    hide Proven, OnlyBusy, AtWork, Prepare;
    var t := s.(machine := Prepare(cfg, s.machine, s.epochs[k].pending[0], step));
    var max := Add64(s.mcycle, cfg.maxAdvanceState);
    WorkMovesProven(cfg, trees, s, t, id, k, locals, Preparing(step + 1));
    WorkMovesProven(cfg, trees, s, t, id, k, locals, Running(NextLimit(locals.mcycle, cfg.advanceStateIncrement, max), max));
  }

  lemma SkipsProven(cfg: Config, trees: Trees, s: World, id: Id, k: nat, locals: Locals, hash: Hash)
    requires SizesOk(cfg) && Proven(cfg, trees, s) && OnlyBusy(s, id) && k in s.epochs && |s.epochs[k].pending| > 0
    requires locals.epochIndex < Capacity(cfg)
    ensures Proven(cfg, trees, BusyResumes(cfg, s, id, k, locals, Rehashing, HashIs(hash)))
  {
    hide Proven, OnlyBusy, Complete, TaintAdvance;
    TaintProven(cfg, trees, s, s, id, k);
    CompleteProven(cfg, trees, s, id, k, SkippedRecord(locals, s.epochs[k].machineHash), s.mcycle);
  }

  lemma AcceptsProven(cfg: Config, trees: Trees, s: World, id: Id, k: nat, locals: Locals, hash: Hash)
    requires SizesOk(cfg) && Proven(cfg, trees, s) && OnlyBusy(s, id) && k in s.epochs && |s.epochs[k].pending| > 0
    requires WorkProven(cfg, trees(locals.globalIndex), s.epochs[k].trees, locals, Hashing)
    ensures Proven(cfg, trees, BusyResumes(cfg, s, id, k, locals, Hashing, HashIs(hash)))
  {
    hide Proven, OnlyBusy, Complete, TaintAdvance, OutputsProven;
    CompleteProven(cfg, trees, s, id, k, AcceptedRecord(locals, hash), locals.mcycle);
  }

  lemma OtherwiseProven(cfg: Config, trees: Trees, s: World, id: Id, k: nat, locals: Locals, work: Work, answer: Answer)
    requires SizesOk(cfg) && Proven(cfg, trees, s) && OnlyBusy(s, id) && k in s.epochs && |s.epochs[k].pending| > 0
    requires WorkProven(cfg, trees(locals.globalIndex), s.epochs[k].trees, locals, work)
    requires work.Proving? && answer.ProofIs? ==> answer.proof.targetHash == RangeNode(cfg, trees(locals.globalIndex), work.kind)
    requires work.Reading? && answer.HashesAre? ==> FromMemory(cfg, trees(locals.globalIndex), work.kind, answer.bytes, answer.proofs)
    requires !answer.Failed? && !work.Snapshotting? && !work.Preparing? && work != Hashing && work != Rehashing
    ensures Proven(cfg, trees, BusyResumes(cfg, s, id, k, locals, work, answer))
  {
    hide Proven, OnlyBusy, FromMemory, WorkProven, RangeNode, RunAnswered, RangeProved, RangeRead, RolledBack;
    match (work, answer)
    case (Running(limit, max), Ran(late, read)) => RunProven(cfg, trees, s, id, k, locals, limit, max, late, read);
    case (Proving(kind), ProofIs(proof)) => RangeProvedProven(cfg, trees, s, id, k, locals, kind, proof);
    case (Reading(kind), HashesAre(bytes, proofs)) => RangeReadProven(cfg, trees, s, id, k, locals, kind, bytes, proofs);
    case (RollingBack, Done) =>
      if s.saved.Some? { RolledBackProven(cfg, trees, s, s.(machine := s.saved.value, saved := None), id, k, locals); }
    case _ =>
  }

  // ----- everyone else -----

  lemma LoopTopQuiet(cfg: Config, s: World, u: World, id: Id, k: nat)
    requires u == s.(lock := u.lock, processingLock := u.processingLock, ready := u.ready, machine := u.machine)
    ensures Quiet(s, LoopTop(cfg, u, id, k))
  {
    hide NewLocals, LoopTop;
    if k in u.epochs {
      LoopTopRecords(cfg, u, id, k);
    } else {
      LoopTopDangles(cfg, u, id, k);
    }
  }

  lemma TaintQuiet(cfg: Config, s: World, u: World, id: Id)
    requires u == s.(lock := u.lock, processingLock := u.processingLock, ready := u.ready, machine := u.machine)
    ensures Quiet(s, TaintAdvance(cfg, u, id))
  {
    hide TaintAdvance;
    TaintAdvanceFacts(cfg, u, id);
    TaintKeepsResponses(cfg, u, id);
  }

  lemma PostedQuiet(cfg: Config, s: World, id: Id, k: nat)
    ensures Quiet(s, AdvanceResumes(cfg, s, id, k))
  {
    hide TaintAdvance, LoopTop, Quiet;
    var unlocked := Release(cfg, s, id);
    TaintQuiet(cfg, s, s, id);
    TaintQuiet(cfg, s, unlocked, id);
    LoopTopQuiet(cfg, s, unlocked.(processingLock := true), id, k);
    PlainQuiet(s, Leave(cfg, unlocked, id), id);
    PlainQuiet(s, Break(s), id);
  }

  /** A handler that is not inside an input moves on, or leaves; queries may come and go. */
  lemma PlainQuiet(s: World, t: World, id: Id)
    requires t.responses == s.responses && t.epochs.Keys <= s.epochs.Keys && SameHashes(s, t)
    requires forall k :: k in t.epochs ==> t.epochs[k].processed == s.epochs[k].processed && t.epochs[k].trees == s.epochs[k].trees
    requires forall a :: a in t.handlers && a != id ==> a in s.handlers && t.handlers[a] == s.handlers[a]
    requires id in t.handlers && t.handlers[id].Busy? ==> id in s.handlers && t.handlers[id] == s.handlers[id]
    ensures Quiet(s, t)
  {
  }

  lemma StartQueryQuiet(cfg: Config, s: World, u: World, id: Id, k: nat, resume: Option<Id>, payload: seq<Byte>)
    requires u.handlers == s.handlers && u.epochs.Keys == s.epochs.Keys && u.responses == s.responses && k in s.epochs && SameHashes(s, u)
    requires forall j :: j in s.epochs ==> u.epochs[j] == s.epochs[j].(query := u.epochs[j].query)
    ensures Quiet(s, StartQuery(cfg, u, id, k, resume, payload))
  {
    hide PayloadFits, Quiet;
    if PayloadFits(cfg, payload) {
      PlainQuiet(s, u.(handlers := u.handlers[id := Querying(k, resume, QSnapshotting)]), id);
    } else {
      PlainQuiet(s, AnswerQuery(u, id, k, resume, REFUSED), id);
    }
  }

  lemma InspectResumesQuiet(cfg: Config, s: World, id: Id, k: nat)
    ensures Quiet(s, InspectResumes(cfg, s.(ready := s.ready - {id}), id, k))
  {
    hide Quiet, StartQuery, Leave;
    var t := s.(ready := s.ready - {id});
    PlainQuiet(s, Break(t), id);
    if k in s.epochs && s.epochs[k].query.Some? {
      var q := s.epochs[k].query.value;
      LeaveQuiet(cfg, s, Wake(t, q.coroutine), id);
      StartQueryQuiet(cfg, s, Counted(t, k, q), id, k, q.coroutine, q.payload);
    }
  }

  lemma LeaveQuiet(cfg: Config, s: World, u: World, id: Id)
    requires u == s.(lock := u.lock, processingLock := u.processingLock, ready := u.ready, machine := u.machine, broken := u.broken)
    ensures Quiet(s, Leave(cfg, u, id)) && Quiet(s, Leave(cfg, u, id).(tainted := true))
  {
  }

  lemma QueryQuiet(cfg: Config, s: World, id: Id, k: nat, resume: Option<Id>, work: QueryWork, answer: Answer)
    ensures Quiet(s, QueryResumes(cfg, s, id, k, resume, work, answer))
  {
    hide Quiet, Leave, QueryRunAnswered, PrepareQuery, AtQuery, AnswerQuery;
    StillQuiet(s);
    LeaveQuiet(cfg, s, Wake(s, resume), id);
    if k in s.epochs && s.epochs[k].query.Some? && !answer.Failed? {
      match (work, answer)
      case (QSnapshotting, Done) => AtQueryQuiet(s, s.machine, Some(s.machine), id, k, resume, QPreparing(0));
      case (QPreparing(step), Done) =>
        var m := PrepareQuery(cfg, s.machine, s.epochs[k].query.value.payload, step);
        var max := Add64(s.mcycle, cfg.maxInspectState);
        AtQueryQuiet(s, m, s.saved, id, k, resume, QPreparing(step + 1));
        AtQueryQuiet(s, m, s.saved, id, k, resume, QRunning(NextLimit(s.mcycle, cfg.inspectStateIncrement, max), Progress(s.mcycle, [], 0), max));
      case (QRunning(limit, progress, max), Ran(late, read)) => QueryRunQuiet(cfg, s, id, k, resume, limit, progress, max, late, read);
      case (QRollingBack(outcome), Done) => if s.saved.Some? { AnswerQuiet(s, s.saved.value, id, k, resume, outcome); }
      case _ =>
    }
  }

  lemma StillQuiet(s: World)
    ensures Quiet(s, s) && Quiet(s, Break(s))
  {
  }

  lemma QueryRunQuiet(cfg: Config, s: World, id: Id, k: nat, resume: Option<Id>, limit: nat, progress: Progress, max: nat,
                      late: bool, read: Option<seq<Byte>>)
    ensures Quiet(s, QueryRunAnswered(cfg, s, id, k, resume, limit, progress, max, late, read))
  {
    hide Quiet, Leave, QueryRunVerdict, AtQuery;
    var m := cfg.run(s.machine, limit);
    LeaveQuiet(cfg, s, Wake(s.(machine := m), resume), id);
    match QueryRunVerdict(cfg, m, limit, progress, max, late, read)
    case QOver(outcome) => AtQueryQuiet(s, m, s.saved, id, k, resume, QRollingBack(outcome));
    case QMore(limit', progress') => AtQueryQuiet(s, m, s.saved, id, k, resume, QRunning(limit', progress', max));
    case _ =>
  }

  lemma AtQueryQuiet(s: World, m: Machine, saved: Option<Machine>, id: Id, k: nat, resume: Option<Id>, work: QueryWork)
    ensures Quiet(s, AtQuery(s.(machine := m, saved := saved), id, k, resume, work))
  {
  }

  lemma AnswerQuiet(s: World, m: Machine, id: Id, k: nat, resume: Option<Id>, outcome: QueryOutcome)
    requires k in s.epochs
    ensures Quiet(s, AnswerQuery(s.(machine := m, saved := None), id, k, resume, outcome))
  {
  }

  lemma ArrivalQuiet(cfg: Config, s: World, request: Request)
    requires cfg.log2EpochRoot >= 5 && s.nextId !in s.handlers && !s.broken && (request.FinishEpoch? ==> request.store)
    ensures Quiet(s, Next(cfg, s, Arrive(request)))
  {
    hide Quiet, InspectArrives, Close;
    match request
    case AdvanceState(epochIndex, inputIndex, input) => PlainQuiet(s, AdvanceArrives(s, epochIndex, inputIndex, input), s.nextId);
    case InspectState(payload) => InspectArrivalQuiet(cfg, s, payload);
    case FinishEpoch(k, count, store) => PlainQuiet(s, FinishArrives(cfg, s, k, count, store), s.nextId);
    case DeleteEpoch(k) => PlainQuiet(s, DeleteArrives(s, k), s.nextId);
    case ReadStatus => PlainQuiet(s, StatusArrives(s), s.nextId);
  }

  lemma InspectArrivalQuiet(cfg: Config, s: World, payload: seq<Byte>)
    requires s.nextId !in s.handlers
    ensures Quiet(s, InspectArrives(cfg, s, payload))
  {
    hide Quiet, StartQuery;
    if !InspectAllowed(s) || |s.epochs[s.activeEpoch].pending| > 0 {
      PlainQuiet(s, InspectArrives(cfg, s, payload), s.nextId);
    } else {
      var e := s.epochs[s.activeEpoch];
      StartQueryQuiet(cfg, s, s.(lock := Some(s.nextId), nextId := s.nextId + 1,
                                 epochs := s.epochs[s.activeEpoch := e.(query := Some(Query(payload, None, s.processedCount)))]),
                      s.nextId, s.activeEpoch, None, payload);
    }
  }

  // ----- closing an epoch -----

  lemma CloseProven(cfg: Config, trees: Trees, s: World, id: Id, k: nat, first: nat)
    requires SizesOk(cfg) && Inv(s, first) && Proven(cfg, trees, s) && !IsProcessor(s, id)
    ensures Proven(cfg, trees, Close(cfg, s, id, k))
  {
    if k in s.epochs && s.activeEpoch + 1 < UINT64_LIMIT {
      KeysFacts(s, first);
      RecordsFacts(s, k, first);
      EpochAnswered(cfg, trees, s.epochs[k]);
      ClosingProven(cfg, trees, s, Close(cfg, s, id, k), id, k, first);
    } else {
      hide Proven, Inv;
      QuietProven(cfg, trees, s, Break(s));
    }
  }

  lemma RecordsFacts(s: World, k: nat, first: nat)
    requires Inv(s, first) && k in s.epochs
    ensures RecordsOk(s.epochs[k].processed)
    ensures forall a :: IsBusy(s, a) ==> s.handlers[a].epoch <= s.activeEpoch
  {
  }

  lemma ClosingProven(cfg: Config, trees: Trees, s: World, t: World, id: Id, k: nat, first: nat)
    requires SizesOk(cfg) && Proven(cfg, trees, s) && k in s.epochs && !IsProcessor(s, id)
    requires forall a :: IsBusy(s, a) ==> s.handlers[a].epoch <= s.activeEpoch
    requires s.activeEpoch + 1 < UINT64_LIMIT && t == Close(cfg, s, id, k) && (forall j :: j in s.epochs ==> j <= s.activeEpoch)
    requires var f := FinishedEpoch(cfg, s.epochs[k]); ResponseProven(cfg, f, EpochResponse(cfg, f)) && RecordsProven(cfg, trees, f.trees, f.processed)
    ensures Proven(cfg, trees, t)
  {
    hide RecordsProven, WorkProven, ResponseProven, FinishedEpoch, EpochResponse, Close;
    var f := FinishedEpoch(cfg, s.epochs[k]);
    NewEpochProven(cfg, trees, s.activeEpoch + 1, f.machineHash);
    ClosingShape(cfg, s, t, id, k);
    assert AnswersProven(cfg, trees, t);
    forall a | IsBusy(t, a) && t.handlers[a].epoch in t.epochs
      ensures WorkProven(cfg, trees(t.handlers[a].locals.globalIndex), t.epochs[t.handlers[a].epoch].trees,
                         t.handlers[a].locals, t.handlers[a].work)
    {
      assert IsBusy(s, a) && s.handlers[a].epoch in s.epochs;
    }
  }

  lemma ClosingShape(cfg: Config, s: World, t: World, id: Id, k: nat)
    requires cfg.log2EpochRoot >= 5 && k in s.epochs && !IsProcessor(s, id)
    requires s.activeEpoch + 1 < UINT64_LIMIT && t == Close(cfg, s, id, k)
    ensures var f := FinishedEpoch(cfg, s.epochs[k]);
            && f.trees == s.epochs[k].trees
            && t.epochs == s.epochs[k := f][s.activeEpoch + 1 := NewEpoch(s.activeEpoch + 1, f.machineHash)]
            && t.responses == s.responses + [(f, EpochResponse(cfg, f))]
    ensures forall a :: IsBusy(t, a) ==> IsBusy(s, a) && t.handlers[a] == s.handlers[a]
  {
    hide EpochResponse, ReprovedAll;
  }

  lemma NewEpochProven(cfg: Config, trees: Trees, index: nat, machineHash: Hash)
    requires SizesOk(cfg)
    ensures var e := NewEpoch(index, machineHash); RecordsProven(cfg, trees, e.trees, e.processed)
  {
  }

  // ----- every step, every run -----

  lemma ResumeProven(cfg: Config, trees: Trees, s: World, id: Id, answer: Answer, first: nat)
    requires SizesOk(cfg) && Inv(s, first) && Proven(cfg, trees, s) && !s.broken && id in s.handlers
    requires Honest(cfg, trees, s, Resume(id, answer))
    ensures Proven(cfg, trees, ResumeHandler(cfg, s, id, s.handlers[id], answer))
  {
    hide Inv, Proven, Honest, Quiet, AdvanceResumes, BusyResumes, LoopTop, InspectResumes, QueryResumes, Leave, Close;
    var t := ResumeHandler(cfg, s, id, s.handlers[id], answer);
    if s.handlers[id].Busy? {
      BusyResumesProven(cfg, trees, s, id, s.handlers[id].epoch, s.handlers[id].locals, s.handlers[id].work, answer, first);
    } else if s.handlers[id].Storing? && !answer.Failed? {
      CloseProven(cfg, trees, s, id, s.handlers[id].epoch, first);
    } else {
      ResumeQuiet(cfg, s, id, answer);
      QuietProven(cfg, trees, s, t);
    }
  }

  lemma ResumeQuiet(cfg: Config, s: World, id: Id, answer: Answer)
    requires cfg.log2EpochRoot >= 5 && id in s.handlers && !s.handlers[id].Busy? && (s.handlers[id].Storing? ==> answer.Failed?)
    ensures Quiet(s, ResumeHandler(cfg, s, id, s.handlers[id], answer))
  {
    hide Quiet, AdvanceResumes, LoopTop, InspectResumes, QueryResumes, Leave, Close;
    PlainQuiet(s, s, id);
    match s.handlers[id]
    case AdvancePosted(k) => PostedQuiet(cfg, s, id, k);
    case HandedOff(k) => LoopTopQuiet(cfg, s, s.(ready := s.ready - {id}), id, k);
    case InspectWaiting(k) => InspectResumesQuiet(cfg, s, id, k);
    case Querying(k, resume, work) => QueryQuiet(cfg, s, id, k, resume, work, answer);
    case InspectReplied(resume) => LeaveQuiet(cfg, s, Wake(s, resume), id);
    case Unwound => PlainQuiet(s, s.(ready := s.ready - {id}, handlers := s.handlers - {id}), id);
    case Storing(k, _) => LeaveQuiet(cfg, s, s, id);
    case Replied => LeaveQuiet(cfg, s, s, id);
  }

  lemma BusyResumesProven(cfg: Config, trees: Trees, s: World, id: Id, k: nat, locals: Locals, work: Work, answer: Answer, first: nat)
    requires SizesOk(cfg) && Inv(s, first) && Proven(cfg, trees, s) && Honest(cfg, trees, s, Resume(id, answer))
    requires id in s.handlers && s.handlers[id] == Busy(k, locals, work)
    ensures Proven(cfg, trees, BusyResumes(cfg, s, id, k, locals, work, answer))
  {
    if k in s.epochs && |s.epochs[k].pending| > 0 {
      hide *;
      BusyStepProven(cfg, trees, s, id, k, locals, work, answer, first);
    } else {
      hide Inv, Proven, Honest;
      PlainQuiet(s, Break(s), id);
      QuietProven(cfg, trees, s, Break(s));
    }
  }

  lemma NextProven(cfg: Config, trees: Trees, s: World, ev: Event, first: nat)
    requires SizesOk(cfg) && Inv(s, first) && Proven(cfg, trees, s) && Honest(cfg, trees, s, ev)
    ensures Proven(cfg, trees, Next(cfg, s, ev))
  {
    hide Inv, Proven, Honest, Quiet, ResumeHandler, Close;
    if !s.broken {
      NobodyYet(s, first);
      match ev
      case Resume(id, answer) => if id in s.handlers { ResumeProven(cfg, trees, s, id, answer, first); }
      case Arrive(request) =>
        if request.FinishEpoch? && !request.store {
          FinishAtOnceProven(cfg, trees, s, request.finishedEpoch, request.processedInputCount, first);
        } else {
          ArrivalQuiet(cfg, s, request);
          QuietProven(cfg, trees, s, Next(cfg, s, ev));
        }
    }
  }

  lemma FinishAtOnceProven(cfg: Config, trees: Trees, s: World, k: nat, count: nat, first: nat)
    requires SizesOk(cfg) && Inv(s, first) && Proven(cfg, trees, s) && s.nextId !in s.handlers
    ensures Proven(cfg, trees, FinishArrives(cfg, s, k, count, false))
  {
    hide Inv, Proven, Close, Quiet;
    var locked := s.(lock := Some(s.nextId), nextId := s.nextId + 1);
    PlainQuiet(s, locked, s.nextId);
    QuietProven(cfg, trees, s, locked);
    OtherHandlerKeeps(s, locked, s.nextId, first);
    CloseProven(cfg, trees, locked, s.nextId, k, first);
  }

  /** Every FinishEpoch response of every run, with any interleaving and either lock discipline,
      is successful and holds one proof for each accepted output, in order; each verifies from
      the output's hash to the output-hashes root and from there to the epoch root. */
  lemma {:induction false} EveryResponseVerifies(cfg: Config, trees: Trees, m: Machine, epoch: nat, first: nat, machineHash: Hash,
                                                 events: seq<Event>)
    requires SizesOk(cfg) && HonestRun(cfg, trees, Initial(m, epoch, first, machineHash), events)
    ensures var s := RunOf(cfg, Initial(m, epoch, first, machineHash), events);
            && Proven(cfg, trees, s)
            && forall n: nat :: n < |s.responses| ==>
                 && ResponseProven(cfg, s.responses[n].0, s.responses[n].1)
                 && RecordsProven(cfg, trees, s.responses[n].0.trees, s.responses[n].0.processed)
    decreases |events|
  {
    var start := Initial(m, epoch, first, machineHash);
    if events != [] {
      var before, ev := events[..|events| - 1], events[|events| - 1];
      assert forall n: nat :: n < |before| ==> before[..n] == events[..n] && before[n] == events[n];
      EveryResponseVerifies(cfg, trees, m, epoch, first, machineHash, before);
      RunKeeps(cfg, m, epoch, first, machineHash, before);
      assert Honest(cfg, trees, RunOf(cfg, start, events[..|before|]), events[|before|]);
      NextProven(cfg, trees, RunOf(cfg, start, before), ev, first);
    }
  }
}
